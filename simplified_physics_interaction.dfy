/**
 * The collision cooldown table of the networked physics interaction.
 *
 * On the peer with input authority, a collision with another networked object
 * is accepted only when that object is not in its per-object cooldown and the
 * impulse is strong enough; an accepted collision is recorded in the table,
 * pushes this body back, and is broadcast to every peer, at most once per
 * global RPC cooldown. Every 120 ticks the table is cleaned of stale entries
 * once it holds more than ten. Receiving peers play an effect whose scale and
 * sound are clamped from the intensity.
 *
 * Engine inputs (the simulation time, the impulse magnitude, the other
 * object's network id when it has one) are parameters; the force and the RPC
 * are events appended to `events`.
 */
module PhysicsInteraction {
  import opened Wrappers

  /** A networked object's identity. */
  type NetworkId = nat

  /** Seconds between two collision broadcasts from one object. */
  const GlobalRpcCooldown: real := 0.01
  /** The table is cleaned only when it holds more entries than this. */
  const CleanupThreshold: nat := 10
  /** Entries older than this many seconds are stale. */
  const StaleAfter: real := 3.0
  /** The cleanup runs on ticks that are multiples of this. */
  const CleanupEveryTicks: nat := 120

  /** Why HandlePhysicsCollision ignored a collision, or that it accepted it. */
  datatype Verdict =
    | NoNetworkObject
    | CoolingDown
    | TooWeak
    | Accepted(broadcast: bool)

  /** Whether `id` collided with this object less than `cooldown` seconds before `now`. */
  predicate InCooldown(table: map<NetworkId, real>, id: NetworkId, now: real, cooldown: real)
  {
    id in table && now - table[id] < cooldown
  }

  /** The gating of HandlePhysicsCollision, in the order the source tests it. */
  function Judge(table: map<NetworkId, real>, lastGlobalRpcTime: real, other: Option<NetworkId>,
                 now: real, impulse: real, cooldown: real, minForce: real): (v: Verdict)
    ensures v == NoNetworkObject <==> other.None?
    ensures v == CoolingDown <==> other.Some? && InCooldown(table, other.value, now, cooldown)
    ensures v == TooWeak <==> other.Some? && !InCooldown(table, other.value, now, cooldown) && impulse < minForce
    ensures v.Accepted? <==> other.Some? && !InCooldown(table, other.value, now, cooldown) && impulse >= minForce
    ensures v.Accepted? ==> (v.broadcast <==> now - lastGlobalRpcTime >= GlobalRpcCooldown)
  {
    if other.None? then NoNetworkObject
    else if InCooldown(table, other.value, now, cooldown) then CoolingDown
    else if impulse < minForce then TooWeak
    else Accepted(now - lastGlobalRpcTime >= GlobalRpcCooldown)
  }

  /** Right after an accepted collision, the same object is in cooldown (for any positive cooldown). */
  lemma AcceptedStartsCooldown(table: map<NetworkId, real>, lastRpc: real, id: NetworkId,
                               now: real, impulse: real, cooldown: real, minForce: real, later: real)
    requires Judge(table, lastRpc, Some(id), now, impulse, cooldown, minForce).Accepted?
    requires now <= later < now + cooldown
    ensures Judge(table[id := now], lastRpc, Some(id), later, impulse, cooldown, minForce) == CoolingDown
  {
  }

  /** The table with the entries older than StaleAfter removed. */
  function RecentOnly(table: map<NetworkId, real>, now: real): (t: map<NetworkId, real>)
    ensures t.Keys <= table.Keys
    ensures forall id :: id in t ==> t[id] == table[id] && now - t[id] <= StaleAfter
    ensures forall id :: id in table && now - table[id] <= StaleAfter ==> id in t
  {
    map id | id in table && now - table[id] <= StaleAfter :: table[id]
  }

  /** What CleanupCollisions leaves: the table unchanged up to ten entries, else only its recent entries. */
  function Cleaned(table: map<NetworkId, real>, now: real): (t: map<NetworkId, real>)
    ensures |table| <= CleanupThreshold ==> t == table
    ensures |table| > CleanupThreshold ==>
              forall id :: id in table ==> (id in t <==> now - table[id] <= StaleAfter)
    ensures forall id :: id in t ==> id in table && t[id] == table[id]
  {
    if |table| > CleanupThreshold then RecentOnly(table, now) else table
  }

  /**
   * Cleaning never lets a collision through that would otherwise be in
   * cooldown: with a cooldown of at most StaleAfter, every entry that still
   * blocks a collision at time `now` survives a cleanup run at an earlier time.
   */
  lemma CleanupKeepsCooldowns(table: map<NetworkId, real>, cleanupTime: real, lastRpc: real, other: Option<NetworkId>,
                              now: real, impulse: real, cooldown: real, minForce: real)
    requires cooldown <= StaleAfter
    requires cleanupTime <= now
    ensures Judge(Cleaned(table, cleanupTime), lastRpc, other, now, impulse, cooldown, minForce)
            == Judge(table, lastRpc, other, now, impulse, cooldown, minForce)
  {
    if other.Some? && InCooldown(table, other.value, now, cooldown) {
      assert other.value in Cleaned(table, cleanupTime);
    }
  }

  /**
   * The first pass of CleanupCollisions: collects the ids whose last collision
   * is more than StaleAfter seconds before `now`.
   */
  method StaleKeys(table: map<NetworkId, real>, now: real) returns (keys: set<NetworkId>)
    ensures keys <= table.Keys
    ensures forall id :: id in table ==> (id in keys <==> now - table[id] > StaleAfter)
  {
    keys := {};
    var remaining := table.Keys;
    while remaining != {}
      invariant remaining <= table.Keys
      invariant keys <= table.Keys - remaining
      invariant forall id :: id in table && id !in remaining ==> (id in keys <==> now - table[id] > StaleAfter)
      decreases remaining
    {
      var id :| id in remaining;
      if now - table[id] > StaleAfter {
        keys := keys + {id};
      }
      remaining := remaining - {id};
    }
  }

  /** What a collision does to the outside world. */
  datatype CollisionEvent =
    | Pushback(other: NetworkId, impulse: real)        // impulse force on this body, against the contact normal
    | Broadcast(other: NetworkId, intensity: real)     // SimpleCollisionRpc to every peer

  /** The fields a collision updates: the per-object table, the networked last collision time, the last RPC time and the events. */
  datatype CollisionState = CollisionState(lastCollisionTimes: map<NetworkId, real>, lastCollisionTime: real,
                                           lastGlobalRpcTime: real, events: seq<CollisionEvent>)

  /**
   * The fields after a collision with verdict `v` (as given by Judge): an
   * ignored collision changes nothing; an accepted one records `now` for the
   * other id and as the last collision time, pushes back when there is a
   * Rigidbody, and broadcasts (setting the last RPC time) when `v` says so.
   */
  function AfterCollision(s: CollisionState, v: Verdict, other: Option<NetworkId>, now: real, impulse: real,
                          hasRigidbody: bool): (r: CollisionState)
    ensures !v.Accepted? || other.None? ==> r == s
    ensures v.Accepted? && other.Some? ==>
              r.lastCollisionTimes.Keys == s.lastCollisionTimes.Keys + {other.value} &&
              r.lastCollisionTimes[other.value] == now && r.lastCollisionTime == now
    ensures forall id :: id in s.lastCollisionTimes && (other.None? || id != other.value) ==>
              id in r.lastCollisionTimes && r.lastCollisionTimes[id] == s.lastCollisionTimes[id]
    ensures v.Accepted? && other.Some? ==>
              (v.broadcast ==> r.lastGlobalRpcTime == now) &&
              (!v.broadcast ==> r.lastGlobalRpcTime == s.lastGlobalRpcTime) &&
              |r.events| == |s.events| + (if hasRigidbody then 1 else 0) + (if v.broadcast then 1 else 0) &&
              r.events[..|s.events|] == s.events
    ensures v.Accepted? && other.Some? ==>
              (Pushback(other.value, impulse) in r.events[|s.events|..] <==> hasRigidbody) &&
              (Broadcast(other.value, impulse) in r.events[|s.events|..] <==> v.broadcast) &&
              (hasRigidbody ==> r.events[|s.events|] == Pushback(other.value, impulse)) &&
              (v.broadcast ==> r.events[|r.events| - 1] == Broadcast(other.value, impulse))
  {
    if v.Accepted? && other.Some? then
      var added := (if hasRigidbody then [Pushback(other.value, impulse)] else [])
                   + (if v.broadcast then [Broadcast(other.value, impulse)] else []);
      assert (s.events + added)[|s.events|..] == added;
      CollisionState(s.lastCollisionTimes[other.value := now], now,
                     if v.broadcast then now else s.lastGlobalRpcTime,
                     s.events + added)
    else s
  }

  /** What a receiving peer plays for a broadcast collision. */
  datatype Effect =
    | SpawnEffect(scale: real)     // the effect prefab, scaled, destroyed after two seconds
    | PlaySound(index: int)        // one of the collision sounds

  /** `Mathf.Clamp` on reals. */
  function ClampReal(v: real, lo: real, hi: real): (r: real)
    requires lo <= hi
    ensures lo <= r <= hi
    ensures lo <= v <= hi ==> r == v
  {
    if v < lo then lo else if v > hi then hi else v
  }

  /** The effect scale: a tenth of the intensity, kept within [0.5, 2]. */
  function EffectScale(intensity: real): (s: real)
    ensures 0.5 <= s <= 2.0
    ensures 5.0 <= intensity <= 20.0 ==> s == intensity / 10.0
    ensures intensity < 5.0 ==> s == 0.5
    ensures intensity > 20.0 ==> s == 2.0
  {
    ClampReal(intensity / 10.0, 0.5, 2.0)
  }

  /** The sound index: one sound per five units of intensity, kept within the array. */
  function SoundIndex(intensity: real, soundCount: nat): (i: int)
    requires soundCount > 0
    ensures 0 <= i < soundCount
    ensures 0 <= (intensity / 5.0).Floor < soundCount ==> i == (intensity / 5.0).Floor
    ensures (intensity / 5.0).Floor < 0 ==> i == 0
    ensures (intensity / 5.0).Floor >= soundCount ==> i == soundCount - 1
  {
    var soundIndex := (intensity / 5.0).Floor;
    if soundIndex < 0 then 0 else if soundIndex > soundCount - 1 then soundCount - 1 else soundIndex
  }

  /** Louder collisions never pick an earlier sound. */
  lemma SoundIndexMonotone(a: real, b: real, soundCount: nat)
    requires soundCount > 0
    requires a <= b
    ensures SoundIndex(a, soundCount) <= SoundIndex(b, soundCount)
  {
    assert (a / 5.0) <= (b / 5.0);
  }

  class SimplifiedPhysicsInteraction {
    const minCollisionForce: real
    const collisionCooldown: real
    const effectThreshold: real
    /** Whether an effect prefab, an audio source, and how many sounds were assigned. */
    const hasEffectPrefab: bool
    const hasAudioSource: bool
    const soundCount: nat
    /** Whether this object has a Rigidbody to push back. */
    const hasRigidbody: bool

    /** The networked time of the last accepted collision. */
    var lastCollisionTime: real
    var lastCollisionTimes: map<NetworkId, real>
    var lastGlobalRpcTime: real
    var events: seq<CollisionEvent>

    constructor (minForce: real, cooldown: real, threshold: real, effectPrefab: bool, audio: bool, sounds: nat, rigidbody: bool)
      ensures minCollisionForce == minForce && collisionCooldown == cooldown && effectThreshold == threshold
      ensures hasEffectPrefab == effectPrefab && hasAudioSource == audio && soundCount == sounds
      ensures hasRigidbody == rigidbody
      ensures lastCollisionTime == 0.0 && lastCollisionTimes == map[] && lastGlobalRpcTime == 0.0 && events == []
    {
      minCollisionForce := minForce;
      collisionCooldown := cooldown;
      effectThreshold := threshold;
      hasEffectPrefab := effectPrefab;
      hasAudioSource := audio;
      soundCount := sounds;
      hasRigidbody := rigidbody;
      lastCollisionTime := 0.0;
      lastCollisionTimes := map[];
      lastGlobalRpcTime := 0.0;
      events := [];
    }

    /** The collision-handling fields as a value. */
    function State(): (c: CollisionState)
      reads this
      ensures c.lastCollisionTimes == lastCollisionTimes && c.lastCollisionTime == lastCollisionTime
      ensures c.lastGlobalRpcTime == lastGlobalRpcTime && c.events == events
    {
      CollisionState(lastCollisionTimes, lastCollisionTime, lastGlobalRpcTime, events)
    }

    /** The gating of a collision against this object's current state. */
    function CurrentVerdict(other: Option<NetworkId>, now: real, impulse: real): Verdict
      reads this
    {
      Judge(lastCollisionTimes, lastGlobalRpcTime, other, now, impulse, collisionCooldown, minCollisionForce)
    }

    /**
     * A collision with `other` (None when the other body has no network
     * identity) at simulation time `now` with impulse magnitude `impulse`.
     */
    method HandlePhysicsCollision(other: Option<NetworkId>, now: real, impulse: real)
      modifies this`lastCollisionTimes, this`lastCollisionTime, this`lastGlobalRpcTime, this`events
      ensures State() == AfterCollision(old(State()), old(CurrentVerdict(other, now, impulse)), other, now, impulse, hasRigidbody)
    {
      if other.None? {
        return;
      }
      var otherId := other.value;
      var currentTime := now;
      if otherId in lastCollisionTimes && currentTime - lastCollisionTimes[otherId] < collisionCooldown {
        return;
      }
      if impulse < minCollisionForce {
        return;
      }
      lastCollisionTimes := lastCollisionTimes[otherId := currentTime];
      lastCollisionTime := currentTime;
      if hasRigidbody {
        events := events + [Pushback(otherId, impulse)];
      }
      if currentTime - lastGlobalRpcTime >= GlobalRpcCooldown {
        lastGlobalRpcTime := currentTime;
        events := events + [Broadcast(otherId, impulse)];
      }
    }

    /** Collisions are handled only on the peer with input authority. */
    method OnCollisionEnter(hasInputAuthority: bool, other: Option<NetworkId>, now: real, impulse: real)
      modifies this`lastCollisionTimes, this`lastCollisionTime, this`lastGlobalRpcTime, this`events
      ensures !hasInputAuthority ==> State() == old(State())
      ensures hasInputAuthority ==>
                State() == AfterCollision(old(State()), old(CurrentVerdict(other, now, impulse)), other, now, impulse, hasRigidbody)
    {
      if !hasInputAuthority {
        return;
      }
      HandlePhysicsCollision(other, now, impulse);
    }

    /** Two passes: collect the stale ids, then remove them, once the table holds more than ten entries. */
    method CleanupCollisions(now: real)
      modifies this`lastCollisionTimes
      ensures lastCollisionTimes == Cleaned(old(lastCollisionTimes), now)
    {
      if |lastCollisionTimes| > CleanupThreshold {
        var keysToRemove := StaleKeys(lastCollisionTimes, now);
        var pending := keysToRemove;
        while pending != {}
          invariant pending <= keysToRemove
          invariant lastCollisionTimes == old(lastCollisionTimes) - (keysToRemove - pending)
          decreases pending
        {
          var id :| id in pending;
          lastCollisionTimes := lastCollisionTimes - {id};
          pending := pending - {id};
        }
        assert lastCollisionTimes == RecentOnly(old(lastCollisionTimes), now);
      }
    }

    /** One network tick: the cleanup runs every 120 ticks, on the input-authority peer only. */
    method FixedUpdateNetwork(hasInputAuthority: bool, tick: nat, now: real)
      modifies this`lastCollisionTimes
      ensures hasInputAuthority && tick % CleanupEveryTicks == 0 ==>
                lastCollisionTimes == Cleaned(old(lastCollisionTimes), now)
      ensures !(hasInputAuthority && tick % CleanupEveryTicks == 0) ==>
                lastCollisionTimes == old(lastCollisionTimes)
    {
      if !hasInputAuthority {
        return;
      }
      if tick % CleanupEveryTicks == 0 {
        CleanupCollisions(now);
      }
    }

    /** PlayCollisionEffect: the scaled effect when a prefab is set, a clamped sound when there are sounds. */
    function CollisionEffects(intensity: real): (fx: seq<Effect>)
      ensures forall i :: 0 <= i < |fx| && fx[i].SpawnEffect? ==> 0.5 <= fx[i].scale <= 2.0
      ensures forall i :: 0 <= i < |fx| && fx[i].PlaySound? ==> 0 <= fx[i].index < soundCount
      ensures |fx| == (if hasEffectPrefab then 1 else 0) + (if hasAudioSource && soundCount > 0 then 1 else 0)
      ensures hasEffectPrefab ==> fx[0] == SpawnEffect(EffectScale(intensity))
      ensures hasAudioSource && soundCount > 0 ==> fx[|fx| - 1] == PlaySound(SoundIndex(intensity, soundCount))
    {
      var effect := if hasEffectPrefab then [SpawnEffect(EffectScale(intensity))] else [];
      var sound := if hasAudioSource && soundCount > 0 then [PlaySound(SoundIndex(intensity, soundCount))] else [];
      effect + sound
    }

    /**
     * SimpleCollisionRpc on a receiving peer: nothing when the other object
     * cannot be found there; effects only above the effect threshold.
     */
    function ReceiveCollision(otherFound: bool, intensity: real): (fx: seq<Effect>)
      ensures !otherFound || intensity <= effectThreshold ==> fx == []
      ensures otherFound && intensity > effectThreshold ==> fx == CollisionEffects(intensity)
    {
      if !otherFound then []
      else if intensity > effectThreshold then CollisionEffects(intensity)
      else []
    }
  }
}

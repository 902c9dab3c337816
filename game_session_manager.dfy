/**
 * The duck-spawn session logic.
 *
 * On the peer with state authority, while the game is active, every network
 * tick counts the server timer down by the tick delta and refreshes the
 * player count. When the timer runs out it is reset to the spawn cycle and
 * the spawn flag is raised. Every peer watches the flag and spawns a wave of
 * ducks on its rising edge; the wave size grows with the player count and is
 * clamped to 1..8, and a lifetime duck count is capped at `maxDucksAtOnce`.
 *
 * Engine inputs (the tick delta, the active player count, state authority)
 * are parameters; the spawn call and the coroutine that lowers the flag
 * three seconds later are events appended to `events`.
 */
module GameSession {

  /** Bounds of the number of ducks requested per wave. */
  const MinDucksPerWave: int := 1
  const MaxDucksPerWave: int := 8

  /** Integer division truncating toward zero, as C# `/` on `int`. */
  function TruncDiv(a: int, b: int): (q: int)
    requires b > 0
    ensures a >= 0 ==> 0 <= a - q * b < b
    ensures a < 0 ==> -b < a - q * b <= 0
  {
    if a >= 0 then a / b else -((-a) / b)
  }

  /** `Mathf.Clamp` on integers. */
  function ClampInt(v: int, lo: int, hi: int): (r: int)
    requires lo <= hi
    ensures lo <= r <= hi
    ensures lo <= v <= hi ==> r == v
    ensures v < lo ==> r == lo
    ensures v > hi ==> r == hi
  {
    if v < lo then lo else if v > hi then hi else v
  }

  /** Ducks requested in one wave: half the players plus one, clamped to 1..8. */
  function DucksPerWave(connectedPlayers: int): (n: int)
    ensures MinDucksPerWave <= n <= MaxDucksPerWave
  {
    ClampInt(TruncDiv(connectedPlayers, 2) + 1, MinDucksPerWave, MaxDucksPerWave)
  }

  /** For a real player count the wave is one duck per two players plus one, up to eight from 14 players on. */
  lemma DucksPerWaveForPlayers(players: nat)
    ensures DucksPerWave(players) == if players >= 14 then 8 else players / 2 + 1
    ensures DucksPerWave(players) <= DucksPerWave(players + 1)
  {
  }

  /** The count after one SpawnSingleDuck: one more, unless there is no prefab or the cap is reached. */
  function AfterSingleSpawn(count: int, maxDucks: int, hasPrefab: bool): (c: int)
    ensures c == count || c == count + 1
    ensures c == count + 1 <==> hasPrefab && count < maxDucks
  {
    if !hasPrefab || count >= maxDucks then count else count + 1
  }

  /** The count after `k` calls of SpawnSingleDuck in a row. */
  function AfterSpawns(count: int, k: nat, maxDucks: int, hasPrefab: bool): int
  {
    if k == 0 then count else AfterSingleSpawn(AfterSpawns(count, k - 1, maxDucks, hasPrefab), maxDucks, hasPrefab)
  }

  /**
   * `k` single spawns in a row add `k` ducks, but stop at the cap; nothing
   * happens without a prefab or once the cap has been reached.
   */
  lemma {:induction false} AfterSpawnsClosedForm(count: int, k: nat, maxDucks: int, hasPrefab: bool)
    ensures AfterSpawns(count, k, maxDucks, hasPrefab) ==
            if !hasPrefab || count >= maxDucks then count
            else if count + k <= maxDucks then count + k
            else maxDucks
  {
    if k > 0 {
      AfterSpawnsClosedForm(count, k - 1, maxDucks, hasPrefab);
    }
  }

  /** The duck count never decreases, rises by at most `k`, and never passes the cap it started under. */
  lemma AfterSpawnsBounds(count: int, k: nat, maxDucks: int, hasPrefab: bool)
    ensures count <= AfterSpawns(count, k, maxDucks, hasPrefab) <= count + k
    ensures count <= maxDucks ==> AfterSpawns(count, k, maxDucks, hasPrefab) <= maxDucks
  {
    AfterSpawnsClosedForm(count, k, maxDucks, hasPrefab);
  }

  /** The result of one timer step: the new timer value, and whether it expired. */
  datatype TimerTick = TimerTick(timer: real, expired: bool)

  /** UpdateTimer: count down by `delta`; at or below zero, restart at `cycle` and signal expiry. */
  function TimerStep(timer: real, delta: real, cycle: real): (t: TimerTick)
    ensures t.expired <==> timer - delta <= 0.0
    ensures t.expired ==> t.timer == cycle
    ensures !t.expired ==> t.timer == timer - delta && t.timer > 0.0
    ensures cycle > 0.0 ==> t.timer > 0.0
  {
    var next := timer - delta;
    if next <= 0.0 then TimerTick(cycle, true) else TimerTick(next, false)
  }

  /** The timer after a run of tick deltas. */
  function TimerAfter(timer: real, deltas: seq<real>, cycle: real): real
    decreases |deltas|
  {
    if deltas == [] then timer else TimerAfter(TimerStep(timer, deltas[0], cycle).timer, deltas[1..], cycle)
  }

  /** How many times the timer expires over a run of tick deltas. */
  function ExpiryCount(timer: real, deltas: seq<real>, cycle: real): nat
    decreases |deltas|
  {
    if deltas == [] then 0
    else
      var t := TimerStep(timer, deltas[0], cycle);
      (if t.expired then 1 else 0) + ExpiryCount(t.timer, deltas[1..], cycle)
  }

  /**
   * With a positive cycle and non-negative deltas, a timer that starts in
   * (0, cycle] stays in (0, cycle] however many ticks pass.
   */
  lemma {:induction false} TimerStaysInCycle(timer: real, deltas: seq<real>, cycle: real)
    requires 0.0 < timer <= cycle
    requires forall i :: 0 <= i < |deltas| ==> deltas[i] >= 0.0
    ensures 0.0 < TimerAfter(timer, deltas, cycle) <= cycle
    decreases |deltas|
  {
    if deltas != [] {
      TimerStaysInCycle(TimerStep(timer, deltas[0], cycle).timer, deltas[1..], cycle);
    }
  }

  /**
   * The timer never runs ahead of elapsed time: after a run of ticks it is at
   * least its start minus the elapsed time plus one cycle per expiry, because
   * each expiry restarts at exactly one cycle and drops the overshoot below zero.
   */
  lemma {:induction false} TimerAccounting(timer: real, deltas: seq<real>, cycle: real)
    ensures TimerAfter(timer, deltas, cycle) >= timer - Sum(deltas) + (ExpiryCount(timer, deltas, cycle) as real) * cycle
    decreases |deltas|
  {
    if deltas != [] {
      var t := TimerStep(timer, deltas[0], cycle);
      TimerAccounting(t.timer, deltas[1..], cycle);
      assert deltas == [deltas[0]] + deltas[1..];
    }
  }

  function Sum(s: seq<real>): real
    decreases |s|
  {
    if s == [] then 0.0 else s[0] + Sum(s[1..])
  }

  /** Whether CheckDuckSpawnState spawns a wave: only when the flag rises. */
  function SpawnsWave(lastSpawnState: bool, shouldSpawnDucks: bool): (b: bool)
    ensures b ==> shouldSpawnDucks && !lastSpawnState
    ensures !lastSpawnState && shouldSpawnDucks ==> b
  {
    shouldSpawnDucks != lastSpawnState && shouldSpawnDucks
  }

  /** How many waves a run of flag values spawns, starting from `last`. */
  function WaveCount(last: bool, flags: seq<bool>): nat
    decreases |flags|
  {
    if flags == [] then 0
    else (if SpawnsWave(last, flags[0]) then 1 else 0) + WaveCount(flags[0], flags[1..])
  }

  /** How many times the flag is raised in a run, counted on the flag alone. */
  function RisingEdges(flags: seq<bool>): nat
    decreases |flags|
  {
    if |flags| < 2 then 0
    else (if !flags[0] && flags[1] then 1 else 0) + RisingEdges(flags[1..])
  }

  /** Spawning is edge-triggered: the waves are exactly the rising edges of the flag. */
  lemma {:induction false} WavesAreRisingEdges(last: bool, flags: seq<bool>)
    ensures WaveCount(last, flags) == RisingEdges([last] + flags)
    decreases |flags|
  {
    if flags != [] {
      WavesAreRisingEdges(flags[0], flags[1..]);
      assert ([last] + flags)[1..] == [flags[0]] + flags[1..];
    }
  }

  /** What the session manager does to the outside world. */
  datatype SessionEvent =
    | DuckSpawned      // Runner.Spawn of one duck at a random position and rotation
    | StopScheduled    // the coroutine that lowers the spawn flag after three seconds

  function DuckEvents(n: nat): (e: seq<SessionEvent>)
    ensures |e| == n && forall i :: 0 <= i < n ==> e[i] == DuckSpawned
  {
    if n == 0 then [] else DuckEvents(n - 1) + [DuckSpawned]
  }

  class GameSessionManager {
    const duckSpawnCycle: real
    const maxDucksAtOnce: int
    /** Whether a duck prefab was assigned in the inspector. */
    const hasDuckPrefab: bool

    // Networked properties.
    var serverTimer: real
    var connectedPlayers: int
    var shouldSpawnDucks: bool
    var isGameActive: bool

    // Local state.
    var lastSpawnState: bool
    var currentDuckCount: int
    var events: seq<SessionEvent>

    /** The component before Spawned: fields at their initial values. */
    constructor (cycle: real, maxDucks: int, hasPrefab: bool)
      ensures duckSpawnCycle == cycle && maxDucksAtOnce == maxDucks && hasDuckPrefab == hasPrefab
      ensures serverTimer == 0.0 && connectedPlayers == 0 && !shouldSpawnDucks && !isGameActive
      ensures !lastSpawnState && currentDuckCount == 0 && events == []
    {
      duckSpawnCycle := cycle;
      maxDucksAtOnce := maxDucks;
      hasDuckPrefab := hasPrefab;
      serverTimer := 0.0;
      connectedPlayers := 0;
      shouldSpawnDucks := false;
      isGameActive := false;
      lastSpawnState := false;
      currentDuckCount := 0;
      events := [];
    }

    /** The state authority starts the timer and the game and takes the player count. */
    method Spawned(hasStateAuthority: bool, activePlayers: nat)
      modifies this`serverTimer, this`isGameActive, this`connectedPlayers
      ensures hasStateAuthority ==> serverTimer == duckSpawnCycle && isGameActive && connectedPlayers == activePlayers
      ensures !hasStateAuthority ==> serverTimer == old(serverTimer) && isGameActive == old(isGameActive) &&
                                     connectedPlayers == old(connectedPlayers)
    {
      if hasStateAuthority {
        serverTimer := duckSpawnCycle;
        isGameActive := true;
        connectedPlayers := activePlayers;
      }
    }

    method UpdateTimer(delta: real)
      modifies this`serverTimer, this`shouldSpawnDucks, this`events
      ensures var t := TimerStep(old(serverTimer), delta, duckSpawnCycle);
              serverTimer == t.timer &&
              shouldSpawnDucks == (old(shouldSpawnDucks) || t.expired) &&
              events == old(events) + (if t.expired then [StopScheduled] else [])
    {
      serverTimer := serverTimer - delta;
      if serverTimer <= 0.0 {
        shouldSpawnDucks := true;
        serverTimer := duckSpawnCycle;
        events := events + [StopScheduled];
      }
    }

    /** The coroutine's effect, three seconds after an expiry. */
    method StopSpawning()
      modifies this`shouldSpawnDucks
      ensures !shouldSpawnDucks
    {
      shouldSpawnDucks := false;
    }

    method UpdatePlayerCount(activePlayers: nat)
      modifies this`connectedPlayers
      ensures connectedPlayers == activePlayers
    {
      if connectedPlayers != activePlayers {
        connectedPlayers := activePlayers;
      }
    }

    method SpawnSingleDuck()
      modifies this`currentDuckCount, this`events
      ensures currentDuckCount == AfterSingleSpawn(old(currentDuckCount), maxDucksAtOnce, hasDuckPrefab)
      ensures events == old(events) + DuckEvents(currentDuckCount - old(currentDuckCount))
    {
      if !hasDuckPrefab {
        return;
      }
      if currentDuckCount >= maxDucksAtOnce {
        return;
      }
      events := events + [DuckSpawned];
      currentDuckCount := currentDuckCount + 1;
    }

    /** One wave: DucksPerWave single spawns, each subject to the cap; nothing without a prefab. */
    method SpawnDucks()
      modifies this`currentDuckCount, this`events
      ensures var n := DucksPerWave(connectedPlayers);
              currentDuckCount == AfterSpawns(old(currentDuckCount), if hasDuckPrefab then n else 0, maxDucksAtOnce, hasDuckPrefab)
      ensures old(currentDuckCount) <= currentDuckCount <= old(currentDuckCount) + MaxDucksPerWave
      ensures old(currentDuckCount) <= maxDucksAtOnce ==> currentDuckCount <= maxDucksAtOnce
      ensures !hasDuckPrefab ==> currentDuckCount == old(currentDuckCount)
      ensures events == old(events) + DuckEvents(currentDuckCount - old(currentDuckCount))
    {
      if !hasDuckPrefab {
        return;
      }
      var duckCount := DucksPerWave(connectedPlayers);
      var i := 0;
      while i < duckCount
        invariant 0 <= i <= duckCount
        invariant old(currentDuckCount) <= currentDuckCount
        invariant currentDuckCount == AfterSpawns(old(currentDuckCount), i, maxDucksAtOnce, hasDuckPrefab)
        invariant events == old(events) + DuckEvents(currentDuckCount - old(currentDuckCount))
      {
        SpawnSingleDuck();
        i := i + 1;
      }
      AfterSpawnsBounds(old(currentDuckCount), duckCount, maxDucksAtOnce, hasDuckPrefab);
    }

    /** Spawns a wave on the rising edge of the flag and remembers the flag. */
    method CheckDuckSpawnState()
      modifies this`lastSpawnState, this`currentDuckCount, this`events
      ensures lastSpawnState == shouldSpawnDucks
      ensures old(currentDuckCount) <= currentDuckCount
      ensures var wave := SpawnsWave(old(lastSpawnState), shouldSpawnDucks);
              var n := if wave && hasDuckPrefab then DucksPerWave(connectedPlayers) else 0;
              currentDuckCount == AfterSpawns(old(currentDuckCount), n, maxDucksAtOnce, hasDuckPrefab) &&
              events == old(events) + DuckEvents(currentDuckCount - old(currentDuckCount))
    {
      if shouldSpawnDucks != lastSpawnState {
        lastSpawnState := shouldSpawnDucks;
        if shouldSpawnDucks {
          SpawnDucks();
        }
      }
    }

    /** One network tick: timer and player count only under state authority while active, then the spawn check. */
    method FixedUpdateNetwork(hasStateAuthority: bool, delta: real, activePlayers: nat)
      modifies this`serverTimer, this`shouldSpawnDucks, this`connectedPlayers,
               this`lastSpawnState, this`currentDuckCount, this`events
      ensures var gate := hasStateAuthority && isGameActive;
              var t := TimerStep(old(serverTimer), delta, duckSpawnCycle);
              (gate ==> serverTimer == t.timer &&
                        shouldSpawnDucks == (old(shouldSpawnDucks) || t.expired) &&
                        connectedPlayers == activePlayers) &&
              (!gate ==> serverTimer == old(serverTimer) && connectedPlayers == old(connectedPlayers) &&
                         shouldSpawnDucks == old(shouldSpawnDucks))
      ensures lastSpawnState == shouldSpawnDucks
      ensures old(currentDuckCount) <= currentDuckCount
      ensures var wave := SpawnsWave(old(lastSpawnState), shouldSpawnDucks);
              var n := if wave && hasDuckPrefab then DucksPerWave(connectedPlayers) else 0;
              var expired := hasStateAuthority && isGameActive && TimerStep(old(serverTimer), delta, duckSpawnCycle).expired;
              currentDuckCount == AfterSpawns(old(currentDuckCount), n, maxDucksAtOnce, hasDuckPrefab) &&
              events == old(events) + (if expired then [StopScheduled] else [])
                        + DuckEvents(currentDuckCount - old(currentDuckCount))
      ensures old(currentDuckCount) <= maxDucksAtOnce ==> currentDuckCount <= maxDucksAtOnce
      ensures duckSpawnCycle > 0.0 && hasStateAuthority && isGameActive ==> serverTimer > 0.0
    {
      if hasStateAuthority && isGameActive {
        UpdateTimer(delta);
        UpdatePlayerCount(activePlayers);
      }
      ghost var before := currentDuckCount;
      CheckDuckSpawnState();
      AfterSpawnsBounds(before, if SpawnsWave(old(lastSpawnState), shouldSpawnDucks) && hasDuckPrefab then DucksPerWave(connectedPlayers) else 0,
                        maxDucksAtOnce, hasDuckPrefab);
    }
  }
}

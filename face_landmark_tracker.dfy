/**
 * The cheek-puff gesture detector of the AR face tracker.
 *
 * Every frame the tracker reads the CheekPuff blendshape coefficient, decides
 * whether the cheeks are puffed, and runs a two-state edge detector: a rising
 * edge records the start time, a falling edge asks the local player to jump
 * when the puff was held long enough. It also searches for the local player
 * again, at most once per second, while it has none.
 *
 * Engine inputs (the current time, the coefficient, whether a player or the
 * face subsystem can be found) are parameters; engine effects (the jump
 * request and the instruction text) are events appended to `events`.
 */
module FaceTracking {
  import opened Wrappers

  /** Seconds between two searches for the locally controlled player. */
  const PlayerSearchInterval: real := 1.0

  /** The result of reading the face: the puff value of each cheek and whether it counts as puffed. */
  datatype PuffReading = PuffReading(leftPuff: real, rightPuff: real, isPuffed: bool)

  /**
   * Thresholds one sample. `coefficient` is the CheekPuff coefficient when the
   * face is tracked and the coefficient was found, and None otherwise (no
   * subsystem, not tracking, no CheekPuff entry, or the query failed); the
   * value is then 0.
   */
  function CheekPuffValues(coefficient: Option<real>, threshold: real): (r: PuffReading)
    ensures r.leftPuff == r.rightPuff
    ensures coefficient.None? ==> r.leftPuff == 0.0
    ensures coefficient.Some? ==> r.leftPuff == coefficient.value
    ensures r.isPuffed <==> r.leftPuff > threshold
  {
    var puffValue := if coefficient.Some? then coefficient.value else 0.0;
    PuffReading(puffValue, puffValue, puffValue > threshold)
  }

  /** A larger coefficient is puffed whenever a smaller one is. */
  lemma PuffedIsUpwardClosed(a: real, b: real, threshold: real)
    requires a <= b
    ensures CheekPuffValues(Some(a), threshold).isPuffed ==> CheekPuffValues(Some(b), threshold).isPuffed
  {
  }

  /** The two fields of the edge detector. */
  datatype Gesture = Gesture(cheekPuffed: bool, puffStartTime: real)

  /** What one step of the edge detector did. */
  datatype PuffOutcome =
    | Unchanged                   // the input agrees with the current state
    | Started                     // rising edge
    | HeldLongEnough              // falling edge after a long enough puff: jump
    | TooShort(duration: real)    // falling edge after a short puff

  datatype PuffStep = PuffStep(next: Gesture, outcome: PuffOutcome)

  /** One call of the edge detector with input `isPuffed` at time `now`. */
  function PuffTransition(g: Gesture, isPuffed: bool, now: real, required: real): (r: PuffStep)
    ensures r.next.cheekPuffed == isPuffed
    ensures isPuffed == g.cheekPuffed ==> r.next == g && r.outcome == Unchanged
    ensures isPuffed && !g.cheekPuffed ==> r.next.puffStartTime == now && r.outcome == Started
    ensures !isPuffed && g.cheekPuffed ==>
              r.next.puffStartTime == g.puffStartTime &&
              (r.outcome == HeldLongEnough <==> now - g.puffStartTime >= required) &&
              (r.outcome.TooShort? <==> now - g.puffStartTime < required)
    ensures r.outcome.TooShort? ==> r.outcome.duration == now - g.puffStartTime
  {
    if isPuffed && !g.cheekPuffed then
      PuffStep(Gesture(true, now), Started)
    else if !isPuffed && g.cheekPuffed then
      var puffDuration := now - g.puffStartTime;
      PuffStep(Gesture(false, g.puffStartTime),
               if puffDuration >= required then HeldLongEnough else TooShort(puffDuration))
    else
      PuffStep(g, Unchanged)
  }

  /** One frame's input to the edge detector: whether it was puffed, and when. */
  datatype Sample = Sample(isPuffed: bool, time: real)

  /** The detector's state after a run of samples. */
  function FinalGesture(g: Gesture, samples: seq<Sample>, required: real): Gesture
    decreases |samples|
  {
    if samples == [] then g
    else FinalGesture(PuffTransition(g, samples[0].isPuffed, samples[0].time, required).next,
                      samples[1..], required)
  }

  /** How many jumps a run of samples triggers. */
  function JumpCount(g: Gesture, samples: seq<Sample>, required: real): nat
    decreases |samples|
  {
    if samples == [] then 0
    else
      var step := PuffTransition(g, samples[0].isPuffed, samples[0].time, required);
      (if step.outcome == HeldLongEnough then 1 else 0) + JumpCount(step.next, samples[1..], required)
  }

  /** How many puffs start (rising edges) in a run of samples. */
  function StartCount(g: Gesture, samples: seq<Sample>, required: real): nat
    decreases |samples|
  {
    if samples == [] then 0
    else
      var step := PuffTransition(g, samples[0].isPuffed, samples[0].time, required);
      (if step.outcome == Started then 1 else 0) + StartCount(step.next, samples[1..], required)
  }

  /**
   * Every jump ends a distinct puff: over any run, the jumps are at most the
   * puffs started during the run, plus one for a puff already in progress.
   */
  lemma {:induction false} JumpsAtMostPuffs(g: Gesture, samples: seq<Sample>, required: real)
    ensures JumpCount(g, samples, required) + (if FinalGesture(g, samples, required).cheekPuffed then 1 else 0)
            <= StartCount(g, samples, required) + (if g.cheekPuffed then 1 else 0)
    decreases |samples|
  {
    if samples != [] {
      var step := PuffTransition(g, samples[0].isPuffed, samples[0].time, required);
      JumpsAtMostPuffs(step.next, samples[1..], required);
    }
  }

  /** A puff that is never released never triggers a jump, and its start time stays put. */
  lemma {:induction false} HeldPuffNeverJumps(g: Gesture, samples: seq<Sample>, required: real)
    requires g.cheekPuffed
    requires forall i :: 0 <= i < |samples| ==> samples[i].isPuffed
    ensures JumpCount(g, samples, required) == 0
    ensures FinalGesture(g, samples, required) == g
    decreases |samples|
  {
    if samples != [] {
      HeldPuffNeverJumps(g, samples[1..], required);
    }
  }

  /** The instruction texts the tracker shows. */
  datatype Instruction =
    | TrackingReady                                // face tracking ready, puff to move
    | PuffDetected                                 // puff detected, keep holding
    | InputDetected                                // fallback input (key or touch) detected, keep holding
    | HoldLonger(duration: real, required: real)   // puff released too early
    | JumpSucceeded                                // the player was asked to jump
    | PlayerMissing                                // no player to ask

  /** What the tracker does to the outside world. */
  datatype TrackerEvent = ShowInstruction(text: Instruction) | JumpRequested

  /** The events of TriggerJumpAction, given whether the local player has been found. */
  function JumpEvents(playerFound: bool): (e: seq<TrackerEvent>)
    ensures JumpRequested in e <==> playerFound
    ensures |e| >= 1 && e[|e| - 1].ShowInstruction?
  {
    if playerFound then [JumpRequested, ShowInstruction(JumpSucceeded)]
    else [ShowInstruction(PlayerMissing)]
  }

  /** The events of one step of ProcessPuffGesture. */
  function GestureEvents(outcome: PuffOutcome, hasFaceSubsystem: bool, required: real, playerFound: bool): (e: seq<TrackerEvent>)
    ensures JumpRequested in e <==> outcome == HeldLongEnough && playerFound
    ensures outcome == Unchanged <==> e == []
  {
    match outcome
    case Unchanged => []
    case Started => [ShowInstruction(if hasFaceSubsystem then PuffDetected else InputDetected)]
    case HeldLongEnough => JumpEvents(playerFound)
    case TooShort(d) => [ShowInstruction(HoldLonger(d, required))]
  }

  class FaceLandmarkTracker {
    /** Coefficient above which the cheeks count as puffed. */
    const puffBlendThreshold: real
    /** Seconds a puff must be held to trigger a jump. */
    const requiredPuffDuration: real

    /** Whether the ARKit face subsystem has been obtained. */
    var hasFaceSubsystem: bool
    /** Whether the locally controlled player has been found. */
    var playerFound: bool
    var cheekPuffed: bool
    var baseSetAnnounced: bool
    var puffStartTime: real
    var lastPlayerMovementSearchTime: real
    var events: seq<TrackerEvent>

    /** The detector's state as a value. */
    function CurrentGesture(): (g: Gesture)
      reads this
      ensures g.cheekPuffed == cheekPuffed && g.puffStartTime == puffStartTime
    {
      Gesture(cheekPuffed, puffStartTime)
    }

    /**
     * Awake: the fields start at their initial values, the subsystem is
     * obtained when the platform offers it, and the player is searched once.
     */
    constructor (threshold: real, required: real, subsystemAvailable: bool, playerAvailable: bool)
      ensures puffBlendThreshold == threshold && requiredPuffDuration == required
      ensures hasFaceSubsystem == subsystemAvailable && playerFound == playerAvailable
      ensures !cheekPuffed && !baseSetAnnounced
      ensures puffStartTime == 0.0 && lastPlayerMovementSearchTime == 0.0
      ensures events == []
    {
      puffBlendThreshold := threshold;
      requiredPuffDuration := required;
      hasFaceSubsystem := subsystemAvailable;
      playerFound := playerAvailable;
      cheekPuffed := false;
      baseSetAnnounced := false;
      puffStartTime := 0.0;
      lastPlayerMovementSearchTime := 0.0;
      events := [];
    }

    /** Asks the player to jump when there is one; otherwise only the instruction changes. */
    method TriggerJumpAction()
      modifies this`events
      ensures events == old(events) + JumpEvents(playerFound)
    {
      if playerFound {
        events := events + [JumpRequested, ShowInstruction(JumpSucceeded)];
      } else {
        events := events + [ShowInstruction(PlayerMissing)];
      }
    }

    /** The edge detector: one call per frame with that frame's reading. */
    method ProcessPuffGesture(isPuffed: bool, now: real)
      modifies this`cheekPuffed, this`puffStartTime, this`events
      ensures CurrentGesture() == PuffTransition(old(CurrentGesture()), isPuffed, now, requiredPuffDuration).next
      ensures events == old(events) + GestureEvents(PuffTransition(old(CurrentGesture()), isPuffed, now, requiredPuffDuration).outcome,
                                                    hasFaceSubsystem, requiredPuffDuration, playerFound)
    {
      if isPuffed && !cheekPuffed {
        cheekPuffed := true;
        puffStartTime := now;
        if hasFaceSubsystem {
          events := events + [ShowInstruction(PuffDetected)];
        } else {
          events := events + [ShowInstruction(InputDetected)];
        }
      } else if !isPuffed && cheekPuffed {
        cheekPuffed := false;
        var puffDuration := now - puffStartTime;
        if puffDuration >= requiredPuffDuration {
          TriggerJumpAction();
        } else {
          events := events + [ShowInstruction(HoldLonger(puffDuration, requiredPuffDuration))];
        }
      }
    }

    /**
     * One frame. `coefficient` is what the face reports (used only once the
     * subsystem is held), `playerStillExists` whether the player held so far
     * has not been destroyed (a destroyed engine object compares equal to
     * null), `playerAvailable` whether a search would find the local player
     * now, `subsystemAvailable` whether the face manager offers the ARKit
     * subsystem now.
     */
    method Update(now: real, coefficient: Option<real>, playerStillExists: bool, playerAvailable: bool,
                  subsystemAvailable: bool)
      modifies this
      ensures var held := old(playerFound) && playerStillExists;
              var searched := !held && now - old(lastPlayerMovementSearchTime) > PlayerSearchInterval;
              (searched ==> playerFound == playerAvailable && lastPlayerMovementSearchTime == now) &&
              (!searched ==> playerFound == held &&
                             lastPlayerMovementSearchTime == old(lastPlayerMovementSearchTime))
      ensures hasFaceSubsystem == (old(hasFaceSubsystem) || subsystemAvailable)
      ensures baseSetAnnounced
      ensures var reading := CheekPuffValues(if hasFaceSubsystem then coefficient else None, puffBlendThreshold);
              var step := PuffTransition(old(CurrentGesture()), reading.isPuffed, now, requiredPuffDuration);
              CurrentGesture() == step.next &&
              events == old(events)
                        + (if !old(baseSetAnnounced) && hasFaceSubsystem then [ShowInstruction(TrackingReady)] else [])
                        + GestureEvents(step.outcome, hasFaceSubsystem, requiredPuffDuration, playerFound)
    {
      if !playerStillExists {
        playerFound := false;
      }
      if !playerFound && now - lastPlayerMovementSearchTime > PlayerSearchInterval {
        playerFound := playerAvailable;
        lastPlayerMovementSearchTime := now;
      }
      if !hasFaceSubsystem && subsystemAvailable {
        hasFaceSubsystem := true;
      }
      var reading := CheekPuffValues(if hasFaceSubsystem then coefficient else None, puffBlendThreshold);
      if !baseSetAnnounced {
        if hasFaceSubsystem {
          events := events + [ShowInstruction(TrackingReady)];
        }
        baseSetAnnounced := true;
      }
      ProcessPuffGesture(reading.isPuffed, now);
    }

    /** The puff duration shown in the debug overlay. */
    function DisplayedPuffDuration(now: real): (d: real)
      reads this
      ensures !cheekPuffed ==> d == 0.0
      ensures cheekPuffed ==> d == now - puffStartTime
    {
      if cheekPuffed then now - puffStartTime else 0.0
    }
  }

  /**
   * While a puff is held, the duration shown in the debug overlay reaches the
   * required duration exactly when releasing now would trigger a jump.
   */
  lemma DisplayedDurationDecidesJump(t: FaceLandmarkTracker, now: real)
    requires t.cheekPuffed
    ensures t.DisplayedPuffDuration(now) >= t.requiredPuffDuration <==>
            PuffTransition(t.CurrentGesture(), false, now, t.requiredPuffDuration).outcome == HeldLongEnough
  {
  }
}

/**
 * The physics update rate limiter and the distance-based culling rule.
 *
 * Each frame the optimizer, when enabled, counts at most one physics update,
 * provided at least one time step has passed since the last one and the
 * per-frame maximum has not been reached, and then resets the per-frame
 * counter. Culling keeps other peers' objects active and shows the local
 * peer's own objects only within a maximum distance of the camera.
 *
 * The frame time and the camera distance are parameters.
 */
module NetworkOptimization {

  /** The limiter's counter and timestamp. */
  datatype Limiter = Limiter(currentPhysicsUpdates: int, lastPhysicsUpdate: real)

  /** One OptimizePhysicsUpdates: count an update unless too soon or the frame's maximum is reached. */
  function LimiterStep(l: Limiter, now: real, timeStep: real, maxPerFrame: int): (r: Limiter)
    ensures now - l.lastPhysicsUpdate < timeStep || l.currentPhysicsUpdates >= maxPerFrame ==> r == l
    ensures !(now - l.lastPhysicsUpdate < timeStep || l.currentPhysicsUpdates >= maxPerFrame) ==>
              r.currentPhysicsUpdates == l.currentPhysicsUpdates + 1 && r.lastPhysicsUpdate == now
    ensures l.currentPhysicsUpdates <= maxPerFrame ==> r.currentPhysicsUpdates <= maxPerFrame
  {
    if now - l.lastPhysicsUpdate < timeStep then l
    else if l.currentPhysicsUpdates >= maxPerFrame then l
    else Limiter(l.currentPhysicsUpdates + 1, now)
  }

  /** The limiter after a run of calls at the given times, with no reset in between. */
  function LimiterAfter(l: Limiter, times: seq<real>, timeStep: real, maxPerFrame: int): Limiter
    decreases |times|
  {
    if times == [] then l else LimiterAfter(LimiterStep(l, times[0], timeStep, maxPerFrame), times[1..], timeStep, maxPerFrame)
  }

  /**
   * However many calls happen without a reset, the counter rises by at most
   * one per call and never passes a maximum it started under.
   */
  lemma {:induction false} LimiterBounded(l: Limiter, times: seq<real>, timeStep: real, maxPerFrame: int)
    requires l.currentPhysicsUpdates <= maxPerFrame
    ensures l.currentPhysicsUpdates <= LimiterAfter(l, times, timeStep, maxPerFrame).currentPhysicsUpdates <= maxPerFrame
    ensures LimiterAfter(l, times, timeStep, maxPerFrame).currentPhysicsUpdates <= l.currentPhysicsUpdates + |times|
    decreases |times|
  {
    if times != [] {
      LimiterBounded(LimiterStep(l, times[0], timeStep, maxPerFrame), times[1..], timeStep, maxPerFrame);
    }
  }

  /** Whether NetworkCulling wants the object active. */
  function ShouldBeActive(hasInputAuthority: bool, distance: real, maxDistance: real): (b: bool)
    ensures !hasInputAuthority ==> b
    ensures hasInputAuthority ==> (b <==> distance <= maxDistance)
  {
    !hasInputAuthority || distance <= maxDistance
  }

  class NetworkOptimizer {
    const maxPhysicsUpdatesPerFrame: int
    const physicsTimeStep: real
    var enablePhysicsOptimization: bool
    var currentPhysicsUpdates: int
    var lastPhysicsUpdate: real

    function State(): (l: Limiter)
      reads this
      ensures l.currentPhysicsUpdates == currentPhysicsUpdates && l.lastPhysicsUpdate == lastPhysicsUpdate
    {
      Limiter(currentPhysicsUpdates, lastPhysicsUpdate)
    }

    constructor (maxPerFrame: int, timeStep: real, enable: bool)
      ensures maxPhysicsUpdatesPerFrame == maxPerFrame && physicsTimeStep == timeStep
      ensures enablePhysicsOptimization == enable
      ensures currentPhysicsUpdates == 0 && lastPhysicsUpdate == 0.0
    {
      maxPhysicsUpdatesPerFrame := maxPerFrame;
      physicsTimeStep := timeStep;
      enablePhysicsOptimization := enable;
      currentPhysicsUpdates := 0;
      lastPhysicsUpdate := 0.0;
    }

    method OptimizePhysicsUpdates(now: real)
      modifies this`currentPhysicsUpdates, this`lastPhysicsUpdate
      ensures State() == LimiterStep(old(State()), now, physicsTimeStep, maxPhysicsUpdatesPerFrame)
      ensures old(currentPhysicsUpdates) <= maxPhysicsUpdatesPerFrame ==> currentPhysicsUpdates <= maxPhysicsUpdatesPerFrame
    {
      if now - lastPhysicsUpdate < physicsTimeStep {
        return;
      }
      if currentPhysicsUpdates >= maxPhysicsUpdatesPerFrame {
        return;
      }
      lastPhysicsUpdate := now;
      currentPhysicsUpdates := currentPhysicsUpdates + 1;
    }

    /** One frame: the limiter step when enabled, then the per-frame reset. */
    method Update(now: real)
      modifies this`currentPhysicsUpdates, this`lastPhysicsUpdate
      ensures currentPhysicsUpdates == 0
      ensures enablePhysicsOptimization ==>
                lastPhysicsUpdate == LimiterStep(old(State()), now, physicsTimeStep, maxPhysicsUpdatesPerFrame).lastPhysicsUpdate
      ensures !enablePhysicsOptimization ==> lastPhysicsUpdate == old(lastPhysicsUpdate)
      ensures ShouldProcessPhysics() <==> maxPhysicsUpdatesPerFrame > 0
    {
      if enablePhysicsOptimization {
        OptimizePhysicsUpdates(now);
      }
      currentPhysicsUpdates := 0;
    }

    /** Whether more physics may be processed this frame. */
    function ShouldProcessPhysics(): (b: bool)
      reads this
      ensures b <==> currentPhysicsUpdates < maxPhysicsUpdatesPerFrame
    {
      currentPhysicsUpdates < maxPhysicsUpdatesPerFrame
    }

    /** Sets the enable flag of the optimizer in the scene, when there is one. */
    static method TogglePhysicsOptimization(optimizer: NetworkOptimizer?, enable: bool)
      modifies optimizer
      ensures optimizer != null ==>
                optimizer.enablePhysicsOptimization == enable &&
                optimizer.currentPhysicsUpdates == old(optimizer.currentPhysicsUpdates) &&
                optimizer.lastPhysicsUpdate == old(optimizer.lastPhysicsUpdate)
    {
      if optimizer != null {
        optimizer.enablePhysicsOptimization := enable;
      }
    }
  }

  class NetworkCulling {
    var maxDistance: real
    /** Whether the game object is active. */
    var active: bool

    constructor (distance: real, isActive: bool)
      ensures maxDistance == distance && active == isActive
    {
      maxDistance := distance;
      active := isActive;
    }

    /**
     * One frame. Nothing happens before the network object and the camera are
     * known; otherwise the object is made active exactly when ShouldBeActive holds.
     */
    method Update(hasNetworkObject: bool, hasCamera: bool, hasInputAuthority: bool, distance: real)
      modifies this`active
      ensures !(hasNetworkObject && hasCamera) ==> active == old(active)
      ensures hasNetworkObject && hasCamera ==> active == ShouldBeActive(hasInputAuthority, distance, maxDistance)
    {
      if !hasNetworkObject || !hasCamera {
        return;
      }
      if !hasInputAuthority {
        if !active {
          active := true;
        }
        return;
      }
      var shouldBeActive := distance <= maxDistance;
      if active != shouldBeActive {
        active := shouldBeActive;
      }
    }
  }
}

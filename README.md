# Duck party game: verified model of its gameplay decision rules

This project models four components of a casual multiplayer duck game. Each
has a small decision rule that depends only on its own fields once engine
calls are abstracted:

- **Cheek-puff gesture detector** (`FaceTracking`, from `FaceLandmarkTracker`).
  - A blendshape coefficient above the threshold counts as a puff.
  - A two-state edge detector records the start time on the rising edge.
  - On the falling edge it asks the local player to jump, but only if the puff lasted long enough.
  - While no player is known, it searches again at most once a second.
- **Duck-spawn session logic** (`GameSession`, from `GameSessionManager`).
  - A server countdown restarts at the spawn cycle and raises a spawn flag.
  - Every peer spawns a wave on the flag's rising edge.
  - A wave is `clamp(players / 2 + 1, 1, 8)` ducks.
  - A lifetime duck count is capped at `maxDucksAtOnce`.
- **Collision cooldown table** (`PhysicsInteraction`, from `SimplifiedPhysicsInteraction`).
  - Each networked object has a cooldown, and weak impulses are ignored.
  - Accepted collisions are recorded in a table.
  - Broadcasts are rate-limited globally.
  - Stale entries are evicted once the table holds more than ten.
  - Receiving peers play an effect whose scale and sound index are clamped.
- **Physics update rate limiter and culling** (`NetworkOptimization`, from `NetworkOptimizer` and `NetworkCulling`).
  - A per-frame counter is gated by a time step and a maximum, and reset every frame.
  - Other peers' objects are always active; own objects are active only within a distance.

Each component is a class whose fields are the component's state. Engine inputs become method parameters:
- the current or simulation time and the tick delta;
- the blendshape coefficient, the collision impulse and the camera distance;
- the active player count;
- state or input authority;
- whether a lookup found its object.

Engine effects become events appended to an `events` field:
- the jump request and the instruction texts;
- the duck spawn and the scheduled stop of spawning;
- the push-back force and the collision broadcast.

Each state-changing method is specified by a pure step function (`PuffTransition`, `TimerStep`,
`AfterSingleSpawn`, `Judge`, `Cleaned`, `LimiterStep`). Lemmas over runs of steps state what the
components promise across many frames.

One consequence of the rate limiter's code is proved rather than assumed. `Update` calls the limiter
at most once and then always resets the counter. So after every frame `ShouldProcessPhysics()` is
true exactly when the per-frame maximum is positive: the limiter never limits between frames.
Similarly, each timer expiry restarts at exactly one cycle and drops the overshoot. So the timer
never runs ahead of elapsed time (`TimerAccounting`).

Times, coefficients, impulses and distances are `real`; the source's `float` rounding is not modelled.
Integer division follows C# (truncation toward zero; `TruncDiv` states it by its remainder).

## Model

| member | source | states |
|---|---|---|
| `FaceTracking.CheekPuffValues` | Assets/02_Scripts/AR/FaceLandmarkTracker.cs:133-166 | both cheeks report the same value; without valid data the value is 0; a sample is puffed iff its value is strictly above the threshold |
| `FaceTracking.PuffedIsUpwardClosed` | Assets/02_Scripts/AR/FaceLandmarkTracker.cs:164 | a larger coefficient is puffed whenever a smaller one is |
| `FaceTracking.PuffTransition` | Assets/02_Scripts/AR/FaceLandmarkTracker.cs:168-204 | the detector's flag always follows the input; an input equal to the flag changes nothing; a rising edge records `now`; a falling edge keeps the start time and jumps iff the puff lasted at least the required duration, otherwise reports the short duration |
| `FaceTracking.JumpsAtMostPuffs` | Assets/02_Scripts/AR/FaceLandmarkTracker.cs:170-198 | over any run of frames, jumps never outnumber the puffs started, counting one already in progress |
| `FaceTracking.HeldPuffNeverJumps` | Assets/02_Scripts/AR/FaceLandmarkTracker.cs:189-198 | a puff that is never released triggers no jump and keeps its start time |
| `FaceTracking.JumpEvents` | Assets/02_Scripts/AR/FaceLandmarkTracker.cs:206-219 | the player is asked to jump iff it has been found; either way the instruction text changes |
| `FaceTracking.GestureEvents` | Assets/02_Scripts/AR/FaceLandmarkTracker.cs:170-203 | a jump request is emitted iff the puff ended long enough and a player is known; a step that changes nothing emits nothing |
| `FaceTracking.FaceLandmarkTracker.constructor` | Assets/02_Scripts/AR/FaceLandmarkTracker.cs:43-55 | Awake: initial field values, the subsystem when offered, one player search |
| `FaceTracking.FaceLandmarkTracker.TriggerJumpAction` | Assets/02_Scripts/AR/FaceLandmarkTracker.cs:206-219 | appends exactly the jump events for the current player |
| `FaceTracking.FaceLandmarkTracker.ProcessPuffGesture` | Assets/02_Scripts/AR/FaceLandmarkTracker.cs:168-204 | the new flag and start time are the detector's transition; the events appended are that step's events |
| `FaceTracking.FaceLandmarkTracker.Update` | Assets/02_Scripts/AR/FaceLandmarkTracker.cs:97-123 | a held player that has been destroyed is dropped; the player is searched again only when none is held and more than 1 s has passed, and the search time is then set to now; the subsystem is reattached when offered; the initial instruction is shown once; the reading then drives the edge detector |
| `FaceTracking.FaceLandmarkTracker.DisplayedPuffDuration` | Assets/02_Scripts/AR/FaceLandmarkTracker.cs:226 | the displayed duration is 0 whenever not puffed, and the time since the puff started otherwise |
| `FaceTracking.DisplayedDurationDecidesJump` | Assets/02_Scripts/AR/FaceLandmarkTracker.cs:193-195 | while a puff is held, the displayed duration reaches the required duration exactly when releasing now would trigger a jump |
| `GameSession.DucksPerWave` | Assets/02_Scripts/Logic/GameSessionManager.cs:175 | a wave is always between 1 and 8 ducks |
| `GameSession.DucksPerWaveForPlayers` | Assets/02_Scripts/Logic/GameSessionManager.cs:175 | for a player count, the wave is `players / 2 + 1` below 14 players and 8 from 14 on, and never shrinks as players join |
| `GameSession.AfterSingleSpawn` | Assets/02_Scripts/Logic/GameSessionManager.cs:186-216 | one spawn raises the count by exactly one iff a prefab is set and the cap is not reached, and otherwise leaves it |
| `GameSession.AfterSpawnsClosedForm` | Assets/02_Scripts/Logic/GameSessionManager.cs:180-193 | `k` spawns in a row add `k` ducks up to the cap, and nothing without a prefab or at the cap |
| `GameSession.AfterSpawnsBounds` | Assets/02_Scripts/Logic/GameSessionManager.cs:190-215 | the duck count never decreases, rises by at most the number of spawns, and never exceeds a cap it started under |
| `GameSession.TimerStep` | Assets/02_Scripts/Logic/GameSessionManager.cs:118-131 | the timer expires iff the decremented value is at most 0; it then restarts at exactly the cycle; otherwise it is the decremented, positive value; with a positive cycle the timer is positive after every step |
| `GameSession.TimerStaysInCycle` | Assets/02_Scripts/Logic/GameSessionManager.cs:118-131 | with a positive cycle and non-negative deltas, the timer stays within (0, cycle] over any run of ticks |
| `GameSession.TimerAccounting` | Assets/02_Scripts/Logic/GameSessionManager.cs:120-126 | after any run of ticks the timer is at least its start minus the elapsed time plus one cycle per expiry |
| `GameSession.SpawnsWave` | Assets/02_Scripts/Logic/GameSessionManager.cs:153-164 | a wave is spawned exactly on a false-to-true change of the spawn flag |
| `GameSession.WavesAreRisingEdges` | Assets/02_Scripts/Logic/GameSessionManager.cs:153-164 | over any run of ticks, the waves spawned equal the rising edges of the flag |
| `GameSession.GameSessionManager.constructor` | Assets/02_Scripts/Logic/GameSessionManager.cs:17-40 | the inspector settings and the initial field values |
| `GameSession.GameSessionManager.Spawned` | Assets/02_Scripts/Logic/GameSessionManager.cs:46-55 | the state authority starts the timer at the cycle, activates the game and takes the player count; other peers change nothing |
| `GameSession.GameSessionManager.UpdateTimer` | Assets/02_Scripts/Logic/GameSessionManager.cs:118-131 | the new timer is the timer step's; the flag is raised and a stop is scheduled exactly on expiry |
| `GameSession.GameSessionManager.StopSpawning` | Assets/02_Scripts/Logic/GameSessionManager.cs:133-137 | the delayed stop lowers the spawn flag |
| `GameSession.GameSessionManager.UpdatePlayerCount` | Assets/02_Scripts/Logic/GameSessionManager.cs:139-147 | afterwards the player count equals the active player count |
| `GameSession.GameSessionManager.SpawnSingleDuck` | Assets/02_Scripts/Logic/GameSessionManager.cs:186-216 | the count follows one capped spawn, and a spawn event is appended exactly when it rose |
| `GameSession.GameSessionManager.SpawnDucks` | Assets/02_Scripts/Logic/GameSessionManager.cs:166-184 | a wave runs the wave size of capped spawns; with no prefab nothing changes; the count never exceeds a cap it started under; one spawn event per duck added |
| `GameSession.GameSessionManager.CheckDuckSpawnState` | Assets/02_Scripts/Logic/GameSessionManager.cs:153-164 | afterwards the remembered state equals the flag; ducks are spawned only on its rising edge |
| `GameSession.GameSessionManager.FixedUpdateNetwork` | Assets/02_Scripts/Logic/GameSessionManager.cs:95-110 | timer, spawn flag and player count change only with state authority while active, and then follow the timer step (the flag is raised on expiry); the spawn check always runs, so the count and events follow a wave exactly on the flag's rising edge, after the scheduled stop of an expiry; the count stays under its cap; with a positive cycle an updated timer is positive |
| `PhysicsInteraction.Judge` | Assets/02_Scripts/Logic/SimplifiedPhysicsInteraction.cs:79-108 | a collision is ignored without a network identity, or while the other object is in cooldown, or below the minimum impulse; it is accepted iff none of these holds; an accepted collision is broadcast iff the global RPC cooldown has passed |
| `PhysicsInteraction.AfterCollision` | Assets/02_Scripts/Logic/SimplifiedPhysicsInteraction.cs:96-108 | an ignored collision leaves every field as it was; an accepted one adds or overwrites only the other id's entry with `now`, sets the last collision time to `now`, sets the last RPC time to `now` exactly when broadcasting, and only appends events: a push-back first iff there is a Rigidbody, a broadcast last iff the global RPC cooldown has passed, and nothing else |
| `PhysicsInteraction.AcceptedStartsCooldown` | Assets/02_Scripts/Logic/SimplifiedPhysicsInteraction.cs:89-97 | after an accepted collision, the same object is in cooldown for the next `collisionCooldown` seconds |
| `PhysicsInteraction.RecentOnly` | Assets/02_Scripts/Logic/SimplifiedPhysicsInteraction.cs:135-146 | keeps exactly the entries at most 3 s old, with their values |
| `PhysicsInteraction.Cleaned` | Assets/02_Scripts/Logic/SimplifiedPhysicsInteraction.cs:129-148 | with at most 10 entries nothing changes; otherwise exactly the entries older than 3 s are removed; surviving entries keep their values |
| `PhysicsInteraction.CleanupKeepsCooldowns` | Assets/02_Scripts/Logic/SimplifiedPhysicsInteraction.cs:129-148 | with a cooldown of at most 3 s, an earlier cleanup never changes the verdict on a later collision |
| `PhysicsInteraction.StaleKeys` | Assets/02_Scripts/Logic/SimplifiedPhysicsInteraction.cs:134-141 | the first pass collects exactly the ids whose last collision is more than 3 s old |
| `PhysicsInteraction.EffectScale` | Assets/02_Scripts/Logic/SimplifiedPhysicsInteraction.cs:216 | the effect scale lies in [0.5, 2]; it is a tenth of the intensity within that range, and 0.5 or 2 outside it |
| `PhysicsInteraction.SoundIndex` | Assets/02_Scripts/Logic/SimplifiedPhysicsInteraction.cs:223-224 | the sound index is a valid index into a non-empty array: `floor(intensity / 5)` when that is in range, 0 below it and the last index above it |
| `PhysicsInteraction.SoundIndexMonotone` | Assets/02_Scripts/Logic/SimplifiedPhysicsInteraction.cs:223-224 | a stronger collision never selects an earlier sound |
| `PhysicsInteraction.SimplifiedPhysicsInteraction.constructor` | Assets/02_Scripts/Logic/SimplifiedPhysicsInteraction.cs:9-38 | the inspector settings and the initial field values |
| `PhysicsInteraction.SimplifiedPhysicsInteraction.HandlePhysicsCollision` | Assets/02_Scripts/Logic/SimplifiedPhysicsInteraction.cs:79-109 | an ignored collision changes nothing; an accepted one records `now` for the other id and as the last collision time, pushes back when there is a Rigidbody, and broadcasts when the global cooldown allows, then sets the last RPC time; no other table key changes |
| `PhysicsInteraction.SimplifiedPhysicsInteraction.OnCollisionEnter` | Assets/02_Scripts/Logic/SimplifiedPhysicsInteraction.cs:72-77 | without input authority a collision changes nothing; with it, every field and event follows the collision verdict exactly as in HandlePhysicsCollision |
| `PhysicsInteraction.SimplifiedPhysicsInteraction.CleanupCollisions` | Assets/02_Scripts/Logic/SimplifiedPhysicsInteraction.cs:129-148 | the table afterwards is the cleaned table |
| `PhysicsInteraction.SimplifiedPhysicsInteraction.FixedUpdateNetwork` | Assets/02_Scripts/Logic/SimplifiedPhysicsInteraction.cs:61-67 | the table is cleaned only on every 120th tick and only with input authority; otherwise it is unchanged |
| `PhysicsInteraction.SimplifiedPhysicsInteraction.CollisionEffects` | Assets/02_Scripts/Logic/SimplifiedPhysicsInteraction.cs:210-227 | an effect exactly when a prefab is set, scaled by `EffectScale(intensity)` (in [0.5, 2]); a sound exactly when there is an audio source and at least one sound, chosen by `SoundIndex(intensity, n)` (a valid index) |
| `PhysicsInteraction.SimplifiedPhysicsInteraction.ReceiveCollision` | Assets/02_Scripts/Logic/SimplifiedPhysicsInteraction.cs:190-208 | a receiving peer plays nothing when the other object is unknown or the intensity is at most the threshold, and the collision effects otherwise |
| `NetworkOptimization.LimiterStep` | Assets/02_Scripts/NetworkOptimizer.cs:58-66 | nothing changes if less than one time step has passed or the counter is at the maximum; otherwise the counter rises by exactly 1 and the last update becomes now; the counter never passes a maximum it started under |
| `NetworkOptimization.LimiterBounded` | Assets/02_Scripts/NetworkOptimizer.cs:58-66 | over any number of calls without a reset, the counter rises by at most one per call and stays within the maximum |
| `NetworkOptimization.ShouldBeActive` | Assets/02_Scripts/NetworkOptimizer.cs:119-135 | an object without input authority is always active; an owned object is active iff its distance is at most the maximum |
| `NetworkOptimization.NetworkOptimizer.constructor` | Assets/02_Scripts/NetworkOptimizer.cs:10-21 | the inspector settings and the initial counter and timestamp |
| `NetworkOptimization.NetworkOptimizer.OptimizePhysicsUpdates` | Assets/02_Scripts/NetworkOptimizer.cs:58-66 | the new counter and timestamp are the limiter step's; the counter never exceeds the maximum it started under |
| `NetworkOptimization.NetworkOptimizer.Update` | Assets/02_Scripts/NetworkOptimizer.cs:28-37 | afterwards the counter is 0 whether or not the optimizer is enabled; when disabled the last update time is untouched; afterwards more physics may be processed iff the maximum is positive |
| `NetworkOptimization.NetworkOptimizer.ShouldProcessPhysics` | Assets/02_Scripts/NetworkOptimizer.cs:85 | true iff the counter is below the per-frame maximum |
| `NetworkOptimization.NetworkOptimizer.TogglePhysicsOptimization` | Assets/02_Scripts/NetworkOptimizer.cs:91-94 | sets the enable flag of the optimizer found in the scene and nothing else; without an optimizer nothing happens |
| `NetworkOptimization.NetworkCulling.constructor` | Assets/02_Scripts/NetworkOptimizer.cs:104 | the culling distance and the object's initial activity |
| `NetworkOptimization.NetworkCulling.Update` | Assets/02_Scripts/NetworkOptimizer.cs:114-136 | nothing happens before the network object and camera are known; otherwise the object's activity becomes the culling rule's verdict |

## Left out

- Engine and middleware lookups are not modelled. This covers `FindObjectOfType`, `GetComponent`, `Runner.FindObject` and the face subsystem query. Their outcomes are boolean or optional parameters: `playerAvailable`, `subsystemAvailable`, `coefficient`, `other`, `otherFound`, `hasDuckPrefab`, `hasEffectPrefab`, `hasAudioSource`.
- Engine effects are recorded as events and not performed. This covers `RequestJump` (not defined in `PlayerMovement.cs`), `Runner.Spawn`, the RPC transport, `AddForce`, `Instantiate`/`Destroy` and audio playback.
- Vector physics is not modelled: the push-back force vector, the doubled force on receiving peers, the contact point, and the impulse computation from relative velocity and mass (mass 1 without a Rigidbody). The impulse magnitude is a parameter. `Pushback` carries only the impulse and is recorded only when `hasRigidbody` holds.
- Random spawn positions and rotations of ducks are not modelled.
- The three-second delay of `StopSpawning` is engine-scheduled. The model records a `StopScheduled` event on expiry and offers `StopSpawning` as a separate call.
- Instruction text and UI are not modelled. Each `SetInstruction` is a `ShowInstruction` event whether or not a text component exists. Also left out: the debug overlay text (except the displayed duration), the timer and player-count UI every 12 ticks, and the editor-only key name in the fallback instruction.
- Several engine setup calls are not modelled. These are `InitializePhysicsForNewPlayer`, the UI tag lookups, `InitializeNetworkOptimizations` (engine physics settings), `SetupNetworkCulling` (attaches culling components with the cull distance) and `OptimizeNetworkSettings`.
- `SimplifiedPhysicsInteraction.Spawned` disables the component without input authority. This is covered by the `hasInputAuthority` parameter of `OnCollisionEnter` and `FixedUpdateNetwork`.
- `CalculateCollisionImpulse`, `ApplyLocalCollisionEffect` and `ProcessCollisionNetwork` are never called, and `CalculateCollisionForce` is called only from those dead methods, so none of them is modelled.
- The engine does not call `Update` on an inactive game object. `NetworkCulling.Update` is modelled as running whenever it is called, so the model does not capture that an owned object, once culled, stops running its own culling.
- Networked-property replication between peers is not modelled. Each class is the view of one peer.
- Floating-point rounding is not modelled: all times and magnitudes are `real`.
- `FusionSession.cs`, `UIManager.cs`, `FreeCameraController.cs`, `PlayerSpawner.cs`, `PlayerMovement.cs`, both `StageInfo.cs` files and the underwater rendering code are not part of this model.

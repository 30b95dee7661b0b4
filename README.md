# Drone behaviours: a Dafny model

This project models the per-tick state handling of the drones in the
space-commando game:

- **ServiceDroneBT**: the behaviour-tree tasks of the service drone. It
  waits for the player to deliver the parts and then repairs the ship.
  Two of its tasks start a background coroutine and succeed on a later tick
  by reading the flag that coroutine sets.
- **ScanBehaviour**: the Scan mode's enter/update/exit hooks.
- **AttackBehaviour**: the Attack mode's enter/update/exit hooks and its
  line-of-sight test.
- **DroneShieldScript**: the shield whose colour follows the drone's mode.

The Panda behaviour-tree `Task` is a library type. Everything assumed about
it sits in module `PandaTasks`:
- `Complete(true)` behaves as `Succeed()`.
- `Complete(false)` leaves the task running.
- A `bool` task succeeds when it returns true and fails when it returns false.

Unity's coroutine scheduler is modelled as a map from enumerator identities
to where each enumerator stands. A frame is one behaviour-tree tick followed
by one resumption of every live coroutine (`ResumeCoroutines`). Unity
resumes `WaitForEndOfFrame` and `WaitForSeconds` after `Update`. Time is
counted in frames, and `RepairTime` is a number of frames.
`WaitForSeconds` always waits at least one frame (`RepairFrames`).

The invariant `ServiceDrone.Consistent` says that every live coroutine is
the one its handle names and that its flag is still unset. It follows that:
- each handle has at most one live coroutine;
- a coroutine from an earlier activation is never live;
- each coroutine sets its flag once, from false to true, and then ends.

Unity's `StartCoroutine` runs the enumerator up to its first `yield` before
returning. So `WaitForParts` polls the F key once on its starting tick. If
the key is down on that very frame, the task succeeds on its starting tick.
Without the key it cannot succeed on that tick. `RepairShip` never succeeds
on its starting tick.

Inputs the scripts get from Unity's maths, physics and navigation are
parameters of the hooks. These are distances, angles, linecast hits, path
results, whether the destination was reached, random destinations, the
frame number and the key state. Calls into scripts that are not part of this
model are recorded as fields. This covers the signal light, `DroneLogic`'s
attack mode and target switching, the scanner's directions and scans, and
`DroneShooting.Shoot`.

What these scripts do not do:
- `RepairShip` does not fail when the drone leaves the work site.
- `RepairShip` keeps no progress counter and has no work-effect indicator.
- There is no waypoint patrol in these scripts.
- Attack's exit restores only `updateRotation`, not the speeds.

## Model

| member | source | states |
|---|---|---|
| `PandaTasks.Task.Succeed` | Assets/Scripts/ServiceDrone/ServiceDroneBT.cs:39 | the task becomes Succeeded and keeps its starting flag |
| `PandaTasks.Task.Complete` | Assets/Scripts/ServiceDrone/ServiceDroneBT.cs:67 | Complete(true) succeeds; Complete(false) leaves the status as it was; Complete never makes a task fail |
| `PandaTasks.ConditionStatus` | Assets/Scripts/ServiceDrone/ServiceDroneBT.cs:74-91 | a bool task ends this tick and succeeds iff it returned true; IsPlayerNear, PlayerHaveParts, DroneHaveParts and IsShipRepaired state their status through it |
| `PandaTasks.Starting` | Assets/Scripts/ServiceDrone/ServiceDroneBT.cs:98 | the first tick of an activation shows a running task with isStarting set |
| `PandaTasks.Continuing` | Assets/Scripts/ServiceDrone/ServiceDroneBT.cs:155-157 | later ticks show a running task with isStarting clear |
| `ServiceDrone.RepairFrames` | Assets/Scripts/ServiceDrone/ServiceDroneBT.cs:180 | WaitForSeconds(RepairTime) waits RepairTime frames, and at least one |
| `ServiceDrone.StopHandle` | Assets/Scripts/ServiceDrone/ServiceDroneBT.cs:102 | stopping a set handle removes exactly that coroutine; an unset handle changes nothing |
| `ServiceDrone.StartWaitForParts` | Assets/Scripts/ServiceDrone/ServiceDroneBT.cs:164-176 | StartCoroutine (line 104) runs the body to its first yield: with the key down partsDelivered is set and the new coroutine is already over, so the live ones are unchanged; otherwise exactly the new WaitForParts enumerator is added; nothing else changes |
| `ServiceDrone.StartRepairingShip` | Assets/Scripts/ServiceDrone/ServiceDroneBT.cs:178-180 | StartCoroutine (line 153) runs the body, which yields WaitForSeconds at once: exactly the new enumerator, with no frames waited, is added and ShipRepaired is left as it was |
| `ServiceDrone.WaitForPartsTick` | Assets/Scripts/ServiceDrone/ServiceDroneBT.cs:93-108 | never fails; succeeds iff partsDelivered afterwards; a later tick changes no state; the starting tick sets partsDelivered to this frame's key, gives the handle a fresh identity whose live entry, when the key was up, is a WaitForParts enumerator, stops the old one, keeps every other live coroutine (the repair's included) as it was, and leaves the repair flag and handle alone |
| `ServiceDrone.RepairShipTick` | Assets/Scripts/ServiceDrone/ServiceDroneBT.cs:142-162 | never fails; the starting tick stays Running, clears ShipRepaired and replaces the old repair coroutine by a fresh one at zero frames, keeping every other live coroutine as it was; a later tick changes no state and succeeds iff ShipRepaired |
| `ServiceDrone.ResumeCoroutines` | Assets/Scripts/ServiceDrone/ServiceDroneBT.cs:164-183 | a frame's resumption starts no coroutine, moves no handle and only ever sets the two flags |
| `ServiceDrone.TicksKeepConsistent` | Assets/Scripts/ServiceDrone/ServiceDroneBT.cs:98-154 | both tasks and the coroutine pass keep the invariant: one live coroutine per handle at most, no stale coroutine, flags unset while their coroutine lives |
| `ServiceDrone.ResumeKeepsConsistent` | Assets/Scripts/ServiceDrone/ServiceDroneBT.cs:164-183 | a coroutine pass keeps the invariant: a coroutine still live afterwards did not finish, so its flag stays unset |
| `ServiceDrone.WaitTickKeepsConsistent` | Assets/Scripts/ServiceDrone/ServiceDroneBT.cs:93-108 | a WaitForParts tick keeps the invariant: after a restart only the new wait coroutine can be live |
| `ServiceDrone.RepairTickKeepsConsistent` | Assets/Scripts/ServiceDrone/ServiceDroneBT.cs:142-162 | a RepairShip tick keeps the invariant: after a restart only the new repair coroutine can be live |
| `ServiceDrone.ResumeFramesKeep` | Assets/Scripts/ServiceDrone/ServiceDroneBT.cs:164-183 | any number of frames only retires coroutines and sets flags, and keeps the invariant |
| `ServiceDrone.HandleKinds` | Assets/Scripts/ServiceDrone/ServiceDroneBT.cs:32-33 | the live coroutine a handle names is the enumerator of that handle's kind |
| `ServiceDrone.WaitEndsOnKey` | Assets/Scripts/ServiceDrone/ServiceDroneBT.cs:164-176 | the wait coroutine sets partsDelivered iff the key is down on some frame, and stays live iff it never is |
| `ServiceDrone.RepairEndsOnTime` | Assets/Scripts/ServiceDrone/ServiceDroneBT.cs:178-183 | the repair coroutine sets ShipRepaired exactly once its frames exceed RepairFrames, not before |
| `ServiceDrone.WaitForPartsSucceedsOnDelivery` | Assets/Scripts/ServiceDrone/ServiceDroneBT.cs:98-107 | after a start and any frames, WaitForParts succeeds iff the key was down on the starting frame or a later one, and never fails |
| `ServiceDrone.RepairShipSucceedsAfterRepairTime` | Assets/Scripts/ServiceDrone/ServiceDroneBT.cs:147-161 | after a start and n frames, RepairShip succeeds iff n > RepairFrames, whatever an earlier repair coroutine had done, and never fails |
| `ServiceDrone.RestartRetiresOldCoroutine` | Assets/Scripts/ServiceDrone/ServiceDroneBT.cs:98-153 | after a restart the previous activation's enumerator is never live again, so it cannot set the flag |
| `ServiceDrone.ServiceDroneBT.constructor` | Assets/Scripts/ServiceDrone/ServiceDroneBT.cs:14-33 | field defaults: DetectPlayerDistance 1, both flags false, no coroutine |
| `ServiceDrone.ServiceDroneBT.Idle` | Assets/Scripts/ServiceDrone/ServiceDroneBT.cs:35-40 | succeeds and changes no drone state |
| `ServiceDrone.ServiceDroneBT.ShipReadyForTakeOff` | Assets/Scripts/ServiceDrone/ServiceDroneBT.cs:42-47 | succeeds and changes no drone state |
| `ServiceDrone.ServiceDroneBT.IsPlayerNear` | Assets/Scripts/ServiceDrone/ServiceDroneBT.cs:51-55 | true iff the distance to the player is strictly below DetectPlayerDistance |
| `ServiceDrone.ServiceDroneBT.LookAtPlayer` | Assets/Scripts/ServiceDrone/ServiceDroneBT.cs:57-68 | succeeds iff the angle to the player is below 5 degrees, else keeps running; never fails |
| `ServiceDrone.ServiceDroneBT.PlayerHaveParts` | Assets/Scripts/ServiceDrone/ServiceDroneBT.cs:74-79 | reads PartsFound |
| `ServiceDrone.ServiceDroneBT.DroneHaveParts` | Assets/Scripts/ServiceDrone/ServiceDroneBT.cs:81-85 | reads partsDelivered |
| `ServiceDrone.ServiceDroneBT.IsShipRepaired` | Assets/Scripts/ServiceDrone/ServiceDroneBT.cs:87-91 | reads ShipRepaired |
| `ServiceDrone.ServiceDroneBT.StopCoroutine` | Assets/Scripts/ServiceDrone/ServiceDroneBT.cs:151 | the new state is StopHandle of the old state on that identity: only that coroutine stops, every other field keeps its value |
| `ServiceDrone.ServiceDroneBT.WaitForParts` | Assets/Scripts/ServiceDrone/ServiceDroneBT.cs:93-108 | the new fields and returned task are those of WaitForPartsTick; the invariant is kept |
| `ServiceDrone.ServiceDroneBT.GoToShip` | Assets/Scripts/ServiceDrone/ServiceDroneBT.cs:110-127 | succeeds iff the distance to WorkingLocation is below 1, else keeps running; never fails |
| `ServiceDrone.ServiceDroneBT.FaceTheEngine` | Assets/Scripts/ServiceDrone/ServiceDroneBT.cs:129-140 | succeeds iff the angle to the engine is below 5 degrees, else keeps running; never fails |
| `ServiceDrone.ServiceDroneBT.RepairShip` | Assets/Scripts/ServiceDrone/ServiceDroneBT.cs:142-162 | the new fields and returned task are those of RepairShipTick; the invariant is kept |
| `ServiceDrone.ServiceDroneBT.ResumeAll` | Assets/Scripts/ServiceDrone/ServiceDroneBT.cs:164-183 | one frame's coroutine resumption as ResumeCoroutines; the invariant is kept |
| `Shield.ShieldColor` | Assets/Scripts/Drone/DroneShieldScript.cs:36-50 | Scan selects ScanColor, Attack selects AttackColor, every other mode PatrolColor |
| `Shield.ShieldColorIdentifiesMode` | Assets/Scripts/Drone/DroneShieldScript.cs:38-49 | with distinct colours, each colour is shown exactly for its modes |
| `Shield.DroneShieldScript.constructor` | Assets/Scripts/Drone/DroneShieldScript.cs:7-27 | the three colours as configured, no material before Start |
| `Shield.DroneShieldScript.DronMode` | Assets/Scripts/Drone/DroneShieldScript.cs:17 | returns the stored mode; SetDronMode's ensures makes it the last mode assigned |
| `Shield.DroneShieldScript.SetColor` | Assets/Scripts/Drone/DroneShieldScript.cs:36-50 | writes the mode's colour to the shader property; with no material it throws and changes nothing |
| `Shield.DroneShieldScript.SetDronMode` | Assets/Scripts/Drone/DroneShieldScript.cs:15-24 | the getter then returns the assigned mode, and the colour for the new mode is applied |
| `Shield.DroneShieldScript.Start` | Assets/Scripts/Drone/DroneShieldScript.cs:29-34 | takes the renderer's material and applies the current mode's colour once |
| `Collaborators.NavAgent.SetDestination` | Assets/Scripts/Drone/AttackBehaviour.cs:42 | the agent's destination becomes the given point |
| `Collaborators.ScannerScript.InitiateScan` | Assets/Scripts/Drone/ScanBehaviour.cs:22 | records one more scan start |
| `Collaborators.ScannerScript.AddDirections` | Assets/Scripts/Drone/ScanBehaviour.cs:44 | appends one direction |
| `Collaborators.ScannerScript.RemoveDirections` | Assets/Scripts/Drone/ScanBehaviour.cs:57 | removes all directions |
| `Collaborators.DroneShooting.Shoot` | Assets/Scripts/Drone/AttackBehaviour.cs:74 | records one shot at the aim point |
| `Collaborators.DroneLogic.SwitchTarget` | Assets/Scripts/Drone/AttackBehaviour.cs:34 | the current target becomes the policy's choice; counts the call |
| `Collaborators.DroneLogic.StartAttackMode` | Assets/Scripts/Drone/AttackBehaviour.cs:20 | attack mode is on |
| `Collaborators.DroneLogic.EndAttackMode` | Assets/Scripts/Drone/AttackBehaviour.cs:88 | attack mode is off |
| `Scanning.DirectionsFor` | Assets/Scripts/Drone/ScanBehaviour.cs:33-46 | a pass adds at most one direction per target |
| `Scanning.DirectionsForSingle` | Assets/Scripts/Drone/ScanBehaviour.cs:42-45 | a target adds its path's corners iff the path status is not PathInvalid |
| `Scanning.DirectionsForConcat` | Assets/Scripts/Drone/ScanBehaviour.cs:33 | the pass goes target by target in index order: the directions of a + b are those of a, then those of b |
| `Scanning.DirectionsForMembers` | Assets/Scripts/Drone/ScanBehaviour.cs:33-46 | the directions are exactly those of the targets with a valid path, each with that path's corners |
| `Scanning.ScanUpdate` | Assets/Scripts/Drone/ScanBehaviour.cs:25-51 | with linesDrawn set nothing changes; off frame 20k or before the scan has finished nothing changes; otherwise one pass's directions are appended and linesDrawn is set |
| `Scanning.ScanDrawsAtMostOnce` | Assets/Scripts/Drone/ScanBehaviour.cs:27-48 | over any run of updates lines are drawn iff some frame processes, and only the first such frame's directions are added |
| `Scanning.ScanBehaviour.constructor` | Assets/Scripts/Drone/ScanBehaviour.cs:8 | linesDrawn starts false |
| `Scanning.ScanBehaviour.OnStateEnter` | Assets/Scripts/Drone/ScanBehaviour.cs:10-23 | navigation stops, signal light and shield go to Scan with the shield showing its Scan colour, one scan is initiated |
| `Scanning.ScanBehaviour.OnStateUpdate` | Assets/Scripts/Drone/ScanBehaviour.cs:25-51 | the flag and the directions change as ScanUpdate says, the loop adding the directions in target order |
| `Scanning.ScanBehaviour.OnStateExit` | Assets/Scripts/Drone/ScanBehaviour.cs:53-62 | navigation resumes, no directions remain, linesDrawn is false so the next activation recomputes |
| `Attacking.AimPoint` | Assets/Scripts/Drone/AttackBehaviour.cs:59-60 | the target position with y raised by 2 |
| `Attacking.CanSeeTarget` | Assets/Scripts/Drone/AttackBehaviour.cs:91-102 | false whenever the angle is at least MaxAttackAngle; inside the cone true iff the Buildings linecast hits nothing |
| `Attacking.NextDestination` | Assets/Scripts/Drone/AttackBehaviour.cs:37-49 | unchanged unless the frame is a multiple of 10 and the destination was reached; then the navigation service's random point for (player, MaxDistance) with no target, else exactly the target's position |
| `Attacking.Volley` | Assets/Scripts/Drone/AttackBehaviour.cs:57-76 | no target, no shot; with a target one shot at its aim point iff CanSeeTarget holds for that point |
| `Attacking.AttackBehaviour.constructor` | Assets/Scripts/Drone/AttackBehaviour.cs:8-9 | shootingLogic is null before the first entry |
| `Attacking.AttackBehaviour.OnStateEnter` | Assets/Scripts/Drone/AttackBehaviour.cs:11-30 | shootingLogic is fetched, signal light and shield go to Attack, attack mode starts, updateRotation is off and speed, angular speed and acceleration take the attack values |
| `Attacking.AttackBehaviour.OnStateUpdate` | Assets/Scripts/Drone/AttackBehaviour.cs:32-77 | SwitchTarget is called once, the destination follows NextDestination, the shots follow Volley |
| `Attacking.AttackBehaviour.OnStateExit` | Assets/Scripts/Drone/AttackBehaviour.cs:79-89 | updateRotation is back on and attack mode ends |

## Left out

- Steering and movement are not modelled: `Quaternion.Slerp`, `LookRotation`, `Translate` and `Time.deltaTime` in LookAtPlayer, GoToShip and FaceTheEngine, and the drone rotation in Attack's update. These are floating-point geometry. The distances and angles the tasks test arrive as measured values.
- `Vector3.Distance`, `Vector3.Angle`, `Physics.Linecast`, `NavMesh.CalculatePath`, `GetRandomDestination` and `DestinationReached` are foreign services. They are parameters of the hooks. The random point computed around a target on line 46 of AttackBehaviour.cs has no effect in the model: it is computed with radius 10 and discarded.
- `Input.GetKeyDown(KeyCode.F)` is the per-frame key input. `Time.frameCount` is the frame-number parameter.
- The Panda scheduler is not part of this model. That covers sequence and selector walking, `[Task]` discovery by reflection, and `debugInfo`.
- The Animator state machine that calls the Scan and Attack hooks and decides mode switches is not part of this model. `BaseBehaviour` and its `OnStateEnter` are not part of this model either.
- UI command highlighting, `Debug.DrawLine` and `Task.current.debugInfo` are presentation output only.
- `DroneLogic`'s battery bookkeeping and target-switching policy are not part of this model. Neither are the scanner script, the signal light and `DroneShooting`. Their calls are recorded as fields. What `InitiateScan` does to `ScanFinished` and `Targets` is not part of this model: both are inputs.
- `ShipRepaired` is a public field, but like `partsDelivered`, which only WaitForParts and its coroutine write, it is written only by RepairShip and its coroutine in this model. The invariant of `ServiceDroneBT` says it is unset while a repair coroutine is live, and `RepairShipSucceedsAfterRepairTime` rests on that. A write from another script or the Inspector is not modelled; clearing it after the coroutine ended would leave the source's RepairShip running forever.
- RepairTime is a float number of seconds in the source. It is a whole number of frames here.
- A `DronMode` assignment to the shield before its Start throws a NullReferenceException, which would abort the calling hook. `SetDronMode` models that outcome. The Scan and Attack entry hooks require the shield to have run Start, which Unity does before any state is entered.
- enumDronMode's declaration is not part of this model. Patrol, Scan and Attack are its named values, and `Other` stands for any other value.
- Assets/Scripts/Editor/CalculateUVs.cs is editor tooling with no core behaviour.

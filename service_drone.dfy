/** ServiceDroneBT: the behaviour-tree tasks of the service drone that waits
    for the player's parts and repairs the ship, together with the two
    coroutines it runs in the background.

    The tasks are modelled on a snapshot of the drone's fields (DroneState).
    Unity's coroutine scheduler is modelled by the map `coroutines` from the
    identity of each started enumerator to where that enumerator stands; the
    handle fields waitForParts and repairingShip hold such identities.
    A frame is: the behaviour tree ticks one task, then every live coroutine
    is resumed once (ResumeCoroutines), which is where Unity resumes
    WaitForEndOfFrame and WaitForSeconds. Time is counted in frames. */
module ServiceDrone {
  import opened DroneTypes
  import opened PandaTasks

  /** Angle, in degrees, under which LookAtPlayer and FaceTheEngine count as aligned. */
  const AlignmentTolerance: real := 5.0
  /** Distance under which GoToShip counts as arrived. */
  const ArrivalDistance: real := 1.0

  /** Where a started enumerator stands between two resumptions. */
  datatype Enumerator =
    | WaitForPartsEnumerator
      // inside `while (true)`, suspended on WaitForEndOfFrame
    | RepairingShipEnumerator(elapsed: nat)
      // suspended on WaitForSeconds(RepairTime), `elapsed` frames so far

  /** The frames WaitForSeconds(repairTime) waits: always at least one. */
  function RepairFrames(repairTime: nat): (n: nat)
    ensures n >= 1 && n >= repairTime
    ensures repairTime >= 1 ==> n == repairTime
  {
    if repairTime == 0 then 1 else repairTime
  }

  datatype DroneState = DroneState(
    partsFound: bool,
    shipRepaired: bool,
    partsDelivered: bool,
    waitForParts: Option<nat>,
    repairingShip: Option<nat>,
    coroutines: map<nat, Enumerator>,
    nextId: nat)

  /** What a live coroutine may be: the enumerator its own handle names, and
      one whose flag is still unset. */
  predicate LiveCoroutineOk(s: DroneState, id: nat, repairTime: nat)
    requires id in s.coroutines
  {
    match s.coroutines[id]
    case WaitForPartsEnumerator =>
      s.waitForParts == Some(id) && !s.partsDelivered
    case RepairingShipEnumerator(e) =>
      s.repairingShip == Some(id) && !s.shipRepaired && e <= RepairFrames(repairTime)
  }

  /** Every identity handed out so far, live or held by a handle, is below nextId. */
  predicate IdsBelowNext(s: DroneState)
  {
    && (s.waitForParts.Some? ==> s.waitForParts.value < s.nextId)
    && (s.repairingShip.Some? ==> s.repairingShip.value < s.nextId)
    && (forall id :: id in s.coroutines ==> id < s.nextId)
  }

  /** The drone's invariant. Every live coroutine is the one its handle names,
      so each handle has at most one live coroutine and no coroutine from an
      earlier activation is still running; handles are distinct identities
      below nextId, so a newly created enumerator is fresh. */
  predicate Consistent(s: DroneState, repairTime: nat)
  {
    && IdsBelowNext(s)
    && (s.waitForParts.Some? && s.repairingShip.Some? ==>
          s.waitForParts.value != s.repairingShip.value)
    && (forall id :: id in s.coroutines ==> LiveCoroutineOk(s, id, repairTime))
  }

  /** StopCoroutine(handle) when the handle is set; stopping a coroutine that
      has already ended does nothing. */
  function StopHandle(s: DroneState, handle: Option<nat>): (r: DroneState)
    ensures r == s.(coroutines := r.coroutines)
    ensures handle.Some? ==> r.coroutines.Keys == s.coroutines.Keys - {handle.value}
    ensures handle.None? ==> r.coroutines == s.coroutines
    ensures forall id :: id in r.coroutines ==> id in s.coroutines && r.coroutines[id] == s.coroutines[id]
  {
    if handle.Some? then s.(coroutines := s.coroutines - {handle.value}) else s
  }

  /** StartCoroutine(WaitForPartsEnumerator()) under identity id. Unity runs
      the body at once up to its first yield, so the key is first polled in
      the starting frame; when it is down the loop breaks before yielding
      and the coroutine is over. */
  function StartWaitForParts(s: DroneState, id: nat, keyF: bool): (r: DroneState)
    ensures r.partsDelivered == (s.partsDelivered || keyF)
    ensures keyF ==> r.coroutines == s.coroutines
    ensures !keyF ==> r.coroutines.Keys == s.coroutines.Keys + {id} && r.coroutines[id] == WaitForPartsEnumerator
    ensures forall k :: k in s.coroutines && k != id ==> k in r.coroutines && r.coroutines[k] == s.coroutines[k]
    ensures r.(partsDelivered := s.partsDelivered, coroutines := s.coroutines) == s
  {
    if keyF then s.(partsDelivered := true)
    else s.(coroutines := s.coroutines[id := WaitForPartsEnumerator])
  }

  /** StartCoroutine(RepairingShipEnumerator()) under identity id: the body
      yields WaitForSeconds at once. */
  function StartRepairingShip(s: DroneState, id: nat): (r: DroneState)
    ensures r.coroutines.Keys == s.coroutines.Keys + {id}
    ensures r.coroutines[id] == RepairingShipEnumerator(0)
    ensures forall k :: k in s.coroutines && k != id ==> r.coroutines[k] == s.coroutines[k]
    ensures r.(coroutines := s.coroutines) == s
  {
    s.(coroutines := s.coroutines[id := RepairingShipEnumerator(0)])
  }

  /** The WaitForParts task on one tick. */
  function WaitForPartsTick(s: DroneState, task: Task, keyF: bool): (r: (DroneState, Task))
    requires task.status == Running
    ensures r.1.isStarting == task.isStarting
    ensures r.1.status != Failed
    ensures r.1.status == Succeeded <==> r.0.partsDelivered
    ensures !task.isStarting ==> r.0 == s
    ensures task.isStarting ==>
      && r.0.partsDelivered == keyF
      && r.0.waitForParts == Some(s.nextId)
      && r.0.nextId == s.nextId + 1
      && (IdsBelowNext(s) ==> (s.nextId in r.0.coroutines <==> !keyF))
      && (IdsBelowNext(s) && s.waitForParts.Some? ==> s.waitForParts.value !in r.0.coroutines)
      && r.0.shipRepaired == s.shipRepaired
      && r.0.repairingShip == s.repairingShip
      && r.0.partsFound == s.partsFound
      && r.0.coroutines - {s.nextId} == StopHandle(s, s.waitForParts).coroutines - {s.nextId}
      && (!keyF ==> s.nextId in r.0.coroutines && r.0.coroutines[s.nextId] == WaitForPartsEnumerator)
  {
    if task.isStarting then
      var s1 := StopHandle(s.(partsDelivered := false), s.waitForParts);
      var id := s1.nextId;
      var s2 := s1.(waitForParts := Some(id), nextId := id + 1);
      var s3 := StartWaitForParts(s2, id, keyF);
      (s3, task.Complete(s3.partsDelivered))
    else
      (s, task.Complete(s.partsDelivered))
  }

  /** The RepairShip task on one tick: on the starting tick it clears the flag
      and replaces the repair coroutine; on a later tick it succeeds exactly
      when the flag is set. It never fails. */
  function RepairShipTick(s: DroneState, task: Task): (r: (DroneState, Task))
    requires task.status == Running
    ensures r.1.isStarting == task.isStarting
    ensures r.1.status != Failed
    ensures task.isStarting ==>
      && r.1.status == Running
      && !r.0.shipRepaired
      && r.0.repairingShip == Some(s.nextId)
      && r.0.nextId == s.nextId + 1
      && r.0.coroutines.Keys == (s.coroutines.Keys - (if s.repairingShip.Some? then {s.repairingShip.value} else {})) + {s.nextId}
      && r.0.coroutines[s.nextId] == RepairingShipEnumerator(0)
      && r.0.coroutines - {s.nextId} == StopHandle(s, s.repairingShip).coroutines - {s.nextId}
      && r.0.partsDelivered == s.partsDelivered
      && r.0.waitForParts == s.waitForParts
      && r.0.partsFound == s.partsFound
    ensures !task.isStarting ==> r.0 == s && (r.1.status == Succeeded <==> s.shipRepaired)
  {
    if task.isStarting then
      var s1 := StopHandle(s.(shipRepaired := false), s.repairingShip);
      var id := s1.nextId;
      var s2 := s1.(repairingShip := Some(id), nextId := id + 1);
      (StartRepairingShip(s2, id), task)
    else if s.shipRepaired then
      (s, task.Succeed())
    else
      (s, task)
  }

  /** Whether an enumerator, resumed this frame, runs to its end. */
  predicate Finishes(c: Enumerator, keyF: bool, repairTime: nat)
  {
    match c
    case WaitForPartsEnumerator => keyF
    case RepairingShipEnumerator(e) => e >= RepairFrames(repairTime)
  }

  /** Where an enumerator that does not finish stands after being resumed. */
  function Advance(c: Enumerator): (r: Enumerator)
  {
    match c
    case WaitForPartsEnumerator => c
    case RepairingShipEnumerator(e) => RepairingShipEnumerator(e + 1)
  }

  /** One frame's resumption of every live coroutine, keyF being
      Input.GetKeyDown(KeyCode.F) in that frame. The wait loop sets
      partsDelivered and breaks when the key is down; the repair coroutine
      sets ShipRepaired once its wait is over. A coroutine that finishes is
      no longer live; the others are suspended again. */
  function ResumeCoroutines(s: DroneState, keyF: bool, repairTime: nat): (r: DroneState)
    ensures r.waitForParts == s.waitForParts && r.repairingShip == s.repairingShip
    ensures r.nextId == s.nextId && r.partsFound == s.partsFound
    ensures r.coroutines.Keys <= s.coroutines.Keys
    ensures s.partsDelivered ==> r.partsDelivered
    ensures s.shipRepaired ==> r.shipRepaired
  {
    var m := s.coroutines;
    s.(coroutines := map id | id in m && !Finishes(m[id], keyF, repairTime) :: Advance(m[id]),
       partsDelivered := s.partsDelivered ||
         exists id :: id in m && m[id].WaitForPartsEnumerator? && Finishes(m[id], keyF, repairTime),
       shipRepaired := s.shipRepaired ||
         exists id :: id in m && m[id].RepairingShipEnumerator? && Finishes(m[id], keyF, repairTime))
  }

  /** The coroutine passes of consecutive frames, keys[i] being frame i's key. */
  function ResumeFrames(s: DroneState, keys: seq<bool>, repairTime: nat): (r: DroneState)
    decreases |keys|
  {
    if keys == [] then s else ResumeFrames(ResumeCoroutines(s, keys[0], repairTime), keys[1..], repairTime)
  }

  /** A coroutine pass keeps the invariant: a live coroutine survives only
      when it does not finish, so its flag stays unset. */
  lemma ResumeKeepsConsistent(s: DroneState, keyF: bool, repairTime: nat)
    requires Consistent(s, repairTime)
    ensures Consistent(ResumeCoroutines(s, keyF, repairTime), repairTime)
  {
    var r := ResumeCoroutines(s, keyF, repairTime);
    forall id | id in r.coroutines ensures LiveCoroutineOk(r, id, repairTime) {
      assert LiveCoroutineOk(s, id, repairTime);
      match s.coroutines[id]
      case WaitForPartsEnumerator =>
        assert !exists j :: j in s.coroutines && s.coroutines[j].WaitForPartsEnumerator?
                              && Finishes(s.coroutines[j], keyF, repairTime) by {
          forall j | j in s.coroutines && s.coroutines[j].WaitForPartsEnumerator?
            ensures !Finishes(s.coroutines[j], keyF, repairTime)
          {
            assert LiveCoroutineOk(s, j, repairTime);
          }
        }
      case RepairingShipEnumerator(e) =>
        assert !exists j :: j in s.coroutines && s.coroutines[j].RepairingShipEnumerator?
                              && Finishes(s.coroutines[j], keyF, repairTime) by {
          forall j | j in s.coroutines && s.coroutines[j].RepairingShipEnumerator?
            ensures !Finishes(s.coroutines[j], keyF, repairTime)
          {
            assert LiveCoroutineOk(s, j, repairTime);
          }
        }
    }
  }

  /** A WaitForParts tick keeps the invariant: the restarted handle names
      the only wait coroutine left live. */
  lemma WaitTickKeepsConsistent(s: DroneState, task: Task, keyF: bool, repairTime: nat)
    requires Consistent(s, repairTime) && task.status == Running
    ensures Consistent(WaitForPartsTick(s, task, keyF).0, repairTime)
  {
    var w := WaitForPartsTick(s, task, keyF).0;
    if task.isStarting {
      forall id | id in w.coroutines ensures LiveCoroutineOk(w, id, repairTime) {
        if id != s.nextId { assert LiveCoroutineOk(s, id, repairTime); }
      }
    }
  }

  /** A RepairShip tick keeps the invariant: the restarted handle names the
      only repair coroutine left live. */
  lemma RepairTickKeepsConsistent(s: DroneState, task: Task, repairTime: nat)
    requires Consistent(s, repairTime) && task.status == Running
    ensures Consistent(RepairShipTick(s, task).0, repairTime)
  {
    var p := RepairShipTick(s, task).0;
    if task.isStarting {
      forall id | id in p.coroutines ensures LiveCoroutineOk(p, id, repairTime) {
        if id != s.nextId { assert LiveCoroutineOk(s, id, repairTime); }
      }
    }
  }

  /** Every task tick and every coroutine pass keeps the invariant. */
  lemma TicksKeepConsistent(s: DroneState, task: Task, keyF: bool, repairTime: nat)
    requires Consistent(s, repairTime) && task.status == Running
    ensures Consistent(WaitForPartsTick(s, task, keyF).0, repairTime)
    ensures Consistent(RepairShipTick(s, task).0, repairTime)
    ensures Consistent(ResumeCoroutines(s, keyF, repairTime), repairTime)
  {
    ResumeKeepsConsistent(s, keyF, repairTime);
    WaitTickKeepsConsistent(s, task, keyF, repairTime);
    RepairTickKeepsConsistent(s, task, repairTime);
  }

  /** Coroutine passes only ever clear coroutines and set flags: they start
      nothing, move no handle, and keep the invariant. */
  lemma {:induction false} ResumeFramesKeep(s: DroneState, keys: seq<bool>, repairTime: nat)
    ensures var r := ResumeFrames(s, keys, repairTime);
      && r.waitForParts == s.waitForParts && r.repairingShip == s.repairingShip
      && r.nextId == s.nextId && r.partsFound == s.partsFound
      && r.coroutines.Keys <= s.coroutines.Keys
      && (s.partsDelivered ==> r.partsDelivered)
      && (s.shipRepaired ==> r.shipRepaired)
      && (Consistent(s, repairTime) ==> Consistent(r, repairTime))
    decreases |keys|
  {
    if keys != [] {
      var s1 := ResumeCoroutines(s, keys[0], repairTime);
      if Consistent(s, repairTime) {
        TicksKeepConsistent(s, Continuing(), keys[0], repairTime);
      }
      ResumeFramesKeep(s1, keys[1..], repairTime);
    }
  }

  /** The live coroutine a handle names is of that handle's kind. */
  lemma HandleKinds(s: DroneState, repairTime: nat)
    requires Consistent(s, repairTime)
    ensures s.waitForParts.Some? && s.waitForParts.value in s.coroutines ==>
      s.coroutines[s.waitForParts.value] == WaitForPartsEnumerator
    ensures s.repairingShip.Some? && s.repairingShip.value in s.coroutines ==>
      s.coroutines[s.repairingShip.value].RepairingShipEnumerator?
  {
  }

  /** The live wait coroutine ends on the first frame whose key is down and
      sets partsDelivered then; on frames without the key it changes nothing. */
  lemma {:induction false} WaitEndsOnKey(s: DroneState, keys: seq<bool>, repairTime: nat)
    requires Consistent(s, repairTime)
    requires s.waitForParts.Some? && s.waitForParts.value in s.coroutines
    ensures ResumeFrames(s, keys, repairTime).partsDelivered <==> true in keys
    ensures s.waitForParts.value in ResumeFrames(s, keys, repairTime).coroutines <==> true !in keys
    decreases |keys|
  {
    var w := s.waitForParts.value;
    assert LiveCoroutineOk(s, w, repairTime);
    HandleKinds(s, repairTime);
    if keys != [] {
      var s1 := ResumeCoroutines(s, keys[0], repairTime);
      TicksKeepConsistent(s, Continuing(), keys[0], repairTime);
      if keys[0] {
        assert s1.partsDelivered;
        assert w !in s1.coroutines;
        ResumeFramesKeep(s1, keys[1..], repairTime);
      } else {
        assert !s1.partsDelivered by {
          forall j | j in s.coroutines ensures !(s.coroutines[j].WaitForPartsEnumerator? && Finishes(s.coroutines[j], false, repairTime)) {
          }
        }
        assert w in s1.coroutines;
        WaitEndsOnKey(s1, keys[1..], repairTime);
        assert (true in keys) == (true in keys[1..]);
      }
    }
  }

  /** The live repair coroutine, having waited e frames, sets ShipRepaired
      exactly when the frames resumed bring the wait past RepairFrames. */
  lemma {:induction false} RepairEndsOnTime(s: DroneState, keys: seq<bool>, repairTime: nat)
    requires Consistent(s, repairTime)
    requires s.repairingShip.Some? && s.repairingShip.value in s.coroutines
    ensures s.coroutines[s.repairingShip.value].RepairingShipEnumerator?
    ensures ResumeFrames(s, keys, repairTime).shipRepaired <==>
      s.coroutines[s.repairingShip.value].elapsed + |keys| > RepairFrames(repairTime)
    decreases |keys|
  {
    var id := s.repairingShip.value;
    assert LiveCoroutineOk(s, id, repairTime);
    HandleKinds(s, repairTime);
    var e := s.coroutines[id].elapsed;
    if keys != [] {
      var s1 := ResumeCoroutines(s, keys[0], repairTime);
      TicksKeepConsistent(s, Continuing(), keys[0], repairTime);
      if e >= RepairFrames(repairTime) {
        assert s1.shipRepaired;
        ResumeFramesKeep(s1, keys[1..], repairTime);
      } else {
        assert !s1.shipRepaired by {
          forall j | j in s.coroutines ensures !(s.coroutines[j].RepairingShipEnumerator? && Finishes(s.coroutines[j], keys[0], repairTime)) {
            assert LiveCoroutineOk(s, j, repairTime);
          }
        }
        assert id in s1.coroutines && s1.coroutines[id] == RepairingShipEnumerator(e + 1);
        RepairEndsOnTime(s1, keys[1..], repairTime);
      }
    }
  }

  /** WaitForParts across an activation: started on one frame (key keyF),
      followed by the coroutine passes of frames `keys`, the task succeeds on
      its next tick exactly when the key was down on one of those frames.
      Any wait coroutine left from an earlier activation plays no part.
      GetKeyDown has one value for a whole frame, so in a real run keys[0],
      the starting frame's own end-of-frame pass, equals keyF; the lemma
      holds for every trace, that one among them. */
  lemma WaitForPartsSucceedsOnDelivery(s: DroneState, keyF: bool, keys: seq<bool>, repairTime: nat)
    requires Consistent(s, repairTime)
    ensures var s1 := WaitForPartsTick(s, Starting(), keyF).0;
      var t := WaitForPartsTick(ResumeFrames(s1, keys, repairTime), Continuing(), false).1;
      && t.status != Failed
      && (t.status == Succeeded <==> keyF || true in keys)
  {
    var s1 := WaitForPartsTick(s, Starting(), keyF).0;
    TicksKeepConsistent(s, Starting(), keyF, repairTime);
    if keyF {
      ResumeFramesKeep(s1, keys, repairTime);
    } else {
      WaitEndsOnKey(s1, keys, repairTime);
    }
  }

  /** RepairShip across an activation: started on one frame and followed by
      the coroutine passes of `keys`, the task succeeds on its next tick
      exactly when more than RepairFrames passes have run -- however far an
      earlier repair coroutine had got before the restart. */
  lemma RepairShipSucceedsAfterRepairTime(s: DroneState, keys: seq<bool>, repairTime: nat)
    requires Consistent(s, repairTime)
    ensures var s1 := RepairShipTick(s, Starting()).0;
      var t := RepairShipTick(ResumeFrames(s1, keys, repairTime), Continuing()).1;
      && t.status != Failed
      && (t.status == Succeeded <==> |keys| > RepairFrames(repairTime))
  {
    TicksKeepConsistent(s, Starting(), false, repairTime);
    RepairEndsOnTime(RepairShipTick(s, Starting()).0, keys, repairTime);
  }

  /** A restart retires the coroutine of the previous activation for good:
      after the task's starting tick and any number of frames, the old
      enumerator is not live, so it can never again set the flag. */
  lemma RestartRetiresOldCoroutine(s: DroneState, keyF: bool, keys: seq<bool>, repairTime: nat)
    requires Consistent(s, repairTime)
    ensures s.waitForParts.Some? ==>
      s.waitForParts.value !in ResumeFrames(WaitForPartsTick(s, Starting(), keyF).0, keys, repairTime).coroutines
    ensures s.repairingShip.Some? ==>
      s.repairingShip.value !in ResumeFrames(RepairShipTick(s, Starting()).0, keys, repairTime).coroutines
  {
    ResumeFramesKeep(WaitForPartsTick(s, Starting(), keyF).0, keys, repairTime);
    ResumeFramesKeep(RepairShipTick(s, Starting()).0, keys, repairTime);
  }

  /** The MonoBehaviour itself. Its tasks take the task being ticked
      (Task.current) and return it as the task leaves it; geometric
      quantities the tasks compute with Unity's vector maths arrive as
      measured values. */
  class ServiceDroneBT {
    /** DetectPlayerDistance. */
    var detectPlayerDistance: real
    /** RepairTime, in frames. */
    var repairTime: nat
    /** PartsFound, set from outside when the player has found the parts. */
    var partsFound: bool
    /** ShipRepaired. */
    var shipRepaired: bool
    var partsDelivered: bool
    /** The enumerators behind the two handles, by identity. */
    var waitForParts: Option<nat>
    var repairingShip: Option<nat>
    /** The coroutines this MonoBehaviour is running, and the next fresh identity. */
    var coroutines: map<nat, Enumerator>
    var nextId: nat

    function State(): DroneState
      reads this
    {
      DroneState(partsFound, shipRepaired, partsDelivered, waitForParts, repairingShip, coroutines, nextId)
    }

    ghost predicate Valid()
      reads this
    {
      Consistent(State(), repairTime)
    }

    constructor (repairTime: nat)
      ensures Valid()
      ensures this.repairTime == repairTime && detectPlayerDistance == 1.0
      ensures !partsFound && !shipRepaired && !partsDelivered
      ensures waitForParts == None && repairingShip == None && coroutines == map[]
    {
      this.repairTime := repairTime;
      detectPlayerDistance := 1.0;
      partsFound, shipRepaired, partsDelivered := false, false, false;
      waitForParts, repairingShip := None, None;
      coroutines, nextId := map[], 0;
    }

    /** Idle: succeeds at once and touches no field. */
    method Idle(task: Task) returns (t: Task)
      requires task.status == Running
      ensures t.status == Succeeded && t.isStarting == task.isStarting
    {
      t := task.Succeed();
    }

    /** ShipReadyForTakeOff: succeeds at once and touches no field. */
    method ShipReadyForTakeOff(task: Task) returns (t: Task)
      requires task.status == Running
      ensures t.status == Succeeded && t.isStarting == task.isStarting
    {
      t := task.Succeed();
    }

    /** IsPlayerNear, given the distance from the drone to the player. */
    method IsPlayerNear(distanceToPlayer: real) returns (near: bool)
      ensures near <==> distanceToPlayer < detectPlayerDistance
      ensures ConditionStatus(near) == (if distanceToPlayer < detectPlayerDistance then Succeeded else Failed)
    {
      near := distanceToPlayer < detectPlayerDistance;
    }

    /** LookAtPlayer, given the angle between the direction to the player and
        the drone's forward vector once this frame's turn is applied. */
    method LookAtPlayer(task: Task, angleToPlayer: real) returns (t: Task)
      requires task.status == Running
      ensures t.isStarting == task.isStarting && t.status != Failed
      ensures t.status == Succeeded <==> angleToPlayer < AlignmentTolerance
    {
      var lookDirectionIsOk := angleToPlayer < AlignmentTolerance;
      t := task.Complete(lookDirectionIsOk);
    }

    /** A condition task: it succeeds this tick iff partsFound is set, else fails. */
    method PlayerHaveParts() returns (b: bool)
      ensures b == partsFound
      ensures ConditionStatus(b) == (if partsFound then Succeeded else Failed)
    {
      b := partsFound;
    }

    /** A condition task: it succeeds this tick iff partsDelivered is set, else fails. */
    method DroneHaveParts() returns (b: bool)
      ensures b == partsDelivered
      ensures ConditionStatus(b) == (if partsDelivered then Succeeded else Failed)
    {
      b := partsDelivered;
    }

    /** A condition task: it succeeds this tick iff shipRepaired is set, else fails. */
    method IsShipRepaired() returns (b: bool)
      ensures b == shipRepaired
      ensures ConditionStatus(b) == (if shipRepaired then Succeeded else Failed)
    {
      b := shipRepaired;
    }

    /** StopCoroutine on the enumerator with identity id. */
    method StopCoroutine(id: nat)
      modifies this`coroutines
      ensures State() == StopHandle(old(State()), Some(id))
    {
      coroutines := coroutines - {id};
    }

    /** WaitForParts; keyF is Input.GetKeyDown(KeyCode.F) in this frame,
        which the new coroutine polls before its first yield. The ResumeAll
        at the end of the same frame is given the same key value. */
    method WaitForParts(task: Task, keyF: bool) returns (t: Task)
      requires Valid() && task.status == Running
      modifies this`partsDelivered, this`waitForParts, this`coroutines, this`nextId
      ensures Valid()
      ensures (State(), t) == WaitForPartsTick(old(State()), task, keyF)
    {
      WaitTickKeepsConsistent(State(), task, keyF, repairTime);
      if task.isStarting {
        partsDelivered := false;
        if waitForParts.Some? {
          StopCoroutine(waitForParts.value);
        }
        waitForParts := Some(nextId);
        nextId := nextId + 1;
        // StartCoroutine: the loop body runs up to its first yield
        if keyF {
          partsDelivered := true;
        } else {
          coroutines := coroutines[waitForParts.value := WaitForPartsEnumerator];
        }
      }
      t := task.Complete(partsDelivered);
    }

    /** GoToShip, given the distance to WorkingLocation measured before this
        frame's move. */
    method GoToShip(task: Task, distanceToWorkingLocation: real) returns (t: Task)
      requires task.status == Running
      ensures t.isStarting == task.isStarting && t.status != Failed
      ensures t.status == Succeeded <==> distanceToWorkingLocation < ArrivalDistance
    {
      var distanceIsOk := distanceToWorkingLocation < ArrivalDistance;
      t := task.Complete(distanceIsOk);
    }

    /** FaceTheEngine, given the angle between the direction to the engine
        and the drone's forward vector once this frame's turn is applied. */
    method FaceTheEngine(task: Task, angleToEngine: real) returns (t: Task)
      requires task.status == Running
      ensures t.isStarting == task.isStarting && t.status != Failed
      ensures t.status == Succeeded <==> angleToEngine < AlignmentTolerance
    {
      var lookDirectionIsOk := angleToEngine < AlignmentTolerance;
      t := task.Complete(lookDirectionIsOk);
    }

    method RepairShip(task: Task) returns (t: Task)
      requires Valid() && task.status == Running
      modifies this`shipRepaired, this`repairingShip, this`coroutines, this`nextId
      ensures Valid()
      ensures (State(), t) == RepairShipTick(old(State()), task)
    {
      RepairTickKeepsConsistent(State(), task, repairTime);
      t := task;
      if task.isStarting {
        shipRepaired := false;
        if repairingShip.Some? {
          StopCoroutine(repairingShip.value);
        }
        repairingShip := Some(nextId);
        nextId := nextId + 1;
        // StartCoroutine: the body yields WaitForSeconds at once
        coroutines := coroutines[repairingShip.value := RepairingShipEnumerator(0)];
      } else {
        if shipRepaired {
          t := t.Succeed();
        }
      }
    }

    /** The end of a frame: Unity resumes each live coroutine once. keyF is
        this frame's key value, the one the frame's task ticks were given. */
    method ResumeAll(keyF: bool)
      requires Valid()
      modifies this`partsDelivered, this`shipRepaired, this`coroutines
      ensures Valid()
      ensures State() == ResumeCoroutines(old(State()), keyF, repairTime)
    {
      var r := ResumeCoroutines(State(), keyF, repairTime);
      ResumeKeepsConsistent(State(), keyF, repairTime);
      partsDelivered, shipRepaired, coroutines := r.partsDelivered, r.shipRepaired, r.coroutines;
    }
  }
}

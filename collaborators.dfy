/** The objects the drone's mode behaviours act on. Their own scripts
    (NavMeshAgent, DroneLogic, the scanner, DroneShooting, the signal light)
    are not part of this model: each is reduced to the fields the behaviours
    write or read, and each call a behaviour makes is recorded. */
module Collaborators {
  import opened DroneTypes
  import opened Shield

  /** The navigation agent's settings the behaviours change, and the last
      destination it was given. */
  class NavAgent {
    var isStopped: bool
    var updateRotation: bool
    var speed: real
    var angularSpeed: real
    var acceleration: real
    var destination: Option<Point>

    constructor (speed: real, angularSpeed: real, acceleration: real)
      ensures !isStopped && updateRotation && destination == None
      ensures this.speed == speed && this.angularSpeed == angularSpeed && this.acceleration == acceleration
    {
      isStopped, updateRotation := false, true;
      this.speed, this.angularSpeed, this.acceleration := speed, angularSpeed, acceleration;
      destination := None;
    }

    /** NavMeshAgent.SetDestination. */
    method SetDestination(point: Point)
      modifies this`destination
      ensures destination == Some(point)
    {
      destination := Some(point);
    }
  }

  /** NavMeshPathStatus and the path NavMesh.CalculatePath fills in. */
  datatype PathStatus = PathComplete | PathPartial | PathInvalid
  datatype NavMeshPath = NavMeshPath(status: PathStatus, corners: seq<Point>)

  /** A target found by a scan: where it is. */
  datatype ScannerTarget = ScannerTarget(position: Point)

  /** One AddDirections call: the target and the path corners leading to it. */
  datatype Direction = Direction(target: ScannerTarget, corners: seq<Point>)

  /** The scanner script. ScanFinished and Targets are whatever the scan
      produced; the behaviours only read them. */
  class ScannerScript {
    var scanFinished: bool
    var targets: seq<ScannerTarget>
    /** The directions added since the last RemoveDirections, in order. */
    var directions: seq<Direction>
    /** How many times InitiateScan was called. */
    var scansInitiated: nat

    constructor ()
      ensures !scanFinished && targets == [] && directions == [] && scansInitiated == 0
    {
      scanFinished, targets, directions, scansInitiated := false, [], [], 0;
    }

    method InitiateScan()
      modifies this`scansInitiated
      ensures scansInitiated == old(scansInitiated) + 1
    {
      scansInitiated := scansInitiated + 1;
    }

    method AddDirections(target: ScannerTarget, corners: seq<Point>)
      modifies this`directions
      ensures directions == old(directions) + [Direction(target, corners)]
    {
      directions := directions + [Direction(target, corners)];
    }

    method RemoveDirections()
      modifies this`directions
      ensures directions == []
    {
      directions := [];
    }
  }

  /** DroneShooting: the aim points Shoot was called towards. */
  class DroneShooting {
    var shots: seq<Point>

    constructor ()
      ensures shots == []
    {
      shots := [];
    }

    method Shoot(aim: Point)
      modifies this`shots
      ensures shots == old(shots) + [aim]
    {
      shots := shots + [aim];
    }
  }

  /** DroneLogic: the attack settings, the current target, the modes shown
      by the signal light, and the parts it owns. */
  class DroneLogic {
    const attackSpeed: real
    const attackAngularSpeed: real
    const attackAcceleration: real
    const maxDistance: real
    const maxAttackAngle: real
    const shield: DroneShieldScript
    const scanner: ScannerScript
    /** SignalLight.DronMode. */
    var signalLightMode: DronMode
    /** CurrentTarget's position, None when there is no target. */
    var currentTarget: Option<Point>
    /** Set by StartAttackMode, cleared by EndAttackMode. */
    var attackModeOn: bool
    /** How many times SwitchTarget was called. */
    var switchTargetCalls: nat

    constructor (attackSpeed: real, attackAngularSpeed: real, attackAcceleration: real,
                 maxDistance: real, maxAttackAngle: real,
                 shield: DroneShieldScript, scanner: ScannerScript, mode0: DronMode)
      ensures this.attackSpeed == attackSpeed && this.attackAngularSpeed == attackAngularSpeed
      ensures this.attackAcceleration == attackAcceleration
      ensures this.maxDistance == maxDistance && this.maxAttackAngle == maxAttackAngle
      ensures this.shield == shield && this.scanner == scanner
      ensures signalLightMode == mode0 && currentTarget == None && !attackModeOn && switchTargetCalls == 0
    {
      this.attackSpeed, this.attackAngularSpeed, this.attackAcceleration := attackSpeed, attackAngularSpeed, attackAcceleration;
      this.maxDistance, this.maxAttackAngle := maxDistance, maxAttackAngle;
      this.shield, this.scanner := shield, scanner;
      signalLightMode, currentTarget, attackModeOn, switchTargetCalls := mode0, None, false, 0;
    }

    /** SwitchTarget: its policy is not part of this model; `chosen` is the
        target it settles on. */
    method SwitchTarget(chosen: Option<Point>)
      modifies this`currentTarget, this`switchTargetCalls
      ensures currentTarget == chosen && switchTargetCalls == old(switchTargetCalls) + 1
    {
      currentTarget := chosen;
      switchTargetCalls := switchTargetCalls + 1;
    }

    method StartAttackMode()
      modifies this`attackModeOn
      ensures attackModeOn
    {
      attackModeOn := true;
    }

    method EndAttackMode()
      modifies this`attackModeOn
      ensures !attackModeOn
    {
      attackModeOn := false;
    }
  }
}

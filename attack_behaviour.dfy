/** AttackBehaviour: the Attack state of the drone's mode state machine. On
    entry the drone takes its attack steering settings; on every update it
    lets DroneLogic switch targets, picks a new destination every tenth
    frame once it has arrived, and fires at the current target when the
    target is inside its attack cone with no building in between. */
module Attacking {
  import opened DroneTypes
  import opened Collaborators

  /** The destination is re-chosen only on frames whose number is a multiple of this. */
  const DestinationFrameStride: nat := 10
  /** How far above the target's base the drone aims. */
  const AimLift: real := 2.0
  /** The radius of the random point computed around a target and then discarded. */
  const TargetSearchRadius: real := 10.0

  /** The aim point: the target's position, raised. */
  function AimPoint(target: Point): (aim: Point)
    ensures aim.x == target.x && aim.z == target.z && aim.y == target.y + AimLift
  {
    target.(y := target.y + AimLift)
  }

  /** CanSeeTarget, given the angle between the direction to the aim point
      and the drone's forward vector, and whether a linecast to the aim
      point hits the Buildings layer. */
  function CanSeeTarget(angleFromForward: real, maxAttackAngle: real, buildingsInBetween: bool): (visible: bool)
    ensures angleFromForward >= maxAttackAngle ==> !visible
    ensures angleFromForward < maxAttackAngle ==> (visible <==> !buildingsInBetween)
  {
    if angleFromForward < maxAttackAngle then !buildingsInBetween else false
  }

  /** The destination after an update. GetRandomDestination(centre, radius)
      is the navigation service's random point around centre. */
  function NextDestination(frameCount: nat, destinationReached: bool, target: Option<Point>, player: Point,
                           maxDistance: real, randomDestination: (Point, real) -> Point,
                           destination: Option<Point>): (d: Option<Point>)
    ensures !(frameCount % DestinationFrameStride == 0 && destinationReached) ==> d == destination
    ensures frameCount % DestinationFrameStride == 0 && destinationReached ==>
      d == Some(if target.None? then randomDestination(player, maxDistance) else target.value)
  {
    if frameCount % DestinationFrameStride == 0 && destinationReached then
      if target.None? then Some(randomDestination(player, maxDistance)) else Some(target.value)
    else destination
  }

  /** The shots an update fires: one, at the raised aim point, exactly when
      there is a target and CanSeeTarget holds for that aim point. */
  function Volley(target: Option<Point>, maxAttackAngle: real,
                  angleFromForward: Point -> real, buildingsInBetween: Point -> bool): (shots: seq<Point>)
    ensures target.None? ==> shots == []
    ensures |shots| <= 1
    ensures target.Some? ==>
      (shots != [] <==> CanSeeTarget(angleFromForward(AimPoint(target.value)), maxAttackAngle,
                                     buildingsInBetween(AimPoint(target.value))))
    ensures forall p :: p in shots ==> target.Some? && p == AimPoint(target.value)
  {
    if target.None? then []
    else
      var aim := AimPoint(target.value);
      if CanSeeTarget(angleFromForward(aim), maxAttackAngle, buildingsInBetween(aim)) then [aim] else []
  }

  class AttackBehaviour {
    const agent: NavAgent
    const logic: DroneLogic
    /** The DroneShooting component among the drone's children. */
    const droneShooting: DroneShooting
    /** shootingLogic: null until the state is first entered. */
    var shootingLogic: DroneShooting?

    constructor (agent: NavAgent, logic: DroneLogic, droneShooting: DroneShooting)
      ensures this.agent == agent && this.logic == logic && this.droneShooting == droneShooting
      ensures shootingLogic == null
    {
      this.agent, this.logic, this.droneShooting := agent, logic, droneShooting;
      shootingLogic := null;
    }

    /** OnStateEnter. The shield has run Start by the time a mode is entered. */
    method OnStateEnter()
      requires logic.shield.shieldMaterial.Some?
      modifies this`shootingLogic, logic`signalLightMode, logic`attackModeOn,
               logic.shield`droneMode, logic.shield`shieldMaterial,
               agent`updateRotation, agent`speed, agent`angularSpeed, agent`acceleration
      ensures shootingLogic == droneShooting
      ensures logic.signalLightMode == Attack
      ensures logic.shield.DronMode() == Attack && logic.shield.ShowsMode()
      ensures logic.attackModeOn
      ensures !agent.updateRotation
      ensures agent.speed == logic.attackSpeed && agent.angularSpeed == logic.attackAngularSpeed
      ensures agent.acceleration == logic.attackAcceleration
    {
      shootingLogic := droneShooting;
      logic.signalLightMode := Attack;
      var outcome := logic.shield.SetDronMode(Attack);
      logic.StartAttackMode();
      agent.updateRotation := false;
      agent.speed := logic.attackSpeed;
      agent.angularSpeed := logic.attackAngularSpeed;
      agent.acceleration := logic.attackAcceleration;
    }

    /** OnStateUpdate on the frame numbered frameCount. chosenTarget is the
        target SwitchTarget settles on, destinationReached what
        DestinationReached() reports, angleFromForward and buildingsInBetween
        the cone angle and the Buildings linecast towards a point. The angle
        is measured against the drone's forward vector once this frame's
        turn towards the target is applied. */
    method OnStateUpdate(frameCount: nat, chosenTarget: Option<Point>, destinationReached: bool, player: Point,
                         randomDestination: (Point, real) -> Point,
                         angleFromForward: Point -> real, buildingsInBetween: Point -> bool)
      requires shootingLogic != null
      modifies logic`currentTarget, logic`switchTargetCalls, agent`destination, shootingLogic`shots
      ensures logic.switchTargetCalls == old(logic.switchTargetCalls) + 1
      ensures logic.currentTarget == chosenTarget
      ensures agent.destination == NextDestination(frameCount, destinationReached, chosenTarget, player,
                                                   logic.maxDistance, randomDestination, old(agent.destination))
      ensures shootingLogic.shots == old(shootingLogic.shots)
                                     + Volley(chosenTarget, logic.maxAttackAngle, angleFromForward, buildingsInBetween)
    {
      logic.SwitchTarget(chosenTarget);

      if frameCount % DestinationFrameStride == 0 && destinationReached {
        if logic.currentTarget.None? {
          var destination := randomDestination(player, logic.maxDistance);
          agent.SetDestination(destination);
        } else {
          var discarded := randomDestination(logic.currentTarget.value, TargetSearchRadius);
          agent.SetDestination(logic.currentTarget.value);
        }
      }

      if logic.currentTarget.Some? {
        var target := logic.currentTarget.value;
        target := target.(y := target.y + AimLift);
        if CanSeeTarget(angleFromForward(target), logic.maxAttackAngle, buildingsInBetween(target)) {
          shootingLogic.Shoot(target);
        }
      }
    }

    /** OnStateExit: the agent steers its own rotation again and DroneLogic
        leaves attack mode; the attack speeds stay as they are. */
    method OnStateExit()
      modifies agent`updateRotation, logic`attackModeOn
      ensures agent.updateRotation && !logic.attackModeOn
    {
      agent.updateRotation := true;
      logic.EndAttackMode();
    }
  }
}

/**
 * The Player object of Player.js and the ball it kicks. Each method changes
 * the fields in place as the JavaScript does and is proved to have the
 * effect of the matching function of module PlayerActions.
 */
module Players {
  import opened Wrappers
  import opened Kinematics
  import opened PlayerActions

  /** The ball as a kick sees it: a mutable state and a maximum speed. */
  class Ball {
    var state: BallState
    const maxSpeed: real

    constructor (state: BallState, maxSpeed: real)
      ensures this.state == state && this.maxSpeed == maxSpeed
    {
      this.state := state;
      this.maxSpeed := maxSpeed;
    }
  }

  /** A player's skills, fixed when the player is created. */
  datatype Skills = Skills(runningAbility: real, passingAbility: real)

  /** The action state a new player starts with. */
  const NoAction: ActionState := ActionState(NONE, Position(0.0, 0.0), 0.0, 0.0, Position(0.0, 0.0), 0.0)

  /** What getDTO hands out: the action state only when publicOnly is false. */
  datatype PlayerDTO = PlayerDTO(dynamic: DynamicState, config: StaticState, action: Option<ActionState>)

  class Player {
    var dynamicState: DynamicState
    const staticState: StaticState
    var actionState: ActionState

    function State(): PlayerState
      reads this
    {
      PlayerState(dynamicState, staticState, actionState)
    }

    constructor (playerNumber: int, playerType: PlayerType, skills: Skills, start: DynamicState)
      ensures staticState == StaticState(playerNumber, playerType, skills.runningAbility, skills.passingAbility)
      ensures dynamicState == start
      ensures actionState == NoAction
    {
      dynamicState := start;
      staticState := StaticState(playerNumber, playerType, skills.runningAbility, skills.passingAbility);
      actionState := NoAction;
    }

    function IsPlayer(): (b: bool)
      ensures b <==> staticState.playerType == PLAYER
    {
      staticState.playerType == PLAYER
    }

    function IsGoalkeeper(): (b: bool)
      ensures b <==> staticState.playerType == GOALKEEPER
    {
      staticState.playerType == GOALKEEPER
    }

    /** Player.getSpeed: zero without running ability or energy, never above MAX_SPEED. */
    function GetSpeed(): (speed: real)
      reads this
      ensures staticState.runningAbility == 0.0 || dynamicState.energy == 0.0 ==> speed == 0.0
      ensures 0.0 <= staticState.runningAbility <= 100.0 && 0.0 <= dynamicState.energy <= MAX_ENERGY ==> 0.0 <= speed <= MAX_SPEED
      ensures staticState.runningAbility == 100.0 && dynamicState.energy == MAX_ENERGY ==> speed == MAX_SPEED
    {
      Speed(staticState, dynamicState)
    }

    function GetDTO(publicOnly: bool): (dto: PlayerDTO)
      reads this
      ensures dto.dynamic == dynamicState && dto.config == staticState
      ensures dto.action.None? <==> publicOnly
      ensures dto.action.Some? ==> dto.action.value == actionState
    {
      PlayerDTO(dynamicState, staticState, if publicOnly then None else Some(actionState))
    }

    method ProcessAction(game: GameView, ball: Ball, r1: real, r2: real)
      modifies this, ball
      ensures Tick(State(), ball.state) == ProcessActionTick(old(State()), old(ball.state), game, ball.maxSpeed, r1, r2)
    {
      var action := actionState.action;
      if action == NONE {
        return;
      }
      match action {
        case TURN => ProcessTurn(game, true);
        case MOVE => ProcessMove(game, true);
        case KICK => ProcessKick(game, ball, r1, r2);
      }
    }

    method ProcessTurn(game: GameView, resetActionWhenComplete: bool)
      modifies this
      ensures State() == TurnTick(old(State()), game, resetActionWhenComplete)
    {
      ghost var p0 := State();
      var currentDirection := dynamicState.direction;
      var desiredDirection := actionState.direction;

      var angleToTurn := desiredDirection - currentDirection;
      if angleToTurn > 180.0 {
        angleToTurn := angleToTurn - 360.0;
      }
      if angleToTurn < -180.0 {
        angleToTurn := 360.0 + angleToTurn;
      }

      assert angleToTurn == ShortestDelta(currentDirection, desiredDirection);

      var directionToTurn := 1.0;
      if angleToTurn < 0.0 {
        angleToTurn := -1.0 * angleToTurn;
        directionToTurn := -1.0;
      }
      assert angleToTurn == Abs(ShortestDelta(currentDirection, desiredDirection));

      var maxAngle := MAX_TURNING_RATE * game.calculationIntervalSeconds;
      if angleToTurn > maxAngle {
        angleToTurn := maxAngle;
      }

      assert angleToTurn * directionToTurn == TurnRotation(currentDirection, desiredDirection, maxAngle);
      var newDirection := currentDirection + angleToTurn * directionToTurn;
      ghost var unwrapped := newDirection;
      assert TurnDirection(currentDirection, desiredDirection, maxAngle) == Wrap360(unwrapped);
      if newDirection > 360.0 {
        newDirection := newDirection - 360.0;
      }
      if newDirection < 0.0 {
        newDirection := newDirection + 360.0;
      }
      assert newDirection == Wrap360(unwrapped);
      assert newDirection == TurnDirection(currentDirection, desiredDirection, maxAngle);
      assert maxAngle == MaxTurn(game);

      dynamicState := dynamicState.(direction := newDirection);
      assert State() == p0.(dynamicState := p0.dynamicState.(direction := newDirection));

      if game.helpers.approxEqual(newDirection, desiredDirection) && resetActionWhenComplete {
        actionState := actionState.(action := NONE);
      }
    }

    method ProcessMove(game: GameView, resetActionWhenComplete: bool)
      modifies this
      ensures State() == MoveTick(old(State()), game, resetActionWhenComplete)
    {
      ghost var p0 := State();
      var h := game.helpers;
      var position := dynamicState.position;
      var destination := actionState.moveDestination;

      var currentDirection := dynamicState.direction;
      var directionToDestination := h.angleBetween(position, destination);
      if !h.approxEqual(currentDirection, directionToDestination) {
        actionState := actionState.(direction := directionToDestination);
        ProcessTurn(game, false);
        return;
      }

      var distanceToDestination := h.distanceTo(position, destination);
      var distanceToMove := GetSpeed() * game.calculationIntervalSeconds;
      if distanceToDestination < distanceToMove {
        distanceToMove := distanceToDestination;
      }

      var vectorToDestination := h.vectorTo(position, destination);
      var scaleFactor := if distanceToDestination == 0.0 then 0.0 else distanceToMove / distanceToDestination;
      assert scaleFactor == MoveFraction(p0, game);
      var scaledVector := h.scale(vectorToDestination, scaleFactor);

      position := h.addVector(position, scaledVector);
      dynamicState := dynamicState.(position := position);
      assert State() == p0.(dynamicState := p0.dynamicState.(position := position));

      if h.positionsApproxEqual(position, destination) && resetActionWhenComplete {
        actionState := actionState.(action := NONE);
      }
    }

    method ProcessKick(game: GameView, ball: Ball, r1: real, r2: real)
      modifies this, ball
      ensures Tick(State(), ball.state) == KickTickAsWritten(old(State()), old(ball.state), game, ball.maxSpeed, r1, r2)
    {
      if !dynamicState.hasBall {
        actionState := actionState.(action := NONE);
        return;
      }

      var h := game.helpers;
      var position := dynamicState.position;
      var desiredDirection := h.angleBetween(position, actionState.kickDestination);

      var maxSkillVariation := (100.0 - staticState.passingAbility) / 100.0 * 360.0;
      var skillVariation := r1 * maxSkillVariation - maxSkillVariation / 2.0;

      var differenceInAngle := Abs(desiredDirection - dynamicState.direction);
      var maxAngleVariation := differenceInAngle / 180.0 * 90.0;
      var angleVariation := r2 * maxAngleVariation - maxAngleVariation / 2.0;

      var direction := desiredDirection + skillVariation + angleVariation;
      assert direction == KickDirectionAsWritten(desiredDirection, dynamicState.direction, staticState.passingAbility, r1, r2);
      var vector := h.vectorFromDirection(direction);

      ball.state := ball.state.(vector := vector,
                                speed := actionState.kickSpeed / 100.0 * ball.maxSpeed,
                                controllingPlayerNumber := -1);

      dynamicState := dynamicState.(hasBall := false);
      actionState := actionState.(action := NONE);
    }

    /** Install a command; on an error nothing changes and the error is returned. */
    method SetAction(c: Command) returns (error: Option<ActionError>)
      modifies this
      ensures dynamicState == old(dynamicState)
      ensures match PlayerActions.SetAction(old(actionState), c)
              case Ok(a) => error.None? && actionState == a
              case Err(e) => error == Some(e) && actionState == old(actionState)
    {
      if c.action.None? {
        return Some(MissingActionField);
      }
      var tag := c.action.value;
      if tag == "MOVE" {
        error := SetActionMove(c);
      } else if tag == "TURN" {
        error := SetActionTurn(c);
      } else if tag == "KICK" {
        error := SetActionKick(c);
      } else {
        error := Some(NoHandler(tag));
      }
    }

    method SetActionMove(c: Command) returns (error: Option<ActionError>)
      modifies this
      ensures dynamicState == old(dynamicState)
      ensures match PlayerActions.SetActionMove(old(actionState), c)
              case Ok(a) => error.None? && actionState == a
              case Err(e) => error == Some(e) && actionState == old(actionState)
    {
      if c.destination.None? {
        return Some(MissingField("MOVE", "destination"));
      }
      if c.speed.None? {
        return Some(MissingField("MOVE", "speed"));
      }
      actionState := actionState.(action := MOVE);
      actionState := actionState.(moveDestination := c.destination.value);
      actionState := actionState.(moveSpeed := c.speed.value);
      error := None;
    }

    method SetActionTurn(c: Command) returns (error: Option<ActionError>)
      modifies this
      ensures dynamicState == old(dynamicState)
      ensures match PlayerActions.SetActionTurn(old(actionState), c)
              case Ok(a) => error.None? && actionState == a
              case Err(e) => error == Some(e) && actionState == old(actionState)
    {
      if c.direction.None? {
        return Some(MissingField("TURN", "direction"));
      }
      actionState := actionState.(action := TURN);
      actionState := actionState.(direction := c.direction.value);
      error := None;
    }

    method SetActionKick(c: Command) returns (error: Option<ActionError>)
      modifies this
      ensures dynamicState == old(dynamicState)
      ensures match PlayerActions.SetActionKick(old(actionState), c)
              case Ok(a) => error.None? && actionState == a
              case Err(e) => error == Some(e) && actionState == old(actionState)
    {
      if c.destination.None? {
        return Some(MissingField("KICK", "destination"));
      }
      if c.speed.None? {
        return Some(MissingField("KICK", "speed"));
      }
      actionState := actionState.(action := KICK);
      actionState := actionState.(kickDestination := c.destination.value);
      actionState := actionState.(kickSpeed := c.speed.value);
      error := None;
    }
  }

  /** A player is exactly one of an outfield player and a goalkeeper. */
  lemma PlayerOrGoalkeeper(p: Player)
    ensures p.IsPlayer() != p.IsGoalkeeper()
  {
  }
}

/**
 * The state of one player and what one calculation tick does to it.
 *
 * Player.js keeps three sub-states per player (dynamic, static and action)
 * and changes them in place; here each tick is a function from the old
 * state to the new one, and the class in module Players is proved to
 * perform exactly these functions.
 */
module PlayerActions {
  import opened Wrappers
  import opened Kinematics

  /** Running speed, in metres per second, at full ability and full energy. */
  const MAX_SPEED: real := 10.0
  /** The energy every player starts with. */
  const MAX_ENERGY: real := 100.0
  /** The fastest a player turns, in degrees per second. */
  const MAX_TURNING_RATE: real := 600.0

  datatype PlayerType = PLAYER | GOALKEEPER

  datatype Action = NONE | MOVE | TURN | KICK

  datatype DynamicState = DynamicState(position: Position, direction: real, energy: real, hasBall: bool)

  datatype StaticState = StaticState(playerNumber: int, playerType: PlayerType, runningAbility: real, passingAbility: real)

  /** The current action and the parameters every action kind keeps. */
  datatype ActionState = ActionState(
    action: Action,
    moveDestination: Position,
    moveSpeed: real,
    direction: real,
    kickDestination: Position,
    kickSpeed: real)

  datatype PlayerState = PlayerState(dynamicState: DynamicState, staticState: StaticState, actionState: ActionState)

  datatype BallState = BallState(position: Position, vector: Vector, speed: real, controllingPlayerNumber: int)

  /** What a calculation tick reads from the game. */
  datatype GameView = GameView(calculationIntervalSeconds: real, helpers: Helpers)

  /** The player and the ball after a tick. */
  datatype Tick = Tick(player: PlayerState, ball: BallState)

  // ---------------------------------------------------------------- speed

  /** Player.getSpeed: running ability and energy, both percentages, scale the maximum speed. */
  function Speed(s: StaticState, d: DynamicState): (speed: real)
    ensures s.runningAbility == 0.0 || d.energy == 0.0 ==> speed == 0.0
    ensures 0.0 <= s.runningAbility <= 100.0 && 0.0 <= d.energy <= MAX_ENERGY ==> 0.0 <= speed <= MAX_SPEED
    ensures s.runningAbility == 100.0 && d.energy == MAX_ENERGY ==> speed == MAX_SPEED
  {
    var runningAbility := s.runningAbility / 100.0;
    var energy := d.energy / 100.0;
    SpeedBound(runningAbility, energy);
    runningAbility * energy * MAX_SPEED
  }

  lemma SpeedBound(a: real, e: real)
    ensures 0.0 <= a <= 1.0 && 0.0 <= e <= 1.0 ==> 0.0 <= a * e <= 1.0
  {
    if 0.0 <= a <= 1.0 && 0.0 <= e <= 1.0 {
      assert a * e <= 1.0 * e;
    }
  }

  // ----------------------------------------------------------------- TURN

  /**
   * The signed turn from the current to the desired direction, brought
   * into [-180, 180] by one correction of 360 degrees either way.
   */
  function ShortestDelta(current: real, desired: real): (delta: real)
    ensures InDegrees(current) && InDegrees(desired) ==> -180.0 <= delta <= 180.0
    ensures delta == desired - current || delta == desired - current - 360.0 || delta == desired - current + 360.0
  {
    var angleToTurn := desired - current;
    var angleToTurn' := if angleToTurn > 180.0 then angleToTurn - 360.0 else angleToTurn;
    if angleToTurn' < -180.0 then 360.0 + angleToTurn' else angleToTurn'
  }

  /** No other turn that ends facing the desired direction is shorter. */
  lemma ShortestDeltaIsShortest(current: real, desired: real, turns: int)
    requires InDegrees(current) && InDegrees(desired)
    ensures Abs(ShortestDelta(current, desired)) <= Abs(desired - current + 360.0 * turns as real)
  {

  }

  /**
   * The rotation carried out in one tick: the shortest turn, with its
   * magnitude capped at maxAngle.
   */
  function TurnRotation(current: real, desired: real, maxAngle: real): (rotation: real)
    ensures 0.0 <= maxAngle ==> Abs(rotation) == Min(Abs(ShortestDelta(current, desired)), maxAngle)
    ensures 0.0 <= maxAngle ==> Abs(rotation) <= maxAngle
    ensures 0.0 <= maxAngle && rotation < 0.0 ==> ShortestDelta(current, desired) < 0.0
    ensures 0.0 <= maxAngle && rotation > 0.0 ==> ShortestDelta(current, desired) > 0.0
    ensures Abs(ShortestDelta(current, desired)) <= maxAngle ==> rotation == ShortestDelta(current, desired)
  {
    var delta := ShortestDelta(current, desired);
    var angleToTurn := Abs(delta);
    var directionToTurn := if delta < 0.0 then -1.0 else 1.0;
    var capped := if angleToTurn > maxAngle then maxAngle else angleToTurn;
    capped * directionToTurn
  }

  /** A direction that has gone past 360 or below 0 by one turn is brought back. */
  function Wrap360(direction: real): (wrapped: real)
    ensures -360.0 <= direction <= 720.0 ==> InDegrees(wrapped)
    ensures wrapped == direction || wrapped == direction - 360.0 || wrapped == direction + 360.0
    ensures InDegrees(direction) ==> wrapped == direction
  {
    var d := if direction > 360.0 then direction - 360.0 else direction;
    if d < 0.0 then d + 360.0 else d
  }

  /** k whole turns, in degrees. */
  function Turns(k: int): real
  {
    360.0 * k as real
  }

  /**
   * The direction a player faces after one tick of turning. When the turn
   * is not capped it faces the desired direction, up to whole turns, for
   * any desired direction an AI sends.
   */
  function TurnDirection(current: real, desired: real, maxAngle: real): (newDirection: real)
    ensures InDegrees(current) && 0.0 <= maxAngle <= 360.0 ==> InDegrees(newDirection)
    ensures Abs(ShortestDelta(current, desired)) <= maxAngle ==>
              exists k :: -2 <= k <= 2 && newDirection == desired + Turns(k)
  {
    UncappedTurnArrives(current, desired, maxAngle);
    Wrap360(current + TurnRotation(current, desired, maxAngle))
  }

  lemma UncappedTurnArrives(current: real, desired: real, maxAngle: real)
    ensures Abs(ShortestDelta(current, desired)) <= maxAngle ==>
              exists k :: -2 <= k <= 2 && Wrap360(current + TurnRotation(current, desired, maxAngle)) == desired + Turns(k)
  {
    if Abs(ShortestDelta(current, desired)) <= maxAngle {
      var delta := ShortestDelta(current, desired);
      var m := if delta == desired - current then 0 else if delta == desired - current - 360.0 then -1 else 1;
      var sum := current + TurnRotation(current, desired, maxAngle);
      assert sum == desired + Turns(m);
      var w := if Wrap360(sum) == sum then 0 else if Wrap360(sum) == sum - 360.0 then -1 else 1;
      assert Wrap360(sum) == desired + Turns(m + w);
    }
  }

  /** The largest turn one tick allows. */
  function MaxTurn(game: GameView): real
  {
    MAX_TURNING_RATE * game.calculationIntervalSeconds
  }

  /**
   * Player._processAction_TURN: turn towards actionState.direction; clear
   * the action once facing it, but only when resetActionWhenComplete is set.
   */
  function TurnTick(p: PlayerState, game: GameView, resetActionWhenComplete: bool): (q: PlayerState)
    ensures q.staticState == p.staticState
    ensures q.dynamicState == p.dynamicState.(direction := TurnDirection(p.dynamicState.direction, p.actionState.direction, MaxTurn(game)))
    ensures q.actionState == p.actionState || q.actionState == p.actionState.(action := NONE)
  {
    var desired := p.actionState.direction;
    var newDirection := TurnDirection(p.dynamicState.direction, desired, MaxTurn(game));
    var turned := p.(dynamicState := p.dynamicState.(direction := newDirection));
    if game.helpers.approxEqual(newDirection, desired) && resetActionWhenComplete then
      turned.(actionState := turned.actionState.(action := NONE))
    else
      turned
  }

  /** Turning changes the direction and possibly the action tag, nothing else. */
  lemma TurnResetRule(p: PlayerState, game: GameView, resetActionWhenComplete: bool)
    ensures var q := TurnTick(p, game, resetActionWhenComplete);
      && q.staticState == p.staticState
      && q.dynamicState == p.dynamicState.(direction := q.dynamicState.direction)
      && q.actionState == p.actionState.(action := q.actionState.action)
      && (q.actionState.action != p.actionState.action <==>
            p.actionState.action != NONE && resetActionWhenComplete &&
            game.helpers.approxEqual(q.dynamicState.direction, p.actionState.direction))
      && (!resetActionWhenComplete ==> q.actionState == p.actionState)
  {
  }

  // ----------------------------------------------------------------- MOVE

  /** The distance covered this tick: one step, cut short at the destination. */
  function DistanceToMove(distanceToDestination: real, step: real): (distance: real)
    ensures distance == Min(distanceToDestination, step)
    ensures distance <= distanceToDestination
    ensures step <= distanceToDestination ==> distance == step
  {
    if distanceToDestination < step then distanceToDestination else step
  }

  /**
   * The fraction of the vector to the destination that is travelled. Where
   * the player already stands on the destination the fraction is 0; see
   * ScaleFactorAsWritten for what Player.js computes there.
   */
  function ScaleFactor(distanceToDestination: real, distanceToMove: real): (f: real)
    ensures distanceToDestination == 0.0 ==> f == 0.0
    ensures distanceToDestination != 0.0 ==> f * distanceToDestination == distanceToMove
    ensures 0.0 < distanceToDestination && 0.0 <= distanceToMove <= distanceToDestination ==> 0.0 <= f <= 1.0
    ensures 0.0 < distanceToDestination ==> (f == 1.0 <==> distanceToMove == distanceToDestination)
  {
    if distanceToDestination == 0.0 then 0.0 else distanceToMove / distanceToDestination
  }

  /**
   * Player.js line 181 as written: distanceToMove / distanceToDestination,
   * where a zero distance gives 0/0, which is NaN in JavaScript (None here).
   */
  function ScaleFactorAsWritten(distanceToDestination: real, distanceToMove: real): (f: Option<real>)
    ensures f.None? <==> distanceToDestination == 0.0
    ensures f.Some? ==> f.value == ScaleFactor(distanceToDestination, distanceToMove)
  {
    if distanceToDestination == 0.0 then None else Some(distanceToMove / distanceToDestination)
  }

  /** True when the player faces the direction of its move destination. */
  predicate FacingDestination(p: PlayerState, h: Helpers)
  {
    h.approxEqual(p.dynamicState.direction, h.angleBetween(p.dynamicState.position, p.actionState.moveDestination))
  }

  /** getSpeed() times the calculation interval: the most a player covers in one tick. */
  function Step(p: PlayerState, game: GameView): real
  {
    Speed(p.staticState, p.dynamicState) * game.calculationIntervalSeconds
  }

  /** The scale factor a facing player applies to the vector to its destination. */
  function MoveFraction(p: PlayerState, game: GameView): real
  {
    var h := game.helpers;
    var distanceToDestination := h.distanceTo(p.dynamicState.position, p.actionState.moveDestination);
    ScaleFactor(distanceToDestination, DistanceToMove(distanceToDestination, Step(p, game)))
  }

  /**
   * Player._processAction_MOVE: a player not facing its destination turns
   * towards it as a nested, non-resetting TURN; otherwise it moves one step
   * towards the destination.
   */
  function MoveTick(p: PlayerState, game: GameView, resetActionWhenComplete: bool): (q: PlayerState)
    ensures q.staticState == p.staticState
    ensures q.dynamicState.energy == p.dynamicState.energy && q.dynamicState.hasBall == p.dynamicState.hasBall
    ensures q.actionState.moveDestination == p.actionState.moveDestination
    ensures q.actionState.action == p.actionState.action || (resetActionWhenComplete && q.actionState.action == NONE)
    ensures q.dynamicState.position == p.dynamicState.position || q.dynamicState.direction == p.dynamicState.direction
  {
    var h := game.helpers;
    var position := p.dynamicState.position;
    var destination := p.actionState.moveDestination;
    var directionToDestination := h.angleBetween(position, destination);
    if !h.approxEqual(p.dynamicState.direction, directionToDestination) then
      TurnTick(p.(actionState := p.actionState.(direction := directionToDestination)), game, false)
    else
      var newPosition := h.addVector(position, h.scale(h.vectorTo(position, destination), MoveFraction(p, game)));
      var moved := p.(dynamicState := p.dynamicState.(position := newPosition));
      if h.positionsApproxEqual(newPosition, destination) && resetActionWhenComplete then
        moved.(actionState := moved.actionState.(action := NONE))
      else
        moved
  }

  /**
   * A player not yet facing its destination only turns: the action stays
   * what it was (MOVE), the position does not change, and the turn aims at
   * the destination.
   */
  lemma MoveTurnsFirst(p: PlayerState, game: GameView, resetActionWhenComplete: bool)
    requires !FacingDestination(p, game.helpers)
    ensures var q := MoveTick(p, game, resetActionWhenComplete);
      var target := game.helpers.angleBetween(p.dynamicState.position, p.actionState.moveDestination);
      && q.actionState == p.actionState.(direction := target)
      && q.dynamicState == p.dynamicState.(direction := TurnDirection(p.dynamicState.direction, target, MaxTurn(game)))
      && q.staticState == p.staticState
  {
  }

  /**
   * A facing player moves along the vector to its destination by a fraction
   * in [0, 1]: it never overshoots, it covers a whole step when the
   * destination is further than that, and it arrives exactly when the
   * destination is within one step.
   */
  lemma MoveNeverOvershoots(p: PlayerState, game: GameView, resetActionWhenComplete: bool)
    requires FacingDestination(p, game.helpers)
    requires 0.0 <= Step(p, game)
    requires Sound(game.helpers)
    ensures var h := game.helpers;
      var q := MoveTick(p, game, resetActionWhenComplete);
      var position := p.dynamicState.position;
      var destination := p.actionState.moveDestination;
      var distanceToDestination := h.distanceTo(position, destination);
      var f := MoveFraction(p, game);
      && 0.0 <= f <= 1.0
      && q.dynamicState == p.dynamicState.(position := h.addVector(position, h.scale(h.vectorTo(position, destination), f)))
      && f * distanceToDestination <= distanceToDestination
      && (Step(p, game) <= distanceToDestination ==> f * distanceToDestination == Step(p, game))
      && (0.0 < distanceToDestination <= Step(p, game) ==> f == 1.0)
      && q.staticState == p.staticState
      && q.actionState == p.actionState.(action := q.actionState.action)
  {

  }

  /**
   * Player.js as written reaches the division of line 181 with a zero
   * distance when the player stands on its destination and faces
   * angleBetween of that point with itself.
   */
  lemma MoveOntoOwnPositionDividesByZero(p: PlayerState, game: GameView)
    requires p.actionState.moveDestination == p.dynamicState.position
    requires p.dynamicState.direction == game.helpers.angleBetween(p.dynamicState.position, p.dynamicState.position)
    requires game.helpers.approxEqual(p.dynamicState.direction, p.dynamicState.direction)
    requires game.helpers.distanceTo(p.dynamicState.position, p.dynamicState.position) == 0.0
    ensures FacingDestination(p, game.helpers)
    ensures ScaleFactorAsWritten(
              game.helpers.distanceTo(p.dynamicState.position, p.actionState.moveDestination),
              DistanceToMove(game.helpers.distanceTo(p.dynamicState.position, p.actionState.moveDestination), Step(p, game))).None?
    ensures MoveFraction(p, game) == 0.0
  {
  }

  /**
   * Player.js lines 187-190: a facing MOVE ends exactly when the flag is set
   * and the new position approximately equals the destination; otherwise
   * the action state is untouched.
   */
  lemma MoveResetRule(p: PlayerState, game: GameView, resetActionWhenComplete: bool)
    requires FacingDestination(p, game.helpers)
    ensures var q := MoveTick(p, game, resetActionWhenComplete);
      && q.actionState == p.actionState.(action := q.actionState.action)
      && (q.actionState.action != p.actionState.action <==>
            p.actionState.action != NONE && resetActionWhenComplete &&
            game.helpers.positionsApproxEqual(q.dynamicState.position, p.actionState.moveDestination))
      && (q.actionState.action != p.actionState.action ==> q.actionState.action == NONE)
  {
  }

  /**
   * A facing MOVE at distance 0 applies the fraction 0; where adding the
   * zero-scaled vector leaves a point where it is, the player stays put and
   * nothing else in its dynamic state changes.
   */
  lemma ZeroDistanceMoveStays(p: PlayerState, game: GameView, resetActionWhenComplete: bool)
    requires FacingDestination(p, game.helpers)
    requires game.helpers.distanceTo(p.dynamicState.position, p.actionState.moveDestination) == 0.0
    requires game.helpers.addVector(p.dynamicState.position,
               game.helpers.scale(game.helpers.vectorTo(p.dynamicState.position, p.actionState.moveDestination), 0.0))
             == p.dynamicState.position
    ensures MoveFraction(p, game) == 0.0
    ensures MoveTick(p, game, resetActionWhenComplete).dynamicState == p.dynamicState
  {
  }

  // ----------------------------------------------------------------- KICK

  /** Up to 360 degrees of variation at 0 passing ability, none at 100. */
  function MaxSkillVariation(passingAbility: real): (maxVariation: real)
    ensures passingAbility == 100.0 ==> maxVariation == 0.0
    ensures passingAbility == 0.0 ==> maxVariation == 360.0
    ensures 0.0 <= passingAbility <= 100.0 ==> 0.0 <= maxVariation <= 360.0
  {
    (100.0 - passingAbility) / 100.0 * 360.0
  }

  /**
   * Player.js lines 235-236 as written: the plain difference of the two
   * angles, so facing 350 and kicking towards 10 counts as 340 degrees apart.
   */
  function MaxAngleVariationAsWritten(desiredDirection: real, facing: real): (maxVariation: real)
    ensures maxVariation >= 0.0
    ensures maxVariation == 0.0 <==> desiredDirection == facing
  {
    Abs(desiredDirection - facing) / 180.0 * 90.0
  }

  /**
   * The angle variation the kick comment describes: none when facing the
   * target, up to 90 degrees when facing away from it, measured the short
   * way round (the rule TURN uses).
   */
  function MaxAngleVariation(desiredDirection: real, facing: real): (maxVariation: real)
    ensures maxVariation >= 0.0
    ensures desiredDirection == facing ==> maxVariation == 0.0
    ensures InDegrees(desiredDirection) && InDegrees(facing) ==> maxVariation <= 90.0
    ensures maxVariation == Abs(ShortestDelta(facing, desiredDirection)) / 2.0
  {
    Abs(ShortestDelta(facing, desiredDirection)) / 180.0 * 90.0
  }

  /** The as-written variation exceeds the 90 degrees the comment allows. */
  lemma AngleVariationAsWrittenTooWide()
    ensures MaxAngleVariationAsWritten(10.0, 350.0) == 170.0
    ensures MaxAngleVariation(10.0, 350.0) == 10.0
    ensures MaxAngleVariationAsWritten(10.0, 350.0) > 90.0
  {

  }

  /** A draw r in [0, 1) spread over [-maxVariation/2, +maxVariation/2). */
  function Variation(r: real, maxVariation: real): (v: real)
    ensures maxVariation == 0.0 ==> v == 0.0
    ensures 0.0 <= r < 1.0 && 0.0 <= maxVariation ==> -maxVariation / 2.0 <= v <= maxVariation / 2.0
  {
    DrawBound(r, maxVariation);
    r * maxVariation - maxVariation / 2.0
  }

  lemma DrawBound(r: real, m: real)
    ensures 0.0 <= r < 1.0 && 0.0 <= m ==> 0.0 <= r * m <= m
  {
    if 0.0 <= r < 1.0 && 0.0 <= m {
      assert r * m <= 1.0 * m;
    }
  }

  /**
   * The direction the ball is kicked in, given the two random draws: the
   * desired direction plus a skill variation and an angle variation of at
   * most maxAngleVariation.
   */
  function KickDirectionWith(desiredDirection: real, passingAbility: real, maxAngleVariation: real, r1: real, r2: real): (direction: real)
    ensures 0.0 <= r1 < 1.0 && 0.0 <= r2 < 1.0 && 0.0 <= passingAbility <= 100.0 && 0.0 <= maxAngleVariation ==>
              Abs(direction - desiredDirection) <= MaxSkillVariation(passingAbility) / 2.0 + maxAngleVariation / 2.0
    ensures passingAbility == 100.0 && maxAngleVariation == 0.0 ==> direction == desiredDirection
  {
    var skillVariation := Variation(r1, MaxSkillVariation(passingAbility));
    var angleVariation := Variation(r2, maxAngleVariation);
    desiredDirection + skillVariation + angleVariation
  }

  /** Player.js lines 231-239 as written, with the unwrapped angle difference of line 235. */
  function KickDirectionAsWritten(desiredDirection: real, facing: real, passingAbility: real, r1: real, r2: real): (direction: real)
    ensures 0.0 <= r1 < 1.0 && 0.0 <= r2 < 1.0 && 0.0 <= passingAbility <= 100.0 ==>
              Abs(direction - desiredDirection) <= MaxSkillVariation(passingAbility) / 2.0 + MaxAngleVariationAsWritten(desiredDirection, facing) / 2.0
    ensures passingAbility == 100.0 && facing == desiredDirection ==> direction == desiredDirection
  {
    KickDirectionWith(desiredDirection, passingAbility, MaxAngleVariationAsWritten(desiredDirection, facing), r1, r2)
  }

  /**
   * The kick direction with the angle difference measured the short way
   * round: besides the skill variation, at most 45 degrees either side of
   * the desired direction.
   */
  function KickDirection(desiredDirection: real, facing: real, passingAbility: real, r1: real, r2: real): (direction: real)
    ensures 0.0 <= r1 < 1.0 && 0.0 <= r2 < 1.0 && 0.0 <= passingAbility <= 100.0 ==>
              Abs(direction - desiredDirection) <= MaxSkillVariation(passingAbility) / 2.0 + MaxAngleVariation(desiredDirection, facing) / 2.0
    ensures 0.0 <= r1 < 1.0 && 0.0 <= r2 < 1.0 && 0.0 <= passingAbility <= 100.0 && InDegrees(desiredDirection) && InDegrees(facing) ==>
              Abs(direction - desiredDirection) <= MaxSkillVariation(passingAbility) / 2.0 + 45.0
    ensures passingAbility == 100.0 && facing == desiredDirection ==> direction == desiredDirection
  {
    KickDirectionWith(desiredDirection, passingAbility, MaxAngleVariation(desiredDirection, facing), r1, r2)
  }

  /** The two angle rules give the same kick whenever the plain difference is at most 180 degrees. */
  lemma KickDirectionsAgreeWithin180(desiredDirection: real, facing: real, passingAbility: real, r1: real, r2: real)
    requires Abs(desiredDirection - facing) <= 180.0
    ensures KickDirectionAsWritten(desiredDirection, facing, passingAbility, r1, r2)
         == KickDirection(desiredDirection, facing, passingAbility, r1, r2)
  {
    assert ShortestDelta(facing, desiredDirection) == desiredDirection - facing;
  }

  /**
   * Facing 350 and kicking towards 10 with perfect passing: line 235 as
   * written can send the ball to -75 degrees, 85 degrees off target, where
   * the short-way rule stays within 5 degrees.
   */
  lemma KickAsWrittenOffTarget()
    ensures KickDirectionAsWritten(10.0, 350.0, 100.0, 0.5, 0.0) == -75.0
    ensures KickDirection(10.0, 350.0, 100.0, 0.5, 0.0) == 5.0
  {
    assert MaxAngleVariationAsWritten(10.0, 350.0) == 170.0;
    assert MaxAngleVariation(10.0, 350.0) == 10.0;
  }

  /** The direction of the kick destination as seen from the player. */
  function KickTarget(p: PlayerState, game: GameView): real
  {
    game.helpers.angleBetween(p.dynamicState.position, p.actionState.kickDestination)
  }

  /**
   * The effect of Player._processAction_KICK once the kick direction is
   * known: without the ball, only the action is cleared; with it, the ball
   * gets that direction, a speed and no controlling player, and the player
   * lets go of it.
   */
  function KickTickWith(p: PlayerState, ball: BallState, game: GameView, ballMaxSpeed: real, direction: real): (t: Tick)
    ensures t.player.staticState == p.staticState
    ensures t.player.actionState == p.actionState.(action := NONE)
    ensures t.player.dynamicState == p.dynamicState.(hasBall := false)
    ensures !p.dynamicState.hasBall ==> t.ball == ball
    ensures p.dynamicState.hasBall ==>
              && t.ball.vector == game.helpers.vectorFromDirection(direction)
              && t.ball.speed == p.actionState.kickSpeed / 100.0 * ballMaxSpeed
              && t.ball.controllingPlayerNumber == -1
              && t.ball.position == ball.position
  {
    if !p.dynamicState.hasBall then
      Tick(p.(actionState := p.actionState.(action := NONE)), ball)
    else
      var kicked := ball.(vector := game.helpers.vectorFromDirection(direction),
                          speed := p.actionState.kickSpeed / 100.0 * ballMaxSpeed,
                          controllingPlayerNumber := -1);
      Tick(p.(dynamicState := p.dynamicState.(hasBall := false),
              actionState := p.actionState.(action := NONE)),
           kicked)
  }

  /** Player._processAction_KICK as written: the direction follows line 235's unwrapped difference. */
  function KickTickAsWritten(p: PlayerState, ball: BallState, game: GameView, ballMaxSpeed: real, r1: real, r2: real): (t: Tick)
    ensures p.dynamicState.hasBall ==>
              t.ball.vector == game.helpers.vectorFromDirection(
                KickDirectionAsWritten(KickTarget(p, game), p.dynamicState.direction, p.staticState.passingAbility, r1, r2))
    ensures t.player.actionState.action == NONE && !t.player.dynamicState.hasBall
  {
    KickTickWith(p, ball, game, ballMaxSpeed,
                 KickDirectionAsWritten(KickTarget(p, game), p.dynamicState.direction, p.staticState.passingAbility, r1, r2))
  }

  /** The kick tick with the angle difference measured the short way round. */
  function KickTick(p: PlayerState, ball: BallState, game: GameView, ballMaxSpeed: real, r1: real, r2: real): (t: Tick)
    ensures p.dynamicState.hasBall ==>
              t.ball.vector == game.helpers.vectorFromDirection(
                KickDirection(KickTarget(p, game), p.dynamicState.direction, p.staticState.passingAbility, r1, r2))
    ensures t.player.actionState.action == NONE && !t.player.dynamicState.hasBall
  {
    KickTickWith(p, ball, game, ballMaxSpeed,
                 KickDirection(KickTarget(p, game), p.dynamicState.direction, p.staticState.passingAbility, r1, r2))
  }

  /** Both kick ticks coincide when the player faces within 180 degrees of the target, numerically. */
  lemma KickTicksAgreeWithin180(p: PlayerState, ball: BallState, game: GameView, ballMaxSpeed: real, r1: real, r2: real)
    requires Abs(KickTarget(p, game) - p.dynamicState.direction) <= 180.0
    ensures KickTickAsWritten(p, ball, game, ballMaxSpeed, r1, r2) == KickTick(p, ball, game, ballMaxSpeed, r1, r2)
  {
    KickDirectionsAgreeWithin180(KickTarget(p, game), p.dynamicState.direction, p.staticState.passingAbility, r1, r2);
  }

  // ------------------------------------------------------------- dispatch

  /** Player.processAction: run the current action once, as a top-level action. */
  function ProcessActionTick(p: PlayerState, ball: BallState, game: GameView, ballMaxSpeed: real, r1: real, r2: real): (t: Tick)
    ensures t.player.staticState == p.staticState
    ensures p.actionState.action != KICK ==> t.ball == ball
    ensures p.actionState.action == KICK ==> t.player.actionState.action == NONE
  {
    match p.actionState.action
    case NONE => Tick(p, ball)
    case TURN => Tick(TurnTick(p, game, true), ball)
    case MOVE => Tick(MoveTick(p, game, true), ball)
    case KICK => KickTickAsWritten(p, ball, game, ballMaxSpeed, r1, r2)
  }

  /** With no action, a tick changes nothing. */
  lemma ProcessNoneIsIdle(p: PlayerState, ball: BallState, game: GameView, ballMaxSpeed: real, r1: real, r2: real)
    requires p.actionState.action == NONE
    ensures ProcessActionTick(p, ball, game, ballMaxSpeed, r1, r2) == Tick(p, ball)
  {
  }

  /**
   * Only TURN and MOVE at top level may stop on arrival: a top-level TURN
   * ends exactly when the new direction approximately equals the desired
   * one, while a MOVE still turning towards its destination stays a MOVE.
   */
  lemma TopLevelTurnAndNestedTurn(p: PlayerState, ball: BallState, game: GameView, ballMaxSpeed: real, r1: real, r2: real)
    ensures var t := ProcessActionTick(p, ball, game, ballMaxSpeed, r1, r2);
      && (p.actionState.action == TURN ==>
            (t.player.actionState.action == NONE <==>
               game.helpers.approxEqual(t.player.dynamicState.direction, p.actionState.direction)))
      && (p.actionState.action == MOVE && !FacingDestination(p, game.helpers) ==>
            t.player.actionState.action == MOVE && t.player.dynamicState.position == p.dynamicState.position)
      && (p.actionState.action == MOVE && FacingDestination(p, game.helpers) ==>
            (t.player.actionState.action == NONE <==>
               game.helpers.positionsApproxEqual(t.player.dynamicState.position, p.actionState.moveDestination)))
      && (p.actionState.action != KICK ==> t.ball == ball)
  {
  }

  /** Turning from 350 to 10 degrees goes 20 degrees through 0 and arrives. */
  lemma TurnThroughZeroArrives(p: PlayerState, ball: BallState, game: GameView, ballMaxSpeed: real, r1: real, r2: real)
    requires p.actionState.action == TURN
    requires p.dynamicState.direction == 350.0 && p.actionState.direction == 10.0
    requires game.calculationIntervalSeconds == 0.1
    requires game.helpers.approxEqual(10.0, 10.0)
    ensures var t := ProcessActionTick(p, ball, game, ballMaxSpeed, r1, r2);
      t.player.dynamicState.direction == 10.0 && t.player.actionState.action == NONE
  {

  }

  /**
   * A per-tick cap above 360 degrees (a calculation interval above 0.6 s)
   * with a target outside [0, 360] takes the direction out of [0, 360].
   */
  lemma WideCapLeavesRange()
    ensures TurnDirection(0.0, 1200.0, 900.0) == 480.0
    ensures TurnDirection(0.0, -1000.0, 900.0) == -280.0
  {
  }

  /** Turning from 10 to 350 degrees is a turn of -20 degrees, not +340. */
  lemma TurnWrapGoesBackwards()
    ensures ShortestDelta(10.0, 350.0) == -20.0
    ensures TurnDirection(10.0, 350.0, 60.0) == 350.0
  {
  }

  /**
   * A desired direction outside [0, 360], which setAction accepts, can make
   * TURN go the long way: towards 1000 from 0 it turns +640, though -80
   * (1000 less three whole turns) also ends facing it.
   */
  lemma OutOfRangeTargetGoesLongWay()
    ensures ShortestDelta(0.0, 1000.0) == 640.0
    ensures Abs(1000.0 - 0.0 + Turns(-3)) == 80.0
    ensures Abs(1000.0 - 0.0 + Turns(-3)) < Abs(ShortestDelta(0.0, 1000.0))
  {
  }

  // ------------------------------------------------------------ setAction

  /** A command as an AI sends it: every field may be absent. */
  datatype Command = Command(
    action: Option<string>,
    destination: Option<Position>,
    speed: Option<real>,
    direction: Option<real>)

  datatype ActionError =
    | MissingActionField
    | NoHandler(action: string)
    | MissingField(action: string, field: string)

  /** The tags that have a _setAction_ handler. */
  predicate HasHandler(tag: string)
  {
    tag == "MOVE" || tag == "TURN" || tag == "KICK"
  }

  /** The fields a tag's handler demands are present. */
  predicate HasRequiredFields(tag: string, c: Command)
  {
    if tag == "TURN" then c.direction.Some? else c.destination.Some? && c.speed.Some?
  }

  /** _setAction_MOVE: destination and speed are both required, destination checked first. */
  function SetActionMove(a: ActionState, c: Command): (r: Result<ActionState, ActionError>)
    ensures r.Ok? <==> c.destination.Some? && c.speed.Some?
    ensures r.Err? ==> r.error == MissingField("MOVE", if c.destination.None? then "destination" else "speed")
    ensures r.Ok? ==> && r.value.action == MOVE
                      && r.value.moveDestination == c.destination.value && r.value.moveSpeed == c.speed.value
                      && r.value.direction == a.direction
                      && r.value.kickDestination == a.kickDestination && r.value.kickSpeed == a.kickSpeed
  {
    if c.destination.None? then Err(MissingField("MOVE", "destination"))
    else if c.speed.None? then Err(MissingField("MOVE", "speed"))
    else Ok(a.(action := MOVE, moveDestination := c.destination.value, moveSpeed := c.speed.value))
  }

  /** _setAction_TURN: only the direction is required; any value is accepted. */
  function SetActionTurn(a: ActionState, c: Command): (r: Result<ActionState, ActionError>)
    ensures r.Ok? <==> c.direction.Some?
    ensures r.Err? ==> r.error == MissingField("TURN", "direction")
    ensures r.Ok? ==> && r.value.action == TURN && r.value.direction == c.direction.value
                      && r.value.moveDestination == a.moveDestination && r.value.moveSpeed == a.moveSpeed
                      && r.value.kickDestination == a.kickDestination && r.value.kickSpeed == a.kickSpeed
  {
    if c.direction.None? then Err(MissingField("TURN", "direction"))
    else Ok(a.(action := TURN, direction := c.direction.value))
  }

  /** _setAction_KICK: destination and speed are both required, destination checked first. */
  function SetActionKick(a: ActionState, c: Command): (r: Result<ActionState, ActionError>)
    ensures r.Ok? <==> c.destination.Some? && c.speed.Some?
    ensures r.Err? ==> r.error == MissingField("KICK", if c.destination.None? then "destination" else "speed")
    ensures r.Ok? ==> && r.value.action == KICK
                      && r.value.kickDestination == c.destination.value && r.value.kickSpeed == c.speed.value
                      && r.value.moveDestination == a.moveDestination && r.value.moveSpeed == a.moveSpeed
                      && r.value.direction == a.direction
  {
    if c.destination.None? then Err(MissingField("KICK", "destination"))
    else if c.speed.None? then Err(MissingField("KICK", "speed"))
    else Ok(a.(action := KICK, kickDestination := c.destination.value, kickSpeed := c.speed.value))
  }

  /**
   * Player.setAction: the new action state, or the error thrown. It fails
   * exactly when the tag is missing, has no handler, or lacks a field its
   * handler needs; on success only the tag and that action's own parameters
   * change.
   */
  function SetAction(a: ActionState, c: Command): (r: Result<ActionState, ActionError>)
    ensures r.Err? <==> c.action.None? || !HasHandler(c.action.value) || !HasRequiredFields(c.action.value, c)
    ensures c.action.None? ==> r == Err(MissingActionField)
    ensures c.action.Some? && !HasHandler(c.action.value) ==> r == Err(NoHandler(c.action.value))
    ensures r.Err? && r.error.MissingField? ==> c.action.Some? && r.error.action == c.action.value
    ensures r.Ok? && c.action.value == "MOVE" ==>
              r.value == a.(action := MOVE, moveDestination := c.destination.value, moveSpeed := c.speed.value)
    ensures r.Ok? && c.action.value == "TURN" ==>
              r.value == a.(action := TURN, direction := c.direction.value)
    ensures r.Ok? && c.action.value == "KICK" ==>
              r.value == a.(action := KICK, kickDestination := c.destination.value, kickSpeed := c.speed.value)
  {
    if c.action.None? then Err(MissingActionField)
    else if c.action.value == "MOVE" then SetActionMove(a, c)
    else if c.action.value == "TURN" then SetActionTurn(a, c)
    else if c.action.value == "KICK" then SetActionKick(a, c)
    else Err(NoHandler(c.action.value))
  }
}

# Football engine core: player actions, two-AI response join, team construction

A Dafny model of three cooperating parts of a football simulation engine
that is driven by two external AI programs:

- **Player actions** (`game/Player.js`). Each player carries an action tag
  (NONE, MOVE, TURN, KICK) with its parameters. `setAction` validates a
  command from an AI and installs it; `processAction` runs the current
  action once per calculation tick. TURN rotates the shorter way round, at
  most `MAX_TURNING_RATE` × interval per tick. MOVE first turns to face the
  destination, as a nested TURN that never clears the action, and then
  steps towards it without overshooting. KICK releases the ball in a
  direction perturbed by skill and by angle.
  Module `PlayerActions` states each tick as a function of the player's
  state. Module `Players` holds the `Player` class, whose methods change the
  fields in place exactly as those functions say. Angles and distances are
  `real`.
- **Two-AI response join** (`game/GSM_Base.js`). A request is serialised
  once and sent to both AIs, and the response slots are cleared. Each AI's
  response fills its own slot, stamped with its processing time. Once both
  slots are present, the responses are decoded, each AI's total processing
  time grows by its own time, and the derived state's handler runs. Module
  `ResponseJoin` gives the pure state machine (`JoinState`, driven by `Event`s
  through `Replay`) and the `GsmBase` class, which is proved to follow it.
  Handler calls are recorded as the pairs of responses the handler received.
- **Team construction** (`game/Game.js`). `createTeams` builds two teams,
  each of `NUMBER_OF_PLAYERS` outfield players and then a goalkeeper. The
  players are numbered from 0 across both teams by a shared counter. Module
  `Games` holds the `Game` class. A team is a sequence of players, and
  `Team.NUMBER_OF_PLAYERS` is the parameter `numberOfPlayers`. A
  calculation pass runs `Team.updatePositions` for team 1 and then for
  team 2; the update itself is a parameter (`Games.TeamUpdate`) from the
  game's player states to the team's new player states.

The geometric helpers (`Utils.approxEqual`, `Utils.angleBetween`,
`Utils.vectorFromDirection`, `Position.distanceTo`, `Position.vectorTo`,
`Position.addVector`, `Position.approxEqual`, `Vector.scale`) are not part
of this model. They are the fields of the record `Kinematics.Helpers`, a set
of arbitrary total functions. The only assumption any proof makes about them
is `Kinematics.Sound`: distances are never negative. Individual lemmas add
other assumptions as hypotheses, for example that `approxEqual(10, 10)` holds.

Behaviour of the code worth knowing:

- For a start in [0, 360] and a per-tick cap MAX_TURNING_RATE × interval of
  at most 360° (an interval of at most 0.6 s), TURN keeps directions in the
  closed range [0, 360] (`PlayerActions.TurnDirection`). A direction of 360
  is not wrapped. For directions in [0, 360] the normalised turn lies in
  [-180, 180]. With a wider cap and a target outside [0, 360] the direction
  leaves the range (`PlayerActions.WideCapLeavesRange`).
- Line 235 of the kick takes the plain difference `|desired − facing|`,
  neither capped at 180 nor wrapped; `PlayerActions.KickTickAsWritten` and
  `Players.Player.ProcessKick` follow it, and `PlayerActions.KickTick` is the
  short-way version. See Findings.
- MOVE steps at `getSpeed()`. The `speed` a MOVE command carries is stored
  in `moveSpeed` but never used for movement.
- `getDTO(true)` returns the static state as well as the dynamic state,
  although the comment at `game/Player.js:274-275` says "only the dynamic
  state".
- A second response from the same AI after both slots are filled is not
  ignored. The slots are still full, so the handler fires again, and the
  other AI's stored time is added to its total again
  (`ResponseJoin.RepeatedResponseFiresAgain`).
- TURN measures the turn with one correction of 360 either way, so for a
  desired direction outside [0, 360], which `setAction` accepts unchecked,
  it can turn the long way round (`PlayerActions.OutOfRangeTargetGoesLongWay`).
  For a start in [0, 360] and a per-tick cap of at most 360° the new
  direction stays in [0, 360] (`PlayerActions.TurnDirection`), so it never
  equals such a target; a top-level TURN then ends only if `approxEqual`'s tolerance
  accepts the difference.
- Nothing times out. A turn whose second response never arrives stays
  Waiting for ever (`ResponseJoin.NeverBeforeBoth`).

## Model

| member | source | states |
|---|---|---|
| PlayerActions.Speed | game/Player.js:262-267 | speed is 0 when running ability or energy is 0; it lies in [0, MAX_SPEED] when both are in [0, 100]; it equals MAX_SPEED at 100/100 |
| PlayerActions.ShortestDelta | game/Player.js:107-117 | for directions in [0, 360] the turn lies in [-180, 180]; it always differs from desired − current by 0 or ±360 |
| PlayerActions.ShortestDeltaIsShortest | game/Player.js:107-124 | for current and desired directions in [0, 360], no turn that reaches the desired direction (desired − current + 360k, for any integer k) is shorter than the chosen one |
| PlayerActions.OutOfRangeTargetGoesLongWay | game/Player.js:107-117 | for a desired direction outside [0, 360] the chosen turn can be the long way: from 0 towards 1000 it is +640 where −80 also arrives |
| PlayerActions.TurnRotation | game/Player.js:119-131 | the tick's rotation has magnitude min(abs(delta), maxAngle), so never more than MAX_TURNING_RATE × interval; it has the sign of the shortest turn; it is the whole turn when that is within the cap |
| PlayerActions.Wrap360 | game/Player.js:133-140 | a direction within one turn of [0, 360] is brought into [0, 360] by adding or subtracting at most one 360; one already in range is unchanged |
| PlayerActions.TurnDirection | game/Player.js:133-143 | with the start in [0, 360] and the cap in [0, 360], for any target, the new direction is in [0, 360]; when the turn is not capped, the new direction is the desired one plus k × 360 for some k in [−2, 2], for any desired value an AI sends |
| PlayerActions.TurnTick | game/Player.js:102-148 | a TURN tick sets the direction to TurnDirection with the cap MAX_TURNING_RATE × interval, keeps the static state, and leaves the action state alone or only clears its tag |
| PlayerActions.WideCapLeavesRange | game/Player.js:119-143 | with a cap of 900° (an interval of 1.5 s), from 0° towards 1200° the direction becomes 480°, and towards −1000° it becomes −280° |
| PlayerActions.TurnResetRule | game/Player.js:102-148 | a TURN changes only the direction and the action tag; the tag changes exactly when resetActionWhenComplete is set and the new direction approximately equals the desired one; with the flag unset the action state is untouched |
| PlayerActions.TurnThroughZeroArrives | game/Player.js:102-148 | from 350° towards 10° at a 0.1 s interval the player ends at exactly 10° and a top-level TURN resets to NONE |
| PlayerActions.TurnWrapGoesBackwards | game/Player.js:107-124 | from 10° towards 350° the turn is −20° (through 0), not +340° |
| PlayerActions.DistanceToMove | game/Player.js:172-176 | the distance moved this tick is min(distance to destination, step): never past the destination, and the full getSpeed() × interval when that is not further |
| PlayerActions.ScaleFactor | game/Player.js:178-185 | the fraction of the vector to the destination travelled is in [0, 1]; it is exactly 1 when the remaining distance is moved; it is 0 for a zero distance |
| PlayerActions.ScaleFactorAsWritten | game/Player.js:181 | the division as written is undefined (NaN) exactly when the distance to the destination is 0 |
| PlayerActions.MoveTick | game/Player.js:156-190 | a MOVE tick keeps the static state, the energy, possession and the destination; it either turns or moves, never both; the tag stays unless resetActionWhenComplete is set, when it may become NONE |
| PlayerActions.MoveResetRule | game/Player.js:170-190 | a facing MOVE changes at most the action tag; the tag becomes NONE exactly when the action is not NONE, resetActionWhenComplete is set and the new position approximately equals the destination |
| PlayerActions.MoveTurnsFirst | game/Player.js:160-167 | a MOVE not facing its destination keeps its action state except that direction now aims at the destination; the position is unchanged and only the direction turns |
| PlayerActions.MoveNeverOvershoots | game/Player.js:170-190 | a facing MOVE translates by a fraction in [0, 1] of the vector to the destination; it covers a full step when the destination is further, applies the whole vector to the destination when that is within a step, and changes nothing but position and possibly the tag |
| PlayerActions.MoveOntoOwnPositionDividesByZero | game/Player.js:160-181 | a player standing on its destination and facing angleBetween of that point passes the facing test and reaches the division with distance 0 |
| PlayerActions.ZeroDistanceMoveStays | game/Player.js:170-190 | a facing MOVE at distance 0 applies the fraction 0, and when adding a zero-scaled vector leaves a point unchanged the dynamic state is unchanged |
| PlayerActions.MaxSkillVariation | game/Player.js:230-231 | skill variation is 0 at passing ability 100, 360° at 0, and in [0, 360] between |
| PlayerActions.MaxAngleVariationAsWritten | game/Player.js:234-236 | the as-written angle variation is 0 exactly when facing the target and is never negative |
| PlayerActions.MaxAngleVariation | game/Player.js:222-237 | the angle variation is half the shortest angle between facing and target: 0 when facing it, at most 90° for directions in [0, 360] |
| PlayerActions.AngleVariationAsWrittenTooWide | game/Player.js:235-236 | facing 350° and kicking towards 10°: 170° as written, above the 90° maximum, against 10° measured the short way |
| PlayerActions.Variation | game/Player.js:230-237 | a draw in [0, 1) gives a variation in [−max/2, +max/2]; a maximum of 0 gives none |
| PlayerActions.KickDirectionWith | game/Player.js:230-239 | the kick direction deviates from the desired one by at most half the skill maximum plus half the angle maximum; with perfect passing and no angle variation it is the desired direction |
| PlayerActions.KickDirectionAsWritten | game/Player.js:230-239 | lines 231-239 as written: the deviation is bounded by half the skill maximum plus half the unwrapped angle maximum; perfect passing facing the target kicks exactly at it |
| PlayerActions.KickDirection | game/Player.js:222-239 | with the short-way angle difference the deviation is at most half the skill maximum plus 45° for directions in [0, 360]; perfect passing facing the target kicks exactly at it |
| PlayerActions.KickDirectionsAgreeWithin180 | game/Player.js:235-239 | when the plain difference is at most 180° the as-written and short-way kick directions are equal |
| PlayerActions.KickAsWrittenOffTarget | game/Player.js:235-239 | facing 350° towards 10° with perfect passing and draws 0.5, 0: −75° as written against 5° the short way |
| PlayerActions.KickTickWith | game/Player.js:199-253 | a kick always ends the action and leaves the player without the ball; without possession the ball is untouched; with possession the ball gets vectorFromDirection of the kick direction, speed kickSpeed/100 × max speed, no controlling player, and keeps its position |
| PlayerActions.KickTickAsWritten | game/Player.js:199-253 | the KICK tick as written: the ball's vector follows KickDirectionAsWritten; the action ends and the player lets go |
| PlayerActions.KickTick | game/Player.js:199-253 | the KICK tick with the corrected, short-way angle difference: the ball's vector follows KickDirection; the action ends and the player lets go |
| PlayerActions.KickTicksAgreeWithin180 | game/Player.js:199-253 | the two kick ticks give the same player and ball whenever the plain difference between target and facing is at most 180° |
| PlayerActions.ProcessActionTick | game/Player.js:84-95 | a tick never changes the static state; only KICK touches the ball, and a KICK always ends with action NONE; KICK follows line 235 as written, while MOVE uses the guarded ScaleFactor at distance 0 |
| PlayerActions.ProcessNoneIsIdle | game/Player.js:84-89 | with action NONE a tick changes neither the player nor the ball |
| PlayerActions.TopLevelTurnAndNestedTurn | game/Player.js:84-190 | a top-level TURN clears the action exactly when it arrives; a MOVE still turning stays MOVE with an unchanged position; a top-level facing MOVE clears the action exactly when its new position approximately equals the destination; only KICK touches the ball |
| PlayerActions.SetActionMove | game/Player.js:323-334 | MOVE succeeds exactly when destination and speed are present, failing on the destination first; on success the tag, destination and speed are installed and the TURN and KICK parameters are kept |
| PlayerActions.SetActionTurn | game/Player.js:341-348 | TURN succeeds exactly when a direction is present, any value accepted; on success the tag and direction are installed and the MOVE and KICK parameters are kept |
| PlayerActions.SetActionKick | game/Player.js:355-366 | KICK succeeds exactly when destination and speed are present, failing on the destination first; on success the tag, kick destination and kick speed are installed and the MOVE and TURN parameters are kept |
| PlayerActions.SetAction | game/Player.js:303-366 | setAction fails exactly when the tag is missing, has no handler, or lacks a field its handler needs (destination and speed for MOVE and KICK, direction for TURN), with the matching error; on success it installs the tag and that action's parameters and nothing else |
| Players.Player.constructor | game/Player.js:27-39 | a new player has the given number, type and skills, the given dynamic state and action NONE |
| Players.Player.IsPlayer | game/Player.js:65-67 | true exactly for the PLAYER type |
| Players.Player.IsGoalkeeper | game/Player.js:74-76 | true exactly for the GOALKEEPER type |
| Players.Player.GetSpeed | game/Player.js:262-267 | the player's speed is 0 without running ability or energy, lies in [0, MAX_SPEED] for percentages in range, and is MAX_SPEED at 100/100 |
| Players.PlayerOrGoalkeeper | game/Player.js:60-76 | every player is exactly one of outfield player and goalkeeper |
| Players.Player.GetDTO | game/Player.js:277-286 | the DTO carries the dynamic and static state; it carries the action state exactly when publicOnly is false |
| Players.Player.ProcessAction | game/Player.js:84-95 | the new player and ball state are those of ProcessActionTick: dispatch on the tag, each action run as top level |
| Players.Player.ProcessTurn | game/Player.js:102-149 | the in-place turn has exactly the effect TurnTick describes |
| Players.Player.ProcessMove | game/Player.js:156-191 | the in-place move has exactly the effect MoveTick describes, including the nested non-resetting TURN |
| Players.Player.ProcessKick | game/Player.js:199-254 | the player and the ball end as KickTickAsWritten describes, line 235's unwrapped difference included |
| Players.Player.SetAction | game/Player.js:303-316 | on an error the action state is unchanged and the error is returned; otherwise it becomes what SetAction installs; the dynamic state never changes |
| Players.Player.SetActionMove | game/Player.js:323-334 | a MOVE without destination or speed fails with that field named and changes nothing; otherwise tag, destination and speed are installed |
| Players.Player.SetActionTurn | game/Player.js:341-348 | a TURN without direction fails and changes nothing; otherwise tag and direction are installed |
| Players.Player.SetActionKick | game/Player.js:355-366 | a KICK without destination or speed fails with that field named and changes nothing; otherwise tag, destination and speed are installed |
| ResponseJoin.AfterSend | game/GSM_Base.js:75-89 | a send appends exactly one request to each AI's sent history, keeping the earlier ones, and changes neither the handler history nor the totals |
| ResponseJoin.NewResponse | game/GSM_Base.js:152-168 | a stored response holds the raw text, no decoded data yet, and a processing time equal to the time since the request was sent, which is ≥ 0 |
| ResponseJoin.Store | game/GSM_Base.js:96-117 | storing a response fills the responding AI's slot and leaves the other slot and all else unchanged |
| ResponseJoin.Check | game/GSM_Base.js:124-144 | the handler fires exactly when both slots are present and both parse; if either slot is missing nothing changes; when it fires, each AI's total grows by exactly its own response's time and the handler receives both decoded responses |
| ResponseJoin.OnResponse | game/GSM_Base.js:96-117 | a response fills its AI's slot; while the other slot is empty it waits without calling the handler; it sends nothing; the handler history grows by at most one call and keeps its past |
| ResponseJoin.SendClearsAndSendsSame | game/GSM_Base.js:75-89 | after a send both slots are empty and both AIs were sent the identical text |
| ResponseJoin.FiresOnceOnSecondResponse | game/GSM_Base.js:96-144 | in either arrival order, one response per AI after a send: the first does not fire the handler, the second fires it once, and each total grows by that AI's own non-negative time |
| ResponseJoin.OrderIndependent | game/GSM_Base.js:96-144 | after a send, the state once both AIs have answered is the same whichever answered first |
| ResponseJoin.RepeatedResponseFiresAgain | game/GSM_Base.js:124-144 | once both slots are full, a further response from one AI fires the handler again and re-adds the other AI's time |
| ResponseJoin.Replay | game/GSM_Base.js:75-144 | over any sequence of callbacks the handler history only grows, by at most one call per event, and keeps its past |
| ResponseJoin.NeverBeforeBoth | game/GSM_Base.js:124-128 | any number of responses from one AI while the other slot is empty never fire the handler and never change the totals |
| ResponseJoin.OneTurnFiresOnce | game/GSM_Base.js:75-144 | the event sequence send, response, other AI's response fires the handler exactly once and fills both slots |
| ResponseJoin.GsmBase.constructor | game/GSM_Base.js:37-51 | the join starts with no responses and no handler calls, for two distinct AIs |
| ResponseJoin.GsmBase.CheckState | game/GSM_Base.js:66-68 | the base state's checkState keeps the current state |
| ResponseJoin.GsmBase.SendRequestToBothAIs | game/GSM_Base.js:75-89 | the in-place send has the effect of AfterSend: slots cleared, send time recorded, the one serialised request appended to both AIs' sent data |
| ResponseJoin.GsmBase.OnResponseAI1 | game/GSM_Base.js:96-103 | the state and outcome are those of OnResponse for AI1 |
| ResponseJoin.GsmBase.OnResponseAI2 | game/GSM_Base.js:110-117 | the state and outcome are those of OnResponse for AI2 |
| ResponseJoin.GsmBase.CheckResponses | game/GSM_Base.js:124-144 | the state and outcome, including a parse failure part-way, are those of Check |
| ResponseJoin.GsmBase.GetAIResponse | game/GSM_Base.js:152-157 | the new response carries the raw text, no decoded data, and the non-negative time since the request was sent |
| Games.DefaultIntervals | game/Game.js:30-37 | the default calculation interval (0.1 s) is at most the AI interval (1.0 s), which is ten times it; the default length is 5400 s |
| Games.Outfield | game/Game.js:60-65 | the outfield players are numbered consecutively from the counter, all of type PLAYER |
| Games.TeamLineup | game/Game.js:58-72 | a team is N outfield players followed by exactly one goalkeeper, numbered consecutively |
| Games.CreateTeamsNumbering | game/Game.js:43-72 | the players list has length 2(N+1) and player i has number i; every team-1 number is below every team-2 number; numbers ascend and are unique; each team's only goalkeeper is its last player |
| Games.EachPlayerInOneTeam | game/Game.js:49-71 | with those lineups every player appears once in the players list and in exactly one team |
| Games.Game.constructor | game/Game.js:22-38 | the teams are created as createTeams does, and the intervals and length take their defaults |
| Games.Game.CreateTeams | game/Game.js:43-53 | team 1 has lineup TeamLineup(0, N), team 2 TeamLineup(N+1, N), players is team 1 followed by team 2, all players new |
| Games.Game.AddPlayersToTeam | game/Game.js:58-72 | the loop appends N outfield players and a goalkeeper, numbered from the shared counter, to both the team and the players list, and advances the counter by N+1 |
| Games.TeamStep | game/Game.js:95-99 | one team's updatePositions changes only that team's players, computed from the whole game's states, and no static state |
| Games.PassOrder | game/Game.js:95-99 | in a pass, team 1's new states are computed from the states before the pass and team 2's from the states after team 1 moved, whose team-2 part is untouched |
| Games.InstallTeam | game/Game.js:95-99 | the loop writes each player's new dynamic and action state in place, so the team's states become Install of the old ones |
| Games.Game.Calculate | game/Game.js:80-87 | one calculation pass leaves the players in the states of team 1's update followed by team 2's update on its result |
| Games.Game.UpdatePositions | game/Game.js:95-99 | the players' new states are TeamStep for team 2 applied to TeamStep for team 1 of the old states: team 2 is updated from team 1's result |

## Left out

- `ball.updatePosition(game)` after a kick: Ball.js is not part of this model, so the kicked ball keeps its position in the model.
- `Random.nextDouble`: the two draws of a kick are the parameters `r1`, `r2`; bounds that need them in [0, 1) say so.
- The geometric helpers of Utils, Position and Vector: modelled as the arbitrary functions of `Kinematics.Helpers`, not re-derived.
- `process.hrtime`: clock readings are passed in as `now`; methods require a monotonic clock (`now` ≥ the send time). Before any send the model's send time is 0, so the first stored time is the absolute reading, as `process.hrtime(undefined)` gives.
- `Logger.log`, `util.format`: logging only.
- `MessageUtils.getRequestJSON`, `JSON.parse`, `AI.sendData`: the serialiser and the parser are function parameters (a parse that throws is `None`, which ends `_checkResponses` with `ParseFailed` and no handler call). Sending appends to the AI's `sent` sequence. AI.js is not part of this model.
- `onAIResponsesReceived` (derived classes): recorded as the pair of responses it received. What a derived state does with them is not modelled.
- `GSM_Base.onTurn` (empty virtual) and the unused `_game`, `_team1`, `_team2` fields: no behaviour.
- `Player.getPlayerNumber`: a field read; `staticState.playerNumber` is used directly.
- `Team.addPlayer`, `Team.updatePositions` (Team.js is not part of this model): a team is a sequence, and `updatePositions` is an arbitrary function from the game's player states to the team's new states. The model writes back only the dynamic and action states, since the static state is constant.
- `PlayerState_Dynamic`, `PlayerState_Static`, `PlayerState_Action`: their default values are not part of this model. New players get caller-supplied skills and dynamic state. The action state starts as NONE with zero parameters.
- In-place aliasing: `getDTO` returns references to the live sub-state objects, and `copyFrom` copies coordinates into an existing Position. The model uses values, so later changes do not show through a DTO.
- JavaScript coercions in `setAction` (a non-object command, a non-string tag, a destination missing `x` or `y`): commands are typed values whose fields may be absent.
- Floating point: angles, distances and times are exact `real`s; IEEE rounding and NaN propagation are not modelled (NaN appears only as the undefined case of `ScaleFactorAsWritten`).
- Players.Player.ProcessMove, PlayerActions.MoveTick, PlayerActions.ProcessActionTick (MOVE branch): use `PlayerActions.ScaleFactor`, which applies a zero fraction of the vector to the destination where line 181 as written divides 0 by 0 (see Findings). That this is no movement needs the helper fact that adding a zero-scaled vector leaves a point unchanged (`PlayerActions.ZeroDistanceMoveStays`).

## Findings

| source | as written | input that shows it | evidently intended | confidence | as-written member | corrected member |
|---|---|---|---|---|---|---|
| game/Player.js:235-236 | the kick's angle difference is `abs(desiredDirection - direction)`, with no wrap-around, so it ranges up to 360 and the variation up to 180° | facing 350°, kicking towards 10°: variation up to 170°, though the target is only 20° away; with perfect passing and draw 0 the ball goes to −75° | the short-way angle as TURN measures it, giving at most 90° at 180° apart, as the comment describes | medium; not executed | PlayerActions.KickTickAsWritten, PlayerActions.KickAsWrittenOffTarget, PlayerActions.AngleVariationAsWrittenTooWide | PlayerActions.KickTick, PlayerActions.MaxAngleVariation |
| game/Player.js:181 | `distanceToMove / distanceToDestination` with no zero check | a MOVE to the player's own position while it faces `angleBetween(p, p)`: the facing test passes and 0/0 sets the position to NaN | no movement when already at the destination | medium (depends on `Utils.angleBetween` for coincident points); not executed | PlayerActions.ScaleFactorAsWritten, PlayerActions.MoveOntoOwnPositionDividesByZero | PlayerActions.ScaleFactor |

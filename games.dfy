/**
 * Game.js: the two teams and their players, the interval settings, and the
 * order of a calculation pass.
 *
 * A team is the sequence of its players. Team.NUMBER_OF_PLAYERS is the
 * parameter numberOfPlayers; the initial skills and dynamic state of new
 * players come from files that are not part of this model, so they are
 * parameters too. Team.updatePositions is not part of this model either:
 * it is a parameter that, given the states of all players (team 1's, then
 * team 2's) and a team, returns the new states of that team's players.
 */
module Games {
  import opened PlayerActions
  import opened Players

  const DEFAULT_CALCULATION_INTERVAL_SECONDS: real := 0.1
  const DEFAULT_AI_UPDATE_INTERVAL_SECONDS: real := 1.0
  const DEFAULT_GAME_LENGTH_SECONDS: real := 90.0 * 60.0

  /** The defaults run ten calculation ticks per AI update and last 5400 seconds. */
  lemma DefaultIntervals()
    ensures DEFAULT_CALCULATION_INTERVAL_SECONDS <= DEFAULT_AI_UPDATE_INTERVAL_SECONDS
    ensures DEFAULT_AI_UPDATE_INTERVAL_SECONDS == 10.0 * DEFAULT_CALCULATION_INTERVAL_SECONDS
    ensures DEFAULT_GAME_LENGTH_SECONDS == 5400.0
  {
  }

  /** The number and the role of one player. */
  datatype Slot = Slot(playerNumber: int, playerType: PlayerType)

  datatype TeamId = Team1 | Team2

  /** The number and the role of each player, in order. */
  function Lineup(players: seq<Player>): seq<Slot>
  {
    seq(|players|, i requires 0 <= i < |players| => Slot(players[i].staticState.playerNumber, players[i].staticState.playerType))
  }

  /** Outfield players numbered consecutively from first, in the order they are added. */
  function Outfield(first: int, count: nat): (slots: seq<Slot>)
    ensures |slots| == count
    ensures forall i :: 0 <= i < count ==> slots[i] == Slot(first + i, PLAYER)
  {
    if count == 0 then [] else Outfield(first, count - 1) + [Slot(first + count - 1, PLAYER)]
  }

  /** A team as addPlayersToTeam builds it: n outfield players, then the goalkeeper. */
  function TeamLineup(first: int, n: nat): (slots: seq<Slot>)
    ensures |slots| == n + 1
    ensures forall i :: 0 <= i < n ==> slots[i] == Slot(first + i, PLAYER)
    ensures slots[n] == Slot(first + n, GOALKEEPER)
  {
    Outfield(first, n) + [Slot(first + n, GOALKEEPER)]
  }

  /**
   * The numbering createTeams produces: 2(n+1) players numbered 0, 1, ...
   * in the order of the players list, team 1 entirely below team 2, each
   * team with exactly one goalkeeper, at its end.
   */
  lemma CreateTeamsNumbering(n: nat)
    ensures var team1 := TeamLineup(0, n);
      var team2 := TeamLineup(n + 1, n);
      var all := team1 + team2;
      && |all| == 2 * (n + 1)
      && (forall i :: 0 <= i < |all| ==> all[i].playerNumber == i)
      && (forall i, j :: 0 <= i < |team1| && 0 <= j < |team2| ==> team1[i].playerNumber < team2[j].playerNumber)
      && (forall i, j :: 0 <= i < j < |all| ==> all[i].playerNumber < all[j].playerNumber)
      && (forall i :: 0 <= i < |team1| ==> (team1[i].playerType == GOALKEEPER <==> i == n))
      && (forall i :: 0 <= i < |team2| ==> (team2[i].playerType == GOALKEEPER <==> i == n))
  {

  }

  /**
   * Players with the lineups createTeams gives: the players list holds
   * every player exactly once, and each belongs to exactly one team.
   */
  lemma EachPlayerInOneTeam(team1: seq<Player>, team2: seq<Player>, n: nat)
    requires Lineup(team1) == TeamLineup(0, n) && Lineup(team2) == TeamLineup(n + 1, n)
    ensures var players := team1 + team2;
      && (forall i, j :: 0 <= i < j < |players| ==> players[i] != players[j])
      && (forall p :: p in players ==> (p in team1 <==> p !in team2))
  {
    var players := team1 + team2;
    forall i, j | 0 <= i < j < |players|
      ensures players[i] != players[j]
    {
      NumberAt(team1, team2, n, i);
      NumberAt(team1, team2, n, j);
    }
    forall p | p in players
      ensures p in team1 <==> p !in team2
    {
      if p in team1 {
        var i :| 0 <= i < |team1| && team1[i] == p;
        forall j | 0 <= j < |team2|
          ensures team2[j] != p
        {
          NumberAt(team1, team2, n, i);
          NumberAt(team1, team2, n, |team1| + j);
        }
      }
    }
  }

  /** With createTeams' lineups, the player at index k of the players list has number k. */
  lemma NumberAt(team1: seq<Player>, team2: seq<Player>, n: nat, k: int)
    requires Lineup(team1) == TeamLineup(0, n) && Lineup(team2) == TeamLineup(n + 1, n)
    requires 0 <= k < |team1 + team2|
    ensures (team1 + team2)[k].staticState.playerNumber == k
  {
    assert |team1| == |Lineup(team1)| && |team2| == |Lineup(team2)|;
    if k < |team1| {
      assert Lineup(team1)[k].playerNumber == team1[k].staticState.playerNumber;
    } else {
      assert Lineup(team2)[k - |team1|].playerNumber == team2[k - |team1|].staticState.playerNumber;
    }
  }

  /** Team.updatePositions, as a function of the game's player states. */
  type TeamUpdate = (seq<PlayerState>, TeamId) -> seq<PlayerState>

  /** The states of a team's players, in team order. */
  function States(team: seq<Player>): (states: seq<PlayerState>)
    reads set p | p in team
    ensures |states| == |team|
    ensures forall i :: 0 <= i < |team| ==> states[i] == team[i].State()
  {
    seq(|team|, i reads set p | p in team requires 0 <= i < |team| => team[i].State())
  }

  /**
   * The players' states after their new dynamic and action states are
   * written back; a player the update returns no state for keeps its own,
   * and no static state changes (it is constant in Player).
   */
  function Install(states: seq<PlayerState>, updated: seq<PlayerState>): (r: seq<PlayerState>)
    ensures |r| == |states|
    ensures forall i :: 0 <= i < |states| ==> r[i].staticState == states[i].staticState
    ensures forall i :: 0 <= i < |states| && i < |updated| ==>
              r[i].dynamicState == updated[i].dynamicState && r[i].actionState == updated[i].actionState
    ensures forall i :: |updated| <= i < |states| ==> r[i] == states[i]
  {
    seq(|states|, i requires 0 <= i < |states| =>
      if i < |updated| then states[i].(dynamicState := updated[i].dynamicState, actionState := updated[i].actionState)
      else states[i])
  }

  /**
   * One team's updatePositions on the game's player states g, whose first
   * n1 entries are team 1: only that team's entries change, and no static
   * state does.
   */
  function TeamStep(g: seq<PlayerState>, n1: nat, team: TeamId, update: TeamUpdate): (h: seq<PlayerState>)
    requires n1 <= |g|
    ensures |h| == |g|
    ensures forall i :: 0 <= i < |g| ==> h[i].staticState == g[i].staticState
    ensures team == Team1 ==> h[n1..] == g[n1..] && h[..n1] == Install(g[..n1], update(g, Team1))
    ensures team == Team2 ==> h[..n1] == g[..n1] && h[n1..] == Install(g[n1..], update(g, Team2))
  {
    if team == Team1 then Install(g[..n1], update(g, Team1)) + g[n1..]
    else g[..n1] + Install(g[n1..], update(g, Team2))
  }

  /**
   * In a calculation pass team 1 is updated from the states before the
   * pass, and team 2 from the states in which team 1 has already moved;
   * team 1 keeps the result of its own update.
   */
  lemma PassOrder(g: seq<PlayerState>, n1: nat, update: TeamUpdate)
    requires n1 <= |g|
    ensures var mid := TeamStep(g, n1, Team1, update);
      var h := TeamStep(mid, n1, Team2, update);
      && h[..n1] == Install(g[..n1], update(g, Team1))
      && h[n1..] == Install(g[n1..], update(mid, Team2))
      && mid[n1..] == g[n1..]
  {
    var mid := TeamStep(g, n1, Team1, update);
    assert mid[n1..] == g[n1..];
  }

  class Game {
    const numberOfPlayers: nat
    var team1: seq<Player>
    var team2: seq<Player>
    var players: seq<Player>
    var calculationIntervalSeconds: real
    var aiUpdateIntervalSeconds: real
    var gameLengthSeconds: real

    constructor (numberOfPlayers: nat, skills: Skills, start: DynamicState)
      ensures this.numberOfPlayers == numberOfPlayers
      ensures Lineup(team1) == TeamLineup(0, numberOfPlayers)
      ensures Lineup(team2) == TeamLineup(numberOfPlayers + 1, numberOfPlayers)
      ensures players == team1 + team2
      ensures Valid()
      ensures forall p :: p in players ==> fresh(p)
      ensures calculationIntervalSeconds == DEFAULT_CALCULATION_INTERVAL_SECONDS
      ensures aiUpdateIntervalSeconds == DEFAULT_AI_UPDATE_INTERVAL_SECONDS
      ensures gameLengthSeconds == DEFAULT_GAME_LENGTH_SECONDS
    {
      this.numberOfPlayers := numberOfPlayers;
      team1, team2, players := [], [], [];
      calculationIntervalSeconds, aiUpdateIntervalSeconds, gameLengthSeconds := 0.0, 0.0, 0.0;
      new;
      CreateTeams(skills, start);
      calculationIntervalSeconds := DEFAULT_CALCULATION_INTERVAL_SECONDS;
      aiUpdateIntervalSeconds := DEFAULT_AI_UPDATE_INTERVAL_SECONDS;
      gameLengthSeconds := DEFAULT_GAME_LENGTH_SECONDS;
    }

    method CreateTeams(skills: Skills, start: DynamicState)
      modifies this
      ensures Lineup(team1) == TeamLineup(0, numberOfPlayers)
      ensures Lineup(team2) == TeamLineup(numberOfPlayers + 1, numberOfPlayers)
      ensures players == team1 + team2
      ensures forall p :: p in players ==> fresh(p)
      ensures calculationIntervalSeconds == old(calculationIntervalSeconds)
      ensures aiUpdateIntervalSeconds == old(aiUpdateIntervalSeconds)
      ensures gameLengthSeconds == old(gameLengthSeconds)
    {
      team1 := [];
      team2 := [];
      players := [];
      var playerNumber := 0;
      team1, playerNumber := AddPlayersToTeam(team1, playerNumber, skills, start);
      team2, playerNumber := AddPlayersToTeam(team2, playerNumber, skills, start);
    }

    /**
     * Adds numberOfPlayers outfield players and then a goalkeeper to a team
     * and to the players list, numbering them from the shared counter.
     */
    method AddPlayersToTeam(team: seq<Player>, playerNumber: int, skills: Skills, start: DynamicState)
      returns (team': seq<Player>, playerNumber': int)
      modifies this
      ensures playerNumber' == playerNumber + numberOfPlayers + 1
      ensures |team'| == |team| + numberOfPlayers + 1 && team'[..|team|] == team
      ensures Lineup(team'[|team|..]) == TeamLineup(playerNumber, numberOfPlayers)
      ensures players == old(players) + team'[|team|..]
      ensures forall p :: p in team'[|team|..] ==> fresh(p)
      ensures team1 == old(team1) && team2 == old(team2)
      ensures calculationIntervalSeconds == old(calculationIntervalSeconds)
      ensures aiUpdateIntervalSeconds == old(aiUpdateIntervalSeconds)
      ensures gameLengthSeconds == old(gameLengthSeconds)
    {
      team' := team;
      playerNumber' := playerNumber;
      ghost var added: seq<Player> := [];
      var i := 0;
      while i < numberOfPlayers
        invariant 0 <= i <= numberOfPlayers
        invariant playerNumber' == playerNumber + i
        invariant team' == team + added && |added| == i
        invariant Lineup(added) == Outfield(playerNumber, i)
        invariant players == old(players) + added
        invariant forall p :: p in added ==> fresh(p)
        invariant team1 == old(team1) && team2 == old(team2)
        invariant calculationIntervalSeconds == old(calculationIntervalSeconds)
        invariant aiUpdateIntervalSeconds == old(aiUpdateIntervalSeconds)
        invariant gameLengthSeconds == old(gameLengthSeconds)
      {
        var player := new Player(playerNumber', PLAYER, skills, start);
        players := players + [player];
        team' := team' + [player];
        added := added + [player];
        playerNumber' := playerNumber' + 1;
        i := i + 1;
      }

      var player := new Player(playerNumber', GOALKEEPER, skills, start);
      players := players + [player];
      team' := team' + [player];
      added := added + [player];
      playerNumber' := playerNumber' + 1;
      assert team'[|team|..] == added;
    }

    /** The lineups createTeams builds, with the players list team 1 followed by team 2. */
    predicate Valid()
      reads this
    {
      && Lineup(team1) == TeamLineup(0, numberOfPlayers)
      && Lineup(team2) == TeamLineup(numberOfPlayers + 1, numberOfPlayers)
      && players == team1 + team2
    }

    /** The states of all players, team 1's then team 2's: what Team.updatePositions sees of the game. */
    function GameStates(): (g: seq<PlayerState>)
      reads this, set p | p in team1, set p | p in team2
      ensures |g| == |team1| + |team2|
    {
      States(team1) + States(team2)
    }

    /** Game.calculate: one calculation pass, which moves the players. */
    method Calculate(update: TeamUpdate)
      requires Valid()
      modifies set p | p in players
      ensures GameStates() == TeamStep(TeamStep(old(GameStates()), |team1|, Team1, update), |team1|, Team2, update)
    {
      UpdatePositions(update);
    }

    /**
     * Game.updatePositions: team 1's updatePositions runs on the game as it
     * is, then team 2's on the game with team 1's players already moved.
     */
    method UpdatePositions(update: TeamUpdate)
      requires Valid()
      modifies set p | p in players
      ensures GameStates() == TeamStep(TeamStep(old(GameStates()), |team1|, Team1, update), |team1|, Team2, update)
    {
      EachPlayerInOneTeam(team1, team2, numberOfPlayers);
      DistinctParts(team1, team2);
      ghost var g0 := GameStates();
      ghost var mid := TeamStep(g0, |team1|, Team1, update);

      var game := States(team1) + States(team2);
      var updated1 := update(game, Team1);
      InstallTeam(team1, updated1);
      assert States(team2) == g0[|team1|..];
      assert GameStates() == mid;

      game := States(team1) + States(team2);
      var updated2 := update(game, Team2);
      InstallTeam(team2, updated2);
      assert States(team1) == mid[..|team1|];
    }
  }

  /** The two parts of a list of distinct players are each distinct and share no player. */
  lemma DistinctParts(team1: seq<Player>, team2: seq<Player>)
    requires forall i, j :: 0 <= i < j < |team1 + team2| ==> (team1 + team2)[i] != (team1 + team2)[j]
    ensures forall i, j :: 0 <= i < j < |team1| ==> team1[i] != team1[j]
    ensures forall i, j :: 0 <= i < j < |team2| ==> team2[i] != team2[j]
    ensures forall p :: p in team1 ==> p !in team2
  {
    var all := team1 + team2;
    forall i, j | 0 <= i < j < |team1|
      ensures team1[i] != team1[j]
    {
      assert all[i] != all[j];
    }
    forall i, j | 0 <= i < j < |team2|
      ensures team2[i] != team2[j]
    {
      assert all[|team1| + i] != all[|team1| + j];
    }
    forall p | p in team1
      ensures p !in team2
    {
      var i :| 0 <= i < |team1| && team1[i] == p;
      forall j | 0 <= j < |team2|
        ensures team2[j] != p
      {
        assert all[i] != all[|team1| + j];
      }
    }
  }

  /** Writes each player's new dynamic and action state, as Team.updatePositions leaves them. */
  method InstallTeam(team: seq<Player>, updated: seq<PlayerState>)
    requires forall i, j :: 0 <= i < j < |team| ==> team[i] != team[j]
    modifies set p | p in team
    ensures States(team) == Install(old(States(team)), updated)
  {
    ghost var before := States(team);
    ghost var after := Install(before, updated);
    var i := 0;
    while i < |team|
      invariant 0 <= i <= |team|
      invariant forall j :: 0 <= j < i ==> team[j].State() == after[j]
      invariant forall j :: i <= j < |team| ==> team[j].State() == before[j]
    {
      if i < |updated| {
        team[i].dynamicState := updated[i].dynamicState;
        team[i].actionState := updated[i].actionState;
      }
      i := i + 1;
    }
  }
}

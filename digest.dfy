/** The daily digest: each fixture of the day is processed in provider order,
    failures are skipped, at most ten blocks are kept, and a fallback line
    stands in for an empty digest. */
module Digest {
  import opened Wrappers
  import opened Prediction
  import opened TeamStats

  /** One side of a fixture as build_daily_message reads it. `None` marks a
      missing key, whose lookup raises; a key present with JSON null does not
      raise there and is a `Some` value like any other. */
  datatype Team = Team(id: Option<int>, name: Option<string>)

  /** One fixture of the provider's list: league.id, league.season,
      teams.home and teams.away. As in `Team`, `None` is a missing key only;
      a present null is a `Some` value. */
  datatype Game = Game(leagueId: Option<int>, season: Option<int>, home: Option<Team>, away: Option<Team>)

  /** What the digest needs from outside: the team-statistics request
      (`None` when the request or its decoding raises), float() on strings
      (`None` when it raises) and the one-decimal rendering of a sum. */
  datatype Env = Env(
    fetch: (int, int, int) -> Option<StatsReply>,
    parse: string -> Option<real>,
    render: real -> string)

  /** The result of trying one fixture: the block it adds, or an exception. */
  datatype Outcome = Ok(block: string) | Fail

  const Header: string := "\U{1F4CA} *Today's Over 2.5 Predictions*\n\n"
  const Fallback: string := "No matches found today."
  const MaxFixtures: nat := 10

  /** The block appended for one processed fixture. */
  function Block(homeName: string, awayName: string, over25: string): (r: string)
    ensures 2 + |homeName| <= |r| && r[..2] == "\U{26BD} " && r[2..2 + |homeName|] == homeName
    ensures EndsWith(r, over25 + "\n\n")
  {
    "\U{26BD} " + homeName + " vs " + awayName + "\n   " + over25 + "\n\n"
  }

  predicate EndsWithBlankLine(s: string) {
    EndsWith(s, "\n\n")
  }

  /** get_team_goals(team, league, season): the request, then the rate rule. */
  function GetTeamGoals(teamId: int, leagueId: int, season: int, env: Env): (r: Option<real>)
    ensures env.fetch(teamId, leagueId, season).None? ==> r.None?
    ensures env.fetch(teamId, leagueId, season).Some? ==>
      r == RateFromStats(env.fetch(teamId, leagueId, season).value, env.parse)
  {
    match env.fetch(teamId, leagueId, season)
    case None => None
    case Some(reply) => RateFromStats(reply, env.parse)
  }

  /** Every key the processing of a fixture looks up is present. */
  predicate Complete(game: Game) {
    game.leagueId.Some? && game.season.Some? && game.home.Some? && game.away.Some?
    && game.home.value.id.Some? && game.home.value.name.Some?
    && game.away.value.id.Some? && game.away.value.name.Some?
  }

  function HomeRate(game: Game, env: Env): Option<real>
    requires Complete(game)
  {
    GetTeamGoals(game.home.value.id.value, game.leagueId.value, game.season.value, env)
  }

  function AwayRate(game: Game, env: Env): Option<real>
    requires Complete(game)
  {
    GetTeamGoals(game.away.value.id.value, game.leagueId.value, game.season.value, env)
  }

  /** The body of the try block for one fixture, in the order it looks
      things up; any lookup or call that raises makes the fixture `Fail`. */
  function ProcessFixture(game: Game, env: Env): (r: Outcome)
    ensures r.Ok? <==> Complete(game) && HomeRate(game, env).Some? && AwayRate(game, env).Some?
    ensures r.Ok? ==> r.block == Block(game.home.value.name.value, game.away.value.name.value,
      Over25Text(EstimateOver25(HomeRate(game, env).value, AwayRate(game, env).value), env.render))
    ensures r.Ok? ==> EndsWithBlankLine(r.block)
  {
    match game.leagueId
    case None => Fail
    case Some(leagueId) =>
      match game.season
      case None => Fail
      case Some(season) =>
        match game.home
        case None => Fail
        case Some(home) =>
          match game.away
          case None => Fail
          case Some(away) =>
            match home.id
            case None => Fail
            case Some(homeId) =>
              match GetTeamGoals(homeId, leagueId, season, env)
              case None => Fail
              case Some(homeGpg) =>
                match away.id
                case None => Fail
                case Some(awayId) =>
                  match GetTeamGoals(awayId, leagueId, season, env)
                  case None => Fail
                  case Some(awayGpg) =>
                    var over25 := Over25Text(EstimateOver25(homeGpg, awayGpg), env.render);
                    match home.name
                    case None => Fail
                    case Some(homeName) =>
                      match away.name
                      case None => Fail
                      case Some(awayName) => Ok(Block(homeName, awayName, over25))
  }

  /** The outcome of every fixture, in provider order. */
  function Outcomes(fixtures: seq<Game>, env: Env): seq<Outcome> {
    seq(|fixtures|, i requires 0 <= i < |fixtures| => ProcessFixture(fixtures[i], env))
  }

  /** The blocks of the successful outcomes, in their order. */
  function OkBlocks(o: seq<Outcome>): seq<string> {
    if o == [] then []
    else
      var last := o[|o| - 1];
      OkBlocks(o[..|o| - 1]) + (if last.Ok? then [last.block] else [])
  }

  /** The blocks the digest shows: the first ten successful ones. */
  function Shown(o: seq<Outcome>): (r: seq<string>)
    ensures |r| == if |OkBlocks(o)| < MaxFixtures then |OkBlocks(o)| else MaxFixtures
    ensures r <= OkBlocks(o)
  {
    var blocks := OkBlocks(o);
    if |blocks| <= MaxFixtures then blocks else blocks[..MaxFixtures]
  }

  function Concat(blocks: seq<string>): string {
    if blocks == [] then "" else Concat(blocks[..|blocks| - 1]) + blocks[|blocks| - 1]
  }

  /** The message the digest should be: the header, then the shown blocks,
      or the fallback line when there are none. */
  function DigestText(o: seq<Outcome>): (r: string)
    ensures |Header| <= |r| && r[..|Header|] == Header
  {
    var shown := Shown(o);
    if shown == [] then Header + Fallback else Header + Concat(shown)
  }

  lemma OkBlocksSnoc(o: seq<Outcome>, x: Outcome)
    ensures OkBlocks(o + [x]) == OkBlocks(o) + (if x.Ok? then [x.block] else [])
  {
    assert (o + [x])[..|o|] == o;
  }

  lemma ConcatSnoc(blocks: seq<string>, b: string)
    ensures Concat(blocks + [b]) == Concat(blocks) + b
  {
    assert (blocks + [b])[..|blocks|] == blocks;
  }

  lemma OutcomesSnoc(fixtures: seq<Game>, i: nat, env: Env)
    requires i < |fixtures|
    ensures Outcomes(fixtures[..i + 1], env) == Outcomes(fixtures[..i], env) + [ProcessFixture(fixtures[i], env)]
  {
  }

  /** What one turn of the builder's loop adds to the collected blocks and
      to the message built from them. */
  lemma LoopStep(fixtures: seq<Game>, i: nat, env: Env)
    requires i < |fixtures|
    ensures var outcome := ProcessFixture(fixtures[i], env);
      var before := OkBlocks(Outcomes(fixtures[..i], env));
      var after := OkBlocks(Outcomes(fixtures[..i + 1], env));
      && after == before + (if outcome.Ok? then [outcome.block] else [])
      && Header + Concat(after) == Header + Concat(before) + (if outcome.Ok? then outcome.block else "")
  {
    var outcome := ProcessFixture(fixtures[i], env);
    var before := OkBlocks(Outcomes(fixtures[..i], env));
    OutcomesSnoc(fixtures, i, env);
    OkBlocksSnoc(Outcomes(fixtures[..i], env), outcome);
    if outcome.Ok? {
      ConcatSnoc(before, outcome.block);
      assert Header + (Concat(before) + outcome.block) == Header + Concat(before) + outcome.block;
    } else {
      assert before + [] == before;
    }
  }

  lemma OutcomesPrefix(fixtures: seq<Game>, j: nat, env: Env)
    requires j <= |fixtures|
    ensures Outcomes(fixtures, env)[..j] == Outcomes(fixtures[..j], env)
  {
  }

  /** Successful blocks of a concatenation are those of its parts, in order. */
  lemma {:induction false} OkBlocksAppend(a: seq<Outcome>, b: seq<Outcome>)
    ensures OkBlocks(a + b) == OkBlocks(a) + OkBlocks(b)
  {
    if b == [] {
      assert a + b == a;
    } else {
      var init := b[..|b| - 1];
      var last := b[|b| - 1];
      assert a + b == (a + init) + [last];
      assert b == init + [last];
      OkBlocksAppend(a, init);
      OkBlocksSnoc(a + init, last);
      OkBlocksSnoc(init, last);
    }
  }

  /** The outcomes contain no success exactly when no block is collected. */
  lemma {:induction false} NoOkBlocks(o: seq<Outcome>)
    ensures OkBlocks(o) == [] <==> forall i | 0 <= i < |o| :: o[i].Fail?
  {
    if o != [] {
      var init := o[..|o| - 1];
      NoOkBlocks(init);
      assert o == init + [o[|o| - 1]];
      OkBlocksSnoc(init, o[|o| - 1]);
      if OkBlocks(o) == [] {
        forall i | 0 <= i < |o| ensures o[i].Fail? {
          if i < |o| - 1 { assert o[i] == init[i]; }
        }
      }
    }
  }

  /** A failing fixture adds nothing and does not stop the ones after it:
      the digest is the one the remaining fixtures give. */
  lemma FailAddsNothing(a: seq<Outcome>, b: seq<Outcome>)
    ensures OkBlocks(a + [Fail] + b) == OkBlocks(a + b)
    ensures DigestText(a + [Fail] + b) == DigestText(a + b)
  {
    OkBlocksAppend(a + [Fail], b);
    OkBlocksSnoc(a, Fail);
    OkBlocksAppend(a, b);
  }

  /** The blocks of a prefix of the outcomes are a prefix of the blocks. */
  lemma OkBlocksPrefix(o: seq<Outcome>, j: nat)
    requires j <= |o|
    ensures OkBlocks(o[..j]) <= OkBlocks(o)
  {
    assert o == o[..j] + o[j..];
    OkBlocksAppend(o[..j], o[j..]);
  }

  /** Once ten fixtures have succeeded the later ones change nothing. */
  lemma CapIgnoresRest(o: seq<Outcome>, j: nat)
    requires j <= |o| && |OkBlocks(o[..j])| >= MaxFixtures
    ensures Shown(o) == Shown(o[..j])
    ensures DigestText(o) == DigestText(o[..j])
  {
    OkBlocksPrefix(o, j);
  }

  /** A success preceded by fewer than ten successes is shown, at the
      position given by the number of successes before it. */
  lemma ShownAt(o: seq<Outcome>, i: nat)
    requires i < |o| && o[i].Ok? && |OkBlocks(o[..i])| < MaxFixtures
    ensures |OkBlocks(o[..i])| < |Shown(o)|
    ensures Shown(o)[|OkBlocks(o[..i])|] == o[i].block
  {
    assert o[..i + 1] == o[..i] + [o[i]];
    OkBlocksSnoc(o[..i], o[i]);
    OkBlocksPrefix(o, i + 1);
  }

  /** Every collected block comes from a success, the k-th block from the
      success that has exactly k successes before it. */
  lemma {:induction false} OkBlockSource(o: seq<Outcome>, k: nat) returns (i: nat)
    requires k < |OkBlocks(o)|
    ensures i < |o| && o[i].Ok? && |OkBlocks(o[..i])| == k && o[i].block == OkBlocks(o)[k]
  {
    var init := o[..|o| - 1];
    OkBlocksSnoc(init, o[|o| - 1]);
    assert o == init + [o[|o| - 1]];
    if k < |OkBlocks(init)| {
      i := OkBlockSource(init, k);
      assert o[..i] == init[..i];
    } else {
      i := |o| - 1;
    }
  }

  /** Every shown block is a success preceded by the shown blocks before it. */
  lemma ShownFrom(o: seq<Outcome>, k: nat) returns (i: nat)
    requires k < |Shown(o)|
    ensures i < |o| && o[i].Ok? && |OkBlocks(o[..i])| == k && o[i].block == Shown(o)[k]
  {
    i := OkBlockSource(o, k);
  }

  lemma ConcatEndsWithBlankLine(blocks: seq<string>)
    requires blocks != [] && EndsWithBlankLine(blocks[|blocks| - 1])
    ensures EndsWithBlankLine(Concat(blocks))
  {
    EndsWithAppend(Concat(blocks[..|blocks| - 1]), blocks[|blocks| - 1], "\n\n");
  }

  /** When every block ends with a blank line, the digest falls back to
      the "no matches" line exactly when nothing succeeded, and is then
      exactly the header and that line. */
  lemma FallbackExactlyWhenNone(o: seq<Outcome>)
    requires forall i | 0 <= i < |o| && o[i].Ok? :: EndsWithBlankLine(o[i].block)
    ensures EndsWith(DigestText(o), Fallback) <==> forall i | 0 <= i < |o| :: o[i].Fail?
    ensures DigestText(o) == Header + Fallback <==> forall i | 0 <= i < |o| :: o[i].Fail?
  {
    NoOkBlocks(o);
    var shown := Shown(o);
    if shown != [] {
      var i := ShownFrom(o, |shown| - 1);
      ConcatEndsWithBlankLine(shown);
      var d := DigestText(o);
      assert d[|d| - 1] == '\n';
      assert Fallback[|Fallback| - 1] == '.';
      assert !EndsWith(d, Fallback);
    } else {
      assert DigestText(o)[|Header|..] == Fallback;
    }
  }

  /** The same, stated over the fixtures themselves. */
  lemma FallbackExactlyWhenNoneSucceeds(fixtures: seq<Game>, env: Env)
    ensures EndsWith(DigestText(Outcomes(fixtures, env)), Fallback)
      <==> forall i | 0 <= i < |fixtures| :: ProcessFixture(fixtures[i], env).Fail?
    ensures DigestText(Outcomes(fixtures, env)) == Header + Fallback
      <==> forall i | 0 <= i < |fixtures| :: ProcessFixture(fixtures[i], env).Fail?
  {
    var o := Outcomes(fixtures, env);
    assert forall i | 0 <= i < |fixtures| :: o[i] == ProcessFixture(fixtures[i], env);
    FallbackExactlyWhenNone(o);
  }

  /** The goals-per-game rates of the four teams of the two-fixture day below. */
  function ScenarioRate(team: int): real {
    if team == 1 then 1.6 else if team == 2 then 1.0 else if team == 3 then 2.0 else 0.2
  }

  function ScenarioEnv(parse: string -> Option<real>, render: real -> string): Env {
    Env((team: int, league: int, season: int) => Some(Stats(Number(ScenarioRate(team)))), parse, render)
  }

  const ScenarioGames: seq<Game> := [
    Game(Some(39), Some(2024), Some(Team(Some(1), Some("A"))), Some(Team(Some(2), Some("B")))),
    Game(Some(39), Some(2024), Some(Team(Some(3), Some("C"))), Some(Team(Some(4), Some("D"))))]

  /** Two successes in a row give the header followed by both blocks. */
  lemma DigestOfTwo(b1: string, b2: string)
    ensures DigestText([Ok(b1), Ok(b2)]) == Header + b1 + b2
  {
    assert [Ok(b1), Ok(b2)] == [Ok(b1)] + [Ok(b2)];
    assert [Ok(b1)] == [] + [Ok(b1)];
    OkBlocksSnoc([], Ok(b1));
    OkBlocksSnoc([Ok(b1)], Ok(b2));
    assert [b1] == [] + [b1];
    ConcatSnoc([], b1);
    ConcatSnoc([b1], b2);
  }

  /** A fixture with every key present whose two teams have non-zero
      rates yields the block for those rates. */
  lemma ProcessCompleteFixture(game: Game, env: Env, homeGpg: real, awayGpg: real)
    requires Complete(game)
    requires env.fetch(game.home.value.id.value, game.leagueId.value, game.season.value) == Some(Stats(Number(homeGpg)))
    requires env.fetch(game.away.value.id.value, game.leagueId.value, game.season.value) == Some(Stats(Number(awayGpg)))
    requires homeGpg != 0.0 && awayGpg != 0.0
    ensures ProcessFixture(game, env)
      == Ok(Block(game.home.value.name.value, game.away.value.name.value,
                  Over25Text(EstimateOver25(homeGpg, awayGpg), env.render)))
  {
    assert HomeRate(game, env) == Some(homeGpg);
    assert AwayRate(game, env) == Some(awayGpg);
  }

  /** A day of two fixtures, A v B with rates 1.6 and 1.0 and C v D with
      rates 2.0 and 0.2: the digest holds two blocks in that order, the
      first Likely at 2.6 and the second Unlikely at 2.2. */
  lemma TwoFixtureScenario(parse: string -> Option<real>, render: real -> string)
    ensures DigestText(Outcomes(ScenarioGames, ScenarioEnv(parse, render)))
      == Header + Block("A", "B", Over25Text(Estimate(2.6, Likely), render))
                + Block("C", "D", Over25Text(Estimate(2.2, Unlikely), render))
  {
    var env := ScenarioEnv(parse, render);
    var o := Outcomes(ScenarioGames, env);
    var b1 := Block("A", "B", Over25Text(Estimate(2.6, Likely), render));
    var b2 := Block("C", "D", Over25Text(Estimate(2.2, Unlikely), render));
    assert o[0] == Ok(b1) by {
      assert env.fetch(1, 39, 2024) == Some(Stats(Number(1.6)));
      assert env.fetch(2, 39, 2024) == Some(Stats(Number(1.0)));
      ProcessCompleteFixture(ScenarioGames[0], env, 1.6, 1.0);
    }
    assert o[1] == Ok(b2) by {
      assert env.fetch(3, 39, 2024) == Some(Stats(Number(2.0)));
      assert env.fetch(4, 39, 2024) == Some(Stats(Number(0.2)));
      ProcessCompleteFixture(ScenarioGames[1], env, 2.0, 0.2);
    }
    assert o == [Ok(b1), Ok(b2)];
    DigestOfTwo(b1, b2);
  }

  /** build_daily_message after the fixture list has been fetched. Besides
      the message it returns the final `count` and the number of fixtures
      the loop looked at. */
  method BuildDailyMessage(fixtures: seq<Game>, env: Env) returns (message: string, count: nat, examined: nat)
    ensures message == DigestText(Outcomes(fixtures, env))
    ensures count == |Shown(Outcomes(fixtures, env))| && count <= MaxFixtures
    ensures examined <= |fixtures|
    ensures message == DigestText(Outcomes(fixtures[..examined], env))
    ensures count == |OkBlocks(Outcomes(fixtures[..examined], env))|
    ensures examined < |fixtures| ==> count == MaxFixtures
    ensures count == MaxFixtures ==> 0 < examined && ProcessFixture(fixtures[examined - 1], env).Ok?
  {
    message := Header;
    count := 0;
    var i := 0;
    while i < |fixtures|
      invariant 0 <= i <= |fixtures|
      invariant count == |OkBlocks(Outcomes(fixtures[..i], env))| && count < MaxFixtures
      invariant message == Header + Concat(OkBlocks(Outcomes(fixtures[..i], env)))
    {
      var outcome := ProcessFixture(fixtures[i], env);
      LoopStep(fixtures, i, env);
      i := i + 1;
      match outcome
      case Ok(block) =>
        message := message + block;
        count := count + 1;
        if count >= MaxFixtures {
          break;
        }
      case Fail =>
    }
    examined := i;
    ghost var seen := Outcomes(fixtures[..examined], env);
    OutcomesPrefix(fixtures, examined, env);
    if count == MaxFixtures {
      CapIgnoresRest(Outcomes(fixtures, env), examined);
    } else {
      assert fixtures[..examined] == fixtures;
    }
    assert message == Header + Concat(Shown(seen));
    if count == 0 {
      message := message + Fallback;
    }
  }
}

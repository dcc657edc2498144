/**
 * The "Today's Picks" board (frontend/src/components/tools/TodaysPicks.jsx):
 * building the pool of batter/pitcher match-ups for a date, scoring it in
 * batches of six, caching the sorted board per date, and the table's
 * filter, sort and percentile columns.  The network answers (games,
 * lineups, rosters and every per-batter fetch) are inputs, and the clock is
 * the parameter `now` (milliseconds).
 */
module TodaysPicks {
  import opened Wrappers
  import opened Sorting
  import opened Numeric
  import opened Batching
  import GameLog
  import HitScore

  // ---------------------------------------------------------------------
  // The slate
  // ---------------------------------------------------------------------

  datatype Side = Home | Away

  function Opposite(s: Side): Side {
    match s
    case Home => Away
    case Away => Home
  }

  /** A probable pitcher; `hand` is the throwing hand code, absent when unknown. */
  datatype Pitcher = Pitcher(id: int, hand: Option<string>)

  /** One side of a game: team name, team id and its probable pitcher. */
  datatype Team = Team(team: string, teamId: int, pitcher: Option<Pitcher>)

  datatype Game = Game(gamePk: int, home: Team, away: Team, venue: string, isNight: bool,
                       weather: Option<HitScore.Weather>)

  function TeamOf(g: Game, s: Side): Team {
    match s
    case Home => g.home
    case Away => g.away
  }

  /** A posted lineup slot. */
  datatype LineupPlayer = LineupPlayer(id: int, name: string, order: int)

  /** One side of `fetchConfirmedLineups`: `"confirmed"`, `"expected"` or `"unknown"`, and its players. */
  datatype SideLineup = SideLineup(status: string, players: seq<LineupPlayer>)

  datatype Lineups = Lineups(home: SideLineup, away: SideLineup)

  function LineupOf(l: Lineups, s: Side): SideLineup {
    match s
    case Home => l.home
    case Away => l.away
  }

  // ---------------------------------------------------------------------
  // The pool
  // ---------------------------------------------------------------------

  const ROSTER_CAP: nat := 13
  const PROJECTED_POS: int := 5
  const FULL_LINEUP: nat := 9

  datatype Batter = Batter(id: int, name: string)

  datatype LineupStatus = Confirmed | Projected

  /** One pool entry: who bats, against whom, where in the order and on what evidence. */
  datatype Candidate = Candidate(batter: Batter, pitcher: Pitcher, game: Game, side: Side,
                                 lineupPos: int, status: LineupStatus)

  /** A side's lineup is used only when posted as confirmed with at least nine players. */
  predicate HasConfirmed(lineups: map<int, Lineups>, gamePk: int, side: Side) {
    gamePk in lineups
    && LineupOf(lineups[gamePk], side).status == "confirmed"
    && |LineupOf(lineups[gamePk], side).players| >= FULL_LINEUP
  }

  /** Each lineup player bats at their posted order. */
  function ConfirmedEntries(players: seq<LineupPlayer>, p: Pitcher, g: Game, side: Side): (r: seq<Candidate>)
    ensures |r| == |players|
    ensures forall k :: 0 <= k < |r| ==>
              r[k] == Candidate(Batter(players[k].id, players[k].name), p, g, side, players[k].order, Confirmed)
    decreases |players|
  {
    if players == [] then []
    else
      var last := players[|players| - 1];
      ConfirmedEntries(players[..|players| - 1], p, g, side)
        + [Candidate(Batter(last.id, last.name), p, g, side, last.order, Confirmed)]
  }

  /** Each roster player is estimated to bat fifth. */
  function ProjectedEntries(roster: seq<GameLog.Player>, p: Pitcher, g: Game, side: Side): (r: seq<Candidate>)
    ensures |r| == |roster|
    ensures forall k :: 0 <= k < |r| ==>
              r[k] == Candidate(Batter(roster[k].id, roster[k].name), p, g, side, PROJECTED_POS, Projected)
    decreases |roster|
  {
    if roster == [] then []
    else
      var last := roster[|roster| - 1];
      ProjectedEntries(roster[..|roster| - 1], p, g, side)
        + [Candidate(Batter(last.id, last.name), p, g, side, PROJECTED_POS, Projected)]
  }

  /**
   * The batters one side contributes.  `rosters` holds the answers of
   * `fetchRoster` by team id; a team missing from it is a failed fetch,
   * which the source skips.
   */
  function SidePool(g: Game, side: Side, lineups: map<int, Lineups>,
                    rosters: map<int, seq<GameLog.Player>>): seq<Candidate>
  {
    var opp := TeamOf(g, Opposite(side)).pitcher;
    if opp.None? then []
    else if HasConfirmed(lineups, g.gamePk, side) then
      ConfirmedEntries(LineupOf(lineups[g.gamePk], side).players, opp.value, g, side)
    else if TeamOf(g, side).teamId in rosters then
      ProjectedEntries(Take(rosters[TeamOf(g, side).teamId], ROSTER_CAP), opp.value, g, side)
    else []
  }

  function GamePool(g: Game, lineups: map<int, Lineups>, rosters: map<int, seq<GameLog.Player>>): seq<Candidate> {
    if g.home.pitcher.None? && g.away.pitcher.None? then []
    else SidePool(g, Home, lineups, rosters) + SidePool(g, Away, lineups, rosters)
  }

  /** `allBatters` after the loop over `games`. */
  function PoolOf(games: seq<Game>, lineups: map<int, Lineups>, rosters: map<int, seq<GameLog.Player>>): seq<Candidate>
    decreases |games|
  {
    if games == [] then []
    else PoolOf(games[..|games| - 1], lineups, rosters) + GamePool(games[|games| - 1], lineups, rosters)
  }

  /** The team names a side adds to `teamSet`: a side is counted once the other side has a pitcher. */
  function SideTeams(g: Game, side: Side): set<string> {
    if TeamOf(g, Opposite(side)).pitcher.Some? then {TeamOf(g, side).team} else {}
  }

  function TeamsOf(games: seq<Game>): set<string>
    decreases |games|
  {
    if games == [] then {}
    else
      var g := games[|games| - 1];
      TeamsOf(games[..|games| - 1]) + SideTeams(g, Home) + SideTeams(g, Away)
  }

  method PushConfirmed(pool: seq<Candidate>, players: seq<LineupPlayer>, p: Pitcher, g: Game, side: Side)
    returns (r: seq<Candidate>)
    ensures r == pool + ConfirmedEntries(players, p, g, side)
  {
    r := pool;
    for k := 0 to |players|
      invariant r == pool + ConfirmedEntries(players[..k], p, g, side)
    {
      assert players[..k + 1][..k] == players[..k];
      r := r + [Candidate(Batter(players[k].id, players[k].name), p, g, side, players[k].order, Confirmed)];
    }
    assert players[..|players|] == players;
  }

  method PushProjected(pool: seq<Candidate>, roster: seq<GameLog.Player>, p: Pitcher, g: Game, side: Side)
    returns (r: seq<Candidate>)
    ensures r == pool + ProjectedEntries(roster, p, g, side)
  {
    r := pool;
    for k := 0 to |roster|
      invariant r == pool + ProjectedEntries(roster[..k], p, g, side)
    {
      assert roster[..k + 1][..k] == roster[..k];
      r := r + [Candidate(Batter(roster[k].id, roster[k].name), p, g, side, PROJECTED_POS, Projected)];
    }
    assert roster[..|roster|] == roster;
  }

  /** The body of the loop over `["home", "away"]` for one side. */
  method AddSide(pool: seq<Candidate>, teams: set<string>, g: Game, side: Side,
                 lineups: map<int, Lineups>, rosters: map<int, seq<GameLog.Player>>)
    returns (pool': seq<Candidate>, teams': set<string>)
    ensures pool' == pool + SidePool(g, side, lineups, rosters)
    ensures teams' == teams + SideTeams(g, side)
  {
    pool', teams' := pool, teams;
    var battingTeam := TeamOf(g, side);
    var pitcher := TeamOf(g, Opposite(side)).pitcher;
    if pitcher.None? {
      return;
    }
    teams' := teams' + {battingTeam.team};
    if HasConfirmed(lineups, g.gamePk, side) {
      pool' := PushConfirmed(pool', LineupOf(lineups[g.gamePk], side).players, pitcher.value, g, side);
    } else if battingTeam.teamId in rosters {
      pool' := PushProjected(pool', Take(rosters[battingTeam.teamId], ROSTER_CAP), pitcher.value, g, side);
    }
  }

  /** One iteration of the loop over `games`: a game with no probable pitcher is skipped. */
  method AddGame(pool: seq<Candidate>, teams: set<string>, g: Game,
                 lineups: map<int, Lineups>, rosters: map<int, seq<GameLog.Player>>)
    returns (pool': seq<Candidate>, teams': set<string>)
    ensures pool' == pool + GamePool(g, lineups, rosters)
    ensures teams' == teams + SideTeams(g, Home) + SideTeams(g, Away)
  {
    pool', teams' := pool, teams;
    if g.home.pitcher.None? && g.away.pitcher.None? {
      return;
    }
    // the loop over the two sides, home first
    pool', teams' := AddSide(pool', teams', g, Home, lineups, rosters);
    pool', teams' := AddSide(pool', teams', g, Away, lineups, rosters);
  }

  lemma PoolOfSnoc(games: seq<Game>, i: nat, lineups: map<int, Lineups>, rosters: map<int, seq<GameLog.Player>>)
    requires i < |games|
    ensures PoolOf(games[..i + 1], lineups, rosters) == PoolOf(games[..i], lineups, rosters) + GamePool(games[i], lineups, rosters)
    ensures TeamsOf(games[..i + 1]) == TeamsOf(games[..i]) + SideTeams(games[i], Home) + SideTeams(games[i], Away)
  {
    assert games[..i + 1][..i] == games[..i];
  }

  /** The pool-building loop of `run` (TodaysPicks.jsx:115-165). */
  method BuildPool(games: seq<Game>, lineups: map<int, Lineups>, rosters: map<int, seq<GameLog.Player>>)
    returns (pool: seq<Candidate>, teams: set<string>)
    ensures pool == PoolOf(games, lineups, rosters)
    ensures teams == TeamsOf(games)
  {
    pool, teams := [], {};
    for gi := 0 to |games|
      invariant pool == PoolOf(games[..gi], lineups, rosters)
      invariant teams == TeamsOf(games[..gi])
    {
      PoolOfSnoc(games, gi, lineups, rosters);
      pool, teams := AddGame(pool, teams, games[gi], lineups, rosters);
    }
    assert games[..|games|] == games;
  }

  /** An entry of the pool as the source builds it. */
  ghost predicate WellFormed(c: Candidate, lineups: map<int, Lineups>) {
    && TeamOf(c.game, Opposite(c.side)).pitcher == Some(c.pitcher)
    && (c.status == Confirmed <==> HasConfirmed(lineups, c.game.gamePk, c.side))
    && (c.status == Confirmed ==>
          exists k :: 0 <= k < |LineupOf(lineups[c.game.gamePk], c.side).players| &&
            var pl := LineupOf(lineups[c.game.gamePk], c.side).players[k];
            c.batter == Batter(pl.id, pl.name) && c.lineupPos == pl.order)
    && (c.status == Projected ==> c.lineupPos == PROJECTED_POS)
  }

  /**
   * A side is skipped when the opposing pitcher is missing; otherwise it
   * bats its confirmed lineup, or at most 13 roster players projected fifth.
   */
  lemma SidePoolShape(g: Game, side: Side, lineups: map<int, Lineups>, rosters: map<int, seq<GameLog.Player>>)
    ensures TeamOf(g, Opposite(side)).pitcher.None? ==> SidePool(g, side, lineups, rosters) == []
    ensures TeamOf(g, Opposite(side)).pitcher.Some? && HasConfirmed(lineups, g.gamePk, side) ==>
              |SidePool(g, side, lineups, rosters)| == |LineupOf(lineups[g.gamePk], side).players|
    ensures !HasConfirmed(lineups, g.gamePk, side) ==> |SidePool(g, side, lineups, rosters)| <= ROSTER_CAP
    ensures forall c :: c in SidePool(g, side, lineups, rosters) ==> c.game == g && c.side == side && WellFormed(c, lineups)
  {
    var r := SidePool(g, side, lineups, rosters);
    forall c | c in r
      ensures c.game == g && c.side == side && WellFormed(c, lineups)
    {
      var k :| 0 <= k < |r| && r[k] == c;
    }
  }

  /** A game with no probable pitcher on either side adds nobody. */
  lemma NoPitchersNoBatters(g: Game, lineups: map<int, Lineups>, rosters: map<int, seq<GameLog.Player>>)
    requires g.home.pitcher.None? && g.away.pitcher.None?
    ensures GamePool(g, lineups, rosters) == []
    ensures SidePool(g, Home, lineups, rosters) + SidePool(g, Away, lineups, rosters) == []
  {
  }

  /** Every entry of the whole pool is well formed. */
  lemma {:induction false} PoolWellFormed(games: seq<Game>, lineups: map<int, Lineups>,
                                          rosters: map<int, seq<GameLog.Player>>)
    ensures forall c :: c in PoolOf(games, lineups, rosters) ==> c.game in games && WellFormed(c, lineups)
    decreases |games|
  {
    if games != [] {
      var init, g := games[..|games| - 1], games[|games| - 1];
      PoolWellFormed(init, lineups, rosters);
      SidePoolShape(g, Home, lineups, rosters);
      SidePoolShape(g, Away, lineups, rosters);
      forall c | c in PoolOf(games, lineups, rosters)
        ensures c.game in games && WellFormed(c, lineups)
      {
        if c in PoolOf(init, lineups, rosters) {
          assert c.game in init;
        }
      }
    }
  }

  /** With no lineups posted every entry is a roster player projected fifth. */
  lemma PoolWithoutLineups(games: seq<Game>, rosters: map<int, seq<GameLog.Player>>)
    ensures forall c :: c in PoolOf(games, map[], rosters) ==>
              c.game in games && c.status == Projected && c.lineupPos == PROJECTED_POS
  {
    PoolWellFormed(games, map[], rosters);
  }

  // ---------------------------------------------------------------------
  // Scoring one batter (`scoreBatter`)
  // ---------------------------------------------------------------------

  /** A BvP line: at-bats (0 when absent) and the average. */
  datatype BvPLine = BvPLine(atBats: nat, avg: Option<real>)

  /** A season or split stat line; the engine reads its `avg`. */
  datatype StatLine = StatLine(avg: Option<real>)

  /** A pitcher game-log start, dated in milliseconds. */
  datatype PitchStart = PitchStart(date: int)

  /** The regular-season answers of the eight fetches, after their `|| []` / `|| {}` defaults. */
  datatype Fetched = Fetched(
    gl: seq<GameLog.Game>, bvp: Option<BvPLine>, platoon: map<string, StatLine>,
    dayNight: map<string, StatLine>, season: StatLine, pitStat: StatLine, pitLog: seq<PitchStart>,
    statcast: Option<HitScore.StatcastRow>)

  /** The spring-training answers; `None` is a rejected promise (`value` undefined). */
  datatype Spring = Spring(gl: Option<seq<GameLog.Game>>, season: Option<StatLine>,
                           pitStat: Option<StatLine>, pitLog: Option<seq<PitchStart>>)

  /** Everything fetched for one pool entry; `personInfo` is `fetchPersonInfo`'s `pitchHand`, or `None` for `null`. */
  datatype BatterData = BatterData(personInfo: Option<string>, main: Fetched, spring: Spring)

  /** The data is thin when the log has fewer than five games or there is no season average. */
  predicate IsThin(d: Fetched) {
    |d.gl| < 5 || d.season.avg.None?
  }

  /** The fallback merge of TodaysPicks.jsx:220-233. */
  function Merged(d: Fetched, st: Spring): Fetched {
    if !IsThin(d) then d
    else
      d.(gl := if |d.gl| < 5 then d.gl + st.gl.GetOr([]) else d.gl,
         season := if d.season.avg.None? then st.season.GetOr(d.season) else d.season,
         pitStat := if d.pitStat.avg.None? then st.pitStat.GetOr(d.pitStat) else d.pitStat,
         pitLog := if |d.pitLog| == 0 then st.pitLog.GetOr(d.pitLog) else d.pitLog)
  }

  /** The merge as the source writes it: reassigning the four `let` bindings. */
  method MergeFallback(d: Fetched, st: Spring) returns (m: Fetched, isThin: bool)
    ensures isThin <==> |d.gl| < 5 || d.season.avg.None?
    ensures m == Merged(d, st)
  {
    var gl, seasonStat, pitStat, pitLog := d.gl, d.season, d.pitStat, d.pitLog;
    isThin := |gl| < 5 || seasonStat.avg.None?;
    if isThin {
      if |gl| < 5 {
        gl := gl + st.gl.GetOr([]);
      }
      if seasonStat.avg.None? {
        seasonStat := st.season.GetOr(seasonStat);
      }
      if pitStat.avg.None? {
        pitStat := st.pitStat.GetOr(pitStat);
      }
      if |pitLog| == 0 {
        pitLog := st.pitLog.GetOr(pitLog);
      }
    }
    m := d.(gl := gl, season := seasonStat, pitStat := pitStat, pitLog := pitLog);
  }

  /**
   * What the merge changes: the log only when it is shorter than five
   * games, the season line only when its average is missing, the pitcher
   * line only on thin data with a missing average, the pitcher log only on
   * thin data with an empty log; nothing else.
   */
  lemma MergedFields(d: Fetched, st: Spring)
    ensures var m := Merged(d, st);
      && m.gl == (if |d.gl| < 5 then d.gl + st.gl.GetOr([]) else d.gl)
      && m.season == (if d.season.avg.None? && st.season.Some? then st.season.value else d.season)
      && m.pitStat == (if IsThin(d) && d.pitStat.avg.None? && st.pitStat.Some? then st.pitStat.value else d.pitStat)
      && m.pitLog == (if IsThin(d) && |d.pitLog| == 0 && st.pitLog.Some? then st.pitLog.value else d.pitLog)
      && m.bvp == d.bvp && m.platoon == d.platoon && m.dayNight == d.dayNight && m.statcast == d.statcast
  {
  }

  /** The merge only ever appends to the game log. */
  lemma MergeExtendsLog(d: Fetched, st: Spring)
    ensures |Merged(d, st).gl| >= |d.gl|
    ensures Merged(d, st).gl[..|d.gl|] == d.gl
  {
  }

  /**
   * The merge is not idempotent: a one-game log with a one-game spring log
   * grows to two games after one merge and to three after a second.
   */
  lemma MergeNotIdempotent(g: GameLog.Game)
    ensures var d := Fetched([g], None, map[], map[], StatLine(None), StatLine(None), [], None);
            var st := Spring(Some([g]), None, None, None);
            && |Merged(d, st).gl| == 2
            && |Merged(Merged(d, st), st).gl| == 3
            && Merged(Merged(d, st), st) != Merged(d, st)
  {
    var d := Fetched([g], None, map[], map[], StatLine(None), StatLine(None), [], None);
    var st := Spring(Some([g]), None, None, None);
    assert Merged(d, st).gl == [g, g];
    assert Merged(Merged(d, st), st).gl == [g, g, g];
  }

  /** A hand the source takes as known: present, non-empty and not `"?"`. */
  predicate HandKnown(hand: Option<string>) {
    hand.Some? && hand.value != "" && hand.value != "?"
  }

  /**
   * The pitcher's hand after the fix-up in `scoreBatter`: an unknown hand is
   * looked up, and whatever is left empty becomes `"R"`.
   */
  function FixedHand(hand: Option<string>, personInfo: Option<string>): (h: Option<string>)
    ensures HandKnown(hand) ==> h == hand
    ensures !HandKnown(hand) && personInfo.Some? && personInfo.value != "" ==> h == personInfo
    ensures !HandKnown(hand) && personInfo.None? ==> h == (if hand.Some? && hand.value != "" then hand else Some("R"))
    ensures h.Some? && h.value != ""
  {
    if HandKnown(hand) then hand
    else
      var h := if personInfo.Some? then personInfo else hand;
      if h.Some? && h.value != "" then h else Some("R")
  }

  /** `PARK_FACTORS` (frontend/src/utils/mlbApi.js): each venue's run factor. */
  const PARK_FACTORS: map<string, int> := map[
    "Coors Field" := 121, "Great American Ball Park" := 112, "Fenway Park" := 110,
    "Wrigley Field" := 108, "Globe Life Field" := 107, "American Family Field" := 106,
    "Yankee Stadium" := 105, "Camden Yards" := 105, "Rogers Centre" := 104,
    "Angel Stadium" := 104, "Citizens Bank Park" := 104, "Guaranteed Rate Field" := 103,
    "Truist Park" := 103, "Progressive Field" := 102, "Nationals Park" := 99,
    "Minute Maid Park" := 99, "Chase Field" := 99, "loanDepot Park" := 100,
    "Target Field" := 97, "Busch Stadium" := 96, "PNC Park" := 97,
    "Kauffman Stadium" := 96, "Citi Field" := 95, "Tropicana Field" := 95,
    "T-Mobile Park" := 97, "Dodger Stadium" := 96, "Oracle Park" := 94,
    "Petco Park" := 93, "Oakland Coliseum" := 92, "Comerica Park" := 92]

  /** `PARK_FACTORS[venue]?.factor || 100`. */
  function ParkFactor(venue: string): (pf: int)
    ensures venue !in PARK_FACTORS ==> pf == 100
    ensures venue in PARK_FACTORS ==> pf == PARK_FACTORS[venue]
    ensures 92 <= pf <= 121
  {
    if venue in PARK_FACTORS && PARK_FACTORS[venue] != 0 then PARK_FACTORS[venue] else 100
  }

  const DAY_MS: nat := 86400000

  /** Days since the pitcher's latest start, or 4 with no start on record. */
  function RestDays(pitLog: seq<PitchStart>, now: int): (days: int)
    ensures pitLog == [] ==> days == 4
    ensures pitLog != [] ==> (now - pitLog[0].date) as real / DAY_MS as real - 0.5 < days as real
                              <= (now - pitLog[0].date) as real / DAY_MS as real + 0.5
  {
    if |pitLog| >= 1 then Round((now - pitLog[0].date) as real / DAY_MS as real) else 4
  }

  /** BvP counts only with at least five at-bats. */
  predicate HasBvP(bvp: Option<BvPLine>) {
    bvp.Some? && bvp.value.atBats >= 5
  }

  function PlatoonKey(hand: Option<string>): (k: string)
    ensures k == "vs. Left" <==> hand == Some("L")
    ensures k != "vs. Left" ==> k == "vs. Right"
  {
    if hand == Some("L") then "vs. Left" else "vs. Right"
  }

  function DayNightKey(isNight: bool): string {
    if isNight then "Night" else "Day"
  }

  /** `(stats[key] || {}).avg`. */
  function AvgAt(stats: map<string, StatLine>, key: string): Option<real> {
    if key in stats then stats[key].avg else None
  }

  function SplitAvg(s: Option<GameLog.Split>): Option<real> {
    if s.Some? then Some(s.value.avg) else None
  }

  /** The argument object passed to `computeHitScore`. */
  function InputsOf(c: Candidate, hand: Option<string>, m: Fetched, now: int): (inp: HitScore.HitInputs)
    ensures inp.hasBvP <==> m.bvp.Some? && m.bvp.value.atBats >= 5
    ensures m.pitLog == [] ==> inp.pitcherDaysRest == 4
    ensures c.game.venue !in PARK_FACTORS ==> inp.parkFactor == Some(100.0)
    ensures inp.platoon == AvgAt(m.platoon, if hand == Some("L") then "vs. Left" else "vs. Right")
    ensures inp.lineupPos == c.lineupPos
  {
    HitScore.HitInputs(
      SplitAvg(GameLog.SplitOf(m.gl, 7)), SplitAvg(GameLog.SplitOf(m.gl, 15)),
      if m.bvp.Some? then m.bvp.value.avg else None,
      AvgAt(m.platoon, PlatoonKey(hand)),
      Some(ParkFactor(c.game.venue) as real), m.season.avg,
      AvgAt(m.dayNight, DayNightKey(c.game.isNight)), m.pitStat.avg,
      HasBvP(m.bvp), c.lineupPos, RestDays(m.pitLog, now),
      c.game.weather, Some(c.game.venue), m.statcast)
  }

  /** A scored pool entry, with the columns the table shows. */
  datatype Pick = Pick(
    cand: Candidate, pitcher: Pitcher, scoreData: HitScore.HitScoreResult,
    l3: Option<GameLog.Split>, l7: Option<GameLog.Split>, l15: Option<GameLog.Split>,
    streak: nat, bvp: Option<BvPLine>, platoonAvg: Option<real>, seasonAvg: Option<real>,
    pf: int, hasBvP: bool, hot: bool, isFallback: bool)

  /**
   * `scoreBatter`: `data` is `None` when the body throws, which its `catch`
   * turns into `null`.  The fetchers catch their own failures and return
   * defaults, so `data` being present does not mean every fetch succeeded.
   */
  function ScoreBatter(c: Candidate, data: Option<BatterData>, now: int): (r: Option<Pick>)
    ensures r.Some? <==> data.Some?
    ensures r.Some? ==> r.value.cand == c && r.value.isFallback == IsThin(data.value.main)
    ensures r.Some? ==> 0 <= r.value.scoreData.score <= 100
  {
    if data.None? then None
    else
      var d := data.value;
      var hand := FixedHand(c.pitcher.hand, d.personInfo);
      var m := Merged(d.main, d.spring);
      var l7 := GameLog.SplitOf(m.gl, 7);
      var inp := InputsOf(c, hand, m, now);
      var sd := HitScore.ComputeHitScore(inp);
      var streak := GameLog.LeadingHits(m.gl);
      Some(Pick(c, c.pitcher.(hand := hand), sd,
                GameLog.SplitOf(m.gl, 3), l7, GameLog.SplitOf(m.gl, 15), streak,
                m.bvp, AvgAt(m.platoon, PlatoonKey(hand)), m.season.avg,
                ParkFactor(c.game.venue), HasBvP(m.bvp),
                HitScore.IsPlayerHot(streak, SplitAvg(l7), Some(sd.score)), IsThin(d.main)))
  }

  // ---------------------------------------------------------------------
  // The run and the per-date cache
  // ---------------------------------------------------------------------

  const BATCH: nat := 6
  const FRESH_MS: nat := 5 * 60 * 1000

  function ScoreKey(p: Pick): real { p.scoreData.score as real }

  /** `results` after the batch loop, sorted by score, best first. */
  function Board(pool: seq<Candidate>, data: Candidate -> Option<BatterData>, now: int): seq<Pick> {
    SortBy(Kept(pool, c => ScoreBatter(c, data(c), now)), ScoreKey, true)
  }

  /** The board holds exactly the scored entries, best first. */
  lemma BoardSorted(pool: seq<Candidate>, data: Candidate -> Option<BatterData>, now: int)
    ensures var b := Board(pool, data, now);
      && (forall i, j :: 0 <= i < j < |b| ==> b[i].scoreData.score >= b[j].scoreData.score)
      && multiset(b) == multiset(Kept(pool, c => ScoreBatter(c, data(c), now)))
      && |b| <= |pool|
  {
    var b := Board(pool, data, now);
    assert forall i, j :: 0 <= i < j < |b| ==> InOrder(ScoreKey, true, b[i], b[j]);
    KeptLength(pool, c => ScoreBatter(c, data(c), now));
  }

  /** Every pick on the board comes from a pool entry whose data was fetched. */
  lemma BoardFromPool(pool: seq<Candidate>, data: Candidate -> Option<BatterData>, now: int, p: Pick)
    requires p in Board(pool, data, now)
    ensures p.cand in pool && data(p.cand).Some?
  {
    var score := c => ScoreBatter(c, data(c), now);
    var kept := Kept(pool, score);
    assert p in multiset(kept);
    KeptMembership(pool, score, p);
    var i :| 0 <= i < |pool| && score(pool[i]) == Some(p);
  }

  /** `{ picks, teams, ts }` as stored in `_scoreCache`. */
  datatype CacheEntry = CacheEntry(picks: seq<Pick>, teams: set<string>, ts: int)

  /** `{ home, away }` statuses per game, as `statusMap` holds them. */
  datatype StatusPair = StatusPair(home: string, away: string)

  function StatusMap(lineups: map<int, Lineups>): (m: map<int, StatusPair>)
    ensures m.Keys == lineups.Keys
  {
    map k | k in lineups :: StatusPair(lineups[k].home.status, lineups[k].away.status)
  }

  /** The module-level `_scoreCache`, keyed by date. */
  class PickBoard {
    var cache: map<string, CacheEntry>

    constructor()
      ensures cache == map[]
    {
      cache := map[];
    }

    /** A date's board is reused without re-running while under five minutes old. */
    predicate Fresh(date: string, now: int)
      reads this
    {
      date in cache && cache[date].ts != 0 && now - cache[date].ts < FRESH_MS
    }

    /** The effect on `[date]`: run unless a fresh board is cached. */
    method NeedsRun(date: string, now: int) returns (run: bool)
      ensures run <==> !Fresh(date, now)
    {
      run := true;
      if date in cache {
        var cached := cache[date];
        if cached.ts != 0 && now - cached.ts < FRESH_MS {
          run := false;
        }
      }
    }

    /**
     * `run`: `games` is `fetchGames`' answer (`None` when it throws, which
     * leaves the cache alone), `lineups` is `fetchAllLineups`, `rosters`
     * the roster answers and `data` the per-batter fetches.  Returns the
     * status map, the team list and the progress values; stores the sorted
     * board under `date`.
     */
    method Run(date: string, games: Option<seq<Game>>, lineups: map<int, Lineups>,
               rosters: map<int, seq<GameLog.Player>>, data: Candidate -> Option<BatterData>, now: int)
      returns (status: map<int, StatusPair>, teams: set<string>, done: seq<nat>)
      modifies this
      ensures games.None? ==> cache == old(cache)
      ensures games.Some? ==>
        && status == StatusMap(lineups)
        && teams == TeamsOf(games.value)
        && done == Progress(|PoolOf(games.value, lineups, rosters)|, BATCH, |done|)
        && |PoolOf(games.value, lineups, rosters)| <= Start(|done|, BATCH)
        && (|done| == 0 || Start(|done| - 1, BATCH) < |PoolOf(games.value, lineups, rosters)|)
        && (|PoolOf(games.value, lineups, rosters)| > 0 ==> done[|done| - 1] == |PoolOf(games.value, lineups, rosters)|)
        && cache == old(cache)[date := CacheEntry(Board(PoolOf(games.value, lineups, rosters), data, now),
                                                  TeamsOf(games.value), now)]
      ensures games.Some? && now != 0 ==> forall later :: now <= later < now + FRESH_MS ==> Fresh(date, later)
    {
      status, teams, done := map[], {}, [];
      if games.None? {
        return;
      }
      status := StatusMap(lineups);
      var pool;
      pool, teams := BuildPool(games.value, lineups, rosters);
      var results;
      results, done := RunBatches(pool, BATCH, c => ScoreBatter(c, data(c), now), None);
      RunCoversPool(pool, BATCH, |done|);
      if |pool| > 0 {
        ProgressAt(|pool|, BATCH, |done|, |done| - 1);
      }
      ChunksTile(pool, BATCH, |done|);
      assert pool[..MinNat(Start(|done|, BATCH), |pool|)] == pool;
      var sorted := SortBy(results, ScoreKey, true);
      cache := cache[date := CacheEntry(sorted, teams, now)];
    }
  }

  // ---------------------------------------------------------------------
  // The table: filter, sort, percentile
  // ---------------------------------------------------------------------

  /** The sortable columns; `Other` stands for any other column name, which sorts as 0. */
  datatype Column = ScoreCol | L7Col | L3Col | StreakCol | SeasonCol | BvPCol | PlatCol | XbaCol | BarrelCol | Other

  /** The value a pick sorts by; `parseFloat(x) || 0` reads a missing average as 0. */
  function SortValue(col: Column, showBvP: bool, p: Pick): real {
    match col
    case ScoreCol => (if showBvP then p.scoreData.withBvP else p.scoreData.withoutBvP) as real
    case L7Col => HitScore.OrDefault(SplitAvg(p.l7), 0.0)
    case L3Col => HitScore.OrDefault(SplitAvg(p.l3), 0.0)
    case StreakCol => p.streak as real
    case SeasonCol => HitScore.OrDefault(p.seasonAvg, 0.0)
    case BvPCol => HitScore.OrDefault(if p.bvp.Some? then p.bvp.value.avg else None, 0.0)
    case PlatCol => HitScore.OrDefault(p.platoonAvg, 0.0)
    case XbaCol => if p.scoreData.statcast.Some? then p.scoreData.statcast.value.xba else 0.0
    case BarrelCol => if p.scoreData.statcast.Some? then p.scoreData.statcast.value.barrelPct else 0.0
    case Other => 0.0
  }

  /** The tier and team filters; `None` is `"all"`. */
  predicate Passes(tier: Option<HitScore.Tier>, team: Option<string>, p: Pick) {
    && (tier.None? || p.scoreData.tier == tier.value)
    && (team.None? || TeamOf(p.cand.game, p.cand.side).team == team.value)
  }

  /** `sorted`: the filtered picks ordered by the chosen column. */
  function Visible(picks: seq<Pick>, tier: Option<HitScore.Tier>, team: Option<string>,
                   col: Column, showBvP: bool, desc: bool): seq<Pick> {
    SortBy(Filter(picks, p => Passes(tier, team, p)), p => SortValue(col, showBvP, p), desc)
  }

  /** A pick is shown exactly when it passes both filters, once per occurrence, in column order. */
  lemma VisibleExact(picks: seq<Pick>, tier: Option<HitScore.Tier>, team: Option<string>,
                     col: Column, showBvP: bool, desc: bool, p: Pick)
    ensures p in Visible(picks, tier, team, col, showBvP, desc) <==> p in picks && Passes(tier, team, p)
    ensures Ordered(Visible(picks, tier, team, col, showBvP, desc), q => SortValue(col, showBvP, q), desc)
    ensures multiset(Visible(picks, tier, team, col, showBvP, desc)) == multiset(Filter(picks, q => Passes(tier, team, q)))
  {
    var f := Filter(picks, q => Passes(tier, team, q));
    FilterMembership(picks, q => Passes(tier, team, q), p);
    var v := Visible(picks, tier, team, col, showBvP, desc);
    assert p in v <==> p in multiset(v);
    assert p in f <==> p in multiset(f);
  }

  /** `Math.max(1, Math.ceil((i + 1) / n * 100))`, in exact arithmetic. */
  function Percentile(i: nat, n: nat): (pct: int)
    requires i < n
  {
    var c := ((i + 1) * 100 + n - 1) / n;
    if c < 1 then 1 else c
  }

  /** The rank lies in [1, 100], and the last row is at 100. */
  lemma PercentileBounds(i: nat, n: nat)
    requires i < n
    ensures 1 <= Percentile(i, n) <= 100
    ensures i == n - 1 ==> Percentile(i, n) == 100
  {
    var num := (i + 1) * 100 + n - 1;
    assert num < 101 * n by {
      assert (i + 1) * 100 <= n * 100;
    }
    DivBelow(num, n, 101);
    if i == n - 1 {
      assert num == 100 * n + (n - 1);
      DivExact(100, n, n - 1);
    }
  }

  lemma DivBelow(a: nat, n: nat, c: nat)
    requires n > 0 && a < c * n
    ensures a / n < c
  {
    assert (a / n) * n <= a;
    if a / n >= c {
      MulMonotone(c, a / n, n);
      assert false;
    }
  }

  lemma MulMonotone(a: nat, b: nat, n: nat)
    requires a <= b
    ensures a * n <= b * n
  {
  }

  lemma DivExact(q: nat, n: nat, r: nat)
    requires n > 0 && r < n
    ensures (q * n + r) / n == q
  {
    var x := q * n + r;
    var d := x / n;
    assert d * n <= x < d * n + n;
    assert (q + 1) * n == q * n + n;
    assert (d + 1) * n == d * n + n;
    if d > q {
      MulMonotone(q + 1, d, n);
      assert false;
    } else if d < q {
      MulMonotone(d + 1, q, n);
      assert false;
    }
  }

  /** Ranks never decrease down the sorted table. */
  lemma PercentileMonotone(i: nat, j: nat, n: nat)
    requires i <= j < n
    ensures Percentile(i, n) <= Percentile(j, n)
  {
    var a, b := (i + 1) * 100 + n - 1, (j + 1) * 100 + n - 1;
    assert a <= b;
    DivMonotoneNat(a, b, n);
  }

  lemma DivMonotoneNat(a: nat, b: nat, n: nat)
    requires a <= b && n > 0
    ensures a / n <= b / n
  {
    assert (a / n) * n <= a;
    assert b < (b / n + 1) * n;
    if a / n > b / n {
      MulMonotone(b / n + 1, a / n, n);
      assert false;
    }
  }

  /** The rows shown in the grid: the first ten of the sorted table. */
  function Top10(sorted: seq<Pick>): (r: seq<Pick>)
    ensures |r| == (if |sorted| < 10 then |sorted| else 10)
    ensures r == sorted[..|r|]
  {
    Take(sorted, 10)
  }

  // ---------------------------------------------------------------------
  // LineupStatusBar
  // ---------------------------------------------------------------------

  /** Confirmed sides among `entries`. */
  function ConfirmedSides(entries: seq<StatusPair>): nat
    decreases |entries|
  {
    if entries == [] then 0
    else
      var e := entries[|entries| - 1];
      ConfirmedSides(entries[..|entries| - 1])
        + (if e.home == "confirmed" then 1 else 0) + (if e.away == "confirmed" then 1 else 0)
  }

  lemma {:induction false} ConfirmedSidesBound(entries: seq<StatusPair>)
    ensures ConfirmedSides(entries) <= 2 * |entries|
    decreases |entries|
  {
    if entries != [] {
      ConfirmedSidesBound(entries[..|entries| - 1]);
    }
  }

  /**
   * The bar's counts over `Object.entries(statusMap)`: `None` (no bar) for
   * an empty map, otherwise the confirmed and projected sides, two per game.
   */
  method LineupStatusCounts(entries: seq<StatusPair>) returns (r: Option<(nat, nat)>)
    ensures r.None? <==> entries == []
    ensures r.Some? ==> r.value.0 == ConfirmedSides(entries)
    ensures r.Some? ==> r.value.0 + r.value.1 == 2 * |entries|
  {
    if |entries| == 0 {
      return None;
    }
    var confirmed, projected := 0, 0;
    for k := 0 to |entries|
      invariant confirmed == ConfirmedSides(entries[..k])
      invariant confirmed + projected == 2 * k
    {
      assert entries[..k + 1][..k] == entries[..k];
      var sides := entries[k];
      if sides.home == "confirmed" {
        confirmed := confirmed + 1;
      } else {
        projected := projected + 1;
      }
      if sides.away == "confirmed" {
        confirmed := confirmed + 1;
      } else {
        projected := projected + 1;
      }
    }
    assert entries[..|entries|] == entries;
    r := Some((confirmed, projected));
  }
}

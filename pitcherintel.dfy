/**
 * The "Pitcher Intel" board (frontend/src/components/tools/PitcherIntel.jsx):
 * one row per probable starter on the slate, with the spring-training
 * fallback for empty season data, the last-two-starts line, days of rest,
 * the hittability score and the hot/cold flags, then the hand filter and
 * the column sort.  Every fetch answer is an input; the clock is `now`
 * (milliseconds).
 */
module PitcherIntel {
  import opened Wrappers
  import opened Sorting
  import opened Numeric
  import HitScore
  import TodaysPicks

  type Game = TodaysPicks.Game
  type Team = TodaysPicks.Team
  type Pitcher = TodaysPicks.Pitcher
  type Side = TodaysPicks.Side

  // ---------------------------------------------------------------------
  // Entries (`load`)
  // ---------------------------------------------------------------------

  /** A starter to look up: the pitcher, the game and the side he pitches for. */
  datatype Entry = Entry(pitcher: Pitcher, game: Game, team: Team)

  /** The side order of the inner loop. */
  const SIDES: seq<Side> := [TodaysPicks.Home, TodaysPicks.Away]

  /** The entry one side contributes: one when it has a probable pitcher, none otherwise. */
  function SideEntry(g: Game, side: Side): (r: seq<Entry>)
    ensures |r| == if TodaysPicks.TeamOf(g, side).pitcher.Some? then 1 else 0
  {
    var t := TodaysPicks.TeamOf(g, side);
    if t.pitcher.Some? then [Entry(t.pitcher.value, g, t)] else []
  }

  /** The entries of a slate, game by game, home side first. */
  function EntriesOf(games: seq<Game>): seq<Entry> {
    if games == [] then []
    else
      var g := games[|games| - 1];
      EntriesOf(games[..|games| - 1]) + SideEntry(g, TodaysPicks.Home) + SideEntry(g, TodaysPicks.Away)
  }

  /** The number of sides of the slate that have a probable pitcher. */
  function PitcherCount(games: seq<Game>): nat {
    if games == [] then 0
    else
      var g := games[|games| - 1];
      PitcherCount(games[..|games| - 1])
        + (if g.home.pitcher.Some? then 1 else 0) + (if g.away.pitcher.Some? then 1 else 0)
  }

  /** `e` is the entry of side `side` of game `g`. */
  predicate IsEntryOf(e: Entry, g: Game, side: Side) {
    var t := TodaysPicks.TeamOf(g, side);
    e.game == g && e.team == t && t.pitcher == Some(e.pitcher)
  }

  /**
   * Every side with a probable pitcher gives exactly one entry: there are as
   * many entries as such sides (`EntriesCount`), and an entry is in the list
   * exactly when it is the entry of a side of a game on the slate
   * (`EntriesExact`).
   */
  lemma {:induction false} EntriesCount(games: seq<Game>)
    ensures |EntriesOf(games)| == PitcherCount(games)
  {
    if games != [] {
      EntriesCount(games[..|games| - 1]);
    }
  }

  lemma {:induction false} EntriesExact(games: seq<Game>, e: Entry)
    ensures e in EntriesOf(games) <==> exists g, side :: g in games && IsEntryOf(e, g, side)
  {
    if games != [] {
      var init := games[..|games| - 1];
      var g := games[|games| - 1];
      EntriesExact(init, e);
      assert games == init + [g];
      if e in EntriesOf(games) && e !in EntriesOf(init) {
        if e in SideEntry(g, TodaysPicks.Home) {
          assert IsEntryOf(e, g, TodaysPicks.Home);
        } else {
          assert IsEntryOf(e, g, TodaysPicks.Away);
        }
      }
      forall h, side | h in games && IsEntryOf(e, h, side)
        ensures e in EntriesOf(games)
      {
        if h == g {
          assert e in SideEntry(g, side);
        } else {
          assert h in init;
        }
      }
    }
  }

  /** The entry loop of `load`: for each game, for each side, push the side's entry. */
  method CollectEntries(games: seq<Game>) returns (entries: seq<Entry>)
    ensures entries == EntriesOf(games)
  {
    entries := [];
    for i := 0 to |games|
      invariant entries == EntriesOf(games[..i])
    {
      var g := games[i];
      for j := 0 to |SIDES|
        invariant entries == EntriesOf(games[..i])
                             + (if j >= 1 then SideEntry(g, TodaysPicks.Home) else [])
                             + (if j >= 2 then SideEntry(g, TodaysPicks.Away) else [])
      {
        var t := TodaysPicks.TeamOf(g, SIDES[j]);
        if t.pitcher.Some? {
          entries := entries + [Entry(t.pitcher.value, g, t)];
        }
      }
      assert games[..i + 1][..i] == games[..i];
    }
    assert games[..|games|] == games;
  }

  // ---------------------------------------------------------------------
  // One starter (`loadPitcher`)
  // ---------------------------------------------------------------------

  /** A season stat line; `None` is a missing or empty string. */
  datatype PitchStats = PitchStats(avg: Option<real>, era: Option<real>)

  /** `{}`: no stats. */
  const NO_STATS := PitchStats(None, None)

  /** A start of the pitcher's game log (most recent first), dated in milliseconds. */
  datatype PitchGame = PitchGame(date: int, hits: nat, avg: Option<real>)

  /**
   * The lookups for one starter.  `personInfo` is `fetchPersonInfo`'s
   * `pitchHand`, or `None` for `null`; for the four settled promises `None`
   * is a rejection, whose `value` is undefined.
   */
  datatype PitcherData = PitcherData(
    personInfo: Option<string>,
    stats: Option<PitchStats>, log: Option<seq<PitchGame>>,
    springStats: Option<PitchStats>, springLog: Option<seq<PitchGame>>)

  /** The hand lookup: a missing or empty hand is taken from the person record, `"?"` when that has none. */
  function FixHand(hand: Option<string>, personInfo: Option<string>): (h: Option<string>)
    ensures hand.Some? && hand.value != "" ==> h == hand
    ensures (hand.None? || hand.value == "") && personInfo.None? ==> h == hand
    ensures (hand.None? || hand.value == "") && personInfo.Some? ==>
              h == Some(if personInfo.value == "" then "?" else personInfo.value)
  {
    if hand.Some? && hand.value != "" then hand
    else if personInfo.Some? then Some(if personInfo.value == "" then "?" else personInfo.value)
    else hand
  }

  /** Season stats and log after the `|| {}` / `|| []` defaults and the spring-training fallback. */
  function Fallback(d: PitcherData): (PitchStats, seq<PitchGame>) {
    var s := d.stats.GetOr(NO_STATS);
    var log := d.log.GetOr([]);
    if s.avg.None? && s.era.None? then
      (if s.avg.None? then d.springStats.GetOr(s) else s,
       if |log| == 0 then d.springLog.GetOr(log) else log)
    else (s, log)
  }

  /**
   * The fallback runs only when both the average and the ERA are missing;
   * it then takes the spring stats whenever they arrived, and the spring log
   * only in place of an empty season log.
   */
  lemma FallbackFields(d: PitcherData)
    ensures var s := d.stats.GetOr(NO_STATS);
            var log := d.log.GetOr([]);
            var thin := s.avg.None? && s.era.None?;
            && Fallback(d).0 == (if thin && d.springStats.Some? then d.springStats.value else s)
            && Fallback(d).1 == (if thin && |log| == 0 && d.springLog.Some? then d.springLog.value else log)
  {
  }

  /** Season data with an average or an ERA is never replaced, and a non-empty log never is. */
  lemma FallbackKeepsSeasonData(d: PitcherData)
    ensures d.stats.Some? && (d.stats.value.avg.Some? || d.stats.value.era.Some?) ==>
              Fallback(d) == (d.stats.value, d.log.GetOr([]))
    ensures d.log.Some? && d.log.value != [] ==> Fallback(d).1 == d.log.value
  {
  }

  /** `log.slice(0, 2)`. */
  function Last2(log: seq<PitchGame>): (r: seq<PitchGame>)
    ensures |r| == if |log| < 2 then |log| else 2
    ensures r == log[..|r|]
  {
    if |log| < 2 then log else log[..2]
  }

  /** `reduce((sum, g) => sum + (+g.hits || 0), 0)`. */
  function HitSum(s: seq<PitchGame>): nat {
    if s == [] then 0 else HitSum(s[..|s| - 1]) + s[|s| - 1].hits
  }

  /** `reduce((sum, g) => sum + (+g.avg || 0), 0)`. */
  function AvgSum(s: seq<PitchGame>): real {
    if s == [] then 0.0 else AvgSum(s[..|s| - 1]) + HitScore.OrDefault(s[|s| - 1].avg, 0.0)
  }

  /** The mean average of the last two starts, dividing by `last2.length || 1`. */
  function Last2Avg(log: seq<PitchGame>): real {
    var l := Last2(log);
    AvgSum(l) / (if |l| == 0 then 1 else |l|) as real
  }

  /**
   * The last-two line: nothing for an empty log, the one start for a
   * one-start log, and otherwise the hit total and mean average of the two
   * most recent starts.
   */
  lemma Last2Values(log: seq<PitchGame>)
    ensures log == [] ==> HitSum(Last2(log)) == 0 && Last2Avg(log) == 0.0
    ensures |log| == 1 ==> HitSum(Last2(log)) == log[0].hits
                           && Last2Avg(log) == HitScore.OrDefault(log[0].avg, 0.0)
    ensures |log| >= 2 ==> HitSum(Last2(log)) == log[0].hits + log[1].hits
                           && Last2Avg(log) == (HitScore.OrDefault(log[0].avg, 0.0)
                                                + HitScore.OrDefault(log[1].avg, 0.0)) / 2.0
  {
    var l := Last2(log);
    if |log| == 1 {
      assert l == log && l[..0] == [];
      assert HitSum(l) == HitSum(l[..0]) + l[0].hits;
      assert AvgSum(l) == AvgSum(l[..0]) + HitScore.OrDefault(l[0].avg, 0.0);
    } else if |log| >= 2 {
      assert l[..1][..0] == [] && l[..1] == [log[0]];
      assert HitSum(l) == HitSum(l[..1]) + log[1].hits;
      assert HitSum(l[..1]) == HitSum(l[..1][..0]) + log[0].hits;
      assert AvgSum(l) == AvgSum(l[..1]) + HitScore.OrDefault(log[1].avg, 0.0);
      assert AvgSum(l[..1]) == AvgSum(l[..1][..0]) + HitScore.OrDefault(log[0].avg, 0.0);
    }
  }

  const DAY_MS: nat := 86400000

  /** Whole days since the latest start, or 5 with no start on record. */
  function DaysRest(log: seq<PitchGame>, now: int): (days: int)
    ensures log == [] ==> days == 5
    ensures log != [] ==> (now - log[0].date) as real / DAY_MS as real - 0.5 < days as real
                          <= (now - log[0].date) as real / DAY_MS as real + 0.5
  {
    if |log| >= 1 then Round((now - log[0].date) as real / DAY_MS as real) else 5
  }

  /** The average against as read by the score: `parseFloat(avg) || 0.250`. */
  function AvgAgainst(s: PitchStats): real {
    HitScore.OrDefault(s.avg, 0.25)
  }

  /** The ERA as read by the score: `parseFloat(era) || 4.0`. */
  function EraOf(s: PitchStats): real {
    HitScore.OrDefault(s.era, 4.0)
  }

  /** Higher is easier to hit: the average against on a .400 scale and the ERA on a 10.00 scale, 50 points each, capped at 100. */
  function Hittability(s: PitchStats): (h: int)
    ensures h <= 100
  {
    var raw := (AvgAgainst(s) / 0.4) * 50.0 + (EraOf(s) / 10.0) * 50.0;
    RoundMonotone(Min(raw, 100.0), 100.0);
    RoundInteger(100);
    Round(Min(raw, 100.0))
  }

  /**
   * The score is 0 to 100 for non-negative stats; with neither stat it is the
   * default (.250 against and a 4.00 ERA) of 51; and it never falls as
   * either stat rises.
   */
  lemma HittabilityBounds(s: PitchStats)
    requires s.avg.None? || s.avg.value >= 0.0
    requires s.era.None? || s.era.value >= 0.0
    ensures 0 <= Hittability(s) <= 100
  {
    RoundMonotone(0.0, Min((AvgAgainst(s) / 0.4) * 50.0 + (EraOf(s) / 10.0) * 50.0, 100.0));
    RoundInteger(0);
  }

  lemma HittabilityDefault()
    ensures Hittability(NO_STATS) == 51
  {
    assert (AvgAgainst(NO_STATS) / 0.4) * 50.0 + (EraOf(NO_STATS) / 10.0) * 50.0 == 51.25;
  }

  lemma HittabilityMonotone(s: PitchStats, t: PitchStats)
    requires AvgAgainst(s) <= AvgAgainst(t) && EraOf(s) <= EraOf(t)
    ensures Hittability(s) <= Hittability(t)
  {
    var rs := (AvgAgainst(s) / 0.4) * 50.0 + (EraOf(s) / 10.0) * 50.0;
    var rt := (AvgAgainst(t) / 0.4) * 50.0 + (EraOf(t) / 10.0) * 50.0;
    assert rs <= rt;
    RoundMonotone(Min(rs, 100.0), Min(rt, 100.0));
  }

  /** A board row, as `loadPitcher` returns it. */
  datatype Row = Row(pitcher: Pitcher, game: Game, team: Team, stats: PitchStats,
                     last2: seq<PitchGame>, last2Hits: nat, last2Avg: real, daysRest: int,
                     hittability: int, isHot: bool, isCold: bool)

  /** Getting hit hard: a last-two average above .300 or at least 14 hits. */
  predicate Hot(last2Avg: real, last2Hits: nat) {
    last2Avg > 0.3 || last2Hits >= 14
  }

  /** Cold: a last-two average below .200 over two starts. */
  predicate Cold(last2Avg: real, last2Games: nat) {
    last2Avg < 0.2 && last2Games >= 2
  }

  /** The row of one entry. */
  function RowOf(e: Entry, d: PitcherData, now: int): Row {
    var (s, log) := Fallback(d);
    var l := Last2(log);
    Row(e.pitcher.(hand := FixHand(e.pitcher.hand, d.personInfo)), e.game, e.team, s,
        l, HitSum(l), Last2Avg(log), DaysRest(log, now), Hittability(s),
        Hot(Last2Avg(log), HitSum(l)), Cold(Last2Avg(log), |l|))
  }

  /** `loadPitcher` as the source writes it, reassigning `pitcher`, `s` and `log`. */
  method LoadPitcher(e: Entry, d: PitcherData, now: int) returns (row: Row)
    ensures row == RowOf(e, d, now)
  {
    var pitcher := e.pitcher;
    if pitcher.hand.None? || pitcher.hand.value == "" {
      if d.personInfo.Some? {
        pitcher := pitcher.(hand := Some(if d.personInfo.value == "" then "?" else d.personInfo.value));
      }
    }
    assert pitcher == e.pitcher.(hand := FixHand(e.pitcher.hand, d.personInfo));
    var s := d.stats.GetOr(NO_STATS);
    var log := d.log.GetOr([]);
    if s.avg.None? && s.era.None? {
      if s.avg.None? {
        s := d.springStats.GetOr(s);
      }
      if |log| == 0 {
        log := d.springLog.GetOr(log);
      }
    }
    assert (s, log) == Fallback(d);
    var last2 := Last2(log);
    var last2Hits := HitSum(last2);
    var last2Avg := Last2Avg(log);
    var daysRest := DaysRest(log, now);
    var hittability := Hittability(s);
    row := Row(pitcher, e.game, e.team, s, last2, last2Hits, last2Avg, daysRest, hittability,
               last2Avg > 0.3 || last2Hits >= 14, last2Avg < 0.2 && |last2| >= 2);
  }

  /**
   * What a row shows about its starter: the entry's pitcher (hand fixed),
   * game and team, the fallback's stats and the first two starts of its log,
   * hot exactly when the last-two average is over .300 or there are 14 hits,
   * cold exactly when that average is under .200 over two starts.
   */
  lemma RowFacts(e: Entry, d: PitcherData, now: int)
    ensures var r := RowOf(e, d, now);
            && r.pitcher.id == e.pitcher.id && r.game == e.game && r.team == e.team
            && r.stats == Fallback(d).0
            && r.last2 == Take(Fallback(d).1, 2)
            && r.hittability <= 100
            && (Fallback(d).1 == [] ==> r.daysRest == 5 && !r.isHot && !r.isCold && r.last2Avg == 0.0)
            && (r.isHot <==> r.last2Avg > 0.3 || r.last2Hits >= 14)
            && (r.isCold <==> r.last2Avg < 0.2 && |Fallback(d).1| >= 2)
  {
    Last2Values(Fallback(d).1);
  }

  /** A starter can be on both lists: two starts averaging .150 with 14 hits between them. */
  lemma HotAndColdAtOnce(e: Entry, d: PitcherData, now: int)
    requires d.stats.Some? && d.stats.value.avg.Some? && d.log.Some?
    requires d.log.value == [PitchGame(0, 7, Some(0.15)), PitchGame(0, 7, Some(0.15))]
    ensures RowOf(e, d, now).isHot && RowOf(e, d, now).isCold
  {
    Last2Values(d.log.value);
  }

  /** The whole board: one row per entry, every lookup settled (`loadPitcher` does not throw). */
  function Board(games: seq<Game>, fetch: int -> PitcherData, now: int): (rows: seq<Row>)
    ensures |rows| == |EntriesOf(games)|
  {
    var es := EntriesOf(games);
    seq(|es|, i requires 0 <= i < |es| => RowOf(es[i], fetch(es[i].pitcher.id), now))
  }

  /**
   * `load`: collect the entries, then look every starter up.  `games` is
   * `fetchGames`' answer, `None` when it throws; the `catch` then leaves the
   * board as `setPitchers([])` cleared it.
   */
  method Load(games: Option<seq<Game>>, fetch: int -> PitcherData, now: int) returns (rows: seq<Row>)
    ensures games.None? ==> rows == []
    ensures games.Some? ==> rows == Board(games.value, fetch, now)
  {
    rows := [];
    if games.None? {
      return;
    }
    var entries := CollectEntries(games.value);
    for i := 0 to |entries|
      invariant |rows| == i
      invariant forall k :: 0 <= k < i ==> rows[k] == RowOf(entries[k], fetch(entries[k].pitcher.id), now)
    {
      var row := LoadPitcher(entries[i], fetch(entries[i].pitcher.id), now);
      rows := rows + [row];
    }
  }

  /** The board has one row per side with a probable pitcher, in slate order, each for its entry. */
  lemma BoardRows(games: seq<Game>, fetch: int -> PitcherData, now: int)
    ensures |Board(games, fetch, now)| == PitcherCount(games)
    ensures forall i :: 0 <= i < |Board(games, fetch, now)| ==>
              Board(games, fetch, now)[i].pitcher.id == EntriesOf(games)[i].pitcher.id
              && Board(games, fetch, now)[i].game == EntriesOf(games)[i].game
              && Board(games, fetch, now)[i].team == EntriesOf(games)[i].team
  {
    EntriesCount(games);
    var es := EntriesOf(games);
    forall i | 0 <= i < |Board(games, fetch, now)|
      ensures Board(games, fetch, now)[i].pitcher.id == es[i].pitcher.id
      ensures Board(games, fetch, now)[i].game == es[i].game && Board(games, fetch, now)[i].team == es[i].team
    {
      assert Board(games, fetch, now)[i] == RowOf(es[i], fetch(es[i].pitcher.id), now);
    }
  }

  // ---------------------------------------------------------------------
  // The table: hand filter, column sort, hot and cold lists
  // ---------------------------------------------------------------------

  /** The sortable columns; `OtherCol` stands for any other column name, which sorts as 0. */
  datatype Column = HittabilityCol | AvgCol | EraCol | Last2Col | RestCol | OtherCol

  /** The value a row sorts by; a missing average or ERA sorts as 0. */
  function SortValue(col: Column, r: Row): real {
    match col
    case HittabilityCol => r.hittability as real
    case AvgCol => HitScore.OrDefault(r.stats.avg, 0.0)
    case EraCol => HitScore.OrDefault(r.stats.era, 0.0)
    case Last2Col => r.last2Hits as real
    case RestCol => r.daysRest as real
    case OtherCol => 0.0
  }

  /** The hand filter; `None` is `"all"`. */
  predicate Passes(hand: Option<string>, r: Row) {
    hand.None? || r.pitcher.hand == Some(hand.value)
  }

  /** `filtered`: the rows of the chosen hand, ordered by the chosen column. */
  function Visible(rows: seq<Row>, hand: Option<string>, col: Column, desc: bool): seq<Row> {
    SortBy(Filter(rows, r => Passes(hand, r)), r => SortValue(col, r), desc)
  }

  /** The "getting hit hard" list. */
  function HotList(rows: seq<Row>, hand: Option<string>, col: Column, desc: bool): seq<Row> {
    Filter(Visible(rows, hand, col, desc), (r: Row) => r.isHot)
  }

  /** The cold list. */
  function ColdList(rows: seq<Row>, hand: Option<string>, col: Column, desc: bool): seq<Row> {
    Filter(Visible(rows, hand, col, desc), (r: Row) => r.isCold)
  }

  /** A row is shown exactly when it has the chosen hand, once per occurrence, in column order. */
  lemma VisibleExact(rows: seq<Row>, hand: Option<string>, col: Column, desc: bool, r: Row)
    ensures r in Visible(rows, hand, col, desc) <==> r in rows && Passes(hand, r)
    ensures Ordered(Visible(rows, hand, col, desc), q => SortValue(col, q), desc)
    ensures multiset(Visible(rows, hand, col, desc)) == multiset(Filter(rows, q => Passes(hand, q)))
  {
    var f := Filter(rows, q => Passes(hand, q));
    FilterMembership(rows, q => Passes(hand, q), r);
    var v := Visible(rows, hand, col, desc);
    assert r in v <==> r in multiset(v);
    assert r in f <==> r in multiset(f);
  }

  /** The hot and cold lists hold exactly the shown rows with that flag, in the table's order. */
  lemma HotColdLists(rows: seq<Row>, hand: Option<string>, col: Column, desc: bool, r: Row)
    ensures r in HotList(rows, hand, col, desc) <==> r in rows && Passes(hand, r) && r.isHot
    ensures r in ColdList(rows, hand, col, desc) <==> r in rows && Passes(hand, r) && r.isCold
    ensures Ordered(HotList(rows, hand, col, desc), q => SortValue(col, q), desc)
    ensures Ordered(ColdList(rows, hand, col, desc), q => SortValue(col, q), desc)
  {
    var v := Visible(rows, hand, col, desc);
    VisibleExact(rows, hand, col, desc, r);
    FilterMembership(v, (q: Row) => q.isHot, r);
    FilterMembership(v, (q: Row) => q.isCold, r);
    FilterOrdered(v, (q: Row) => q.isHot, q => SortValue(col, q), desc);
    FilterOrdered(v, (q: Row) => q.isCold, q => SortValue(col, q), desc);
  }
}

/**
 * The Research Hub (frontend/src/components/tools/ResearchHub.jsx): a
 * deduplicated pool of roster batters for a date, the per-batter research
 * row with its spring-training fallback, the lens filter and sort, the pin
 * set of at most four players and the comparison table's best-cell marks.
 * The slate, rosters and per-batter fetches are inputs.
 */
module ResearchHub {
  import opened Wrappers
  import opened Sorting
  import opened Batching
  import Text
  import GameLog
  import HitScore
  import TodaysPicks

  type Game = TodaysPicks.Game
  type Team = TodaysPicks.Team

  // ---------------------------------------------------------------------
  // The pool (`loadAllPlayers`)
  // ---------------------------------------------------------------------

  const ROSTER_SLICE: nat := 13

  /** `{ batter, team, game }` as pushed into `batters`. */
  datatype PoolEntry = PoolEntry(batter: GameLog.Player, team: Team, game: Game)

  function SideEntries(roster: seq<GameLog.Player>, team: Team, g: Game): (r: seq<PoolEntry>)
    ensures |r| == |roster|
    ensures forall k :: 0 <= k < |r| ==> r[k] == PoolEntry(roster[k], team, g)
    decreases |roster|
  {
    if roster == [] then []
    else SideEntries(roster[..|roster| - 1], team, g) + [PoolEntry(roster[|roster| - 1], team, g)]
  }

  /** The entries one side offers before deduplication: its first 13 roster players, none when the fetch fails. */
  function SideVisits(g: Game, side: TodaysPicks.Side, rosters: map<int, seq<GameLog.Player>>): seq<PoolEntry> {
    var team := TodaysPicks.TeamOf(g, side);
    if team.teamId in rosters then SideEntries(Take(rosters[team.teamId], ROSTER_SLICE), team, g) else []
  }

  /** Every entry the loops visit, games in order and each game home first. */
  function Visits(games: seq<Game>, rosters: map<int, seq<GameLog.Player>>): seq<PoolEntry>
    decreases |games|
  {
    if games == [] then []
    else
      var g := games[|games| - 1];
      Visits(games[..|games| - 1], rosters) + SideVisits(g, TodaysPicks.Home, rosters) + SideVisits(g, TodaysPicks.Away, rosters)
  }

  /** The batter ids of `s`. */
  function Ids(s: seq<PoolEntry>): set<int>
    decreases |s|
  {
    if s == [] then {} else Ids(s[..|s| - 1]) + {s[|s| - 1].batter.id}
  }

  lemma {:induction false} IdsMembership(s: seq<PoolEntry>, id: int)
    ensures id in Ids(s) <==> exists i :: 0 <= i < |s| && s[i].batter.id == id
    decreases |s|
  {
    if s != [] {
      var init := s[..|s| - 1];
      IdsMembership(init, id);
      if id in Ids(init) {
        var i :| 0 <= i < |init| && init[i].batter.id == id;
        assert s[i] == init[i];
      }
      if exists i :: 0 <= i < |s| && s[i].batter.id == id {
        var i :| 0 <= i < |s| && s[i].batter.id == id;
        if i < |init| {
          assert init[i].batter.id == id;
        }
      }
    }
  }

  /** The `seen`-set filter: an entry is pushed unless its batter id was pushed before. */
  function Dedup(s: seq<PoolEntry>): seq<PoolEntry>
    decreases |s|
  {
    if s == [] then []
    else
      var r := Dedup(s[..|s| - 1]);
      if s[|s| - 1].batter.id in Ids(r) then r else r + [s[|s| - 1]]
  }

  /** Deduplication loses no batter id and adds none. */
  lemma {:induction false} DedupIds(s: seq<PoolEntry>)
    ensures Ids(Dedup(s)) == Ids(s)
    decreases |s|
  {
    if s != [] {
      DedupIds(s[..|s| - 1]);
    }
  }

  /** No batter id appears twice in the pool. */
  lemma {:induction false} DedupDistinct(s: seq<PoolEntry>)
    ensures forall i, j :: 0 <= i < j < |Dedup(s)| ==> Dedup(s)[i].batter.id != Dedup(s)[j].batter.id
    decreases |s|
  {
    if s != [] {
      var init := s[..|s| - 1];
      var r0 := Dedup(init);
      DedupDistinct(init);
      var x := s[|s| - 1];
      assert Dedup(s) == if x.batter.id in Ids(r0) then r0 else r0 + [x];
      if x.batter.id !in Ids(r0) {
        var r := r0 + [x];
        forall i, j | 0 <= i < j < |r|
          ensures r[i].batter.id != r[j].batter.id
        {
          assert r[i] == r0[i];
          if j == |r0| {
            assert r[j] == x;
            IdsMembership(r0, x.batter.id);
            assert r0[i].batter.id != x.batter.id;
          } else {
            assert r[j] == r0[j];
            assert r0[i].batter.id != r0[j].batter.id;
          }
        }
      }
    }
  }

  /** Every pool entry is one of the visited entries. */
  lemma {:induction false} DedupFrom(s: seq<PoolEntry>, e: PoolEntry)
    requires e in Dedup(s)
    ensures e in s
    decreases |s|
  {
    var init := s[..|s| - 1];
    if e in Dedup(init) {
      DedupFrom(init, e);
    }
  }

  /** The first visit of each batter id is the one kept. */
  lemma {:induction false} DedupKeepsFirst(s: seq<PoolEntry>, i: nat)
    requires i < |s|
    requires s[i].batter.id !in Ids(s[..i])
    ensures s[i] in Dedup(s)
    decreases |s|
  {
    var init := s[..|s| - 1];
    if i < |s| - 1 {
      assert init[..i] == s[..i];
      DedupKeepsFirst(init, i);
      DedupSuffix(init, s[|s| - 1]);
    } else {
      assert init == s[..i];
      DedupIds(init);
    }
  }

  lemma DedupSuffix(s: seq<PoolEntry>, x: PoolEntry)
    ensures forall e :: e in Dedup(s) ==> e in Dedup(s + [x])
  {
    assert (s + [x])[..|s|] == s;
  }

  /**
   * The loop over one side's roster slice: skips an id already in `seen`,
   * otherwise records it and pushes the entry.  `visited` is the ghost
   * list of entries seen so far.
   */
  method AddSidePool(batters: seq<PoolEntry>, seen: set<int>, ghost visited: seq<PoolEntry>,
                     g: Game, side: TodaysPicks.Side, rosters: map<int, seq<GameLog.Player>>)
    returns (batters': seq<PoolEntry>, seen': set<int>)
    requires batters == Dedup(visited) && seen == Ids(batters)
    ensures batters' == Dedup(visited + SideVisits(g, side, rosters))
    ensures seen' == Ids(batters')
  {
    batters', seen' := batters, seen;
    var team := TodaysPicks.TeamOf(g, side);
    if team.teamId !in rosters {
      assert visited + [] == visited;
      return;
    }
    var slice := Take(rosters[team.teamId], ROSTER_SLICE);
    ghost var cur := visited;
    for k := 0 to |slice|
      invariant cur == visited + SideEntries(slice[..k], team, g)
      invariant batters' == Dedup(cur)
      invariant seen' == Ids(batters')
    {
      var e := PoolEntry(slice[k], team, g);
      EntriesSnoc(visited, slice, k, team, g);
      DedupSnoc(cur, e);
      cur := cur + [e];
      if slice[k].id in seen' {
        continue;
      }
      seen' := seen' + {slice[k].id};
      batters' := batters' + [e];
    }
    assert slice[..|slice|] == slice;
  }

  lemma EntriesSnoc(visited: seq<PoolEntry>, slice: seq<GameLog.Player>, k: nat, team: Team, g: Game)
    requires k < |slice|
    ensures visited + SideEntries(slice[..k + 1], team, g)
         == visited + SideEntries(slice[..k], team, g) + [PoolEntry(slice[k], team, g)]
  {
    assert slice[..k + 1][..k] == slice[..k];
  }

  /** One more visit: pushed exactly when its id is new, and the id set grows by it. */
  lemma DedupSnoc(s: seq<PoolEntry>, e: PoolEntry)
    ensures Dedup(s + [e]) == if e.batter.id in Ids(Dedup(s)) then Dedup(s) else Dedup(s) + [e]
    ensures Ids(Dedup(s) + [e]) == Ids(Dedup(s)) + {e.batter.id}
  {
    assert (s + [e])[..|s|] == s;
    assert (Dedup(s) + [e])[..|Dedup(s)|] == Dedup(s);
  }

  /** The team names added to `teamSet`: both sides of every game, whatever their rosters. */
  function TeamNames(games: seq<Game>): set<string>
    decreases |games|
  {
    if games == [] then {}
    else TeamNames(games[..|games| - 1]) + {games[|games| - 1].home.team, games[|games| - 1].away.team}
  }

  lemma VisitsSnoc(games: seq<Game>, i: nat, rosters: map<int, seq<GameLog.Player>>)
    requires i < |games|
    ensures Visits(games[..i + 1], rosters)
         == Visits(games[..i], rosters) + SideVisits(games[i], TodaysPicks.Home, rosters) + SideVisits(games[i], TodaysPicks.Away, rosters)
    ensures TeamNames(games[..i + 1]) == TeamNames(games[..i]) + {games[i].home.team, games[i].away.team}
  {
    assert games[..i + 1][..i] == games[..i];
  }

  /** The nested loops of `loadAllPlayers`. */
  method LoadPool(games: seq<Game>, rosters: map<int, seq<GameLog.Player>>)
    returns (batters: seq<PoolEntry>, teams: set<string>)
    ensures batters == Dedup(Visits(games, rosters))
    ensures teams == TeamNames(games)
  {
    batters, teams := [], {};
    var seen: set<int> := {};
    ghost var visited: seq<PoolEntry> := [];
    for gi := 0 to |games|
      invariant visited == Visits(games[..gi], rosters)
      invariant batters == Dedup(visited) && seen == Ids(batters)
      invariant teams == TeamNames(games[..gi])
    {
      var g := games[gi];
      VisitsSnoc(games, gi, rosters);
      teams := teams + {g.home.team};
      batters, seen := AddSidePool(batters, seen, visited, g, TodaysPicks.Home, rosters);
      visited := visited + SideVisits(g, TodaysPicks.Home, rosters);
      teams := teams + {g.away.team};
      batters, seen := AddSidePool(batters, seen, visited, g, TodaysPicks.Away, rosters);
      visited := visited + SideVisits(g, TodaysPicks.Away, rosters);
    }
    assert games[..|games|] == games;
  }

  /**
   * The pool holds each batter id once, takes at most 13 players of any
   * roster, and every visited batter id is in it.
   */
  lemma PoolProperties(games: seq<Game>, rosters: map<int, seq<GameLog.Player>>, g: Game, side: TodaysPicks.Side)
    ensures var p := Dedup(Visits(games, rosters));
      && (forall i, j :: 0 <= i < j < |p| ==> p[i].batter.id != p[j].batter.id)
      && Ids(p) == Ids(Visits(games, rosters))
      && |SideVisits(g, side, rosters)| <= ROSTER_SLICE
  {
    DedupDistinct(Visits(games, rosters));
    DedupIds(Visits(games, rosters));
  }

  // ---------------------------------------------------------------------
  // One research row (`loadBatterData`)
  // ---------------------------------------------------------------------

  const SPRING_THRESHOLD: nat := 3

  /** The spring log is appended only to a log of under three games, and only when it is longer. */
  function ResearchLog(gl: seq<GameLog.Game>, spring: Option<seq<GameLog.Game>>): seq<GameLog.Game> {
    if |gl| < SPRING_THRESHOLD && spring.Some? && |spring.value| > |gl| then gl + spring.value else gl
  }

  lemma ResearchLogChanges(gl: seq<GameLog.Game>, spring: Option<seq<GameLog.Game>>)
    ensures ResearchLog(gl, spring) != gl <==> |gl| < 3 && spring.Some? && |spring.value| > |gl|
    ensures ResearchLog(gl, spring)[..|gl|] == gl
  {
    if |gl| < 3 && spring.Some? && |spring.value| > |gl| {
      assert |ResearchLog(gl, spring)| > |gl|;
    }
  }

  /** Season line: the `avg` and `slg` the lenses read. */
  datatype SeasonLine = SeasonLine(avg: Option<real>, slg: Option<real>)

  /** The answers for one batter; `None` in `BatterRow` stands for a thrown fetch. */
  datatype HubFetched = HubFetched(
    gl: seq<GameLog.Game>, spring: Option<seq<GameLog.Game>>,
    platoon: map<string, TodaysPicks.StatLine>, homeaway: map<string, TodaysPicks.StatLine>,
    daynight: map<string, TodaysPicks.StatLine>, season: SeasonLine, statcast: Option<HitScore.StatcastRow>)

  /** The object `loadBatterData` returns. */
  datatype HubRow = HubRow(
    entry: PoolEntry, l7: Option<GameLog.Split>, l3: Option<GameLog.Split>, l1: Option<GameLog.Split>,
    streak: nat, gwh: nat,
    platoon: map<string, TodaysPicks.StatLine>, platoonKey: string,
    homeaway: map<string, TodaysPicks.StatLine>, daynight: map<string, TodaysPicks.StatLine>,
    season: SeasonLine, gl: seq<GameLog.Game>, oppHand: string, isHome: bool,
    statcast: Option<HitScore.StatcastRow>)

  /** The side the batter does not play for, by team id. */
  function OppSide(g: Game, team: Team): TodaysPicks.Side {
    if g.home.teamId == team.teamId then TodaysPicks.Away else TodaysPicks.Home
  }

  /** `game[oppSide]?.pitcher?.hand || "R"`. */
  function OppHand(g: Game, team: Team): string {
    var p := TodaysPicks.TeamOf(g, OppSide(g, team)).pitcher;
    if p.Some? && p.value.hand.Some? && p.value.hand.value != "" then p.value.hand.value else "R"
  }

  function BatterRow(e: PoolEntry, f: Option<HubFetched>): (r: Option<HubRow>)
    ensures r.Some? <==> f.Some?
    ensures r.Some? ==> r.value.entry == e && r.value.gl == ResearchLog(f.value.gl, f.value.spring)
  {
    if f.None? then None
    else
      var d := f.value;
      var gl := ResearchLog(d.gl, d.spring);
      var hand := OppHand(e.game, e.team);
      Some(HubRow(e, GameLog.SplitOf(gl, 7), GameLog.SplitOf(gl, 3), GameLog.SplitOf(gl, 1),
                  GameLog.LeadingHits(gl), GameLog.GamesWithHit(gl),
                  d.platoon, TodaysPicks.PlatoonKey(Some(hand)),
                  d.homeaway, d.daynight, d.season, gl, hand, e.game.home.teamId == e.team.teamId,
                  d.statcast))
  }

  /**
   * The matchup context: the batter is at home exactly when their team id
   * is the home team's, the opposing hand falls back to "R", and the
   * platoon key follows the hand.
   */
  lemma RowContext(e: PoolEntry, f: HubFetched)
    ensures var r := BatterRow(e, Some(f)).value;
      && (r.isHome <==> e.game.home.teamId == e.team.teamId)
      && (TodaysPicks.TeamOf(e.game, OppSide(e.game, e.team)).pitcher.None? ==> r.oppHand == "R")
      && (r.platoonKey == "vs. Left" <==> r.oppHand == "L")
      && (r.platoonKey != "vs. Left" ==> r.platoonKey == "vs. Right")
      && (r.isHome ==> OppSide(e.game, e.team) == TodaysPicks.Away)
  {
  }

  // ---------------------------------------------------------------------
  // The per-date cache
  // ---------------------------------------------------------------------

  datatype HubCache = HubCache(data: seq<HubRow>, teams: set<string>)

  /** `cacheRef.current`, keyed by date. */
  class Hub {
    var cache: map<string, HubCache>

    constructor()
      ensures cache == map[]
    {
      cache := map[];
    }

    /**
     * `loadAllPlayers(force)`: `force` drops the date's entry first; a
     * cached entry is returned as is; otherwise the pool is built and
     * loaded and the result cached.  `games` is `None` when `fetchGames`
     * throws, which leaves an empty table and caches nothing.
     */
    method LoadAllPlayers(date: string, force: bool, games: Option<seq<Game>>,
                          rosters: map<int, seq<GameLog.Player>>, fetched: PoolEntry -> Option<HubFetched>)
      returns (data: seq<HubRow>, teams: set<string>)
      modifies this
      ensures var base := if force then old(cache) - {date} else old(cache);
        if date in base then cache == base && data == base[date].data && teams == base[date].teams
        else if games.None? then cache == base && data == []
        else
          var pool := Dedup(Visits(games.value, rosters));
          && data == Kept(pool, e => BatterRow(e, fetched(e)))
          && teams == TeamNames(games.value)
          && cache == base[date := HubCache(data, teams)]
    {
      if force {
        cache := cache - {date};
      }
      if date in cache {
        data, teams := cache[date].data, cache[date].teams;
        return;
      }
      data, teams := [], {};
      if games.None? {
        return;
      }
      var batters;
      batters, teams := LoadPool(games.value, rosters);
      data := ScoreBatch(batters, e => BatterRow(e, fetched(e)));
      cache := cache[date := HubCache(data, teams)];
    }
  }

  // ---------------------------------------------------------------------
  // Lenses
  // ---------------------------------------------------------------------

  datatype Lens = Streaks | SeasonGwh | L7 | L3 | Yesterday | Platoon | HomeAway | DayNight
                | MultiHit | SeasonAvg | Xba | Power

  function SplitAvg(s: Option<GameLog.Split>): Option<real> {
    if s.Some? then Some(s.value.avg) else None
  }

  /** `d.l1?.hits || 0`. */
  function LastGameHits(d: HubRow): nat {
    if d.l1.Some? then d.l1.value.hits else 0
  }

  /** Games with two hits or more. */
  function MultiHitGames(gl: seq<GameLog.Game>): nat {
    |Filter(gl, (g: GameLog.Game) => g.hits >= 2)|
  }

  const POWER_AVG_FLOOR: real := 0.2

  /** `getPrimary`: the value a lens ranks by; a missing average reads as 0. */
  function Primary(lens: Lens, d: HubRow): real {
    match lens
    case Streaks => d.streak as real
    case SeasonGwh => d.gwh as real
    case L7 => HitScore.OrDefault(SplitAvg(d.l7), 0.0)
    case L3 => HitScore.OrDefault(SplitAvg(d.l3), 0.0)
    case Yesterday => LastGameHits(d) as real
    case Platoon => HitScore.OrDefault(TodaysPicks.AvgAt(d.platoon, d.platoonKey), 0.0)
    case HomeAway => HitScore.OrDefault(TodaysPicks.AvgAt(d.homeaway, if d.isHome then "Home" else "Away"), 0.0)
    case DayNight => HitScore.OrDefault(TodaysPicks.AvgAt(d.daynight, if d.entry.game.isNight then "Night" else "Day"), 0.0)
    case MultiHit => MultiHitGames(d.gl) as real
    case SeasonAvg => HitScore.OrDefault(d.season.avg, 0.0)
    case Xba => HitScore.OrDefault(if d.statcast.Some? then d.statcast.value.estBa else None, 0.0)
    case Power =>
      var slg := HitScore.OrDefault(d.season.slg, 0.0);
      var avg := HitScore.OrDefault(d.season.avg, 0.0);
      if avg >= POWER_AVG_FLOOR then slg else 0.0
  }

  /** The power lens ranks by slugging only for a season average of at least .200. */
  lemma PowerNeedsAverage(d: HubRow)
    ensures HitScore.OrDefault(d.season.avg, 0.0) < 0.2 ==> Primary(Power, d) == 0.0
    ensures HitScore.OrDefault(d.season.avg, 0.0) >= 0.2 ==> Primary(Power, d) == HitScore.OrDefault(d.season.slg, 0.0)
    ensures d.season.avg.None? ==> Primary(Power, d) == 0.0
  {
  }

  /** The lens, team (`None` is `"all"`) and search filters. */
  predicate Passes(lens: Lens, team: Option<string>, search: string, d: HubRow) {
    && !(lens == Streaks && d.streak == 0)
    && !(lens == Yesterday && LastGameHits(d) == 0)
    && (team.None? || d.entry.team.team == team.value)
    && (search == "" || Text.ContainsIgnoreCase(d.entry.batter.name, search))
  }

  /** `filtered`: the passing rows ordered by the lens's primary value. */
  function Filtered(rows: seq<HubRow>, lens: Lens, team: Option<string>, search: string, desc: bool): seq<HubRow> {
    SortBy(Filter(rows, d => Passes(lens, team, search, d)), d => Primary(lens, d), desc)
  }

  /**
   * A row is listed exactly when it passes: the streaks lens drops a zero
   * streak, the yesterday lens a hitless last game, the team filter is
   * exact and the search a case-insensitive substring; the list is in
   * primary-value order.
   */
  lemma FilteredExact(rows: seq<HubRow>, lens: Lens, team: Option<string>, search: string, desc: bool, d: HubRow)
    ensures d in Filtered(rows, lens, team, search, desc) <==>
              && d in rows
              && !(lens == Streaks && d.streak == 0)
              && !(lens == Yesterday && LastGameHits(d) == 0)
              && (team.None? || d.entry.team.team == team.value)
              && (search == "" || Text.ContainsIgnoreCase(d.entry.batter.name, search))
    ensures Ordered(Filtered(rows, lens, team, search, desc), q => Primary(lens, q), desc)
    ensures multiset(Filtered(rows, lens, team, search, desc)) == multiset(Filter(rows, q => Passes(lens, team, search, q)))
  {
    var f := Filter(rows, q => Passes(lens, team, search, q));
    FilterMembership(rows, q => Passes(lens, team, search, q), d);
    var v := Filtered(rows, lens, team, search, desc);
    assert d in v <==> d in multiset(v);
    assert d in f <==> d in multiset(f);
  }

  // ---------------------------------------------------------------------
  // Pins
  // ---------------------------------------------------------------------

  const MAX_PINS: nat := 4

  /** `togglePin` on the set of pinned ids. */
  function Toggled(pins: set<int>, id: int): (r: set<int>)
    ensures id in pins ==> r == pins - {id}
    ensures id !in pins && |pins| < MAX_PINS ==> r == pins + {id}
    ensures id !in pins && |pins| >= MAX_PINS ==> r == pins
  {
    if id in pins then pins - {id}
    else if |pins| < MAX_PINS then pins + {id}
    else pins
  }

  /** Toggling never takes the pin set above four, and toggling back undoes it. */
  lemma ToggleBounded(pins: set<int>, id: int)
    requires |pins| <= MAX_PINS
    ensures |Toggled(pins, id)| <= MAX_PINS
    ensures Toggled(pins, id) != pins ==> Toggled(Toggled(pins, id), id) == pins
  {
    if id in pins {
      assert |pins - {id}| == |pins| - 1;
    } else if |pins| < MAX_PINS {
      assert |pins + {id}| == |pins| + 1;
    }
  }

  class PinBoard {
    var pinned: set<int>

    predicate Valid()
      reads this
    {
      |pinned| <= MAX_PINS
    }

    constructor()
      ensures Valid() && pinned == {}
    {
      pinned := {};
    }

    /** Copies the set, then deletes the id if present or adds it while under four. */
    method TogglePin(id: int)
      requires Valid()
      modifies this
      ensures Valid()
      ensures pinned == Toggled(old(pinned), id)
    {
      var next := pinned;
      if id in next {
        next := next - {id};
      } else if |next| < MAX_PINS {
        next := next + {id};
      }
      ToggleBounded(pinned, id);
      pinned := next;
    }
  }

  /** `pinnedPlayers`: the rows whose batter is pinned, in table order. */
  function PinnedRows(rows: seq<HubRow>, pins: set<int>): seq<HubRow> {
    Filter(rows, (d: HubRow) => d.entry.batter.id in pins)
  }

  lemma PinnedRowsExact(rows: seq<HubRow>, pins: set<int>, d: HubRow)
    ensures d in PinnedRows(rows, pins) <==> d in rows && d.entry.batter.id in pins
  {
    FilterMembership(rows, (q: HubRow) => q.entry.batter.id in pins, d);
  }

  // ---------------------------------------------------------------------
  // The comparison table
  // ---------------------------------------------------------------------

  /** `Math.max(...vals)` over a non-empty row. */
  function SeqMax(vals: seq<real>): (m: real)
    requires vals != []
    ensures forall i :: 0 <= i < |vals| ==> vals[i] <= m
    ensures exists i :: 0 <= i < |vals| && vals[i] == m
    decreases |vals|
  {
    if |vals| == 1 then vals[0]
    else
      var m := SeqMax(vals[..|vals| - 1]);
      assert forall i :: 0 <= i < |vals| - 1 ==> vals[..|vals| - 1][i] == vals[i];
      if vals[|vals| - 1] > m then vals[|vals| - 1] else m
  }

  const DASH: string := "—"

  /** Which cells of one metric row are starred as best. */
  function BestMarks(vals: seq<real>, displays: seq<string>): (r: seq<bool>)
    requires |vals| == |displays|
    ensures |r| == |vals|
  {
    if vals == [] then []
    else
      var m := SeqMax(vals);
      seq(|vals|, i requires 0 <= i < |vals| => m > 0.0 && vals[i] == m && displays[i] != DASH)
  }

  /**
   * A cell is best exactly when it holds the row maximum, the maximum is
   * positive and the cell shows a value; then no other cell is larger,
   * ties are all starred, and a positive maximum with every value shown
   * stars at least one cell.
   */
  lemma BestMarksMeaning(vals: seq<real>, displays: seq<string>)
    requires |vals| == |displays|
    ensures var r := BestMarks(vals, displays);
      && (forall i :: 0 <= i < |r| ==>
            (r[i] <==> vals[i] > 0.0 && displays[i] != DASH && forall j :: 0 <= j < |vals| ==> vals[j] <= vals[i]))
      && (forall i, j :: 0 <= i < |r| && 0 <= j < |r| && r[i] && vals[j] == vals[i] && displays[j] != DASH ==> r[j])
      && (((exists i :: 0 <= i < |vals| && vals[i] > 0.0) && (forall i :: 0 <= i < |displays| ==> displays[i] != DASH))
          ==> exists i :: 0 <= i < |r| && r[i])
  {
    var r := BestMarks(vals, displays);
    if vals != [] {
      var m := SeqMax(vals);
      forall i | 0 <= i < |r|
        ensures r[i] <==> vals[i] > 0.0 && displays[i] != DASH && forall j :: 0 <= j < |vals| ==> vals[j] <= vals[i]
      {
        if vals[i] > 0.0 && displays[i] != DASH && forall j :: 0 <= j < |vals| ==> vals[j] <= vals[i] {
          var k :| 0 <= k < |vals| && vals[k] == m;
          assert vals[k] <= vals[i];
        }
      }
      if (exists i :: 0 <= i < |vals| && vals[i] > 0.0) && (forall i :: 0 <= i < |displays| ==> displays[i] != DASH) {
        var k :| 0 <= k < |vals| && vals[k] == m;
        var p :| 0 <= p < |vals| && vals[p] > 0.0;
        assert vals[p] <= m;
        assert r[k];
      }
    }
  }
}

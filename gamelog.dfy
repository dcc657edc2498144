/**
 * Game logs and the statistics derived from them in
 * frontend/src/utils/mlbApi.js: the roster filter of `fetchRoster`, the
 * date-descending sort of `fetchGameLog`, `computeSplit`,
 * `computeActiveStreak` and `computeGamesWithHit`.
 *
 * A counting field the provider leaves out is 0, which is exactly what the
 * source's `+g.x || 0` idiom produces.  Dates are day indices.
 */
module GameLog {
  import opened Wrappers
  import Sorting
  import opened Numeric

  // ---------------------------------------------------------------------
  // Records
  // ---------------------------------------------------------------------

  /** One game-log row: the date, home flag and the batting line. */
  datatype Game = Game(
    date: int, isHome: bool,
    atBats: nat, hits: nat, doubles: nat, triples: nat, homeRuns: nat,
    rbi: nat, baseOnBalls: nat, strikeOuts: nat, plateAppearances: nat)

  predicate HasHit(g: Game) { g.hits > 0 }

  /** Plate appearances of one game: at-bats when the field is missing or zero. */
  function GamePA(g: Game): (pa: nat)
    ensures pa == (if g.plateAppearances != 0 then g.plateAppearances else g.atBats)
    ensures g.plateAppearances == 0 ==> pa == g.atBats
  {
    if g.plateAppearances != 0 then g.plateAppearances else g.atBats
  }

  /** A batting line that obeys baseball's own arithmetic. */
  predicate Plausible(g: Game) {
    g.hits <= g.atBats && g.doubles + g.triples + g.homeRuns <= g.hits
  }

  /** Counting totals over a run of games. */
  datatype Totals = Totals(
    ab: nat, hits: nat, doubles: nat, triples: nat, hr: nat,
    rbi: nat, bb: nat, k: nat, pa: nat)

  function AddGame(t: Totals, g: Game): Totals {
    Totals(t.ab + g.atBats, t.hits + g.hits, t.doubles + g.doubles,
           t.triples + g.triples, t.hr + g.homeRuns, t.rbi + g.rbi,
           t.bb + g.baseOnBalls, t.k + g.strikeOuts, t.pa + GamePA(g))
  }

  /** The totals of `s`, accumulated from the front as the source's loop does. */
  function TotalsOf(s: seq<Game>): Totals
    decreases |s|
  {
    if s == [] then Totals(0, 0, 0, 0, 0, 0, 0, 0, 0)
    else AddGame(TotalsOf(s[..|s| - 1]), s[|s| - 1])
  }

  /** Totals of plausible games are plausible as well. */
  lemma {:induction false} TotalsPlausible(s: seq<Game>)
    requires forall i :: 0 <= i < |s| ==> Plausible(s[i])
    ensures TotalsOf(s).hits <= TotalsOf(s).ab
    ensures TotalsOf(s).doubles + TotalsOf(s).triples + TotalsOf(s).hr <= TotalsOf(s).hits
    decreases |s|
  {
    if s != [] {
      TotalsPlausible(s[..|s| - 1]);
      assert Plausible(s[|s| - 1]);
    }
  }

  // ---------------------------------------------------------------------
  // Games with a hit and the active streak
  // ---------------------------------------------------------------------

  /** `computeGamesWithHit`: the number of games with at least one hit. */
  function GamesWithHit(s: seq<Game>): (n: nat)
    ensures n <= |s|
    ensures n == |Sorting.Filter(s, HasHit)|
    ensures s != [] && (forall i :: 0 <= i < |s| ==> HasHit(s[i])) ==> n == |s|
  {
    if s == [] then 0
    else
      Sorting.FilterCount(s, HasHit);
      assert forall i :: 1 <= i < |s| ==> s[i] == s[1..][i - 1];
      (if HasHit(s[0]) then 1 else 0) + GamesWithHit(s[1..])
  }

  /** The length of the leading run of games with a hit. */
  function LeadingHits(s: seq<Game>): (n: nat)
    ensures n <= |s|
    ensures forall i :: 0 <= i < n ==> HasHit(s[i])
    ensures n == |s| || !HasHit(s[n])
  {
    if s == [] || !HasHit(s[0]) then 0 else 1 + LeadingHits(s[1..])
  }

  /** `computeActiveStreak`: walks the log from the newest game, stopping at the first hitless one. */
  method ComputeActiveStreak(games: seq<Game>) returns (streak: nat)
    ensures streak == LeadingHits(games)
    ensures forall i :: 0 <= i < streak ==> HasHit(games[i])
    ensures streak == |games| || !HasHit(games[streak])
  {
    streak := 0;
    var i := 0;
    while i < |games|
      invariant 0 <= i <= |games| && streak == i
      invariant forall j :: 0 <= j < i ==> HasHit(games[j])
      decreases |games| - i
    {
      if HasHit(games[i]) {
        streak := streak + 1;
      } else {
        break;
      }
      i := i + 1;
    }
    LeadingHitsUnique(games, streak);
  }

  /** The leading run is the only prefix of hit games followed by a hitless game or the end. */
  lemma {:induction false} LeadingHitsUnique(s: seq<Game>, n: nat)
    requires n <= |s|
    requires forall i :: 0 <= i < n ==> HasHit(s[i])
    requires n == |s| || !HasHit(s[n])
    ensures LeadingHits(s) == n
  {
    if n > 0 {
      assert HasHit(s[0]);
      LeadingHitsUnique(s[1..], n - 1);
    }
  }

  /** The active streak never exceeds the games with a hit, which never exceed the log. */
  lemma {:induction false} StreakAtMostGamesWithHit(s: seq<Game>)
    ensures LeadingHits(s) <= GamesWithHit(s) <= |s|
    ensures s != [] && !HasHit(s[0]) ==> LeadingHits(s) == 0
  {
    if s != [] && HasHit(s[0]) {
      StreakAtMostGamesWithHit(s[1..]);
    }
  }

  // ---------------------------------------------------------------------
  // computeSplit
  // ---------------------------------------------------------------------

  /** The object `computeSplit` returns, with the `toFixed` strings kept as their values. */
  datatype Split = Split(
    games: nat, ab: nat, hits: nat, doubles: nat, triples: nat, hr: nat,
    rbi: nat, bb: nat, k: nat, pa: nat, tb: nat,
    avg: real, obp: real, slg: real, ops: real, kPct: real, bbPct: real,
    gamesWithHit: nat, hitRate: real)

  /** Total bases of a set of totals. */
  function TotalBases(t: Totals): nat {
    t.hits + t.doubles + 2 * t.triples + 3 * t.hr
  }

  /** The split over a window whose totals are `t`. */
  function SplitFrom(s: seq<Game>, t: Totals, gwh: nat): Split
    requires s != []
  {
    var tb := TotalBases(t);
    var obp := Ratio(t.hits + t.bb, t.pa);
    var slg := Ratio(tb, t.ab);
    Split(|s|, t.ab, t.hits, t.doubles, t.triples, t.hr, t.rbi, t.bb, t.k, t.pa, tb,
          Fixed3(Ratio(t.hits, t.ab)), Fixed3(obp), Fixed3(slg), Fixed3(obp + slg),
          if t.pa != 0 then Fixed1(Ratio(t.k, t.pa) * 100.0) else 0.0,
          if t.pa != 0 then Fixed1(Ratio(t.bb, t.pa) * 100.0) else 0.0,
          gwh, Fixed0(gwh as real / |s| as real * 100.0))
  }

  /** What `computeSplit(games, n)` returns: `None` for an empty window (`null`). */
  function SplitOf(games: seq<Game>, n: nat): Option<Split> {
    var s := Sorting.Take(games, n);
    if s == [] then None else Some(SplitFrom(s, TotalsOf(s), GamesWithHit(s)))
  }

  /** `computeSplit`: one pass over the first `n` games accumulating the counters. */
  method ComputeSplit(games: seq<Game>, n: nat) returns (r: Option<Split>)
    ensures r == SplitOf(games, n)
  {
    var s := if n < |games| then games[..n] else games;
    if |s| == 0 {
      return None;
    }
    var ab: nat, hits: nat, d: nat, tr: nat, hr: nat := 0, 0, 0, 0, 0;
    var rbi: nat, bb: nat, k: nat, pa: nat := 0, 0, 0, 0;
    var i := 0;
    while i < |s|
      invariant 0 <= i <= |s|
      invariant Totals(ab, hits, d, tr, hr, rbi, bb, k, pa) == TotalsOf(s[..i])
      decreases |s| - i
    {
      var g := s[i];
      assert s[..i + 1][..i] == s[..i];
      ab := ab + g.atBats;
      hits := hits + g.hits;
      d := d + g.doubles;
      tr := tr + g.triples;
      hr := hr + g.homeRuns;
      rbi := rbi + g.rbi;
      bb := bb + g.baseOnBalls;
      k := k + g.strikeOuts;
      pa := pa + (if g.plateAppearances != 0 then g.plateAppearances else g.atBats);
      i := i + 1;
    }
    assert s[..i] == s;
    var gwh := |Sorting.Filter(s, HasHit)|;
    r := Some(SplitFrom(s, Totals(ab, hits, d, tr, hr, rbi, bb, k, pa), gwh));
  }

  /** `computeSplit` is `null` exactly when the window is empty. */
  lemma SplitNullIff(games: seq<Game>, n: nat)
    ensures SplitOf(games, n).None? <==> n == 0 || games == []
  {
  }

  /**
   * A non-empty window covers `min(n, |log|)` games; its totals are those of
   * the window, total bases weigh doubles, triples and homers by 1, 2 and 3
   * extra bases, and the games with a hit are at most the window.
   */
  lemma SplitCounts(games: seq<Game>, n: nat)
    requires SplitOf(games, n).Some?
    ensures var sp := SplitOf(games, n).value;
      && sp.games == (if n < |games| then n else |games|)
      && var t := TotalsOf(games[..sp.games]);
      && sp.ab == t.ab && sp.hits == t.hits && sp.doubles == t.doubles
      && sp.triples == t.triples && sp.hr == t.hr && sp.rbi == t.rbi
      && sp.bb == t.bb && sp.k == t.k && sp.pa == t.pa
      && sp.tb == sp.hits + sp.doubles + 2 * sp.triples + 3 * sp.hr
      && sp.gamesWithHit == GamesWithHit(games[..sp.games]) <= sp.games
  {
    var s := Sorting.Take(games, n);
    assert SplitOf(games, n) == Some(SplitFrom(s, TotalsOf(s), GamesWithHit(s)));
  }

  /**
   * The rates of a split, read off its own counters: each falls back to 0 on
   * a zero denominator, and OPS is the rounded sum of the unrounded OBP and SLG.
   */
  predicate RatesRead(sp: Split) {
    && (sp.ab == 0 ==> sp.avg == 0.0 && sp.slg == 0.0)
    && (sp.pa == 0 ==> sp.obp == 0.0 && sp.kPct == 0.0 && sp.bbPct == 0.0)
    && sp.avg == Fixed3(Ratio(sp.hits, sp.ab))
    && sp.obp == Fixed3(Ratio(sp.hits + sp.bb, sp.pa))
    && sp.slg == Fixed3(Ratio(sp.tb, sp.ab))
    && sp.ops == Fixed3(Ratio(sp.hits + sp.bb, sp.pa) + Ratio(sp.tb, sp.ab))
    && (sp.pa != 0 ==> sp.kPct == Fixed1(Ratio(sp.k, sp.pa) * 100.0))
    && (sp.pa != 0 ==> sp.bbPct == Fixed1(Ratio(sp.bb, sp.pa) * 100.0))
    && sp.hitRate == Fixed0(Ratio(sp.gamesWithHit, sp.games) * 100.0)
  }

  /** Every split `computeSplit` returns has its rates read off its counters. */
  lemma SplitRates(games: seq<Game>, n: nat)
    requires SplitOf(games, n).Some?
    ensures RatesRead(SplitOf(games, n).value)
  {
    var s := Sorting.Take(games, n);
    SplitFromRates(s, TotalsOf(s), GamesWithHit(s));
  }

  lemma SplitFromRates(s: seq<Game>, t: Totals, gwh: nat)
    requires s != []
    ensures RatesRead(SplitFrom(s, t, gwh))
  {
    assert gwh as real / |s| as real == Ratio(gwh, |s|);
    FixedInteger(0);
  }

  /** With no plate-appearance field anywhere, the window's PA are its at-bats. */
  lemma {:induction false} PlateAppearancesFallBack(s: seq<Game>)
    requires forall i :: 0 <= i < |s| ==> s[i].plateAppearances == 0
    ensures TotalsOf(s).pa == TotalsOf(s).ab
    decreases |s|
  {
    if s != [] {
      PlateAppearancesFallBack(s[..|s| - 1]);
    }
  }

  lemma SplitFromBounds(s: seq<Game>, t: Totals, gwh: nat)
    requires s != [] && gwh <= |s|
    requires t.hits <= t.ab && t.doubles + t.triples + t.hr <= t.hits
    ensures 0.0 <= SplitFrom(s, t, gwh).avg <= 1.0
    ensures 0.0 <= SplitFrom(s, t, gwh).slg <= 4.0
    ensures 0.0 <= SplitFrom(s, t, gwh).hitRate <= 100.0
  {
    RatioBounded(t.hits, t.ab, 1);
    Fixed3Bounded(Ratio(t.hits, t.ab), 1);
    RatioBounded(TotalBases(t), t.ab, 4);
    Fixed3Bounded(Ratio(TotalBases(t), t.ab), 4);
    RatioBounded(gwh, |s|, 1);
    var rate := gwh as real / |s| as real * 100.0;
    assert rate == Ratio(gwh, |s|) * 100.0;
    Fixed0Bounded(rate, 100);
  }

  /** For plausible batting lines the displayed average lies in [0, 1], slugging in [0, 4] and the hit rate in [0, 100]. */
  lemma SplitBounds(games: seq<Game>, n: nat)
    requires forall i :: 0 <= i < |games| ==> Plausible(games[i])
    requires SplitOf(games, n).Some?
    ensures 0.0 <= SplitOf(games, n).value.avg <= 1.0
    ensures 0.0 <= SplitOf(games, n).value.slg <= 4.0
    ensures 0.0 <= SplitOf(games, n).value.hitRate <= 100.0
  {
    var s := Sorting.Take(games, n);
    assert SplitOf(games, n) == Some(SplitFrom(s, TotalsOf(s), GamesWithHit(s)));
    TotalsPlausible(s);
    SplitFromBounds(s, TotalsOf(s), GamesWithHit(s));
  }

  // ---------------------------------------------------------------------
  // fetchRoster's pitcher filter and fetchGameLog's sort
  // ---------------------------------------------------------------------

  /** A roster row as the provider sends it. */
  datatype RawPlayer = RawPlayer(id: int, fullName: string, position: Option<string>, batSide: Option<string>)

  /** A roster entry: position abbreviation (if any) and batting side, `"?"` when unknown. */
  datatype Player = Player(id: int, name: string, position: Option<string>, batSide: string)

  predicate IsPitcherPosition(pos: Option<string>) {
    pos.Some? && pos.value in ["P", "SP", "RP", "CP"]
  }

  predicate IsBatter(p: Player) { !IsPitcherPosition(p.position) }

  function ToPlayer(r: RawPlayer): (p: Player)
    ensures p.id == r.id && p.name == r.fullName && p.position == r.position
    ensures p.batSide == (if r.batSide.Some? && r.batSide.value != "" then r.batSide.value else "?")
  {
    Player(r.id, r.fullName, r.position,
           if r.batSide.Some? && r.batSide.value != "" then r.batSide.value else "?")
  }

  function MapPlayers(rs: seq<RawPlayer>): (ps: seq<Player>)
    ensures |ps| == |rs| && forall i :: 0 <= i < |rs| ==> ps[i] == ToPlayer(rs[i])
  {
    if rs == [] then [] else [ToPlayer(rs[0])] + MapPlayers(rs[1..])
  }

  /** `fetchRoster`'s result: the roster with every pitcher removed. */
  function RosterBatters(rs: seq<RawPlayer>): seq<Player> {
    Sorting.Filter(MapPlayers(rs), IsBatter)
  }

  /** A player is kept exactly when it is on the roster and is not listed as P, SP, RP or CP. */
  lemma RosterBattersExact(rs: seq<RawPlayer>, p: Player)
    ensures p in RosterBatters(rs) <==>
            (exists i :: 0 <= i < |rs| && ToPlayer(rs[i]) == p) && !IsPitcherPosition(p.position)
  {
    var ps := MapPlayers(rs);
    Sorting.FilterMembership(ps, IsBatter, p);
    if p in ps {
      var i :| 0 <= i < |ps| && ps[i] == p;
      assert ToPlayer(rs[i]) == p;
    }
  }

  function GameDate(g: Game): real { g.date as real }

  function Flatten(blocks: seq<seq<Game>>): seq<Game> {
    if blocks == [] then [] else blocks[0] + Flatten(blocks[1..])
  }

  /** `fetchGameLog`'s result: every split of every block, newest first. */
  function GameLogOf(blocks: seq<seq<Game>>): (r: seq<Game>)
    ensures multiset(r) == multiset(Flatten(blocks))
    ensures forall i, j :: 0 <= i < j < |r| ==> r[i].date >= r[j].date
  {
    var r := Sorting.SortBy(Flatten(blocks), GameDate, true);
    assert forall i, j :: 0 <= i < j < |r| ==> Sorting.InOrder(GameDate, true, r[i], r[j]);
    r
  }
}

/**
 * The expected-statistics leaderboard (frontend/src/components/tools/StatcastTool.jsx):
 * the `filtered` chain over the Savant rows (minimum plate appearances,
 * player search, the under/over-performer filter, the column sort), the
 * first hundred rows shown, the header clicks and the two banners.
 * The rows arrive already read: `Number(pa)` and `parseFloat` of every
 * column are values here, absent where JavaScript would give `NaN`.
 */
module StatcastTool {
  import opened Wrappers
  import opened Sorting
  import opened Text

  /** A leaderboard row: the player's name, `+p.pa`, and `parseFloat` of each numeric column that parses. */
  datatype StatRow = StatRow(playerName: Option<string>, pa: Option<real>, cols: map<string, real>)

  /** The column of the xBA-minus-BA difference. */
  const DIFF_COL := "est_ba_minus_ba_diff"

  /** The column sorted by at first. */
  const DEFAULT_COL := "est_ba"

  /** At most this many rows are drawn. */
  const SHOWN_ROWS := 100

  /** The three chips of the xBA filter. */
  datatype XbaFilter = AllRows | Under | Over

  /** What the page's controls hold. */
  datatype View = View(sortCol: string, desc: bool, minPA: int, search: string, filter: XbaFilter)

  /** The page as it opens: xBA descending, any PA, no search, every row. */
  const INITIAL_VIEW := View(DEFAULT_COL, true, 1, "", AllRows)

  /** `parseFloat(p.est_ba_minus_ba_diff)`; `None` is `NaN`. */
  function Diff(r: StatRow): Option<real> {
    if DIFF_COL in r.cols then Some(r.cols[DIFF_COL]) else None
  }

  /** `parseFloat(p[col]) || 0`: a column that does not parse sorts as 0. */
  function SortValue(col: string, r: StatRow): (x: real)
    ensures col !in r.cols ==> x == 0.0
    ensures col in r.cols ==> x == r.cols[col]
  {
    if col in r.cols then r.cols[col] else 0.0
  }

  /**
   * The filter callback.  Every comparison with `NaN` is false, so a row
   * whose PA or difference does not parse is not dropped by that test; a
   * row without a name is dropped by any non-empty search.
   */
  predicate Keeps(v: View, r: StatRow) {
    && !(r.pa.Some? && r.pa.value < v.minPA as real)
    && !(v.search != "" && !(r.playerName.Some? && ContainsIgnoreCase(r.playerName.value, v.search)))
    && !(v.filter == Under && Diff(r).Some? && Diff(r).value <= 0.0)
    && !(v.filter == Over && Diff(r).Some? && Diff(r).value >= 0.0)
  }

  /** `filtered`: the kept rows, ordered by the chosen column in the chosen direction. */
  function Filtered(v: View, data: seq<StatRow>): (r: seq<StatRow>)
    ensures forall x :: x in r <==> x in data && Keeps(v, x)
    ensures forall x :: multiset(r)[x] == if Keeps(v, x) then multiset(data)[x] else 0
    ensures Ordered(r, x => SortValue(v.sortCol, x), v.desc)
  {
    var kept := Filter(data, x => Keeps(v, x));
    var sorted := SortBy(kept, x => SortValue(v.sortCol, x), v.desc);
    forall x
      ensures multiset(sorted)[x] == if Keeps(v, x) then multiset(data)[x] else 0
    {
      FilterMultiset(data, y => Keeps(v, y), x);
    }
    forall x
      ensures x in sorted <==> x in data && Keeps(v, x)
    {
      assert x in sorted <==> x in multiset(sorted);
      assert x in data <==> x in multiset(data);
    }
    sorted
  }

  /** A kept row has at least `minPA` plate appearances, unless its PA does not parse. */
  lemma KeptMeetsMinPA(v: View, data: seq<StatRow>, x: StatRow)
    requires x in Filtered(v, data)
    ensures x.pa.None? || x.pa.value >= v.minPA as real
  {
  }

  /** With a search, a kept row has a name containing it, ignoring case; the search only ever narrows the table. */
  lemma SearchMatches(v: View, data: seq<StatRow>, x: StatRow)
    requires x in Filtered(v, data)
    ensures v.search != "" ==> x.playerName.Some? && ContainsIgnoreCase(x.playerName.value, v.search)
    ensures x in Filtered(v.(search := ""), data)
  {
  }

  /** "under" keeps no row with a difference at or below 0, "over" none at or above 0, "all" drops none for it. */
  lemma XbaFilters(v: View, data: seq<StatRow>, x: StatRow)
    requires x in Filtered(v, data) && Diff(x).Some?
    ensures v.filter == Under ==> Diff(x).value > 0.0
    ensures v.filter == Over ==> Diff(x).value < 0.0
  {
  }

  /** The xBA filter drops only rows whose difference has the wrong sign. */
  lemma XbaFilterDropsOnlyWrongSign(v: View, data: seq<StatRow>, x: StatRow)
    requires x in Filtered(v.(filter := AllRows), data)
    requires Diff(x).None? || ((v.filter == Under ==> Diff(x).value > 0.0) && (v.filter == Over ==> Diff(x).value < 0.0))
    ensures x in Filtered(v, data)
  {
  }

  /** `filtered.slice(0, 100)`: the first hundred rows of the table, or all of a shorter one. */
  function Shown(table: seq<StatRow>): (r: seq<StatRow>)
    ensures |r| == if |table| < SHOWN_ROWS then |table| else SHOWN_ROWS
    ensures r == table[..|r|]
  {
    Take(table, SHOWN_ROWS)
  }

  /** Every drawn row sorts at least as high as every row left off. */
  lemma ShownDominates(v: View, data: seq<StatRow>, i: nat, j: nat)
    requires i < |Shown(Filtered(v, data))| <= j < |Filtered(v, data)|
    ensures InOrder(x => SortValue(v.sortCol, x), v.desc, Shown(Filtered(v, data))[i], Filtered(v, data)[j])
  {
    TakeDominates(Filtered(v, data), x => SortValue(v.sortCol, x), v.desc, SHOWN_ROWS, i, j);
  }

  /** `handleSort(col)`: the same column flips the direction, another column sorts it descending. */
  function HandleSort(v: View, col: string): (w: View)
    ensures w.sortCol == col
    ensures w.desc == (if col == v.sortCol then !v.desc else true)
    ensures w.minPA == v.minPA && w.search == v.search && w.filter == v.filter
  {
    var (c, d) := ClickHeader(v.sortCol, v.desc, col);
    v.(sortCol := c, desc := d)
  }

  /** The "buy low" banner: underperformers, largest difference first. */
  function ChooseUnder(v: View): View {
    v.(filter := Under, sortCol := DIFF_COL, desc := true)
  }

  /** The "sell high" banner: overperformers, most negative difference first. */
  function ChooseOver(v: View): View {
    v.(filter := Over, sortCol := DIFF_COL, desc := false)
  }

  /**
   * After the "buy low" banner every row with a difference has a positive
   * one, and the rows run from the largest difference down, with rows
   * whose difference does not parse placed as 0.
   */
  lemma UnderBanner(v: View, data: seq<StatRow>)
    ensures forall x :: x in Filtered(ChooseUnder(v), data) && Diff(x).Some? ==> Diff(x).value > 0.0
    ensures forall i, j :: 0 <= i < j < |Filtered(ChooseUnder(v), data)| ==>
              SortValue(DIFF_COL, Filtered(ChooseUnder(v), data)[i]) >= SortValue(DIFF_COL, Filtered(ChooseUnder(v), data)[j])
  {
    var f := Filtered(ChooseUnder(v), data);
    forall i, j | 0 <= i < j < |f|
      ensures SortValue(DIFF_COL, f[i]) >= SortValue(DIFF_COL, f[j])
    {
      assert InOrder(x => SortValue(DIFF_COL, x), true, f[i], f[j]);
    }
  }

  /** After the "sell high" banner every row with a difference has a negative one, most negative first. */
  lemma OverBanner(v: View, data: seq<StatRow>)
    ensures forall x :: x in Filtered(ChooseOver(v), data) && Diff(x).Some? ==> Diff(x).value < 0.0
    ensures forall i, j :: 0 <= i < j < |Filtered(ChooseOver(v), data)| ==>
              SortValue(DIFF_COL, Filtered(ChooseOver(v), data)[i]) <= SortValue(DIFF_COL, Filtered(ChooseOver(v), data)[j])
  {
    var f := Filtered(ChooseOver(v), data);
    forall i, j | 0 <= i < j < |f|
      ensures SortValue(DIFF_COL, f[i]) <= SortValue(DIFF_COL, f[j])
    {
      assert InOrder(x => SortValue(DIFF_COL, x), false, f[i], f[j]);
    }
  }

  /** As the page opens, every row with at least one plate appearance (or an unreadable count) is listed. */
  lemma InitialViewKeeps(data: seq<StatRow>, x: StatRow)
    requires x in data
    ensures x in Filtered(INITIAL_VIEW, data) <==> x.pa.None? || x.pa.value >= 1.0
  {
  }
}

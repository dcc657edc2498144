/**
 * The park-factor table (frontend/src/components/tools/ParkFactors.jsx):
 * the thirty parks, the type and search filters, the column sort, the
 * five most hitter-friendly parks, and the width of a park's bar.
 */
module ParkFactors {
  import opened Sorting
  import opened Text

  /** A park's character, the `type` column. */
  datatype ParkType = HitterPark | NeutralPark | PitcherPark

  /** A park: its name, team, abbreviation, overall, home-run, hit and run factors, and type. */
  datatype Park = Park(name: string, team: string, abbr: string,
                       factor: int, hr: int, h: int, r: int, kind: ParkType)

  /** `PARKS`: five-year factors, 100 being neutral. */
  const PARKS: seq<Park> := [
    Park("Coors Field", "Colorado Rockies", "COL", 121, 118, 122, 125, HitterPark),
    Park("Great American Ball Park", "Cincinnati Reds", "CIN", 112, 115, 108, 114, HitterPark),
    Park("Fenway Park", "Boston Red Sox", "BOS", 110, 99, 112, 111, HitterPark),
    Park("Wrigley Field", "Chicago Cubs", "CHC", 108, 111, 107, 109, HitterPark),
    Park("Globe Life Field", "Texas Rangers", "TEX", 107, 108, 106, 108, HitterPark),
    Park("American Family Field", "Milwaukee Brewers", "MIL", 106, 110, 103, 107, HitterPark),
    Park("Yankee Stadium", "New York Yankees", "NYY", 105, 118, 100, 105, HitterPark),
    Park("Camden Yards", "Baltimore Orioles", "BAL", 105, 112, 102, 105, HitterPark),
    Park("Rogers Centre", "Toronto Blue Jays", "TOR", 104, 107, 103, 104, HitterPark),
    Park("Angel Stadium", "Los Angeles Angels", "LAA", 104, 106, 103, 104, HitterPark),
    Park("Citizens Bank Park", "Philadelphia Phillies", "PHI", 104, 110, 102, 105, HitterPark),
    Park("Guaranteed Rate Field", "Chicago White Sox", "CWS", 103, 109, 100, 103, HitterPark),
    Park("Truist Park", "Atlanta Braves", "ATL", 103, 105, 102, 104, HitterPark),
    Park("Progressive Field", "Cleveland Guardians", "CLE", 102, 101, 103, 102, NeutralPark),
    Park("Nationals Park", "Washington Nationals", "WSH", 99, 103, 97, 99, NeutralPark),
    Park("Minute Maid Park", "Houston Astros", "HOU", 99, 100, 99, 99, NeutralPark),
    Park("Chase Field", "Arizona Diamondbacks", "ARI", 99, 101, 99, 99, NeutralPark),
    Park("loanDepot Park", "Miami Marlins", "MIA", 100, 97, 102, 100, NeutralPark),
    Park("Target Field", "Minnesota Twins", "MIN", 97, 102, 95, 97, PitcherPark),
    Park("Busch Stadium", "St. Louis Cardinals", "STL", 96, 93, 98, 95, PitcherPark),
    Park("PNC Park", "Pittsburgh Pirates", "PIT", 97, 97, 97, 97, PitcherPark),
    Park("Kauffman Stadium", "Kansas City Royals", "KC", 96, 95, 97, 96, PitcherPark),
    Park("Citi Field", "New York Mets", "NYM", 95, 92, 96, 94, PitcherPark),
    Park("Tropicana Field", "Tampa Bay Rays", "TB", 95, 92, 96, 94, PitcherPark),
    Park("T-Mobile Park", "Seattle Mariners", "SEA", 97, 95, 98, 96, PitcherPark),
    Park("Dodger Stadium", "Los Angeles Dodgers", "LAD", 96, 94, 97, 95, PitcherPark),
    Park("Oracle Park", "San Francisco Giants", "SF", 94, 87, 97, 93, PitcherPark),
    Park("Petco Park", "San Diego Padres", "SD", 93, 91, 94, 92, PitcherPark),
    Park("Oakland Coliseum", "Oakland Athletics", "OAK", 92, 88, 95, 91, PitcherPark),
    Park("Comerica Park", "Detroit Tigers", "DET", 92, 88, 94, 91, PitcherPark)
  ]

  /** The park-type chips; `AllParks` is `"all"`. */
  datatype TypeFilter = AllParks | Only(kind: ParkType)

  /** The four sortable columns. */
  datatype Column = FactorCol | HrCol | HCol | RCol

  function Value(col: Column, p: Park): real {
    match col
    case FactorCol => p.factor as real
    case HrCol => p.hr as real
    case HCol => p.h as real
    case RCol => p.r as real
  }

  /** The type test: `"all"` passes everything, a type only its own parks. */
  predicate TypeOk(f: TypeFilter, p: Park) {
    f.AllParks? || p.kind == f.kind
  }

  /** The search test: empty passes everything, otherwise the name, team or abbreviation contains it, ignoring case. */
  predicate SearchOk(search: string, p: Park) {
    search == "" || ContainsIgnoreCase(p.name, search) || ContainsIgnoreCase(p.team, search)
    || ContainsIgnoreCase(p.abbr, search)
  }

  /**
   * `filtered`: the parks passing both tests, ordered by the chosen column
   * in the chosen direction.  The page passes `PARKS`.
   */
  function Filtered(parks: seq<Park>, f: TypeFilter, search: string, col: Column, desc: bool): (r: seq<Park>)
    ensures forall p :: p in r <==> p in parks && TypeOk(f, p) && SearchOk(search, p)
    ensures forall p :: multiset(r)[p] == if TypeOk(f, p) && SearchOk(search, p) then multiset(parks)[p] else 0
    ensures Ordered(r, p => Value(col, p), desc)
  {
    var kept := Filter(parks, p => TypeOk(f, p) && SearchOk(search, p));
    var sorted := SortBy(kept, p => Value(col, p), desc);
    forall p
      ensures multiset(sorted)[p] == if TypeOk(f, p) && SearchOk(search, p) then multiset(parks)[p] else 0
    {
      FilterMultiset(parks, q => TypeOk(f, q) && SearchOk(search, q), p);
    }
    forall p
      ensures p in sorted <==> p in parks && TypeOk(f, p) && SearchOk(search, p)
    {
      assert p in sorted <==> p in multiset(sorted);
      assert p in parks <==> p in multiset(parks);
    }
    sorted
  }

  /** A type filter shows only parks of exactly that type, and all of them when there is no search. */
  lemma TypeFilterExact(parks: seq<Park>, t: ParkType, col: Column, desc: bool, p: Park)
    ensures p in Filtered(parks, Only(t), "", col, desc) <==> p in parks && p.kind == t
    ensures forall q :: q in Filtered(parks, Only(t), "", col, desc) ==> q.kind == t
  {
  }

  /** With every type and no search, the table is a reordering of every park. */
  lemma UnfilteredIsWholeTable(parks: seq<Park>, col: Column, desc: bool)
    ensures multiset(Filtered(parks, AllParks, "", col, desc)) == multiset(parks)
    ensures |Filtered(parks, AllParks, "", col, desc)| == |parks|
  {
    FilterAll(parks, p => TypeOk(AllParks, p) && SearchOk("", p));
  }

  /**
   * `top5`: the five parks with the highest factor, highest first, taken
   * from every park; no filter applies.  The page passes `PARKS`.
   */
  function Top5(parks: seq<Park>): (r: seq<Park>)
    ensures |r| == if |parks| < 5 then |parks| else 5
    ensures multiset(r) <= multiset(parks)
    ensures Ordered(r, FactorKey, true)
    ensures forall p, q :: p in multiset(parks) - multiset(r) && q in r ==> q.factor >= p.factor
  {
    var sorted := SortBy(parks, FactorKey, true);
    TopDominates(parks, sorted);
    Take(sorted, 5)
  }

  /** The overall factor as a sort key. */
  function FactorKey(p: Park): real {
    Value(FactorCol, p)
  }

  /** The first five of the parks sorted by factor, highest first, outrank every copy left out. */
  lemma TopDominates(parks: seq<Park>, sorted: seq<Park>)
    requires sorted == SortBy(parks, FactorKey, true)
    ensures multiset(Take(sorted, 5)) <= multiset(parks)
    ensures forall p, q :: p in multiset(parks) - multiset(Take(sorted, 5)) && q in Take(sorted, 5) ==> q.factor >= p.factor
  {
    TakeRest(sorted, 5);
    forall p, q | p in multiset(parks) - multiset(Take(sorted, 5)) && q in Take(sorted, 5)
      ensures q.factor >= p.factor
    {
      TakeDominatesRest(sorted, FactorKey, true, 5, q, p);
    }
  }

  /** A park left out of the top five has no higher factor than any park shown, and each shown park is a park of the table. */
  lemma Top5LeavesOutOnlyLower(parks: seq<Park>, p: Park, q: Park)
    requires p in parks && p !in Top5(parks) && q in Top5(parks)
    ensures q.factor >= p.factor && q in parks
  {
    assert p in multiset(parks) - multiset(Top5(parks));
    assert q in multiset(Top5(parks));
  }

  /** The table has thirty parks, so `top5` has five. */
  lemma ParksTable()
    ensures |PARKS| == 30
    ensures |Top5(PARKS)| == 5
  {
  }

  /** The bar width, `min(max((factor - 80) / 50 * 100, 0), 100)` percent. */
  function BarPct(factor: int): (pct: real)
    ensures 0.0 <= pct <= 100.0
    ensures 80 <= factor <= 130 ==> pct == (factor - 80) as real * 2.0
    ensures factor <= 80 ==> pct == 0.0
    ensures factor >= 130 ==> pct == 100.0
  {
    var raw := ((factor - 80) as real / 50.0) * 100.0;
    if raw < 0.0 then 0.0 else if raw > 100.0 then 100.0 else raw
  }

  /** A larger factor never gives a shorter bar. */
  lemma BarPctMonotone(a: int, b: int)
    requires a <= b
    ensures BarPct(a) <= BarPct(b)
  {
  }

  /** `handleSort(col)`: the same column flips the direction, another column sorts descending. */
  function HandleSort(sortCol: Column, desc: bool, col: Column): (r: (Column, bool))
    ensures r.0 == col
    ensures r.1 == (if col == sortCol then !desc else true)
  {
    ClickHeader(sortCol, desc, col)
  }
}

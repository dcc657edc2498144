/**
 * The automated ball-strike challenge tracker
 * (frontend/src/components/tools/ABSTracker.jsx): the day's challenges
 * flattened across games, the batter, pitcher and umpire leaderboards, and
 * the summary cards.  The per-game challenge lists are inputs.
 */
module ABSTracker {
  import opened Wrappers
  import opened Sorting
  import opened Numeric

  // ---------------------------------------------------------------------
  // Challenges
  // ---------------------------------------------------------------------

  /** A person record; an `id` of 0 and an empty `name` stand for missing (falsy) fields. */
  datatype Person = Person(id: int, name: string)

  /** `challengeResult`: `"upheld"`, `"overturned"`, or anything else. */
  datatype Verdict = Upheld | Overturned | Undecided

  /** `challengerSide`: `"offense"`, `"defense"`, or anything else. */
  datatype Challenger = Offense | Defense | Untagged

  datatype Challenge = Challenge(batter: Option<Person>, pitcher: Option<Person>, umpire: Option<Person>,
                                 result: Verdict, side: Challenger, distFromZone: Option<real>)

  /** A game's challenges, as `fetchABSChallenges` returns them. */
  datatype AbsGame = AbsGame(gamePk: int, homeAbbr: string, awayAbbr: string, venue: string,
                             umpire: Option<Person>, challenges: seq<Challenge>)

  /** A challenge tagged with its game's fields. */
  datatype Tagged = Tagged(c: Challenge, homeAbbr: string, awayAbbr: string, venue: string,
                           gamePk: int, gameUmpire: Option<Person>)

  function Tag(g: AbsGame, c: Challenge): Tagged {
    Tagged(c, g.homeAbbr, g.awayAbbr, g.venue, g.gamePk, if g.umpire.Some? then g.umpire else c.umpire)
  }

  /** One game's challenges, tagged, in order. */
  function TagAll(g: AbsGame): (r: seq<Tagged>)
    ensures |r| == |g.challenges|
    ensures forall j :: 0 <= j < |r| ==> r[j] == Tag(g, g.challenges[j])
  {
    seq(|g.challenges|, j requires 0 <= j < |g.challenges| => Tag(g, g.challenges[j]))
  }

  /** `allChallenges`: the games' challenge lists, concatenated in order. */
  function AllChallenges(games: seq<AbsGame>): seq<Tagged> {
    if games == [] then [] else AllChallenges(games[..|games| - 1]) + TagAll(games[|games| - 1])
  }

  function ChallengeCount(games: seq<AbsGame>): nat {
    if games == [] then 0 else ChallengeCount(games[..|games| - 1]) + |games[|games| - 1].challenges|
  }

  /**
   * Flattening loses and invents nothing: there is one tagged challenge per
   * challenge of every game, a challenge of a game on the slate is present
   * with that game's tags, and every present one comes from such a game.
   */
  lemma {:induction false} AllChallengesExact(games: seq<AbsGame>, t: Tagged)
    ensures |AllChallenges(games)| == ChallengeCount(games)
    ensures t in AllChallenges(games) <==>
              exists g, j :: g in games && 0 <= j < |g.challenges| && t == Tag(g, g.challenges[j])
  {
    if games != [] {
      var init := games[..|games| - 1];
      var g := games[|games| - 1];
      AllChallengesExact(init, t);
      assert games == init + [g];
      if t in TagAll(g) {
        var j :| 0 <= j < |TagAll(g)| && TagAll(g)[j] == t;
        assert g in games && 0 <= j < |g.challenges| && t == Tag(g, g.challenges[j]);
      }
      forall h, j | h in games && 0 <= j < |h.challenges| && t == Tag(h, h.challenges[j])
        ensures t in AllChallenges(games)
      {
        if h == g {
          assert TagAll(g)[j] == t;
        } else {
          assert h in init;
        }
      }
    }
  }

  /** Flattening distributes over a split of the slate. */
  lemma {:induction false} AllChallengesAppend(a: seq<AbsGame>, b: seq<AbsGame>)
    ensures AllChallenges(a + b) == AllChallenges(a) + AllChallenges(b)
  {
    if b == [] {
      assert a + b == a;
    } else {
      var init := b[..|b| - 1];
      assert (a + b)[..|a + b| - 1] == a + init;
      assert (a + b)[|a + b| - 1] == b[|b| - 1];
      AllChallengesAppend(a, init);
    }
  }

  // ---------------------------------------------------------------------
  // Leaderboards (`buildBoard`)
  // ---------------------------------------------------------------------

  datatype Board = BatterBoard | PitcherBoard | UmpireBoard

  /** The person a board files a challenge under: the game's umpire, else the challenge's. */
  function PersonFor(b: Board, t: Tagged): Option<Person> {
    match b
    case UmpireBoard => if t.gameUmpire.Some? then t.gameUmpire else t.c.umpire
    case BatterBoard => t.c.batter
    case PitcherBoard => t.c.pitcher
  }

  /** A person the board can file under: present, with an id or a name. */
  predicate Identified(p: Option<Person>) {
    p.Some? && (p.value.id != 0 || p.value.name != "")
  }

  /** The board key `p.id || p.name`. */
  datatype Uid = IdKey(id: int) | NameKey(name: string)

  function UidOf(p: Person): Uid {
    if p.id != 0 then IdKey(p.id) else NameKey(p.name)
  }

  /** The umpire board counts every challenge; the batter board offense ones, the pitcher board defense ones. */
  predicate Counted(b: Board, t: Tagged) {
    match b
    case UmpireBoard => true
    case BatterBoard => t.c.side == Offense
    case PitcherBoard => t.c.side == Defense
  }

  /** A challenge counts for `u` on board `b`. */
  predicate Belongs(b: Board, u: Uid, t: Tagged) {
    Identified(PersonFor(b, t)) && UidOf(PersonFor(b, t).value) == u && Counted(b, t)
  }

  datatype Outcome = Won | Lost | Unresolved

  /** For the umpire an upheld call is won; for a challenger an overturned call is. */
  function OutcomeOf(b: Board, t: Tagged): Outcome {
    if b == UmpireBoard then
      (if t.c.result == Upheld then Won else if t.c.result == Overturned then Lost else Unresolved)
    else
      (if t.c.result == Overturned then Won else if t.c.result == Upheld then Lost else Unresolved)
  }

  datatype Entry = Entry(id: int, name: string, total: nat, won: nat, lost: nat, unknown: nat,
                         challenges: seq<Tagged>)

  /** `map[uid].total++`, the outcome counter, and `challenges.push(c)`. */
  function Bump(e: Entry, b: Board, t: Tagged): Entry {
    var o := OutcomeOf(b, t);
    e.(total := e.total + 1,
       won := e.won + (if o == Won then 1 else 0),
       lost := e.lost + (if o == Lost then 1 else 0),
       unknown := e.unknown + (if o == Unresolved then 1 else 0),
       challenges := e.challenges + [t])
  }

  /** The board's `map` after the challenges `cs`. */
  function BoardMap(cs: seq<Tagged>, b: Board): map<Uid, Entry> {
    if cs == [] then map[]
    else
      var m := BoardMap(cs[..|cs| - 1], b);
      var t := cs[|cs| - 1];
      var p := PersonFor(b, t);
      if !Identified(p) then m
      else
        var u := UidOf(p.value);
        var e := if u in m then m[u] else Entry(p.value.id, p.value.name, 0, 0, 0, 0, []);
        m[u := if Counted(b, t) then Bump(e, b, t) else e]
  }

  /** The order in which the keys were first written. */
  function KeyOrder(cs: seq<Tagged>, b: Board): seq<Uid> {
    if cs == [] then []
    else
      var order := KeyOrder(cs[..|cs| - 1], b);
      var p := PersonFor(b, cs[|cs| - 1]);
      if Identified(p) && UidOf(p.value) !in BoardMap(cs[..|cs| - 1], b) then order + [UidOf(p.value)]
      else order
  }

  /** The challenges of `cs` that count for `u`, and how many of them ended `o`. */
  function Mine(cs: seq<Tagged>, b: Board, u: Uid): seq<Tagged> {
    Filter(cs, t => Belongs(b, u, t))
  }

  function Ended(cs: seq<Tagged>, b: Board, o: Outcome): nat {
    |Filter(cs, t => OutcomeOf(b, t) == o)|
  }

  /** The per-person record `buildBoard` keeps. */
  ghost predicate EntryAgrees(cs: seq<Tagged>, b: Board, u: Uid, e: Entry) {
    && e.challenges == Mine(cs, b, u)
    && e.total == |e.challenges|
    && e.won == Ended(e.challenges, b, Won)
    && e.lost == Ended(e.challenges, b, Lost)
    && e.unknown == Ended(e.challenges, b, Unresolved)
  }

  /** Appending one challenge to a filtered list. */
  lemma FilterSnoc<T>(s: seq<T>, x: T, p: T -> bool)
    ensures Filter(s + [x], p) == Filter(s, p) + (if p(x) then [x] else [])
  {
    FilterAppend(s, [x], p);
    assert Filter([x], p) == (if p(x) then [x] else []) by {
      assert [x][1..] == [];
    }
  }

  /** One bump keeps an entry in agreement with the challenges seen. */
  lemma BumpAgrees(cs: seq<Tagged>, t: Tagged, b: Board, u: Uid, e: Entry)
    requires EntryAgrees(cs, b, u, e)
    requires Belongs(b, u, t)
    ensures EntryAgrees(cs + [t], b, u, Bump(e, b, t))
  {
    FilterSnoc(cs, t, t => Belongs(b, u, t));
    EndedSnoc(e.challenges, b, t, Won);
    EndedSnoc(e.challenges, b, t, Lost);
    EndedSnoc(e.challenges, b, t, Unresolved);
  }

  /** One more challenge adds one to the count of its own outcome only. */
  lemma EndedSnoc(cs: seq<Tagged>, b: Board, t: Tagged, o: Outcome)
    ensures Ended(cs + [t], b, o) == Ended(cs, b, o) + (if OutcomeOf(b, t) == o then 1 else 0)
  {
    FilterSnoc(cs, t, t => OutcomeOf(b, t) == o);
  }

  /** A challenge that does not count for `u` leaves `u`'s record in agreement. */
  lemma SkipAgrees(cs: seq<Tagged>, t: Tagged, b: Board, u: Uid, e: Entry)
    requires EntryAgrees(cs, b, u, e)
    requires !Belongs(b, u, t)
    ensures EntryAgrees(cs + [t], b, u, e)
  {
    FilterSnoc(cs, t, t => Belongs(b, u, t));
  }

  /**
   * Every board record is filed under a key some identified challenger had,
   * holds exactly the challenges of `cs` that count for it, in order, and its
   * counters are the number of them, won, lost and unresolved; so
   * `total == won + lost + unknown`.
   */
  lemma {:induction false} BoardMapAgrees(cs: seq<Tagged>, b: Board)
    ensures forall u :: u in BoardMap(cs, b) ==> EntryAgrees(cs, b, u, BoardMap(cs, b)[u])
    ensures forall u :: u in BoardMap(cs, b) ==>
              BoardMap(cs, b)[u].total == BoardMap(cs, b)[u].won + BoardMap(cs, b)[u].lost + BoardMap(cs, b)[u].unknown
  {
    if cs != [] {
      var init := cs[..|cs| - 1];
      var t := cs[|cs| - 1];
      assert cs == init + [t];
      BoardMapAgrees(init, b);
      var m := BoardMap(init, b);
      var p := PersonFor(b, t);
      forall u | u in BoardMap(cs, b)
        ensures EntryAgrees(cs, b, u, BoardMap(cs, b)[u])
      {
        if Identified(p) && u == UidOf(p.value) {
          var e := if u in m then m[u] else Entry(p.value.id, p.value.name, 0, 0, 0, 0, []);
          if u !in m {
            NoneFiled(init, b, u);
          }
          if Counted(b, t) {
            BumpAgrees(init, t, b, u, e);
          } else {
            SkipAgrees(init, t, b, u, e);
          }
        } else {
          SkipAgrees(init, t, b, u, m[u]);
        }
      }
      forall u | u in BoardMap(cs, b)
        ensures BoardMap(cs, b)[u].total == BoardMap(cs, b)[u].won + BoardMap(cs, b)[u].lost + BoardMap(cs, b)[u].unknown
      {
        OutcomesPartition(BoardMap(cs, b)[u].challenges, b);
      }
    }
  }

  /** A key never written has no challenges counting for it. */
  lemma {:induction false} NoneFiled(cs: seq<Tagged>, b: Board, u: Uid)
    requires u !in BoardMap(cs, b)
    ensures Mine(cs, b, u) == []
  {
    if cs != [] {
      var init := cs[..|cs| - 1];
      var t := cs[|cs| - 1];
      assert cs == init + [t];
      NoneFiled(init, b, u);
      FilterSnoc(init, t, t => Belongs(b, u, t));
    }
  }

  /** Won, lost and unresolved split any list of challenges. */
  lemma {:induction false} OutcomesPartition(cs: seq<Tagged>, b: Board)
    ensures Ended(cs, b, Won) + Ended(cs, b, Lost) + Ended(cs, b, Unresolved) == |cs|
  {
    if cs != [] {
      OutcomesPartition(cs[1..], b);
      FilterCount(cs, t => OutcomeOf(b, t) == Won);
      FilterCount(cs, t => OutcomeOf(b, t) == Lost);
      FilterCount(cs, t => OutcomeOf(b, t) == Unresolved);
    }
  }

  /** A key is on the board's map exactly when some challenge was filed under it. */
  lemma {:induction false} BoardMapKeys(cs: seq<Tagged>, b: Board, u: Uid)
    ensures u in BoardMap(cs, b) <==>
              exists k :: 0 <= k < |cs| && Identified(PersonFor(b, cs[k])) && UidOf(PersonFor(b, cs[k]).value) == u
  {
    if cs != [] {
      var init := cs[..|cs| - 1];
      BoardMapKeys(init, b, u);
      if u in BoardMap(init, b) {
        var k :| 0 <= k < |init| && Identified(PersonFor(b, init[k])) && UidOf(PersonFor(b, init[k]).value) == u;
        assert cs[k] == init[k];
      }
      forall k | 0 <= k < |cs| - 1
        ensures cs[k] == init[k]
      {
      }
    }
  }

  /** The insertion order lists every key of the map once. */
  lemma {:induction false} KeyOrderExact(cs: seq<Tagged>, b: Board)
    ensures forall u :: u in KeyOrder(cs, b) <==> u in BoardMap(cs, b)
    ensures forall i, j :: 0 <= i < j < |KeyOrder(cs, b)| ==> KeyOrder(cs, b)[i] != KeyOrder(cs, b)[j]
  {
    if cs != [] {
      KeyOrderExact(cs[..|cs| - 1], b);
    }
  }

  /** `Object.values(map)`, in insertion order. */
  function Values(order: seq<Uid>, m: map<Uid, Entry>): (r: seq<Entry>)
    requires forall u :: u in order ==> u in m
    ensures |r| == |order|
    ensures forall i :: 0 <= i < |r| ==> r[i] == m[order[i]]
  {
    seq(|order|, i requires 0 <= i < |order| => m[order[i]])
  }

  predicate HasChallenges(e: Entry) { e.total > 0 }
  function TotalKey(e: Entry): real { e.total as real }

  /** The returned board: records with a counted challenge, most challenges first. */
  function Leaderboard(cs: seq<Tagged>, b: Board): seq<Entry> {
    KeyOrderExact(cs, b);
    var vals := Values(KeyOrder(cs, b), BoardMap(cs, b));
    SortBy(Filter(vals, HasChallenges), TotalKey, true)
  }

  /** `Object.values` over an insertion order that lists every key holds exactly the map's records. */
  lemma ValuesExact(order: seq<Uid>, m: map<Uid, Entry>, e: Entry)
    requires forall u :: u in order <==> u in m
    ensures e in Values(order, m) <==> e in m.Values
  {
    var vals := Values(order, m);
    if e in vals {
      var i :| 0 <= i < |vals| && vals[i] == e;
      assert order[i] in m && m[order[i]] == e;
    }
    if e in m.Values {
      var u :| u in m && m[u] == e;
      var i :| 0 <= i < |order| && order[i] == u;
      assert vals[i] == e;
    }
  }

  /** Every board row has a counted challenge, and the rows run from most challenges to fewest. */
  lemma LeaderboardOrdered(cs: seq<Tagged>, b: Board)
    ensures forall i :: 0 <= i < |Leaderboard(cs, b)| ==> Leaderboard(cs, b)[i].total > 0
    ensures Ordered(Leaderboard(cs, b), TotalKey, true)
  {
    KeyOrderExact(cs, b);
    var f := Filter(Values(KeyOrder(cs, b), BoardMap(cs, b)), HasChallenges);
    var r := Leaderboard(cs, b);
    forall i | 0 <= i < |r|
      ensures r[i].total > 0
    {
      assert r[i] in multiset(f);
      var j :| 0 <= j < |f| && f[j] == r[i];
    }
  }

  /** Sorting the records with a counted challenge keeps exactly those records. */
  lemma SortedKeepsCounted(vals: seq<Entry>, e: Entry)
    ensures e in SortBy(Filter(vals, HasChallenges), TotalKey, true) <==> e in vals && e.total > 0
  {
    var f := Filter(vals, HasChallenges);
    var r := SortBy(f, TotalKey, true);
    FilterMembership(vals, HasChallenges, e);
    assert e in r <==> e in multiset(r);
    assert e in f <==> e in multiset(f);
  }

  /** The board holds exactly the map's records with a positive total. */
  lemma LeaderboardExact(cs: seq<Tagged>, b: Board, e: Entry)
    ensures e in Leaderboard(cs, b) <==> e in BoardMap(cs, b).Values && e.total > 0
  {
    KeyOrderExact(cs, b);
    var vals := Values(KeyOrder(cs, b), BoardMap(cs, b));
    SortedKeepsCounted(vals, e);
    ValuesExact(KeyOrder(cs, b), BoardMap(cs, b), e);
  }

  /** One step of the board loop. */
  method FileChallenge(m: map<Uid, Entry>, order: seq<Uid>, t: Tagged, b: Board)
    returns (m': map<Uid, Entry>, order': seq<Uid>)
    ensures var p := PersonFor(b, t);
            if !Identified(p) then m' == m && order' == order
            else
              var u := UidOf(p.value);
              var e := if u in m then m[u] else Entry(p.value.id, p.value.name, 0, 0, 0, 0, []);
              && m' == m[u := if Counted(b, t) then Bump(e, b, t) else e]
              && order' == (if u in m then order else order + [u])
  {
    m', order' := m, order;
    var p := PersonFor(b, t);
    if !Identified(p) {
      return;
    }
    var uid := UidOf(p.value);
    if uid !in m' {
      m' := m'[uid := Entry(p.value.id, p.value.name, 0, 0, 0, 0, [])];
      order' := order' + [uid];
    }
    if Counted(b, t) {
      var e := m'[uid];
      var o := OutcomeOf(b, t);
      e := e.(total := e.total + 1);
      if o == Won {
        e := e.(won := e.won + 1);
      } else if o == Lost {
        e := e.(lost := e.lost + 1);
      } else {
        e := e.(unknown := e.unknown + 1);
      }
      e := e.(challenges := e.challenges + [t]);
      m' := m'[uid := e];
    }
  }

  /** `buildBoard(key)`. */
  method BuildBoard(cs: seq<Tagged>, b: Board) returns (board: seq<Entry>)
    ensures board == Leaderboard(cs, b)
  {
    var m: map<Uid, Entry> := map[];
    var order: seq<Uid> := [];
    for i := 0 to |cs|
      invariant m == BoardMap(cs[..i], b)
      invariant order == KeyOrder(cs[..i], b)
    {
      assert cs[..i + 1][..i] == cs[..i];
      m, order := FileChallenge(m, order, cs[i], b);
    }
    assert cs[..|cs|] == cs;
    KeyOrderExact(cs, b);
    var vals := Values(order, m);
    board := SortBy(Filter(vals, HasChallenges), TotalKey, true);
  }

  /** The umpire board files every challenge with an identified umpire, whatever its side. */
  lemma UmpireCountsAll(cs: seq<Tagged>, u: Uid, t: Tagged)
    ensures Belongs(UmpireBoard, u, t) <==>
              Identified(PersonFor(UmpireBoard, t)) && UidOf(PersonFor(UmpireBoard, t).value) == u
  {
  }

  /** A challenge counts on at most one of the batter and pitcher boards. */
  lemma ChallengerBoardsDisjoint(u: Uid, v: Uid, t: Tagged)
    ensures !(Counted(BatterBoard, t) && Counted(PitcherBoard, t))
    ensures Belongs(BatterBoard, u, t) ==> t.c.side == Offense
    ensures Belongs(PitcherBoard, v, t) ==> t.c.side == Defense
  {
  }

  /** A leaderboard percentage: `won / (won + lost)` as a rounded percent, `null` with nothing decided. */
  function WonPercent(e: Entry): (pct: Option<int>)
    ensures pct.None? <==> e.won + e.lost == 0
    ensures pct.Some? ==> 0 <= pct.value <= 100
  {
    if e.won + e.lost > 0 then Some(Percent(e.won, e.won + e.lost)) else None
  }

  /** `Math.round(num / den * 100)` for `num <= den`. */
  function Percent(num: nat, den: nat): (pct: int)
    requires 0 < den && num <= den
    ensures 0 <= pct <= 100
  {
    var x := (num as real / den as real) * 100.0;
    RatioBounded(num, den, 1);
    RoundMonotone(0.0, x);
    RoundMonotone(x, 100.0);
    RoundInteger(0);
    RoundInteger(100);
    Round(x)
  }

  /** More won at the same number decided never lowers the percentage. */
  lemma PercentMonotone(a: nat, b: nat, den: nat)
    requires 0 < den && a <= b <= den
    ensures Percent(a, den) <= Percent(b, den)
  {
    DivMonotone(a as real, b as real, den as real);
    RoundMonotone((a as real / den as real) * 100.0, (b as real / den as real) * 100.0);
  }

  /** The board as shown: at most fifty rows. */
  function Shown(board: seq<Entry>): (r: seq<Entry>)
    ensures |r| == if |board| < 50 then |board| else 50
    ensures r == board[..|r|]
  {
    Take(board, 50)
  }

  // ---------------------------------------------------------------------
  // Summary cards
  // ---------------------------------------------------------------------

  datatype Summary = Summary(total: nat, overturned: nat, upheld: nat, offense: nat, defense: nat,
                             overturnPct: Option<int>, avgDist: real)

  /** The absolute distances from the zone of the challenges that have one. */
  function Distances(cs: seq<Tagged>): seq<real> {
    if cs == [] then []
    else
      var d := cs[|cs| - 1].c.distFromZone;
      Distances(cs[..|cs| - 1]) + (if d.Some? then [if d.value < 0.0 then -d.value else d.value] else [])
  }

  function SumReal(s: seq<real>): real {
    if s == [] then 0.0 else SumReal(s[..|s| - 1]) + s[|s| - 1]
  }

  lemma {:induction false} DistancesNonNegative(cs: seq<Tagged>)
    ensures forall k :: 0 <= k < |Distances(cs)| ==> Distances(cs)[k] >= 0.0
    ensures SumReal(Distances(cs)) >= 0.0
  {
    if cs != [] {
      DistancesNonNegative(cs[..|cs| - 1]);
      SumNonNegative(Distances(cs));
    }
  }

  lemma {:induction false} SumNonNegative(s: seq<real>)
    requires forall k :: 0 <= k < |s| ==> s[k] >= 0.0
    ensures SumReal(s) >= 0.0
  {
    if s != [] {
      SumNonNegative(s[..|s| - 1]);
    }
  }

  predicate IsOverturned(t: Tagged) { t.c.result == Overturned }
  predicate IsUpheld(t: Tagged) { t.c.result == Upheld }
  predicate ByOffense(t: Tagged) { t.c.side == Offense }
  predicate ByDefense(t: Tagged) { t.c.side == Defense }

  /** The overturn card: `total ? round(overturned / (overturned + upheld || 1) * 100) : "—"`. */
  function OverturnPct(overturned: nat, upheld: nat, total: nat): (pct: Option<int>)
    ensures pct.None? <==> total == 0
    ensures pct.Some? ==> 0 <= pct.value <= 100
  {
    if total == 0 then None
    else Some(Percent(overturned, if overturned + upheld == 0 then 1 else overturned + upheld))
  }

  /** The average distance card, 0 when no challenge has a distance. */
  function MeanDistance(cs: seq<Tagged>): (d: real)
    ensures d >= 0.0
  {
    var dists := Distances(cs);
    DistancesNonNegative(cs);
    if |dists| > 0 then SumReal(dists) / |dists| as real else 0.0
  }

  /** The summary cards over the flattened challenges. */
  function SummaryOf(cs: seq<Tagged>): Summary {
    var overturned := |Filter(cs, IsOverturned)|;
    var upheld := |Filter(cs, IsUpheld)|;
    Summary(|cs|, overturned, upheld, |Filter(cs, ByOffense)|, |Filter(cs, ByDefense)|,
            OverturnPct(overturned, upheld, |cs|), MeanDistance(cs))
  }

  /**
   * The summary counts: overturned and upheld never exceed the total, nor do
   * offense and defense, which add up to it when every challenge is tagged.
   */
  lemma SummaryBounds(cs: seq<Tagged>)
    ensures SummaryOf(cs).overturned + SummaryOf(cs).upheld <= SummaryOf(cs).total
    ensures SummaryOf(cs).offense + SummaryOf(cs).defense <= SummaryOf(cs).total
    ensures (forall k :: 0 <= k < |cs| ==> cs[k].c.side != Untagged) ==>
              SummaryOf(cs).offense + SummaryOf(cs).defense == SummaryOf(cs).total
  {
    var s := SummaryOf(cs);
    assert s.total == |cs|;
    assert s.overturned == |Filter(cs, IsOverturned)| && s.upheld == |Filter(cs, IsUpheld)|;
    assert s.offense == |Filter(cs, ByOffense)| && s.defense == |Filter(cs, ByDefense)|;
    FilterDisjoint(cs, IsOverturned, IsUpheld);
    FilterDisjoint(cs, ByOffense, ByDefense);
    if forall k :: 0 <= k < |cs| ==> cs[k].c.side != Untagged {
      assert forall k :: 0 <= k < |cs| ==> ByOffense(cs[k]) || ByDefense(cs[k]);
    }
  }
}

/**
 * The sportsbook odds client (frontend/src/utils/propLinesApi.js): the
 * collapse of bookmaker prop markets into one line per player, event and
 * player-name matching, American-odds formatting, the game-odds table, and
 * the three module caches.  Every HTTP answer is an input (`None` for a
 * failed request), and the clock and the current date are parameters.
 */
module PropLines {
  import opened Wrappers
  import opened Sorting
  import opened Text

  // ---------------------------------------------------------------------
  // The odds feed
  // ---------------------------------------------------------------------

  /** A priced outcome; `name` is absent when the feed leaves it out. */
  datatype Outcome = Outcome(name: Option<string>, description: Option<string>,
                             price: Option<int>, point: Option<real>)

  datatype Market = Market(key: string, outcomes: seq<Outcome>)

  datatype Bookmaker = Bookmaker(title: string, markets: seq<Market>)

  /** An event of the feed; `homeTeam` and `awayTeam` are absent when the feed leaves them out. */
  datatype Event = Event(id: string, homeTeam: Option<string>, awayTeam: Option<string>,
                         bookmakers: seq<Bookmaker>)

  // ---------------------------------------------------------------------
  // Collapsing the prop markets (`fetchEventProps`)
  // ---------------------------------------------------------------------

  /** A player's line: the point, the Over and Under prices, and the bookmaker it came from. */
  datatype Line = Line(point: Option<real>, over: Option<int>, under: Option<int>, bookmaker: string)

  /** The `lines` object: its keys in insertion order, and the lines by name. */
  datatype PropMap = PropMap(keys: seq<string>, lines: map<string, Line>)

  const EMPTY_PROPS := PropMap([], map[])

  /** The keys are listed once each, and are exactly the names with a line. */
  ghost predicate WellFormed(pm: PropMap) {
    && (forall i, j :: 0 <= i < j < |pm.keys| ==> pm.keys[i] != pm.keys[j])
    && (forall n :: n in pm.keys <==> n in pm.lines)
  }

  /** The player an outcome is for: its trimmed name, when that is not empty. */
  function NameOf(o: Outcome): (n: Option<string>)
    ensures n.Some? ==> n.value != [] && o.name.Some? && n.value == Trim(o.name.value)
    ensures n.None? ==> o.name.None? || Trim(o.name.value) == []
  {
    if o.name.Some? && Trim(o.name.value) != [] then Some(Trim(o.name.value)) else None
  }

  /** The two sides of a prop. */
  datatype Dir = Over | Under

  function DirName(d: Dir): string {
    match d
    case Over => "Over"
    case Under => "Under"
  }

  function PriceOf(l: Line, d: Dir): Option<int> {
    match d
    case Over => l.over
    case Under => l.under
  }

  /** An outcome sets the price of side `d`: it is described `"Over"` or `"Under"`. */
  predicate Sets(o: Outcome, d: Dir) {
    o.description == Some(DirName(d))
  }

  /** `lines[name].over = outcome.price` and `lines[name].under = outcome.price`, as they apply. */
  function Apply(l: Line, o: Outcome): (r: Line)
    ensures r.point == l.point && r.bookmaker == l.bookmaker
    ensures forall d :: PriceOf(r, d) == (if Sets(o, d) then o.price else PriceOf(l, d))
  {
    var l1 := if o.description == Some("Over") then l.(over := o.price) else l;
    if o.description == Some("Under") then l1.(under := o.price) else l1
  }

  /** One outcome of the collapse loop: the bookmaker offering it, its player's name, the outcome. */
  datatype Item = Item(title: string, name: Option<string>, outcome: Outcome)

  /** One outcome of the collapse loop, its name already trimmed. */
  function Step(pm: PropMap, it: Item): PropMap {
    match it.name
    case None => pm
    case Some(n) =>
      var pm1 := if n in pm.lines then pm
                 else PropMap(pm.keys + [n], pm.lines[n := Line(it.outcome.point, None, None, it.title)]);
      pm1.(lines := pm1.lines[n := Apply(pm1.lines[n], it.outcome)])
  }

  /** An outcome offered by bookmaker `title`, as the loop meets it. */
  function ItemOf(title: string, o: Outcome): Item {
    Item(title, NameOf(o), o)
  }

  /** Every item's name is its outcome's trimmed name. */
  ghost predicate Named(items: seq<Item>) {
    forall k :: 0 <= k < |items| ==> items[k].name == NameOf(items[k].outcome)
  }

  /** Every outcome of one market with its bookmaker's title, in loop order. */
  function OutcomeItems(title: string, outs: seq<Outcome>): (r: seq<Item>)
    ensures |r| == |outs|
    ensures forall k :: 0 <= k < |r| ==> r[k] == ItemOf(title, outs[k])
  {
    seq(|outs|, k requires 0 <= k < |outs| => ItemOf(title, outs[k]))
  }

  function MarketItems(title: string, mkts: seq<Market>): seq<Item> {
    if mkts == [] then []
    else MarketItems(title, mkts[..|mkts| - 1]) + OutcomeItems(title, mkts[|mkts| - 1].outcomes)
  }

  /** Every outcome of the feed, in loop order. */
  function Items(bms: seq<Bookmaker>): seq<Item> {
    if bms == [] then []
    else Items(bms[..|bms| - 1]) + MarketItems(bms[|bms| - 1].title, bms[|bms| - 1].markets)
  }

  /** Every item of one bookmaker carries its outcome's trimmed name. */
  lemma {:induction false} MarketItemsNamed(title: string, mkts: seq<Market>)
    ensures Named(MarketItems(title, mkts))
  {
    if mkts != [] {
      MarketItemsNamed(title, mkts[..|mkts| - 1]);
    }
  }

  /** Every item of the feed carries its outcome's trimmed name. */
  lemma {:induction false} ItemsNamed(bms: seq<Bookmaker>)
    ensures Named(Items(bms))
  {
    if bms != [] {
      ItemsNamed(bms[..|bms| - 1]);
      MarketItemsNamed(bms[|bms| - 1].title, bms[|bms| - 1].markets);
    }
  }

  /** The `lines` object after the outcomes `items`. */
  function CollapseOf(items: seq<Item>): PropMap {
    if items == [] then EMPTY_PROPS
    else Step(CollapseOf(items[..|items| - 1]), items[|items| - 1])
  }

  /** What one outcome does to the map: it touches the line of its own player only. */
  lemma StepFacts(pm: PropMap, it: Item, n: string)
    ensures n in Step(pm, it).lines <==> n in pm.lines || it.name == Some(n)
    ensures it.name != Some(n) && n in pm.lines ==> Step(pm, it).lines[n] == pm.lines[n]
    ensures it.name == Some(n) ==>
              Step(pm, it).lines[n] == Apply(if n in pm.lines then pm.lines[n] else Line(it.outcome.point, None, None, it.title), it.outcome)
  {
  }

  /** What one outcome does to the key list. */
  lemma StepKeys(pm: PropMap, it: Item)
    ensures Step(pm, it).keys ==
              if it.name.Some? && it.name.value !in pm.lines then pm.keys + [it.name.value] else pm.keys
    ensures Step(pm, it).lines.Keys == pm.lines.Keys + (if it.name.Some? then {it.name.value} else {})
  {
  }

  /** The map after one more outcome. */
  lemma CollapseSnoc(items: seq<Item>, x: Item)
    ensures CollapseOf(items + [x]) == Step(CollapseOf(items), x)
  {
    assert (items + [x])[..|items|] == items;
  }

  /** `items[i]` is the first outcome for player `n`. */
  predicate IsFirst(items: seq<Item>, i: nat, n: string) {
    i < |items| && items[i].name == Some(n) && forall j :: 0 <= j < i ==> items[j].name != Some(n)
  }

  /** `items[i]` is the last outcome for player `n` that sets side `d`. */
  predicate IsLastSetter(items: seq<Item>, i: nat, n: string, d: Dir) {
    && i < |items| && items[i].name == Some(n) && Sets(items[i].outcome, d)
    && forall j :: i < j < |items| ==> !(items[j].name == Some(n) && Sets(items[j].outcome, d))
  }

  /** The keys stay distinct and in step with the lines. */
  lemma {:induction false} CollapseWellFormed(items: seq<Item>)
    ensures WellFormed(CollapseOf(items))
  {
    if items != [] {
      var init := items[..|items| - 1];
      CollapseWellFormed(init);
      StepKeys(CollapseOf(init), items[|items| - 1]);
    }
  }

  /** There is a line for `n` exactly when some outcome is for player `n`. */
  lemma {:induction false} CollapseNames(items: seq<Item>, n: string)
    ensures n in CollapseOf(items).lines <==> exists i :: 0 <= i < |items| && items[i].name == Some(n)
  {
    if items != [] {
      var init := items[..|items| - 1];
      var last := items[|items| - 1];
      CollapseNames(init, n);
      var pm := CollapseOf(init);
      assert CollapseOf(items) == Step(pm, last);
      StepFacts(pm, last, n);
      if n in CollapseOf(items).lines {
        if n in pm.lines {
          var i :| 0 <= i < |init| && init[i].name == Some(n);
          assert items[i] == init[i];
        } else {
          assert items[|items| - 1].name == Some(n);
        }
      } else {
        forall i | 0 <= i < |items|
          ensures items[i].name != Some(n)
        {
          if i < |init| {
            assert items[i] == init[i];
          } else {
            assert items[i] == last;
          }
        }
      }
    }
  }

  /** The point and the bookmaker of a line are those of the player's first outcome. */
  lemma {:induction false} CollapseFirst(items: seq<Item>, n: string, i: nat)
    requires IsFirst(items, i, n)
    ensures n in CollapseOf(items).lines
    ensures CollapseOf(items).lines[n].point == items[i].outcome.point
    ensures CollapseOf(items).lines[n].bookmaker == items[i].title
  {
    var init := items[..|items| - 1];
    var last := items[|items| - 1];
    assert CollapseOf(items) == Step(CollapseOf(init), last);
    StepFacts(CollapseOf(init), last, n);
    if i < |init| {
      assert IsFirst(init, i, n) by {
        forall j | 0 <= j < i
          ensures init[j].name != Some(n)
        {
          assert init[j] == items[j];
        }
      }
      CollapseFirst(init, n, i);
    } else {
      assert n !in CollapseOf(init).lines by {
        CollapseNames(init, n);
        forall j | 0 <= j < |init|
          ensures init[j].name != Some(n)
        {
          assert init[j] == items[j];
        }
      }
    }
  }

  /** A side's price is that of the player's last outcome setting that side. */
  lemma {:induction false} CollapseLastPrice(items: seq<Item>, n: string, d: Dir, i: nat)
    requires IsLastSetter(items, i, n, d)
    ensures n in CollapseOf(items).lines
    ensures PriceOf(CollapseOf(items).lines[n], d) == items[i].outcome.price
  {
    var init := items[..|items| - 1];
    var last := items[|items| - 1];
    assert CollapseOf(items) == Step(CollapseOf(init), last);
    StepFacts(CollapseOf(init), last, n);
    if i < |init| {
      assert IsLastSetter(init, i, n, d) by {
        forall j | i < j < |init|
          ensures !(init[j].name == Some(n) && Sets(init[j].outcome, d))
        {
          assert init[j] == items[j];
        }
      }
      CollapseLastPrice(init, n, d, i);
      assert init[i] == items[i];
    } else {
      assert last == items[i];
    }
  }

  /** A side no outcome of the player sets stays `null`. */
  lemma {:induction false} CollapseUnsetPrice(items: seq<Item>, n: string, d: Dir)
    requires n in CollapseOf(items).lines
    requires forall i :: 0 <= i < |items| ==> !(items[i].name == Some(n) && Sets(items[i].outcome, d))
    ensures PriceOf(CollapseOf(items).lines[n], d).None?
  {
    var init := items[..|items| - 1];
    var last := items[|items| - 1];
    assert CollapseOf(items) == Step(CollapseOf(init), last);
    StepFacts(CollapseOf(init), last, n);
    forall j | 0 <= j < |init|
      ensures !(init[j].name == Some(n) && Sets(init[j].outcome, d))
    {
      assert init[j] == items[j];
    }
    if n in CollapseOf(init).lines {
      CollapseUnsetPrice(init, n, d);
    }
  }

  /** One outcome of the innermost loop. */
  method Absorb(pm: PropMap, title: string, o: Outcome) returns (pm': PropMap)
    ensures pm' == Step(pm, ItemOf(title, o))
  {
    pm' := pm;
    if o.name.None? {
      return;
    }
    var name := Trim(o.name.value);
    if name == [] {
      return;
    }
    if name !in pm'.lines {
      pm' := PropMap(pm'.keys + [name], pm'.lines[name := Line(o.point, None, None, title)]);
    }
    if o.description == Some("Over") {
      pm' := pm'.(lines := pm'.lines[name := pm'.lines[name].(over := o.price)]);
    }
    if o.description == Some("Under") {
      pm' := pm'.(lines := pm'.lines[name := pm'.lines[name].(under := o.price)]);
    }
  }

  /** The items met after one more outcome of a market. */
  lemma OutcomeItemsSnoc(seen: seq<Item>, title: string, outs: seq<Outcome>, k: nat)
    requires k < |outs|
    ensures seen + OutcomeItems(title, outs[..k + 1]) == (seen + OutcomeItems(title, outs[..k])) + [ItemOf(title, outs[k])]
  {
    OutcomeItemsPrefix(title, outs, k);
    ItemsRegroup(seen, OutcomeItems(title, outs[..k]), [ItemOf(title, outs[k])]);
  }

  lemma OutcomeItemsPrefix(title: string, outs: seq<Outcome>, k: nat)
    requires k < |outs|
    ensures OutcomeItems(title, outs[..k + 1]) == OutcomeItems(title, outs[..k]) + [ItemOf(title, outs[k])]
  {
    var a := OutcomeItems(title, outs[..k + 1]);
    var b := OutcomeItems(title, outs[..k]) + [ItemOf(title, outs[k])];
    forall i | 0 <= i < |a|
      ensures a[i] == b[i]
    {
      assert outs[..k + 1][i] == outs[i];
    }
  }

  lemma ItemsRegroup(a: seq<Item>, b: seq<Item>, c: seq<Item>)
    ensures a + (b + c) == (a + b) + c
  {
  }

  /** The items met after one more market of a bookmaker. */
  lemma MarketItemsSnoc(seen: seq<Item>, title: string, mkts: seq<Market>, j: nat)
    requires j < |mkts|
    ensures seen + MarketItems(title, mkts[..j + 1]) == (seen + MarketItems(title, mkts[..j])) + OutcomeItems(title, mkts[j].outcomes)
  {
    assert mkts[..j + 1][..j] == mkts[..j];
  }

  /** The innermost loop, over one market's outcomes. */
  method AbsorbOutcomes(pm: PropMap, title: string, outs: seq<Outcome>, ghost seen: seq<Item>)
    returns (pm': PropMap)
    requires pm == CollapseOf(seen)
    ensures pm' == CollapseOf(seen + OutcomeItems(title, outs))
  {
    pm' := pm;
    assert seen + OutcomeItems(title, outs[..0]) == seen;
    for k := 0 to |outs|
      invariant pm' == CollapseOf(seen + OutcomeItems(title, outs[..k]))
    {
      ghost var prev := seen + OutcomeItems(title, outs[..k]);
      OutcomeItemsSnoc(seen, title, outs, k);
      CollapseSnoc(prev, ItemOf(title, outs[k]));
      pm' := Absorb(pm', title, outs[k]);
    }
    assert outs[..|outs|] == outs;
  }

  /** The middle loop, over one bookmaker's markets. */
  method AbsorbMarkets(pm: PropMap, title: string, mkts: seq<Market>, ghost seen: seq<Item>)
    returns (pm': PropMap)
    requires pm == CollapseOf(seen)
    ensures pm' == CollapseOf(seen + MarketItems(title, mkts))
  {
    pm' := pm;
    assert mkts[..0] == [];
    assert seen + MarketItems(title, mkts[..0]) == seen;
    for j := 0 to |mkts|
      invariant pm' == CollapseOf(seen + MarketItems(title, mkts[..j]))
    {
      MarketItemsSnoc(seen, title, mkts, j);
      pm' := AbsorbOutcomes(pm', title, mkts[j].outcomes, seen + MarketItems(title, mkts[..j]));
    }
    assert mkts[..|mkts|] == mkts;
  }

  /** The collapse loop of `fetchEventProps`: bookmakers, then markets, then outcomes. */
  method Collapse(bms: seq<Bookmaker>) returns (pm: PropMap)
    ensures pm == CollapseOf(Items(bms))
  {
    pm := EMPTY_PROPS;
    for i := 0 to |bms|
      invariant pm == CollapseOf(Items(bms[..i]))
    {
      pm := AbsorbMarkets(pm, bms[i].title, bms[i].markets, Items(bms[..i]));
      assert bms[..i + 1][..i] == bms[..i];
    }
    assert bms[..|bms|] == bms;
  }

  // ---------------------------------------------------------------------
  // Matching (`matchEvent`, `findPlayerLine`)
  // ---------------------------------------------------------------------

  /**
   * The event test of `matchEvent`: the home team contains the name, or the
   * name contains the home team's last word.  A missing home team is
   * converted to the text `"undefined"` by `includes`.
   */
  predicate EventMatches(needle: string, ev: Event) {
    || (ev.homeTeam.Some? && Contains(ToLower(ev.homeTeam.value), needle))
    || Contains(needle, if ev.homeTeam.Some? then LastSegment(ToLower(ev.homeTeam.value), ' ') else "undefined")
  }

  /** `matchEvent(events, homeTeamName)`; an empty name stands for a missing one. */
  function MatchEvent(events: seq<Event>, homeTeamName: string): (r: Option<Event>)
    ensures events == [] || homeTeamName == "" ==> r.None?
    ensures events != [] && homeTeamName != "" && r.None? ==>
              forall j :: 0 <= j < |events| ==> !EventMatches(ToLower(homeTeamName), events[j])
    ensures r.Some? ==> exists i :: 0 <= i < |events| && events[i] == r.value
                                    && EventMatches(ToLower(homeTeamName), events[i])
                                    && forall j :: 0 <= j < i ==> !EventMatches(ToLower(homeTeamName), events[j])
  {
    if |events| == 0 || homeTeamName == "" then None
    else
      var needle := ToLower(homeTeamName);
      var i := FindIndex(events, ev => EventMatches(needle, ev));
      if i.Some? then Some(events[i.value]) else None
  }

  /** An event whose home team is the name itself is always found, unless an earlier one matches. */
  lemma MatchEventOwnName(events: seq<Event>, homeTeamName: string, i: nat)
    requires i < |events| && events[i].homeTeam == Some(homeTeamName) && homeTeamName != ""
    ensures MatchEvent(events, homeTeamName).Some?
  {
    ContainsSelf(ToLower(homeTeamName));
    assert EventMatches(ToLower(homeTeamName), events[i]);
  }

  /** `key` is the first key of `keys` that contains `last`, compared in lower case. */
  predicate FirstKeyWith(keys: seq<string>, last: string, i: nat) {
    i < |keys| && Contains(ToLower(keys[i]), last) && forall j :: 0 <= j < i ==> !Contains(ToLower(keys[j]), last)
  }

  /** The lower-cased last word of a player name. */
  function LastWord(playerName: string): string {
    ToLower(LastSegment(playerName, ' '))
  }

  /**
   * `findPlayerLine(propMap, playerName)`: the line of the first key
   * containing the name's last word.  `None` for the map is a missing map;
   * an empty name is a missing name, and an empty key is a miss.
   */
  function FindPlayerLine(propMap: Option<PropMap>, playerName: string): (r: Option<Line>)
    ensures propMap.None? || playerName == "" ==> r.None?
    ensures r.Some? ==> exists i: nat :: FirstKeyWith(propMap.value.keys, LastWord(playerName), i)
                                    && propMap.value.keys[i] in propMap.value.lines
                                    && r.value == propMap.value.lines[propMap.value.keys[i]]
  {
    if propMap.None? || playerName == "" then None
    else
      var pm := propMap.value;
      var last := LastWord(playerName);
      var i := FindIndex(pm.keys, k => Contains(ToLower(k), last));
      if i.Some? && pm.keys[i.value] != "" && pm.keys[i.value] in pm.lines then Some(pm.lines[pm.keys[i.value]])
      else None
  }

  /**
   * On a collapsed map the lookup misses only when no key contains the last
   * word: every key there is a non-empty name with a line.
   */
  lemma FindPlayerLineHits(bms: seq<Bookmaker>, playerName: string, i: nat)
    requires playerName != ""
    requires i < |CollapseOf(Items(bms)).keys|
    requires Contains(ToLower(CollapseOf(Items(bms)).keys[i]), LastWord(playerName))
    ensures FindPlayerLine(Some(CollapseOf(Items(bms))), playerName).Some?
  {
    var pm := CollapseOf(Items(bms));
    CollapseWellFormed(Items(bms));
    forall n | n in pm.lines
      ensures n != []
    {
      CollapseNames(Items(bms), n);
      ItemsNamed(bms);
      var k :| 0 <= k < |Items(bms)| && Items(bms)[k].name == Some(n);
      assert NameOf(Items(bms)[k].outcome) == Some(n);
    }
    LookupHits(pm, playerName, i);
  }

  /** The lookup hits on any map whose keys are non-empty names with a line. */
  lemma LookupHits(pm: PropMap, playerName: string, i: nat)
    requires WellFormed(pm)
    requires forall n :: n in pm.lines ==> n != []
    requires playerName != ""
    requires i < |pm.keys|
    requires Contains(ToLower(pm.keys[i]), LastWord(playerName))
    ensures FindPlayerLine(Some(pm), playerName).Some?
  {
    var last := LastWord(playerName);
    var k := FindIndex(pm.keys, k => Contains(ToLower(k), last));
    assert k.Some?;
    assert pm.keys[k.value] in pm.lines;
  }

  // ---------------------------------------------------------------------
  // Formatting (`fmtOdds`)
  // ---------------------------------------------------------------------

  /** `fmtOdds(price)`: a dash when absent, a `+` before positive prices, the number itself otherwise. */
  function FmtOdds(price: Option<int>): (s: string)
    ensures price.None? <==> s == "—"
    ensures price.Some? ==> |s| > 0 && (s[0] == '+' <==> price.value > 0)
    ensures price.Some? ==> ParseInt(s) == price
  {
    if price.None? then "—"
    else if price.value > 0 then
      ParsePlusNat(price.value);
      "+" + IntToString(price.value)
    else
      ParseIntToString(price.value);
      var s := IntToString(price.value);
      assert s[0] == '-' || IsDigit(s[0]);
      s
  }

  // ---------------------------------------------------------------------
  // Game odds (`fetchGameOdds`)
  // ---------------------------------------------------------------------

  /** A game's moneylines and total, from one bookmaker. */
  datatype GameLine = GameLine(homeML: Option<int>, awayML: Option<int>, totalOver: Option<int>,
                               totalUnder: Option<int>, totalLine: Option<real>, bookmaker: string)

  /** The first market with key `key`, as `markets.find`. */
  function FindMarket(mkts: seq<Market>, key: string): (r: Option<Market>)
    ensures r.Some? ==> exists i :: 0 <= i < |mkts| && mkts[i] == r.value && r.value.key == key &&
                          forall j :: 0 <= j < i ==> mkts[j].key != key
    ensures r.None? <==> forall m :: m in mkts ==> m.key != key
  {
    var i := FindIndex(mkts, (m: Market) => m.key == key);
    if i.Some? then Some(mkts[i.value]) else None
  }

  /**
   * `outcomes.find(o => o.name === name)?.price`: the price of the
   * market's first outcome named `name`, absent without a market, without
   * such an outcome, or when that outcome has no price.
   */
  function FindPrice(m: Option<Market>, name: Option<string>): (r: Option<int>)
    ensures m.None? ==> r.None?
    ensures m.Some? && (forall o :: o in m.value.outcomes ==> o.name != name) ==> r.None?
    ensures m.Some? && (exists o :: o in m.value.outcomes && o.name == name) ==>
              exists i :: 0 <= i < |m.value.outcomes| && m.value.outcomes[i].name == name &&
                r == m.value.outcomes[i].price && forall j :: 0 <= j < i ==> m.value.outcomes[j].name != name
  {
    if m.None? then None
    else
      var i := FindIndex(m.value.outcomes, (o: Outcome) => o.name == name);
      if i.Some? then m.value.outcomes[i.value].price else None
  }

  /** An outcome preceded by none of its name gives its price, whatever follows it. */
  lemma FindPriceFirst(key: string, before: seq<Outcome>, o: Outcome, after: seq<Outcome>)
    requires forall x :: x in before ==> x.name != o.name
    ensures FindPrice(Some(Market(key, before + [o] + after)), o.name) == o.price
  {
    var outs := before + [o] + after;
    assert outs[|before|] == o;
    assert forall j :: 0 <= j < |before| ==> outs[j] == before[j];
  }

  /** The market found is the first with the key; a later market of the same key is never read. */
  lemma FindMarketFirst(before: seq<Market>, m: Market, after: seq<Market>)
    requires forall x :: x in before ==> x.key != m.key
    ensures FindMarket(before + [m] + after, m.key) == Some(m)
  {
    var mkts := before + [m] + after;
    assert mkts[|before|] == m;
    assert forall j :: 0 <= j < |before| ==> mkts[j] == before[j];
  }

  /** The record of one event, from its first bookmaker. */
  function GameLineOf(ev: Event, bm: Bookmaker): GameLine {
    var h2h := FindMarket(bm.markets, "h2h");
    var totals := FindMarket(bm.markets, "totals");
    GameLine(FindPrice(h2h, ev.homeTeam), FindPrice(h2h, ev.awayTeam),
             FindPrice(totals, Some("Over")), FindPrice(totals, Some("Under")),
             if totals.Some? && |totals.value.outcomes| > 0 then totals.value.outcomes[0].point else None,
             bm.title)
  }

  /** The key `result[ev.home_team]` writes: a missing team becomes `"undefined"`. */
  function KeyOf(ev: Event): string {
    ev.homeTeam.GetOr("undefined")
  }

  predicate HasBook(ev: Event) {
    ev.bookmakers != []
  }

  /** The `result` object after the events `events`. */
  function GameOddsOf(events: seq<Event>): map<string, GameLine> {
    if events == [] then map[]
    else
      var m := GameOddsOf(events[..|events| - 1]);
      var ev := events[|events| - 1];
      if HasBook(ev) then m[KeyOf(ev) := GameLineOf(ev, ev.bookmakers[0])] else m
  }

  /** There is a record for a home team exactly when an event for it has a bookmaker. */
  lemma {:induction false} GameOddsKeys(events: seq<Event>, k: string)
    ensures k in GameOddsOf(events) <==> exists i :: 0 <= i < |events| && HasBook(events[i]) && KeyOf(events[i]) == k
  {
    if events != [] {
      var init := events[..|events| - 1];
      GameOddsKeys(init, k);
      if k in GameOddsOf(init) {
        var i :| 0 <= i < |init| && HasBook(init[i]) && KeyOf(init[i]) == k;
        assert events[i] == init[i];
      }
      if exists i :: 0 <= i < |events| && HasBook(events[i]) && KeyOf(events[i]) == k {
        var i :| 0 <= i < |events| && HasBook(events[i]) && KeyOf(events[i]) == k;
        if i < |init| {
          assert init[i] == events[i];
        }
      }
    }
  }

  /** A home team's record comes from the last event for it with a bookmaker, and its first bookmaker. */
  lemma {:induction false} GameOddsLast(events: seq<Event>, i: nat)
    requires i < |events| && HasBook(events[i])
    requires forall j :: i < j < |events| && HasBook(events[j]) ==> KeyOf(events[j]) != KeyOf(events[i])
    ensures KeyOf(events[i]) in GameOddsOf(events)
    ensures GameOddsOf(events)[KeyOf(events[i])] == GameLineOf(events[i], events[i].bookmakers[0])
  {
    var init := events[..|events| - 1];
    if i < |init| {
      forall j | i < j < |init| && HasBook(init[j])
        ensures KeyOf(init[j]) != KeyOf(init[i])
      {
        assert init[j] == events[j];
      }
      assert init[i] == events[i];
      GameOddsLast(init, i);
    }
  }

  /** The transform loop of `fetchGameOdds`. */
  method GameOdds(events: seq<Event>) returns (result: map<string, GameLine>)
    ensures result == GameOddsOf(events)
  {
    result := map[];
    for i := 0 to |events|
      invariant result == GameOddsOf(events[..i])
    {
      var ev := events[i];
      assert events[..i + 1][..i] == events[..i];
      if ev.bookmakers == [] {
        continue;
      }
      var bm := ev.bookmakers[0];
      result := result[KeyOf(ev) := GameLineOf(ev, bm)];
    }
    assert events[..|events|] == events;
  }

  // ---------------------------------------------------------------------
  // The module caches
  // ---------------------------------------------------------------------

  /** `ODDS_TTL`: game odds are refreshed after ten minutes. */
  const ODDS_TTL: int := 10 * 60 * 1000

  /** The caches of the odds client; `hasKey` is whether an API key is configured. */
  class OddsClient {
    const hasKey: bool
    var events: Option<(string, seq<Event>)>
    var props: map<string, PropMap>
    var gameOdds: map<string, (map<string, GameLine>, int)>

    constructor(hasKey: bool)
      ensures this.hasKey == hasKey
      ensures events.None? && props == map[] && gameOdds == map[]
    {
      this.hasKey := hasKey;
      events := None;
      props := map[];
      gameOdds := map[];
    }

    /**
     * `fetchMLBEvents`: the day's cached events, else the answer, which is
     * cached when it arrives; no key or a failed request gives no events.
     */
    method FetchMLBEvents(today: string, answer: Option<seq<Event>>) returns (evs: seq<Event>)
      modifies this
      ensures old(events).Some? && old(events).value.0 == today ==>
                evs == old(events).value.1 && events == old(events)
      ensures !(old(events).Some? && old(events).value.0 == today) ==>
                if hasKey && answer.Some? then evs == answer.value && events == Some((today, answer.value))
                else evs == [] && events == old(events)
      ensures props == old(props) && gameOdds == old(gameOdds)
    {
      if events.Some? && events.value.0 == today {
        return events.value.1;
      }
      if !hasKey || answer.None? {
        return [];
      }
      events := Some((today, answer.value));
      evs := answer.value;
    }

    /**
     * `fetchEventProps(eventId, market)`: a cached map is returned as is;
     * otherwise the answer's bookmakers are collapsed and cached; no key or
     * a failed request gives an empty, uncached map.
     */
    method FetchEventProps(eventId: string, market: string, answer: Option<seq<Bookmaker>>)
      returns (pm: PropMap)
      modifies this
      ensures var key := eventId + "::" + market;
              && (key in old(props) ==> pm == old(props)[key] && props == old(props))
              && (key !in old(props) && hasKey && answer.Some? ==>
                    pm == CollapseOf(Items(answer.value)) && props == old(props)[key := pm])
              && (key !in old(props) && !(hasKey && answer.Some?) ==> pm == EMPTY_PROPS && props == old(props))
      ensures events == old(events) && gameOdds == old(gameOdds)
    {
      var key := eventId + "::" + market;
      if key in props {
        return props[key];
      }
      if !hasKey || answer.None? {
        return EMPTY_PROPS;
      }
      pm := Collapse(answer.value);
      props := props[key := pm];
    }

    /**
     * `fetchGameOdds`: the day's table while it is younger than `ODDS_TTL`,
     * otherwise the answer's table, cached with the time; no key or a
     * failed request gives an empty, uncached table.
     */
    method FetchGameOdds(today: string, now: int, answer: Option<seq<Event>>)
      returns (table: map<string, GameLine>)
      modifies this
      ensures var ck := "gameodds:" + today;
              && (ck in old(gameOdds) && now - old(gameOdds)[ck].1 < ODDS_TTL ==>
                    table == old(gameOdds)[ck].0 && gameOdds == old(gameOdds))
              && (!(ck in old(gameOdds) && now - old(gameOdds)[ck].1 < ODDS_TTL) && hasKey && answer.Some? ==>
                    table == GameOddsOf(answer.value) && gameOdds == old(gameOdds)[ck := (table, now)])
              && (!(ck in old(gameOdds) && now - old(gameOdds)[ck].1 < ODDS_TTL) && !(hasKey && answer.Some?) ==>
                    table == map[] && gameOdds == old(gameOdds))
      ensures events == old(events) && props == old(props)
    {
      var ck := "gameodds:" + today;
      if ck in gameOdds && now - gameOdds[ck].1 < ODDS_TTL {
        return gameOdds[ck].0;
      }
      if !hasKey || answer.None? {
        return map[];
      }
      table := GameOdds(answer.value);
      gameOdds := gameOdds[ck := (table, now)];
    }
  }
}

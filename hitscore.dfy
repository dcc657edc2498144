/**
 * The Hit Score engine of frontend/src/utils/mlbApi.js (`computeHitScore`)
 * and the small helpers beside it (`isPlayerHot`, `avgColor`, `scoreColor`,
 * `tierClass`).
 *
 * Every provider statistic that reaches the engine as a string (an
 * average such as `"0.312"`, a park factor, a Statcast percentage) is an
 * `Option<real>`: `None` when it is missing or does not parse, which is
 * what `parseFloat(x) || 0` and `x && parseFloat(x) >= t` both treat as
 * "no value".
 */
module HitScore {
  import opened Wrappers
  import opened Numeric
  import Text

  // ---------------------------------------------------------------------
  // Normalisations
  // ---------------------------------------------------------------------

  /** `parseFloat(x) || d`. */
  function OrDefault(x: Option<real>, d: real): (r: real)
    ensures x.Some? && x.value != 0.0 ==> r == x.value
    ensures x.None? || x.value == 0.0 ==> r == d
  {
    if x.Some? && x.value != 0.0 then x.value else d
  }

  /**
   * `norm(avg)`: a batting average mapped linearly from [0, .400] onto
   * [0, 1] and clamped; a missing average counts as 0.  (The source's
   * `parseFloat(avg)||0 - lo` parses as `parseFloat(avg) || (0 - lo)`,
   * which is the same thing because `lo` is always 0.)
   */
  function Norm(avg: Option<real>): (r: real)
    ensures 0.0 <= r <= 1.0
    ensures avg.None? ==> r == 0.0
    ensures avg.Some? && 0.0 <= avg.value <= 0.4 ==> r == avg.value / 0.4
  {
    Clamp01(OrDefault(avg, 0.0) / 0.4)
  }

  lemma NormMonotone(a: real, b: real)
    requires a <= b
    ensures Norm(Some(a)) <= Norm(Some(b))
  {
    assert OrDefault(Some(a), 0.0) == a && OrDefault(Some(b), 0.0) == b;
    Clamp01Monotone(a / 0.4, b / 0.4);
  }

  /** A missing average scores like a non-positive one. */
  lemma NormMissingIsFloor(a: real)
    requires a >= 0.0
    ensures Norm(None) <= Norm(Some(a))
  {
  }

  /** `Math.min(Math.max((pf - 80) / 50, 0), 1)`: 80 maps to 0 and 130 to 1. */
  function ParkScore(pf: real): (r: real)
    ensures 0.0 <= r <= 1.0
  {
    Clamp01((pf - 80.0) / 50.0)
  }

  // ---------------------------------------------------------------------
  // Inputs and outputs
  // ---------------------------------------------------------------------

  /** The Baseball Savant fields the engine reads (`est_ba`, `brl_percent`, `hard_hit_percent`). */
  datatype StatcastRow = StatcastRow(estBa: Option<real>, barrelPct: Option<real>, hardHitPct: Option<real>)

  /** A game's weather strings, e.g. wind `"16 mph, Out To CF"` and temperature `"91"`. */
  datatype Weather = Weather(wind: Option<string>, temp: Option<string>)

  /**
   * The argument object of `computeHitScore`.  `isHome` is accepted by the
   * source and never read, so it is not modelled.
   */
  datatype HitInputs = HitInputs(
    l7: Option<real>, l15: Option<real>, bvp: Option<real>, platoon: Option<real>,
    parkFactor: Option<real>, seasonAvg: Option<real>, dayNight: Option<real>,
    pitcherSeasonAvgAgainst: Option<real>, hasBvP: bool, lineupPos: int,
    pitcherDaysRest: int, weather: Option<Weather>, venue: Option<string>,
    statcast: Option<StatcastRow>)

  datatype Tone = Green | Yellow | Blue | Gray | Red

  /** One factor pill, with the number its label shows. */
  datatype Factor =
    | L7Form(avg: real, tone: Tone)
    | BvPEdge(avg: real)
    | PlatoonEdge(avg: real)
    | ExpectedAvg(xbaThousandths: int, tone: Tone)
    | Barrels(pct: real)
    | HardContact(pct: real)
    | HitterPark(factor: real)
    | NoBvPData
    | NoStatcastData
    | PitcherRest(days: int)
    | WindOut(mph: int)
    | WindIn(mph: int)
    | Heat(degrees: int)
    | Chill(degrees: int)
  {
    /** The pill's colour (`type` in the source). */
    function ToneOf(): Tone {
      match this
      case L7Form(_, t) => t
      case BvPEdge(_) => Green
      case PlatoonEdge(_) => Blue
      case ExpectedAvg(_, t) => t
      case Barrels(_) => Green
      case HardContact(_) => Blue
      case HitterPark(_) => Green
      case NoBvPData => Gray
      case NoStatcastData => Gray
      case PitcherRest(_) => Blue
      case WindOut(_) => Green
      case WindIn(_) => Red
      case Heat(_) => Yellow
      case Chill(_) => Gray
    }

    predicate IsWeather() { WindOut? || WindIn? || Heat? || Chill? }
  }

  datatype Tier = Elite | Strong | Solid | Risky

  /** The Statcast numbers echoed back when the player has Statcast data. */
  datatype StatcastSummary = StatcastSummary(xba: real, barrelPct: real, hardHitPct: real)

  datatype HitScoreResult = HitScoreResult(
    score: int, withBvP: int, withoutBvP: int, hasBvP: bool, hasStatcast: bool,
    factors: seq<Factor>, tier: Tier, statcast: Option<StatcastSummary>)

  // ---------------------------------------------------------------------
  // The four weight tables
  // ---------------------------------------------------------------------

  /** Batting second or higher earns 2 points, third to fifth 1, lower 0. */
  function LineupBonus(lineupPos: int): (b: int)
    ensures 0 <= b <= 2
  {
    if lineupPos <= 2 then 2 else if lineupPos <= 5 then 1 else 0
  }

  /** A pitcher on six or more days of rest gives 2 points, on five 1. */
  function RestBonus(days: int): (b: int)
    ensures 0 <= b <= 2
  {
    if days >= 6 then 2 else if days >= 5 then 1 else 0
  }

  function Xba(inp: HitInputs): real {
    if inp.statcast.Some? then OrDefault(inp.statcast.value.estBa, 0.0) else 0.0
  }

  function BarrelPct(inp: HitInputs): real {
    if inp.statcast.Some? then OrDefault(inp.statcast.value.barrelPct, 0.0) else 0.0
  }

  function HardHitPct(inp: HitInputs): real {
    if inp.statcast.Some? then OrDefault(inp.statcast.value.hardHitPct, 0.0) else 0.0
  }

  /** The player has Statcast data exactly when the expected average is positive. */
  predicate HasStatcast(inp: HitInputs) { Xba(inp) > 0.0 }

  /** xBA .200–.350, barrel rate 3–15 % and hard-hit rate 25–50 %, weighted 2:1:1; 0 without Statcast. */
  function StatcastScore(inp: HitInputs): (r: real)
    ensures 0.0 <= r <= 1.0
    ensures !HasStatcast(inp) ==> r == 0.0
  {
    if HasStatcast(inp) then
      Clamp01((Xba(inp) - 0.2) / 0.15) * 0.5
      + Clamp01((BarrelPct(inp) - 3.0) / 12.0) * 0.25
      + Clamp01((HardHitPct(inp) - 25.0) / 25.0) * 0.25
    else 0.0
  }

  /** `parseFloat(parkFactor) || 100`. */
  function Pf(inp: HitInputs): real { OrDefault(inp.parkFactor, 100.0) }

  /** The weighted sum, before rounding, of the table the BvP variant uses. */
  function WithBvPSum(inp: HitInputs): real {
    var lineup := LineupBonus(inp.lineupPos) as real;
    if HasStatcast(inp) then
      Norm(inp.l7) * 22.0 + Norm(inp.l15) * 8.0 + Norm(inp.bvp) * 16.0
      + Norm(inp.platoon) * 14.0 + StatcastScore(inp) * 12.0 + ParkScore(Pf(inp)) * 8.0
      + Norm(inp.seasonAvg) * 6.0 + Norm(inp.dayNight) * 3.0
      + lineup + RestBonus(inp.pitcherDaysRest) as real
    else
      Norm(inp.l7) * 28.0 + Norm(inp.l15) * 12.0 + Norm(inp.bvp) * 20.0
      + Norm(inp.platoon) * 18.0 + ParkScore(Pf(inp)) * 10.0
      + Norm(inp.seasonAvg) * 7.0 + Norm(inp.dayNight) * 3.0 + lineup
  }

  /** The weighted sum, before rounding, of the table used without BvP. */
  function WithoutBvPSum(inp: HitInputs): real {
    var lineup := LineupBonus(inp.lineupPos) as real;
    var pitcher := 1.0 - Norm(inp.pitcherSeasonAvgAgainst);
    if HasStatcast(inp) then
      Norm(inp.l7) * 22.0 + Norm(inp.l15) * 8.0 + Norm(inp.platoon) * 24.0
      + StatcastScore(inp) * 14.0 + pitcher * 10.0 + ParkScore(Pf(inp)) * 8.0
      + Norm(inp.seasonAvg) * 6.0 + Norm(inp.dayNight) * 3.0
      + lineup + RestBonus(inp.pitcherDaysRest) as real
    else
      Norm(inp.l7) * 28.0 + Norm(inp.l15) * 12.0 + Norm(inp.platoon) * 30.0
      + pitcher * 8.0 + ParkScore(Pf(inp)) * 10.0
      + Norm(inp.seasonAvg) * 7.0 + Norm(inp.dayNight) * 3.0 + lineup
  }

  /**
   * The largest value each table can reach: with Statcast the BvP table
   * tops out at 93 and the other at 99, without Statcast both reach 100.
   */
  lemma SumsBounded(inp: HitInputs)
    ensures 0.0 <= WithBvPSum(inp) <= (if HasStatcast(inp) then 93.0 else 100.0)
    ensures 0.0 <= WithoutBvPSum(inp) <= (if HasStatcast(inp) then 99.0 else 100.0)
  {
  }

  // ---------------------------------------------------------------------
  // Factor pills
  // ---------------------------------------------------------------------

  function When(c: bool, f: Factor): seq<Factor> { if c then [f] else [] }

  /** The venues with a roof, where weather yields no pill. */
  const DOMES: seq<string> := [
    "Tropicana Field", "loanDepot Park", "Minute Maid Park", "Globe Life Field",
    "Rogers Centre", "Chase Field", "T-Mobile Park", "American Family Field"]

  /** Wind of 15 mph or more blowing out (green) or, failing that, in (red). */
  function WindPills(wind: string): (r: seq<Factor>)
    ensures forall i :: 0 <= i < |r| ==> r[i].IsWeather()
  {
    var mph := Text.ParseInt(wind);
    if mph.Some? && mph.value >= 15 && Text.ContainsIgnoreCase(wind, "out") then [WindOut(mph.value)]
    else if mph.Some? && mph.value >= 15 && Text.ContainsIgnoreCase(wind, "in") then [WindIn(mph.value)]
    else []
  }

  /** 90 °F or more is hot; a non-zero reading of 50 °F or less is cold. */
  function TempPills(temp: Option<string>): (r: seq<Factor>)
    ensures forall i :: 0 <= i < |r| ==> r[i].IsWeather()
  {
    var t := if temp.Some? then Text.ParseInt(temp.value) else None;
    if t.Some? && t.value >= 90 then [Heat(t.value)]
    else if t.Some? && t.value != 0 && t.value <= 50 then [Chill(t.value)]
    else []
  }

  /** Weather pills, only for an outdoor venue with a weather report. */
  function WeatherPills(weather: Option<Weather>, venue: Option<string>): (r: seq<Factor>)
    ensures forall i :: 0 <= i < |r| ==> r[i].IsWeather()
  {
    if weather.Some? && venue.Some? && venue.value != "" && venue.value !in DOMES then
      WindPills(weather.value.wind.GetOr("")) + TempPills(weather.value.temp)
    else []
  }

  /** Recent form: the L7 pill (green from .300, else yellow from .260), then BvP and platoon edges. */
  function FormPills(inp: HitInputs): (r: seq<Factor>)
    ensures forall k :: 0 <= k < |r| ==> r[k].L7Form? || r[k].BvPEdge? || r[k].PlatoonEdge?
    ensures forall k :: 0 < k < |r| ==> !r[k].L7Form?
  {
    (if inp.l7.Some? && inp.l7.value >= 0.3 then [L7Form(inp.l7.value, Green)]
     else if inp.l7.Some? && inp.l7.value >= 0.26 then [L7Form(inp.l7.value, Yellow)]
     else [])
    + When(inp.bvp.Some? && inp.hasBvP && inp.bvp.value >= 0.3, BvPEdge(inp.bvp.GetOr(0.0)))
    + When(inp.platoon.Some? && inp.platoon.value >= 0.29, PlatoonEdge(inp.platoon.GetOr(0.0)))
  }

  /** Contact quality, only with Statcast: the xBA pill (green from .280, else yellow from .250), barrels, hard hits. */
  function ContactPills(inp: HitInputs): (r: seq<Factor>)
    ensures forall k :: 0 <= k < |r| ==> r[k].ExpectedAvg? || r[k].Barrels? || r[k].HardContact?
    ensures forall k :: 0 < k < |r| ==> !r[k].ExpectedAvg?
    ensures !HasStatcast(inp) ==> r == []
  {
    var xba := Xba(inp);
    var sc := HasStatcast(inp);
    (if sc && xba >= 0.28 then [ExpectedAvg(Round(xba * 1000.0), Green)]
     else if sc && xba >= 0.25 then [ExpectedAvg(Round(xba * 1000.0), Yellow)]
     else [])
    + When(sc && BarrelPct(inp) >= 10.0, Barrels(BarrelPct(inp)))
    + When(sc && HardHitPct(inp) >= 45.0, HardContact(HardHitPct(inp)))
  }

  /** Context: a hitter's park (factor 108 or more), the missing-data pills, a rested pitcher. */
  function ContextPills(inp: HitInputs): (r: seq<Factor>)
    ensures forall k :: 0 <= k < |r| ==>
              r[k].HitterPark? || r[k].NoBvPData? || r[k].NoStatcastData? || r[k].PitcherRest?
    ensures NoBvPData in r <==> !inp.hasBvP
    ensures NoStatcastData in r <==> !HasStatcast(inp)
  {
    var park := When(Pf(inp) >= 108.0, HitterPark(Pf(inp)));
    var noBvP := When(!inp.hasBvP, NoBvPData);
    var noSc := When(!HasStatcast(inp), NoStatcastData);
    var rest := When(inp.pitcherDaysRest >= 5, PitcherRest(inp.pitcherDaysRest));
    InConcat4(park, noBvP, noSc, rest, NoBvPData);
    InConcat4(park, noBvP, noSc, rest, NoStatcastData);
    park + noBvP + noSc + rest
  }

  /** Membership in a concatenation of four lists. */
  lemma InConcat4(a: seq<Factor>, b: seq<Factor>, c: seq<Factor>, d: seq<Factor>, x: Factor)
    ensures x in a + b + c + d <==> x in a || x in b || x in c || x in d
  {
  }

  /** The ordered list of factor pills. */
  function FactorsOf(inp: HitInputs): seq<Factor> {
    FormPills(inp) + ContactPills(inp) + ContextPills(inp) + WeatherPills(inp.weather, inp.venue)
  }

  // ---------------------------------------------------------------------
  // computeHitScore
  // ---------------------------------------------------------------------

  /** Elite from 75, Strong from 60, Solid from 45, Risky below. */
  function TierOf(score: int): (t: Tier)
    ensures t == Elite <==> score >= 75
    ensures t == Strong <==> 60 <= score < 75
    ensures t == Solid <==> 45 <= score < 60
    ensures t == Risky <==> score < 45
  {
    if score >= 75 then Elite else if score >= 60 then Strong else if score >= 45 then Solid else Risky
  }

  function MinInt(a: int, b: int): int { if a <= b then a else b }

  function ComputeHitScore(inp: HitInputs): (r: HitScoreResult)
    ensures 0 <= r.withBvP <= 100 && 0 <= r.withoutBvP <= 100 && 0 <= r.score <= 100
    ensures r.score == (if inp.hasBvP then r.withBvP else r.withoutBvP)
    ensures r.tier == TierOf(r.score)
    ensures r.hasStatcast <==> r.statcast.Some?
    ensures r.hasStatcast <==> HasStatcast(inp)
    ensures r.hasBvP == inp.hasBvP
    ensures r.factors == FactorsOf(inp)
  {
    var withBvP := Round(WithBvPSum(inp));
    var withoutBvP := Round(WithoutBvPSum(inp));
    SumsBounded(inp);
    RoundMonotone(0.0, WithBvPSum(inp));
    RoundMonotone(WithBvPSum(inp), 100.0);
    RoundMonotone(0.0, WithoutBvPSum(inp));
    RoundMonotone(WithoutBvPSum(inp), 100.0);
    RoundInteger(0);
    RoundInteger(100);
    var score := if inp.hasBvP then withBvP else withoutBvP;
    HitScoreResult(
      MinInt(score, 100), MinInt(withBvP, 100), MinInt(withoutBvP, 100),
      inp.hasBvP, HasStatcast(inp), FactorsOf(inp), TierOf(score),
      if HasStatcast(inp) then Some(StatcastSummary(Xba(inp), BarrelPct(inp), HardHitPct(inp))) else None)
  }

  /** The final `Math.min(·, 100)` never changes a value: every table already stays within 100. */
  lemma ClampNeverFires(inp: HitInputs)
    ensures ComputeHitScore(inp).withBvP == Round(WithBvPSum(inp))
    ensures ComputeHitScore(inp).withoutBvP == Round(WithoutBvPSum(inp))
    ensures ComputeHitScore(inp).score ==
            Round(if inp.hasBvP then WithBvPSum(inp) else WithoutBvPSum(inp))
  {
    SumsBounded(inp);
    RoundMonotone(WithBvPSum(inp), 100.0);
    RoundMonotone(WithoutBvPSum(inp), 100.0);
    RoundInteger(100);
  }

  /**
   * A better last-7-games average never lowers the score, with or without
   * BvP and Statcast.
   */
  lemma ScoreMonotoneInL7(inp: HitInputs, a: real, b: real)
    requires a <= b
    ensures ComputeHitScore(inp.(l7 := Some(a))).score <= ComputeHitScore(inp.(l7 := Some(b))).score
  {
    var lo := inp.(l7 := Some(a));
    var hi := inp.(l7 := Some(b));
    NormMonotone(a, b);
    assert WithBvPSum(lo) <= WithBvPSum(hi);
    assert WithoutBvPSum(lo) <= WithoutBvPSum(hi);
    RoundMonotone(WithBvPSum(lo), WithBvPSum(hi));
    RoundMonotone(WithoutBvPSum(lo), WithoutBvPSum(hi));
    ClampNeverFires(lo);
    ClampNeverFires(hi);
  }

  /**
   * A weaker opposing pitcher (a higher average against) never raises the
   * score: the pitcher term is `1 - norm(avg)`.
   */
  lemma ScoreAntitoneInPitcherAvg(inp: HitInputs, a: real, b: real)
    requires a <= b
    ensures ComputeHitScore(inp.(pitcherSeasonAvgAgainst := Some(b))).score
            <= ComputeHitScore(inp.(pitcherSeasonAvgAgainst := Some(a))).score
  {
    var lo := inp.(pitcherSeasonAvgAgainst := Some(a));
    var hi := inp.(pitcherSeasonAvgAgainst := Some(b));
    NormMonotone(a, b);
    assert WithBvPSum(hi) == WithBvPSum(lo);
    assert WithoutBvPSum(hi) <= WithoutBvPSum(lo);
    RoundMonotone(WithoutBvPSum(hi), WithoutBvPSum(lo));
    ClampNeverFires(lo);
    ClampNeverFires(hi);
  }

  /** A missing pitcher average gives the pitcher term its full weight, as an average of 0 would. */
  lemma MissingPitcherAvgIsFullTerm(inp: HitInputs)
    ensures WithoutBvPSum(inp.(pitcherSeasonAvgAgainst := None))
            == WithoutBvPSum(inp.(pitcherSeasonAvgAgainst := Some(0.0)))
    ensures ComputeHitScore(inp.(pitcherSeasonAvgAgainst := None)).score
            == ComputeHitScore(inp.(pitcherSeasonAvgAgainst := Some(0.0))).score
  {
    var a, b := inp.(pitcherSeasonAvgAgainst := None), inp.(pitcherSeasonAvgAgainst := Some(0.0));
    assert Norm(a.pitcherSeasonAvgAgainst) == Norm(b.pitcherSeasonAvgAgainst);
    assert HasStatcast(a) == HasStatcast(b) && StatcastScore(a) == StatcastScore(b) && Pf(a) == Pf(b);
    assert WithoutBvPSum(a) == WithoutBvPSum(b);
    assert WithBvPSum(a) == WithBvPSum(b);
    ClampNeverFires(a);
    ClampNeverFires(b);
  }

  /** Without Statcast the pitcher's rest does not affect any score (the bonus lives only in the Statcast tables). */
  lemma RestIgnoredWithoutStatcast(inp: HitInputs, days: int)
    requires !HasStatcast(inp)
    ensures ComputeHitScore(inp.(pitcherDaysRest := days)).withBvP == ComputeHitScore(inp).withBvP
    ensures ComputeHitScore(inp.(pitcherDaysRest := days)).withoutBvP == ComputeHitScore(inp).withoutBvP
  {
    var other := inp.(pitcherDaysRest := days);
    assert Xba(other) == Xba(inp);
    assert WithBvPSum(other) == WithBvPSum(inp);
    assert WithoutBvPSum(other) == WithoutBvPSum(inp);
    ClampNeverFires(inp);
    ClampNeverFires(other);
  }

  /**
   * A player with no data at all, batting ninth against a pitcher on two days'
   * rest, still scores 12: the pitcher term contributes 8 and the default
   * park factor of 100 contributes 4.
   */
  lemma EmptyInputsScoreTwelve()
    ensures ComputeHitScore(HitInputs(None, None, None, None, None, None, None, None,
                                      false, 9, 2, None, None, None)).score == 12
    ensures ComputeHitScore(HitInputs(None, None, None, None, None, None, None, None,
                                      false, 9, 2, None, None, None)).tier == Risky
  {
    var inp := HitInputs(None, None, None, None, None, None, None, None, false, 9, 2, None, None, None);
    assert !HasStatcast(inp);
    assert ParkScore(Pf(inp)) == 0.4;
    assert WithoutBvPSum(inp) == 12.0;
    RoundInteger(12);
    ClampNeverFires(inp);
  }

  // ---------------------------------------------------------------------
  // Properties of the factor list
  // ---------------------------------------------------------------------

  /** "No BvP data" is listed exactly when the player has no usable BvP history. */
  lemma NoBvPPill(inp: HitInputs)
    ensures NoBvPData in FactorsOf(inp) <==> !inp.hasBvP
  {
    var a, b, c, d := FormPills(inp), ContactPills(inp), ContextPills(inp), WeatherPills(inp.weather, inp.venue);
    assert FactorsOf(inp) == a + b + c + d;
    assert NoBvPData !in a && NoBvPData !in b && NoBvPData !in d;
  }

  /** "No Statcast" is listed exactly when the expected average is not positive. */
  lemma NoStatcastPill(inp: HitInputs)
    ensures NoStatcastData in FactorsOf(inp) <==> Xba(inp) <= 0.0
  {
    var a, b, c, d := FormPills(inp), ContactPills(inp), ContextPills(inp), WeatherPills(inp.weather, inp.venue);
    assert FactorsOf(inp) == a + b + c + d;
    assert NoStatcastData !in a && NoStatcastData !in b && NoStatcastData !in d;
  }

  /** No element of `a + b` satisfies `p` if none of `a` or `b` does. */
  lemma NoneInConcat(a: seq<Factor>, b: seq<Factor>, p: Factor -> bool)
    requires forall k :: 0 <= k < |a| ==> !p(a[k])
    requires forall k :: 0 <= k < |b| ==> !p(b[k])
    ensures forall k :: 0 <= k < |a + b| ==> !p((a + b)[k])
  {
    forall k | 0 <= k < |a + b|
      ensures !p((a + b)[k])
    {
      if k < |a| { assert (a + b)[k] == a[k]; } else { assert (a + b)[k] == b[k - |a|]; }
    }
  }

  predicate IsL7(f: Factor) { f.L7Form? }
  predicate IsXba(f: Factor) { f.ExpectedAvg? }

  /** An L7 pill can only be the first pill of the list, so there is at most one. */
  lemma AtMostOneL7Pill(inp: HitInputs)
    ensures forall k :: 0 < k < |FactorsOf(inp)| ==> !FactorsOf(inp)[k].L7Form?
  {
    NoL7BeyondForm(inp);
    L7OnlyHead(FormPills(inp), ContactPills(inp), ContextPills(inp), WeatherPills(inp.weather, inp.venue));
  }

  /** The contact, context and weather pills hold no L7 pill. */
  lemma NoL7BeyondForm(inp: HitInputs)
    ensures forall k :: 0 <= k < |ContactPills(inp)| ==> !ContactPills(inp)[k].L7Form?
    ensures forall k :: 0 <= k < |ContextPills(inp)| ==> !ContextPills(inp)[k].L7Form?
    ensures forall k :: 0 <= k < |WeatherPills(inp.weather, inp.venue)| ==> !WeatherPills(inp.weather, inp.venue)[k].L7Form?
  {
  }

  /** Only the head of `a` can be an L7 pill of `a + b + c + d` when `b`, `c` and `d` hold none. */
  lemma L7OnlyHead(a: seq<Factor>, b: seq<Factor>, c: seq<Factor>, d: seq<Factor>)
    requires forall k :: 0 < k < |a| ==> !a[k].L7Form?
    requires forall k :: 0 <= k < |b| ==> !b[k].L7Form?
    requires forall k :: 0 <= k < |c| ==> !c[k].L7Form?
    requires forall k :: 0 <= k < |d| ==> !d[k].L7Form?
    ensures forall k :: 0 < k < |a + b + c + d| ==> !(a + b + c + d)[k].L7Form?
  {
    forall k | 0 < k < |a + b + c + d|
      ensures !(a + b + c + d)[k].L7Form?
    {
      if k < |a| {
        assert (a + b + c + d)[k] == a[k];
      } else if k < |a + b| {
        assert (a + b + c + d)[k] == b[k - |a|];
      } else if k < |a + b + c| {
        assert (a + b + c + d)[k] == c[k - |a + b|];
      } else {
        assert (a + b + c + d)[k] == d[k - |a + b + c|];
      }
    }
  }

  /** In `a + b + c`, only the first element of `b` can satisfy `p` when nothing else in the parts does. */
  lemma OnlyFirstOfMiddle(a: seq<Factor>, b: seq<Factor>, c: seq<Factor>, p: Factor -> bool)
    requires forall k :: 0 <= k < |a| ==> !p(a[k])
    requires forall k :: 0 < k < |b| ==> !p(b[k])
    requires forall k :: 0 <= k < |c| ==> !p(c[k])
    ensures forall k :: 0 <= k < |a + b + c| && p((a + b + c)[k]) ==> k == |a|
  {
    forall k | 0 <= k < |a + b + c| && p((a + b + c)[k])
      ensures k == |a|
    {
      if |a| <= k < |a| + |b| { assert (a + b + c)[k] == b[k - |a|]; }
      else if |a| + |b| <= k { assert (a + b + c)[k] == c[k - |a| - |b|]; }
    }
  }

  /** An xBA pill can only sit right after the recent-form pills, so there is at most one. */
  lemma AtMostOneXbaPill(inp: HitInputs)
    ensures forall k :: 0 <= k < |FactorsOf(inp)| && FactorsOf(inp)[k].ExpectedAvg? ==> k == |FormPills(inp)|
  {
    NoXbaBeyondContact(inp);
    XbaOnlySecond(FormPills(inp), ContactPills(inp), ContextPills(inp), WeatherPills(inp.weather, inp.venue));
  }

  /** The form, context and weather pills hold no xBA pill. */
  lemma NoXbaBeyondContact(inp: HitInputs)
    ensures forall k :: 0 <= k < |FormPills(inp)| ==> !IsXba(FormPills(inp)[k])
    ensures forall k :: 0 <= k < |ContextPills(inp)| ==> !IsXba(ContextPills(inp)[k])
    ensures forall k :: 0 <= k < |WeatherPills(inp.weather, inp.venue)| ==> !IsXba(WeatherPills(inp.weather, inp.venue)[k])
  {
  }

  /** Only the head of `b` can be an xBA pill of `a + b + c + d` when `b`'s tail, `a`, `c` and `d` hold none. */
  lemma XbaOnlySecond(a: seq<Factor>, b: seq<Factor>, c: seq<Factor>, d: seq<Factor>)
    requires forall k :: 0 <= k < |a| ==> !IsXba(a[k])
    requires forall k :: 0 < k < |b| ==> !IsXba(b[k])
    requires forall k :: 0 <= k < |c| ==> !IsXba(c[k])
    requires forall k :: 0 <= k < |d| ==> !IsXba(d[k])
    ensures forall k :: 0 <= k < |a + b + c + d| && (a + b + c + d)[k].ExpectedAvg? ==> k == |a|
  {
    NoneInConcat(c, d, IsXba);
    OnlyFirstOfMiddle(a, b, c + d, IsXba);
    assert a + b + c + d == a + b + (c + d);
  }

  /** A domed venue gets no wind or temperature pill. */
  lemma NoWeatherPillInDome(inp: HitInputs)
    requires inp.venue.Some? && inp.venue.value in DOMES
    ensures forall i :: 0 <= i < |FactorsOf(inp)| ==> !FactorsOf(inp)[i].IsWeather()
  {
    var a, b, c := FormPills(inp), ContactPills(inp), ContextPills(inp);
    assert WeatherPills(inp.weather, inp.venue) == [];
    var f := a + b + c;
    assert FactorsOf(inp) == f;
    forall k | 0 <= k < |f|
      ensures !f[k].IsWeather()
    {
      if k < |a| { assert f[k] == a[k]; }
      else if k < |a| + |b| { assert f[k] == b[k - |a|]; }
      else { assert f[k] == c[k - |a| - |b|]; }
    }
  }

  // ---------------------------------------------------------------------
  // Helpers beside the engine
  // ---------------------------------------------------------------------

  /**
   * `isPlayerHot(streak, l7Avg, score)`: `score` is `parseInt(score)`
   * (`None` for NaN) and `l7Avg` is `parseFloat(l7Avg || 0)`.
   */
  function IsPlayerHot(streak: int, l7Avg: Option<real>, score: Option<int>): (hot: bool)
    ensures score.None? || score.value < 60 ==> !hot
    ensures score.Some? && score.value >= 60 ==>
              (hot <==> streak >= 5 || (l7Avg.Some? && l7Avg.value >= 0.35 && score.value >= 65))
  {
    var s := if score.Some? then score.value else 0;
    if s < 60 then false
    else streak >= 5 || (l7Avg.Some? && l7Avg.value >= 0.35 && s >= 65)
  }

  datatype AvgBand = Hot | Warm | Neutral | Cold

  /** `avgColor(val)`: .300 hot, .265 warm, .230 neutral, else (and for NaN) cold. */
  function AvgColor(val: Option<real>): (b: AvgBand)
    ensures b == Hot <==> val.Some? && val.value >= 0.3
    ensures b == Warm <==> val.Some? && 0.265 <= val.value < 0.3
    ensures b == Neutral <==> val.Some? && 0.23 <= val.value < 0.265
    ensures b == Cold <==> val.None? || val.value < 0.23
  {
    if val.None? then Cold
    else if val.value >= 0.3 then Hot
    else if val.value >= 0.265 then Warm
    else if val.value >= 0.23 then Neutral
    else Cold
  }

  /** `scoreColor(score)`: the CSS colour of a score, by the same thresholds as the tiers. */
  function ScoreColor(score: int): (c: string)
    ensures c == "var(--yellow)" <==> TierOf(score) == Elite
    ensures c == "var(--green-light)" <==> TierOf(score) == Strong
    ensures c == "var(--blue-data)" <==> TierOf(score) == Solid
    ensures c == "var(--text-muted)" <==> TierOf(score) == Risky
  {
    if score >= 75 then "var(--yellow)"
    else if score >= 60 then "var(--green-light)"
    else if score >= 45 then "var(--blue-data)"
    else "var(--text-muted)"
  }

  /** The tier's key as the engine returns it. */
  function TierName(t: Tier): string {
    match t
    case Elite => "elite"
    case Strong => "strong"
    case Solid => "solid"
    case Risky => "risky"
  }

  /** `tierClass(tier)`: the badge class of a tier key; anything else is `"badge-gray"`. */
  function TierClass(tier: string): (c: string)
    ensures tier !in ["elite", "strong", "solid", "risky"] ==> c == "badge-gray"
    ensures forall t: Tier :: tier == TierName(t) ==> c == "badge-" + tier
  {
    if tier == "elite" then "badge-elite"
    else if tier == "strong" then "badge-strong"
    else if tier == "solid" then "badge-solid"
    else if tier == "risky" then "badge-risky"
    else "badge-gray"
  }
}

/**
 * The pick record (frontend/src/components/tools/PickTracker.jsx): the
 * stored list of tracked picks, adding and deduplicating picks, updating
 * and removing them, the record statistics and current streak, the
 * box-score parse and the automatic resolution of past pending picks.
 * Browser storage is the field `picks` of `PickStore`; dates are day
 * indices (ISO date strings compare in the same order); the clock, the
 * random part of new ids and every network answer are parameters.
 */
module PickTracker {
  import opened Wrappers
  import opened Sorting
  import opened Numeric
  import Text

  // ---------------------------------------------------------------------
  // Records
  // ---------------------------------------------------------------------

  /** `"pending"`, `"hit"`, `"miss"`, or `null` (`Unset`). */
  datatype Outcome = Pending | Hit | Miss | Unset

  /** `Date.now()` for quick-added picks, `` `${Date.now()}-${Math.random()}` `` for picks added in the tracker. */
  datatype PickId = Stamp(ms: int) | Tagged(tag: string)

  datatype Pick = Pick(
    id: PickId, playerName: string, playerId: Option<int>, team: string, opponent: string,
    date: int, prop: string, hitScore: Option<int>, gamePk: Option<int>,
    result: Outcome, autoResolved: bool)

  /** One batter's line in a box score. */
  datatype BoxLine = BoxLine(hits: nat, totalBases: nat, homeRuns: nat)

  /** `x || null` on an optional number: 0 is falsy. */
  function Truthy(x: Option<int>): (r: Option<int>)
    ensures r.Some? <==> x.Some? && x.value != 0
    ensures r.Some? ==> r == x
  {
    if x.Some? && x.value != 0 then x else None
  }

  const PROP_TYPES: seq<string> := ["1+ Hits (BTS)", "2+ Hits", "1+ Home Runs", "1+ Total Bases", "2+ Total Bases", "Custom"]

  // ---------------------------------------------------------------------
  // evaluatePick
  // ---------------------------------------------------------------------

  /**
   * `evaluatePick` as written: the home-run rule is keyed on `"Home Run"`,
   * which is not one of the prop types offered, so a `"1+ Home Runs"` pick
   * falls through to the hits rule.
   */
  function EvaluatePickAsWritten(prop: string, stats: Option<BoxLine>): (r: Option<bool>)
    ensures r.None? <==> stats.None?
    ensures stats.Some? && prop !in {"1+ Hits", "2+ Hits", "1+ Total Bases", "2+ Total Bases", "Home Run"} ==>
              r == Some(stats.value.hits >= 1)
  {
    if stats.None? then None
    else
      var s := stats.value;
      Some(if prop == "1+ Hits" then s.hits >= 1
           else if prop == "2+ Hits" then s.hits >= 2
           else if prop == "1+ Total Bases" then s.totalBases >= 1
           else if prop == "2+ Total Bases" then s.totalBases >= 2
           else if prop == "Home Run" then s.homeRuns >= 1
           else s.hits >= 1)
  }

  /** A home-run pick whose batter singled and did not homer is scored a win. */
  lemma HomeRunPropMisjudged()
    ensures "1+ Home Runs" in PROP_TYPES
    ensures EvaluatePickAsWritten("1+ Home Runs", Some(BoxLine(1, 1, 0))) == Some(true)
  {
  }

  /** `evaluatePick` with the offered `"1+ Home Runs"` prop judged on home runs. */
  function EvaluatePick(prop: string, stats: Option<BoxLine>): (r: Option<bool>)
    ensures r.None? <==> stats.None?
    ensures stats.Some? && prop in {"Home Run", "1+ Home Runs"} ==> r == Some(stats.value.homeRuns >= 1)
    ensures stats.Some? && prop != "1+ Home Runs" ==> r == EvaluatePickAsWritten(prop, stats)
  {
    if stats.Some? && prop == "1+ Home Runs" then Some(stats.value.homeRuns >= 1)
    else EvaluatePickAsWritten(prop, stats)
  }

  /** A line that is at least as good in every column never turns a win into a loss. */
  function Dominates(a: BoxLine, b: BoxLine): bool {
    a.hits >= b.hits && a.totalBases >= b.totalBases && a.homeRuns >= b.homeRuns
  }

  lemma EvaluatePickMonotone(prop: string, better: BoxLine, worse: BoxLine)
    requires Dominates(better, worse)
    ensures EvaluatePick(prop, Some(worse)) == Some(true) ==> EvaluatePick(prop, Some(better)) == Some(true)
  {
  }

  /** Each offered prop is judged on its own column; the streak and custom props on one hit. */
  lemma EvaluateOfferedProps(s: BoxLine)
    ensures EvaluatePick("1+ Hits (BTS)", Some(s)) == Some(s.hits >= 1)
    ensures EvaluatePick("2+ Hits", Some(s)) == Some(s.hits >= 2)
    ensures EvaluatePick("1+ Home Runs", Some(s)) == Some(s.homeRuns >= 1)
    ensures EvaluatePick("1+ Total Bases", Some(s)) == Some(s.totalBases >= 1)
    ensures EvaluatePick("2+ Total Bases", Some(s)) == Some(s.totalBases >= 2)
    ensures EvaluatePick("Custom", Some(s)) == Some(s.hits >= 1)
  {
  }

  // ---------------------------------------------------------------------
  // Adding, updating and removing picks
  // ---------------------------------------------------------------------

  /** The `prefill` object; `None` and `""` are its missing fields. */
  datatype Prefill = Prefill(playerName: string, playerId: Option<int>, team: string, opponent: string,
                             date: Option<int>, prop: string, hitScore: Option<int>, gamePk: Option<int>)

  const DEFAULT_PROP: string := "1+ Hits (BTS)"

  /** The pick `openAddPick` builds at time `now` on day `today`; its result is `null`. */
  function QuickPick(pf: Prefill, now: int, today: int): (p: Pick)
    ensures p.result == Unset && p.id == Stamp(now)
    ensures p.date == (if pf.date.Some? then pf.date.value else today)
    ensures p.prop == (if pf.prop == "" then DEFAULT_PROP else pf.prop)
    ensures p.playerName == pf.playerName && p.team == pf.team && p.opponent == pf.opponent
    ensures p.playerId.Some? <==> pf.playerId.Some? && pf.playerId.value != 0
    ensures p.playerId.Some? ==> p.playerId == pf.playerId
    ensures p.hitScore.Some? <==> pf.hitScore.Some? && pf.hitScore.value != 0
    ensures p.hitScore.Some? ==> p.hitScore == pf.hitScore
    ensures p.gamePk.Some? <==> pf.gamePk.Some? && pf.gamePk.value != 0
    ensures p.gamePk.Some? ==> p.gamePk == pf.gamePk
    ensures !p.autoResolved
  {
    Pick(Stamp(now), pf.playerName, Truthy(pf.playerId), pf.team, pf.opponent,
         pf.date.GetOr(today), if pf.prop == "" then DEFAULT_PROP else pf.prop,
         Truthy(pf.hitScore), Truthy(pf.gamePk), Unset, false)
  }

  /** Two picks track the same player, date and prop (two picks without a player id match on date and prop). */
  predicate SameSlot(a: Pick, b: Pick) {
    a.playerId == b.playerId && a.date == b.date && a.prop == b.prop
  }

  /** `picks - {id}` as `picks.filter(p => p.id !== id)`. */
  function RemovePick(picks: seq<Pick>, id: PickId): seq<Pick> {
    Filter(picks, (p: Pick) => p.id != id)
  }

  /** `picks.map(p => p.id === id ? { ...p, result } : p)`. */
  function UpdateResult(picks: seq<Pick>, id: PickId, result: Outcome): (r: seq<Pick>)
    ensures |r| == |picks|
    decreases |picks|
  {
    if picks == [] then []
    else [if picks[0].id == id then picks[0].(result := result) else picks[0]] + UpdateResult(picks[1..], id, result)
  }

  /** The tracker's own add: one new pending pick in front, with the given fresh id. */
  function AddPick(picks: seq<Pick>, pick: Pick, newId: PickId): (r: seq<Pick>)
    ensures |r| == |picks| + 1 && r[1..] == picks
    ensures r[0].result == Pending && !r[0].autoResolved && r[0].id == newId
    ensures r[0].playerName == pick.playerName && r[0].playerId == pick.playerId && r[0].team == pick.team &&
            r[0].opponent == pick.opponent && r[0].date == pick.date && r[0].prop == pick.prop &&
            r[0].hitScore == pick.hitScore
    ensures r[0].gamePk.Some? <==> pick.gamePk.Some? && pick.gamePk.value != 0
    ensures r[0].gamePk.Some? ==> r[0].gamePk == pick.gamePk
  {
    [pick.(id := newId, result := Pending, autoResolved := false, gamePk := Truthy(pick.gamePk))] + picks
  }

  /**
   * `updateResult` changes only the result, and only of the picks with
   * that id; the others keep their place and content.
   */
  lemma {:induction false} UpdateResultOnly(picks: seq<Pick>, id: PickId, result: Outcome)
    ensures forall i :: 0 <= i < |picks| ==>
      && UpdateResult(picks, id, result)[i].(result := picks[i].result) == picks[i]
      && (picks[i].id == id ==> UpdateResult(picks, id, result)[i].result == result)
      && (picks[i].id != id ==> UpdateResult(picks, id, result)[i] == picks[i])
    decreases |picks|
  {
    if picks != [] {
      UpdateResultOnly(picks[1..], id, result);
      var r := UpdateResult(picks, id, result);
      var rest := UpdateResult(picks[1..], id, result);
      assert r == [r[0]] + rest;
      forall i | 1 <= i < |picks|
        ensures r[i] == rest[i - 1] && picks[i] == picks[1..][i - 1]
      {
      }
    }
  }

  /** A pick is kept by `removePick` exactly when its id differs. */
  lemma RemovePickExact(picks: seq<Pick>, id: PickId, p: Pick)
    ensures p in RemovePick(picks, id) <==> p in picks && p.id != id
  {
    FilterMembership(picks, (q: Pick) => q.id != id, p);
  }

  /** Removing an id nobody has changes nothing. */
  lemma {:induction false} RemoveAbsent(picks: seq<Pick>, id: PickId)
    requires forall i :: 0 <= i < |picks| ==> picks[i].id != id
    ensures RemovePick(picks, id) == picks
    decreases |picks|
  {
    if picks != [] {
      RemoveAbsent(picks[1..], id);
      assert picks == [picks[0]] + picks[1..];
    }
  }

  /** Updating and then removing the same id is the same as removing it. */
  lemma {:induction false} RemoveAfterUpdate(picks: seq<Pick>, id: PickId, result: Outcome)
    ensures RemovePick(UpdateResult(picks, id, result), id) == RemovePick(picks, id)
    decreases |picks|
  {
    if picks != [] {
      RemoveAfterUpdate(picks[1..], id, result);
      var u := UpdateResult(picks, id, result);
      assert u[1..] == UpdateResult(picks[1..], id, result);
    }
  }

  /** Removing a freshly added pick restores the list. */
  lemma RemoveAfterAdd(picks: seq<Pick>, pick: Pick, newId: PickId)
    requires forall i :: 0 <= i < |picks| ==> picks[i].id != newId
    ensures RemovePick(AddPick(picks, pick, newId), newId) == picks
  {
    var a := AddPick(picks, pick, newId);
    assert a[1..] == picks;
    RemoveAbsent(picks, newId);
  }

  /** The stored list (`localStorage[STORAGE_KEY]`). */
  class PickStore {
    var picks: seq<Pick>

    constructor(stored: seq<Pick>)
      ensures picks == stored
    {
      picks := stored;
    }

    /**
     * `openAddPick`: looks for a pick in the same slot; if there is one the
     * list is left alone, otherwise the new pick is put in front.
     */
    method OpenAddPick(pf: Prefill, now: int, today: int) returns (added: bool)
      modifies this
      ensures added <==> !(exists i :: 0 <= i < |old(picks)| && SameSlot(old(picks)[i], QuickPick(pf, now, today)))
      ensures added ==> picks == [QuickPick(pf, now, today)] + old(picks)
      ensures !added ==> picks == old(picks)
    {
      var newPick := QuickPick(pf, now, today);
      var k := 0;
      while k < |picks|
        invariant 0 <= k <= |picks|
        invariant forall i :: 0 <= i < k ==> !SameSlot(picks[i], newPick)
        decreases |picks| - k
      {
        if SameSlot(picks[k], newPick) {
          return false;
        }
        k := k + 1;
      }
      picks := [newPick] + picks;
      added := true;
    }

    method UpdateResultOf(id: PickId, result: Outcome)
      modifies this
      ensures picks == UpdateResult(old(picks), id, result)
    {
      picks := UpdateResult(picks, id, result);
    }

    method RemovePickOf(id: PickId)
      modifies this
      ensures picks == RemovePick(old(picks), id)
    {
      picks := RemovePick(picks, id);
    }

    method AddPickOf(pick: Pick, newId: PickId)
      modifies this
      ensures picks == AddPick(old(picks), pick, newId)
    {
      picks := AddPick(picks, pick, newId);
    }
  }

  // ---------------------------------------------------------------------
  // Record statistics
  // ---------------------------------------------------------------------

  predicate IsPending(p: Pick) { p.result == Pending }
  predicate IsDecided(p: Pick) { p.result != Pending }
  predicate IsHit(p: Pick) { p.result == Hit }
  predicate IsMiss(p: Pick) { p.result == Miss }
  predicate IsUnset(p: Pick) { p.result == Unset }

  /** `decided`: every pick that is not pending, including those with a `null` result. */
  function Decided(picks: seq<Pick>): seq<Pick> { Filter(picks, IsDecided) }

  function Wins(picks: seq<Pick>): nat { |Filter(picks, IsHit)| }
  function Losses(picks: seq<Pick>): nat { |Filter(picks, IsMiss)| }
  function PendingCount(picks: seq<Pick>): nat { |Filter(picks, IsPending)| }

  /** Wins, losses and unset results make up the decided picks, which with the pending ones make up the list. */
  lemma {:induction false} RecordPartition(picks: seq<Pick>)
    ensures Wins(picks) + Losses(picks) + |Filter(picks, IsUnset)| == |Decided(picks)|
    ensures |Decided(picks)| + PendingCount(picks) == |picks|
    decreases |picks|
  {
    if picks != [] {
      RecordPartition(picks[1..]);
      FilterCount(picks, IsHit);
      FilterCount(picks, IsMiss);
      FilterCount(picks, IsUnset);
      FilterCount(picks, IsDecided);
      FilterCount(picks, IsPending);
    }
  }

  /** `winRate`: `null` when nothing is decided, else the rounded percentage of decided picks that hit. */
  function WinRate(picks: seq<Pick>): (r: Option<int>)
    ensures r.None? <==> |Decided(picks)| == 0
    ensures r.Some? ==> 0 <= r.value <= 100
  {
    var d := |Decided(picks)|;
    if d == 0 then None
    else
      RecordPartition(picks);
      RoundPercent(Wins(picks), d);
      Some(Round(Wins(picks) as real / d as real * 100.0))
  }

  lemma RoundPercent(w: nat, d: nat)
    requires 0 < d && w <= d
    ensures 0 <= Round(w as real / d as real * 100.0) <= 100
  {
    var x := w as real / d as real;
    assert 0.0 <= x <= 1.0;
    RoundMonotone(0.0, x * 100.0);
    RoundMonotone(x * 100.0, 100.0);
    RoundInteger(0);
    RoundInteger(100);
  }

  /** The length of the run of `o` at the front of `s`. */
  function RunOf(s: seq<Pick>, o: Outcome): (n: nat)
    ensures n <= |s|
  {
    if s == [] || s[0].result != o then 0 else 1 + RunOf(s[1..], o)
  }

  /** The current streak over picks ordered newest first: the run of the newest pick's result. */
  function StreakOf(s: seq<Pick>): nat {
    if s == [] then 0 else RunOf(s, s[0].result)
  }

  /**
   * The streak is a leading run: its picks all share the newest result,
   * and it ends at the list's end or at a pick with a different result.
   */
  lemma {:induction false} RunOfMeaning(s: seq<Pick>, o: Outcome)
    ensures forall j :: 0 <= j < RunOf(s, o) ==> s[j].result == o
    ensures RunOf(s, o) == |s| || s[RunOf(s, o)].result != o
    decreases |s|
  {
    if s != [] && s[0].result == o {
      RunOfMeaning(s[1..], o);
      assert forall j :: 1 <= j < |s| ==> s[j] == s[1..][j - 1];
    }
  }

  lemma {:induction false} RunOfFromPrefix(s: seq<Pick>, o: Outcome, k: nat)
    requires k <= |s|
    requires forall j :: 0 <= j < k ==> s[j].result == o
    requires k == |s| || s[k].result != o
    ensures RunOf(s, o) == k
    decreases k
  {
    if k > 0 {
      assert forall j :: 0 <= j < k - 1 ==> s[1..][j] == s[j + 1];
      RunOfFromPrefix(s[1..], o, k - 1);
    }
  }

  /** The streak loop over `byDate`, with the streak's result. */
  method CurrentStreak(byDate: seq<Pick>) returns (streak: nat, streakType: Option<Outcome>)
    ensures streak == StreakOf(byDate)
    ensures streakType.None? <==> byDate == []
    ensures byDate != [] ==> streakType == Some(byDate[0].result)
  {
    streak, streakType := 0, None;
    var k := 0;
    while k < |byDate|
      invariant 0 <= k <= |byDate|
      invariant streak == k
      invariant k == 0 <==> streakType.None?
      invariant k > 0 ==> streakType == Some(byDate[0].result)
      invariant forall j :: 0 <= j < k ==> byDate[j].result == byDate[0].result
      decreases |byDate| - k
    {
      var p := byDate[k];
      if streak == 0 {
        streakType := Some(p.result);
        streak := 1;
      } else if Some(p.result) == streakType {
        streak := streak + 1;
      } else {
        break;
      }
      k := k + 1;
    }
    if byDate != [] {
      RunOfFromPrefix(byDate, byDate[0].result, k);
    }
  }

  function DateKey(p: Pick): real { p.date as real }

  /** `byDate`: the decided picks, newest first. */
  function ByDate(picks: seq<Pick>): seq<Pick> {
    SortBy(Decided(picks), DateKey, true)
  }

  /** The result filter (`None` is `"all"`), the name search, and the date order. */
  predicate Listed(filterResult: Option<Outcome>, search: string, p: Pick) {
    (filterResult.None? || p.result == filterResult.value)
    && (search == "" || Text.ContainsIgnoreCase(p.playerName, search))
  }

  function Filtered(picks: seq<Pick>, filterResult: Option<Outcome>, search: string, desc: bool): seq<Pick> {
    SortBy(Filter(picks, p => Listed(filterResult, search, p)), DateKey, desc)
  }

  lemma FilteredExact(picks: seq<Pick>, filterResult: Option<Outcome>, search: string, desc: bool, p: Pick)
    ensures p in Filtered(picks, filterResult, search, desc) <==>
              p in picks && (filterResult.None? || p.result == filterResult.value)
              && (search == "" || Text.ContainsIgnoreCase(p.playerName, search))
    ensures Ordered(Filtered(picks, filterResult, search, desc), DateKey, desc)
  {
    var f := Filter(picks, q => Listed(filterResult, search, q));
    FilterMembership(picks, q => Listed(filterResult, search, q), p);
    var v := Filtered(picks, filterResult, search, desc);
    assert p in v <==> p in multiset(v);
    assert p in f <==> p in multiset(f);
  }

  // ---------------------------------------------------------------------
  // Box scores (`fetchBoxHits`)
  // ---------------------------------------------------------------------

  /** One `players` entry: `person.id` (absent or 0 is skipped) and its batting counts, missing ones 0. */
  datatype BoxEntry = BoxEntry(personId: Option<int>, hits: nat, totalBases: nat, homeRuns: nat)

  datatype BoxScore = BoxScore(home: seq<BoxEntry>, away: seq<BoxEntry>)

  predicate HasId(e: BoxEntry) { e.personId.Some? && e.personId.value != 0 }

  function LineOf(e: BoxEntry): BoxLine { BoxLine(e.hits, e.totalBases, e.homeRuns) }

  /** The id-to-line map after writing the entries in order, a later entry overwriting. */
  function BoxMap(entries: seq<BoxEntry>): map<int, BoxLine>
    decreases |entries|
  {
    if entries == [] then map[]
    else
      var m := BoxMap(entries[..|entries| - 1]);
      var e := entries[|entries| - 1];
      if HasId(e) then m[e.personId.value := LineOf(e)] else m
  }

  /** The parsed box score holds exactly the entries with an id. */
  lemma {:induction false} BoxMapKeys(entries: seq<BoxEntry>, id: int)
    ensures id in BoxMap(entries) <==> exists i :: 0 <= i < |entries| && HasId(entries[i]) && entries[i].personId.value == id
    decreases |entries|
  {
    if entries != [] {
      var init := entries[..|entries| - 1];
      BoxMapKeys(init, id);
      if exists i :: 0 <= i < |init| && HasId(init[i]) && init[i].personId.value == id {
        var i :| 0 <= i < |init| && HasId(init[i]) && init[i].personId.value == id;
        assert entries[i] == init[i];
      }
      if exists i :: 0 <= i < |entries| && HasId(entries[i]) && entries[i].personId.value == id {
        var i :| 0 <= i < |entries| && HasId(entries[i]) && entries[i].personId.value == id;
        if i < |init| {
          assert init[i] == entries[i];
        }
      }
    }
  }

  /** An id's line is that of its last entry (a player listed twice keeps the later line). */
  lemma {:induction false} BoxMapLast(entries: seq<BoxEntry>, i: nat)
    requires i < |entries| && HasId(entries[i])
    requires forall j :: i < j < |entries| && HasId(entries[j]) ==> entries[j].personId != entries[i].personId
    ensures entries[i].personId.value in BoxMap(entries)
    ensures BoxMap(entries)[entries[i].personId.value] == LineOf(entries[i])
    decreases |entries|
  {
    if i < |entries| - 1 {
      var init := entries[..|entries| - 1];
      assert init[i] == entries[i];
      BoxMapLast(init, i);
    }
  }

  /** `fetchBoxHits`: `None` is the `null` of a failed response; home players are written before away ones. */
  method FetchBoxHits(resp: Option<BoxScore>) returns (r: Option<map<int, BoxLine>>)
    ensures resp.None? ==> r.None?
    ensures resp.Some? ==> r == Some(BoxMap(resp.value.home + resp.value.away))
  {
    if resp.None? {
      return None;
    }
    var entries := resp.value.home + resp.value.away;
    var result: map<int, BoxLine> := map[];
    for k := 0 to |entries|
      invariant result == BoxMap(entries[..k])
    {
      assert entries[..k + 1][..k] == entries[..k];
      var e := entries[k];
      if HasId(e) {
        result := result[e.personId.value := LineOf(e)];
      }
    }
    assert entries[..|entries|] == entries;
    r := Some(result);
  }

  /**
   * `allPlayerStats`: the box scores of the date merged in the order
   * `Object.entries` visits the game ids (ascending), a later game
   * overwriting an earlier one; a `null` box score is skipped.
   */
  function MergeStats(boxes: seq<Option<map<int, BoxLine>>>): map<int, BoxLine>
    decreases |boxes|
  {
    if boxes == [] then map[]
    else
      var m := MergeStats(boxes[..|boxes| - 1]);
      var b := boxes[|boxes| - 1];
      if b.Some? then m + b.value else m
  }

  /** A player's merged line comes from the last game that lists them. */
  lemma {:induction false} MergeStatsLast(boxes: seq<Option<map<int, BoxLine>>>, i: nat, id: int)
    requires i < |boxes| && boxes[i].Some? && id in boxes[i].value
    requires forall j :: i < j < |boxes| && boxes[j].Some? ==> id !in boxes[j].value
    ensures id in MergeStats(boxes) && MergeStats(boxes)[id] == boxes[i].value[id]
    decreases |boxes|
  {
    if i < |boxes| - 1 {
      var init := boxes[..|boxes| - 1];
      assert init[i] == boxes[i];
      MergeStatsLast(init, i, id);
    }
  }

  /** A player listed in any box score is in the merged map. */
  lemma {:induction false} MergeStatsCovers(boxes: seq<Option<map<int, BoxLine>>>, i: nat, id: int)
    requires i < |boxes| && boxes[i].Some? && id in boxes[i].value
    ensures id in MergeStats(boxes)
    decreases |boxes|
  {
    if i < |boxes| - 1 {
      var init := boxes[..|boxes| - 1];
      assert init[i] == boxes[i];
      MergeStatsCovers(init, i, id);
    }
  }

  function BoxesOf(pks: seq<int>, box: int -> Option<map<int, BoxLine>>): (r: seq<Option<map<int, BoxLine>>>)
    ensures |r| == |pks|
    ensures forall k :: 0 <= k < |r| ==> r[k] == box(pks[k])
    decreases |pks|
  {
    if pks == [] then [] else BoxesOf(pks[..|pks| - 1], box) + [box(pks[|pks| - 1])]
  }

  function PkKey(pk: int): real { pk as real }

  /** The merged stats of a date whose games are `pks`. */
  function DayStats(pks: seq<int>, box: int -> Option<map<int, BoxLine>>): map<int, BoxLine> {
    MergeStats(BoxesOf(SortBy(pks, PkKey, false), box))
  }

  // ---------------------------------------------------------------------
  // autoResolve
  // ---------------------------------------------------------------------

  /** The first index holding `id` (`findIndex`). */
  function FirstIndex(s: seq<Pick>, id: PickId): (r: Option<nat>)
    ensures r.Some? <==> exists i :: 0 <= i < |s| && s[i].id == id
    ensures r.Some? ==> r.value < |s| && s[r.value].id == id && forall j :: 0 <= j < r.value ==> s[j].id != id
    decreases |s|
  {
    if s == [] then None
    else if s[0].id == id then Some(0)
    else
      var r := FirstIndex(s[1..], id);
      assert forall i :: 1 <= i < |s| ==> s[i] == s[1..][i - 1];
      if r.Some? then Some(r.value + 1) else None
  }

  /** The first search hit that played that day (`for (const sr of searchResults)`). */
  function FirstKnown(ids: seq<int>, stats: map<int, BoxLine>): (r: Option<int>)
    ensures r.Some? ==> r.value in stats && r.value in ids
    ensures r.None? ==> forall k :: 0 <= k < |ids| ==> ids[k] !in stats
    decreases |ids|
  {
    if ids == [] then None
    else if ids[0] in stats then Some(ids[0])
    else
      assert forall k :: 1 <= k < |ids| ==> ids[k] == ids[1..][k - 1];
      FirstKnown(ids[1..], stats)
  }

  /** The pick's stats, and the id found by name search when that is how they were found. */
  datatype Lookup = Lookup(stats: Option<BoxLine>, foundId: Option<int>)

  /**
   * The three lookups: the pick's player id in the merged stats, then in
   * the box score of the pick's own game, then the first name-search hit
   * that played.  `searchIds` is `None` when the search throws.
   */
  function LookupStats(pick: Pick, all: map<int, BoxLine>, pks: seq<int>,
                       box: int -> Option<map<int, BoxLine>>, searchIds: Option<seq<int>>): (l: Lookup)
    ensures l.foundId.Some? ==> l.stats.Some?
  {
    var pid := Truthy(pick.playerId);
    var direct := if pid.Some? && pid.value in all then Some(all[pid.value]) else None;
    var pk := Truthy(pick.gamePk);
    var byGame :=
      if direct.None? && pid.Some? && pk.Some? && pk.value in pks && box(pk.value).Some? && pid.value in box(pk.value).value
      then Some(box(pk.value).value[pid.value]) else direct;
    if byGame.None? && pick.playerName != "" && searchIds.Some? then
      var found := FirstKnown(searchIds.value, all);
      if found.Some? then Lookup(Some(all[found.value]), found) else Lookup(None, None)
    else Lookup(byGame, None)
  }

  /** The game-specific lookup never finds a player the merged stats lack: the merged map covers every game of the day. */
  lemma GameLookupRedundant(pid: int, pk: int, pks: seq<int>, box: int -> Option<map<int, BoxLine>>)
    requires pk in pks && box(pk).Some? && pid in box(pk).value
    ensures pid in DayStats(pks, box)
  {
    var sorted := SortBy(pks, PkKey, false);
    assert pk in multiset(pks);
    assert pk in multiset(sorted);
    var i :| 0 <= i < |sorted| && sorted[i] == pk;
    MergeStatsCovers(BoxesOf(sorted, box), i, pid);
  }

  /** A resolved pick: hit or miss, marked as auto-resolved, perhaps with a new player id, otherwise as before. */
  predicate Resolved(p: Pick, q: Pick) {
    && (q.result == Hit || q.result == Miss)
    && q.autoResolved
    && q == p.(result := q.result, autoResolved := true, playerId := q.playerId)
  }

  lemma ResolvedTrans(p: Pick, q: Pick, r: Pick)
    requires Resolved(p, q) && Resolved(q, r)
    ensures Resolved(p, r)
  {
  }

  /** `pick.prop || "1+ Hits"`: an empty prop is judged as one hit. */
  function PropOf(pick: Pick): string {
    if pick.prop == "" then "1+ Hits" else pick.prop
  }

  /** The slot after a match: the id found by name search, if any, then the verdict and the auto-resolved mark. */
  function Judged(cur: Pick, l: Lookup, won: bool): Pick {
    var withId := if l.foundId.Some? then cur.(playerId := l.foundId) else cur;
    withId.(result := if won then Hit else Miss, autoResolved := true)
  }

  /**
   * The new content of `updatedPicks[idx]` for pending pick `pick`, whose
   * slot currently holds `cur`; `None` when it could not be matched.  The
   * verdict is `evaluatePick` as written.
   */
  function ResolvePick(cur: Pick, pick: Pick, all: map<int, BoxLine>, pks: seq<int>,
                       box: int -> Option<map<int, BoxLine>>, searchIds: Option<seq<int>>): (r: Option<Pick>)
    ensures r.Some? <==> LookupStats(pick, all, pks, box, searchIds).stats.Some?
    ensures r.Some? ==> Resolved(cur, r.value)
    ensures r.Some? ==>
              r.value.result ==
                (if EvaluatePickAsWritten(PropOf(pick), LookupStats(pick, all, pks, box, searchIds).stats) == Some(true)
                 then Hit else Miss)
    ensures r.Some? ==>
              r.value.playerId ==
                (if LookupStats(pick, all, pks, box, searchIds).foundId.Some?
                 then LookupStats(pick, all, pks, box, searchIds).foundId else cur.playerId)
  {
    var l := LookupStats(pick, all, pks, box, searchIds);
    if l.stats.None? then None
    else Some(Judged(cur, l, EvaluatePickAsWritten(PropOf(pick), l.stats) == Some(true)))
  }

  /** Resolving a slot that already holds the resolution changes nothing. */
  lemma ResolvePickIdempotent(cur: Pick, pick: Pick, all: map<int, BoxLine>, pks: seq<int>,
                              box: int -> Option<map<int, BoxLine>>, searchIds: Option<seq<int>>)
    requires ResolvePick(cur, pick, all, pks, box, searchIds).Some?
    ensures ResolvePick(ResolvePick(cur, pick, all, pks, box, searchIds).value, pick, all, pks, box, searchIds)
            == ResolvePick(cur, pick, all, pks, box, searchIds)
  {
  }

  /** `ResolvePick` with the verdict of `EvaluatePick`, which judges the offered home-run prop on home runs. */
  function ResolvePickIntended(cur: Pick, pick: Pick, all: map<int, BoxLine>, pks: seq<int>,
                               box: int -> Option<map<int, BoxLine>>, searchIds: Option<seq<int>>): (r: Option<Pick>)
    ensures r.Some? <==> LookupStats(pick, all, pks, box, searchIds).stats.Some?
    ensures r.Some? ==> Resolved(cur, r.value)
    ensures r.Some? && PropOf(pick) == "1+ Home Runs" ==>
              (r.value.result == Hit <==> LookupStats(pick, all, pks, box, searchIds).stats.value.homeRuns >= 1)
  {
    var l := LookupStats(pick, all, pks, box, searchIds);
    if l.stats.None? then None
    else Some(Judged(cur, l, EvaluatePick(PropOf(pick), l.stats) == Some(true)))
  }

  /** The two resolutions differ only on the offered home-run prop. */
  lemma ResolveIntendedAgrees(cur: Pick, pick: Pick, all: map<int, BoxLine>, pks: seq<int>,
                              box: int -> Option<map<int, BoxLine>>, searchIds: Option<seq<int>>)
    requires PropOf(pick) != "1+ Home Runs"
    ensures ResolvePickIntended(cur, pick, all, pks, box, searchIds) == ResolvePick(cur, pick, all, pks, box, searchIds)
  {
  }

  /** A home-run pick whose batter singled is resolved as a hit; the intended rule makes it a miss. */
  lemma HomeRunPickResolvedAsHit()
    ensures var p := Pick(Stamp(0), "A", Some(7), "", "", 0, "1+ Home Runs", None, None, Pending, false);
            var all := map[7 := BoxLine(1, 1, 0)];
            && ResolvePick(p, p, all, [], (pk: int) => None, None) == Some(p.(result := Hit, autoResolved := true))
            && ResolvePickIntended(p, p, all, [], (pk: int) => None, None) == Some(p.(result := Miss, autoResolved := true))
  {
    var p := Pick(Stamp(0), "A", Some(7), "", "", 0, "1+ Home Runs", None, None, Pending, false);
    var all := map[7 := BoxLine(1, 1, 0)];
    assert LookupStats(p, all, [], (pk: int) => None, None) == Lookup(Some(BoxLine(1, 1, 0)), None);
  }

  predicate PendingPast(p: Pick, today: int) { p.result == Pending && p.date < today }

  /** No two picks share an id. */
  predicate UniqueIds(picks: seq<Pick>) {
    forall a, b :: 0 <= a < |picks| && 0 <= b < |picks| && a != b ==> picks[a].id != picks[b].id
  }

  /**
   * What `autoResolve` makes of one pick: a pending pick of a past day
   * whose day's games were fetched and whose stats were then found is
   * resolved against that day's box scores; `None` leaves it as it is.
   */
  function AutoResolution(p: Pick, today: int, games: int -> Option<seq<int>>,
                          box: int -> Option<map<int, BoxLine>>, search: string -> Option<seq<int>>): (r: Option<Pick>)
    ensures r.Some? ==> PendingPast(p, today) && games(p.date).Some? && Resolved(p, r.value)
    ensures r.Some? <==>
              PendingPast(p, today) && games(p.date).Some? &&
              LookupStats(p, DayStats(games(p.date).value, box), games(p.date).value, box, search(p.playerName)).stats.Some?
    ensures r.Some? ==>
              r.value.result ==
                (if EvaluatePickAsWritten(PropOf(p), LookupStats(p, DayStats(games(p.date).value, box), games(p.date).value,
                                                                 box, search(p.playerName)).stats) == Some(true)
                 then Hit else Miss)
  {
    if PendingPast(p, today) && games(p.date).Some? then
      ResolvePick(p, p, DayStats(games(p.date).value, box), games(p.date).value, box, search(p.playerName))
    else None
  }

  /** The pick after `autoResolve`, in a list whose ids are unique. */
  function AutoResolvedPick(p: Pick, today: int, games: int -> Option<seq<int>>,
                            box: int -> Option<map<int, BoxLine>>, search: string -> Option<seq<int>>): Pick {
    var r := AutoResolution(p, today, games, box, search);
    if r.Some? then r.value else p
  }

  /** The picks `autoResolve` counts as resolved. */
  function ResolvableIn(today: int, games: int -> Option<seq<int>>,
                        box: int -> Option<map<int, BoxLine>>, search: string -> Option<seq<int>>): Pick -> bool {
    p => AutoResolution(p, today, games, box, search).Some?
  }

  /** A resolved pick is no longer pending, so a second run leaves every pick as the first left it. */
  lemma AutoResolveSettles(p: Pick, today: int, games: int -> Option<seq<int>>,
                           box: int -> Option<map<int, BoxLine>>, search: string -> Option<seq<int>>)
    ensures AutoResolution(AutoResolvedPick(p, today, games, box, search), today, games, box, search).None?
    ensures AutoResolvedPick(AutoResolvedPick(p, today, games, box, search), today, games, box, search)
            == AutoResolvedPick(p, today, games, box, search)
  {
  }

  /**
   * One visit of pick `p`'s date: whether its slot still holds `p` or
   * already holds its resolution, `ResolvePick` leaves the resolution
   * there, and succeeds exactly when `p` is resolvable.
   */
  lemma ResolveVisit(p: Pick, cur: Pick, today: int, games: int -> Option<seq<int>>,
                     box: int -> Option<map<int, BoxLine>>, search: string -> Option<seq<int>>)
    requires PendingPast(p, today) && games(p.date).Some?
    requires cur == p || cur == AutoResolvedPick(p, today, games, box, search)
    ensures var pks := games(p.date).value;
            var q := ResolvePick(cur, p, DayStats(pks, box), pks, box, search(p.playerName));
            && (q.Some? <==> AutoResolution(p, today, games, box, search).Some?)
            && (if q.Some? then q.value else cur) == AutoResolvedPick(p, today, games, box, search)
  {
    var pks := games(p.date).value;
    if AutoResolution(p, today, games, box, search).Some? && cur != p {
      ResolvePickIdempotent(p, p, DayStats(pks, box), pks, box, search(p.playerName));
    }
  }

  /**
   * What `updatedPicks` may be at any point: the same ids at the same
   * places, and each pick either untouched or resolved from a pending pick
   * of a past day with the same id.
   */
  ghost predicate ResolvedFromPast(picks: seq<Pick>, updated: seq<Pick>, today: int) {
    && |updated| == |picks|
    && forall i :: 0 <= i < |picks| ==>
         && updated[i].id == picks[i].id
         && (updated[i] == picks[i] ||
             (Resolved(picks[i], updated[i]) &&
              exists j :: 0 <= j < |picks| && picks[j].id == picks[i].id && PendingPast(picks[j], today)))
  }

  /** One more resolution at `idx` keeps the invariant. */
  lemma ResolveStep(picks: seq<Pick>, updated: seq<Pick>, today: int, idx: nat, j: nat, q: Pick)
    requires ResolvedFromPast(picks, updated, today)
    requires idx < |picks| && j < |picks| && picks[j].id == picks[idx].id && PendingPast(picks[j], today)
    requires Resolved(updated[idx], q)
    ensures ResolvedFromPast(picks, updated[idx := q], today)
  {
    if updated[idx] != picks[idx] {
      ResolvedTrans(picks[idx], updated[idx], q);
    }
  }

  /** A pending pick of a past day whose date's games were fetched is resolvable exactly when `ResolvePick` matches it. */
  lemma ResolvableMeans(p: Pick, cur: Pick, date: int, today: int, games: int -> Option<seq<int>>,
                        box: int -> Option<map<int, BoxLine>>, search: string -> Option<seq<int>>)
    requires PendingPast(p, today) && p.date == date && games(date).Some?
    ensures ResolvableIn(today, games, box, search)(p) <==>
              ResolvePick(cur, p, DayStats(games(date).value, box), games(date).value, box, search(p.playerName)).Some?
  {
  }

  /** With unique ids, visiting `group[k]` puts its resolution in its own slot and touches no other. */
  lemma UniqueVisit(picks: seq<Pick>, updated: seq<Pick>, before: seq<Pick>, after: seq<Pick>, group: seq<Pick>,
                    k: nat, j: nat, today: int, games: int -> Option<seq<int>>,
                    box: int -> Option<map<int, BoxLine>>, search: string -> Option<seq<int>>)
    requires UniqueIds(picks) && |updated| == |before| == |picks| && k < |group| && j < |picks| && picks[j] == group[k]
    requires PendingPast(group[k], today) && games(group[k].date).Some?
    requires forall i :: 0 <= i < |picks| && picks[i] in group ==> updated[i] == picks[i]
    requires forall i :: 0 <= i < |picks| ==>
               before[i] == if picks[i] in group[..k] then AutoResolvedPick(picks[i], today, games, box, search) else updated[i]
    requires var pks := games(group[k].date).value;
             var q := ResolvePick(before[j], group[k], DayStats(pks, box), pks, box, search(group[k].playerName));
             after == if q.Some? then before[j := q.value] else before
    ensures forall i :: 0 <= i < |picks| ==>
              after[i] == if picks[i] in group[..k + 1] then AutoResolvedPick(picks[i], today, games, box, search) else updated[i]
  {
    var p := group[k];
    assert picks[j] in group;
    ResolveVisit(p, before[j], today, games, box, search);
    assert group[..k + 1] == group[..k] + [p];
    forall i | 0 <= i < |picks|
      ensures after[i] == if picks[i] in group[..k + 1] then AutoResolvedPick(picks[i], today, games, box, search) else updated[i]
    {
      if i != j {
        assert picks[i].id != picks[j].id;
        assert after[i] == before[i];
      }
    }
  }

  /**
   * One pick of a date's group: `findIndex`, the three lookups and the
   * resolution, which goes into the pick's slot when it matched.
   */
  method VisitPick(picks: seq<Pick>, updated: seq<Pick>, cur: seq<Pick>, group: seq<Pick>, k: nat, date: int,
                   all: map<int, BoxLine>, pks: seq<int>, today: int, games: int -> Option<seq<int>>,
                   box: int -> Option<map<int, BoxLine>>, search: string -> Option<seq<int>>)
    returns (next: seq<Pick>, matched: bool)
    requires k < |group| && group[k] in picks && PendingPast(group[k], today) && group[k].date == date
    requires games(date) == Some(pks) && all == DayStats(pks, box)
    requires ResolvedFromPast(picks, cur, today)
    requires UniqueIds(picks) ==> |updated| == |picks| && forall i :: 0 <= i < |picks| && picks[i] in group ==> updated[i] == picks[i]
    requires UniqueIds(picks) ==> forall i :: 0 <= i < |picks| ==>
               cur[i] == if picks[i] in group[..k] then AutoResolvedPick(picks[i], today, games, box, search) else updated[i]
    ensures ResolvedFromPast(picks, next, today)
    ensures matched <==> ResolvableIn(today, games, box, search)(group[k])
    ensures UniqueIds(picks) ==> forall i :: 0 <= i < |picks| ==>
              next[i] == if picks[i] in group[..k + 1] then AutoResolvedPick(picks[i], today, games, box, search) else updated[i]
  {
    var pick := group[k];
    ghost var j :| 0 <= j < |picks| && picks[j] == pick;
    assert cur[j].id == pick.id;
    var idx := FirstIndex(cur, pick.id);
    if idx.None? {
      assert false;
    }
    var q := ResolvePick(cur[idx.value], pick, all, pks, box, search(pick.playerName));
    ResolvableMeans(pick, cur[idx.value], date, today, games, box, search);
    next, matched := cur, q.Some?;
    if q.Some? {
      ResolveStep(picks, cur, today, idx.value, j, q.value);
      next := cur[idx.value := q.value];
    }
    if UniqueIds(picks) {
      assert picks[idx.value].id == picks[j].id;
      UniqueVisit(picks, updated, cur, next, group, k, j, today, games, box, search);
    }
  }

  /**
   * The loop over one date: fetch failure (`games(date)` is `None`) counts
   * every pick of the date as failed; otherwise each pick is resolved into
   * its slot or counted as failed.  With unique ids each pick of the group
   * ends as `AutoResolvedPick` and every other slot is left alone.
   */
  method ResolveDate(picks: seq<Pick>, updated: seq<Pick>, date: int, group: seq<Pick>, today: int,
                     games: int -> Option<seq<int>>, box: int -> Option<map<int, BoxLine>>,
                     search: string -> Option<seq<int>>)
    returns (updated': seq<Pick>, resolved: nat, failed: nat)
    requires ResolvedFromPast(picks, updated, today)
    requires forall k :: 0 <= k < |group| ==> group[k] in picks && PendingPast(group[k], today) && group[k].date == date
    requires UniqueIds(picks) ==> forall i :: 0 <= i < |picks| && picks[i] in group ==> updated[i] == picks[i]
    ensures ResolvedFromPast(picks, updated', today)
    ensures resolved + failed == |group|
    ensures resolved == |Filter(group, ResolvableIn(today, games, box, search))|
    ensures UniqueIds(picks) ==> forall i :: 0 <= i < |picks| ==>
              updated'[i] == if picks[i] in group then AutoResolvedPick(picks[i], today, games, box, search) else updated[i]
  {
    ghost var R := ResolvableIn(today, games, box, search);
    updated', resolved, failed := updated, 0, 0;
    var pks := games(date);
    if pks.None? {
      failed := |group|;
      FilterNone(group, R);
      return;
    }
    var all := DayStats(pks.value, box);
    for k := 0 to |group|
      invariant ResolvedFromPast(picks, updated', today)
      invariant resolved + failed == k
      invariant resolved == |Filter(group[..k], R)|
      invariant UniqueIds(picks) ==> forall i :: 0 <= i < |picks| ==>
                  updated'[i] == if picks[i] in group[..k] then AutoResolvedPick(picks[i], today, games, box, search) else updated[i]
    {
      var matched;
      updated', matched := VisitPick(picks, updated, updated', group, k, date, all, pks.value, today, games, box, search);
      FilterSnocCount(group, k, R);
      if matched {
        resolved := resolved + 1;
      } else {
        failed := failed + 1;
      }
    }
    assert group[..|group|] == group;
  }

  // The grouping of the pending picks by date (`byDate`).

  /** The picks of `s` on day `d`, in order. */
  function OnDate(s: seq<Pick>, d: int): seq<Pick>
    decreases |s|
  {
    if s == [] then []
    else OnDate(s[..|s| - 1], d) + (if s[|s| - 1].date == d then [s[|s| - 1]] else [])
  }

  lemma {:induction false} OnDateFrom(s: seq<Pick>, d: int)
    ensures forall k :: 0 <= k < |OnDate(s, d)| ==> OnDate(s, d)[k] in s && OnDate(s, d)[k].date == d
    decreases |s|
  {
    if s != [] {
      OnDateFrom(s[..|s| - 1], d);
    }
  }

  predicate Distinct(s: seq<int>) {
    forall i, j :: 0 <= i < j < |s| ==> s[i] != s[j]
  }

  lemma OnDateSnoc(s: seq<Pick>, p: Pick)
    ensures forall d :: OnDate(s + [p], d) == OnDate(s, d) + (if p.date == d then [p] else [])
  {
    assert (s + [p])[..|s|] == s;
  }

  /** `byDate` after the picks `s`: its keys in first-appearance order, each with its picks. */
  ghost predicate Grouped(s: seq<Pick>, keys: seq<int>, byDate: map<int, seq<Pick>>) {
    && Distinct(keys)
    && (forall d :: d in byDate <==> d in keys)
    && (forall d :: d in byDate ==> byDate[d] == OnDate(s, d))
    && (forall d :: d !in byDate ==> OnDate(s, d) == [])
    && (forall i :: 0 <= i < |s| ==> s[i].date in keys)
  }

  /** One pending pick: a new date becomes a key, and the pick joins its date's list. */
  method GroupOne(keys: seq<int>, byDate: map<int, seq<Pick>>, ghost s: seq<Pick>, p: Pick)
    returns (keys': seq<int>, byDate': map<int, seq<Pick>>)
    requires Grouped(s, keys, byDate)
    ensures Grouped(s + [p], keys', byDate')
  {
    keys' := keys;
    if p.date !in byDate {
      keys' := keys + [p.date];
    }
    var group := if p.date in byDate then byDate[p.date] else [];
    byDate' := byDate[p.date := group + [p]];
    GroupedSnoc(s, keys, byDate, p, keys', byDate');
  }

  /** Why `GroupOne` keeps `Grouped`. */
  lemma GroupedSnoc(s: seq<Pick>, keys: seq<int>, byDate: map<int, seq<Pick>>, p: Pick,
                    keys': seq<int>, byDate': map<int, seq<Pick>>)
    requires Grouped(s, keys, byDate)
    requires keys' == if p.date in byDate then keys else keys + [p.date]
    requires byDate' == byDate[p.date := (if p.date in byDate then byDate[p.date] else []) + [p]]
    ensures Grouped(s + [p], keys', byDate')
  {
    var s' := s + [p];
    OnDateSnoc(s, p);
    assert Distinct(keys') by {
      if p.date !in byDate {
        assert p.date !in keys;
        forall i, j | 0 <= i < j < |keys'|
          ensures keys'[i] != keys'[j]
        {
          if j < |keys| {
            assert keys'[i] == keys[i] && keys'[j] == keys[j];
          } else {
            assert keys'[i] == keys[i];
          }
        }
      }
    }
    forall d | d in byDate'
      ensures byDate'[d] == OnDate(s', d)
    {
      if d != p.date {
        assert byDate'[d] == byDate[d];
      }
    }
    forall i | 0 <= i < |s'|
      ensures s'[i].date in keys'
    {
      if i < |s| {
        assert s'[i] == s[i];
      }
    }
  }

  /** The date keys in first-appearance order, and each key's picks. */
  method GroupByDate(pending: seq<Pick>) returns (keys: seq<int>, byDate: map<int, seq<Pick>>)
    ensures Distinct(keys)
    ensures forall d :: d in byDate <==> d in keys
    ensures forall d :: d in byDate ==> byDate[d] == OnDate(pending, d)
    ensures forall k :: 0 <= k < |pending| ==> pending[k].date in keys
  {
    keys, byDate := [], map[];
    for k := 0 to |pending|
      invariant Grouped(pending[..k], keys, byDate)
    {
      assert pending[..k + 1] == pending[..k] + [pending[k]];
      keys, byDate := GroupOne(keys, byDate, pending[..k], pending[k]);
    }
    assert pending[..|pending|] == pending;
  }

  /** The number of picks of `s` on the days `ds`, day by day. */
  function SumGroups(s: seq<Pick>, ds: seq<int>): nat
    decreases |ds|
  {
    if ds == [] then 0 else SumGroups(s, ds[..|ds| - 1]) + |OnDate(s, ds[|ds| - 1])|
  }

  /** The pending picks of past days. */
  function CountPendingPast(s: seq<Pick>, today: int): nat
    decreases |s|
  {
    if s == [] then 0
    else CountPendingPast(s[..|s| - 1], today) + (if PendingPast(s[|s| - 1], today) then 1 else 0)
  }

  function Occurrences(ds: seq<int>, x: int): nat
    decreases |ds|
  {
    if ds == [] then 0 else Occurrences(ds[..|ds| - 1], x) + (if ds[|ds| - 1] == x then 1 else 0)
  }

  lemma {:induction false} OccurrencesDistinct(ds: seq<int>, x: int)
    requires Distinct(ds)
    ensures Occurrences(ds, x) == if x in ds then 1 else 0
    decreases |ds|
  {
    if ds != [] {
      var init := ds[..|ds| - 1];
      assert Distinct(init);
      OccurrencesDistinct(init, x);
      assert x in ds <==> x in init || x == ds[|ds| - 1];
    }
  }

  lemma {:induction false} SumGroupsSnoc(s: seq<Pick>, p: Pick, ds: seq<int>)
    ensures SumGroups(s + [p], ds) == SumGroups(s, ds) + Occurrences(ds, p.date)
    decreases |ds|
  {
    if ds != [] {
      SumGroupsSnoc(s, p, ds[..|ds| - 1]);
      assert (s + [p])[..|s|] == s;
    }
  }

  /** Summed over the past dates, the groups count each pending past pick once. */
  lemma {:induction false} SumGroupsPast(s: seq<Pick>, ds: seq<int>, today: int)
    requires Distinct(ds)
    requires forall k :: 0 <= k < |s| ==> s[k].result == Pending
    requires forall k :: 0 <= k < |s| ==> (s[k].date in ds <==> s[k].date < today)
    ensures SumGroups(s, ds) == CountPendingPast(s, today)
    decreases |s|
  {
    if s == [] {
      SumGroupsEmpty(ds);
    } else {
      var init, p := s[..|s| - 1], s[|s| - 1];
      SumGroupsPast(init, ds, today);
      assert s == init + [p];
      SumGroupsSnoc(init, p, ds);
      OccurrencesDistinct(ds, p.date);
    }
  }

  /** One more date adds that date's group. */
  lemma SumGroupsStep(s: seq<Pick>, ds: seq<int>, k: nat)
    requires k < |ds|
    ensures SumGroups(s, ds[..k + 1]) == SumGroups(s, ds[..k]) + |OnDate(s, ds[k])|
  {
    assert ds[..k + 1][..k] == ds[..k];
  }

  lemma {:induction false} SumGroupsEmpty(ds: seq<int>)
    ensures SumGroups([], ds) == 0
    decreases |ds|
  {
    if ds != [] {
      SumGroupsEmpty(ds[..|ds| - 1]);
    }
  }

  lemma {:induction false} FilterDistinct(s: seq<int>, p: int -> bool)
    requires Distinct(s)
    ensures Distinct(Filter(s, p))
    decreases |s|
  {
    if s != [] {
      assert Distinct(s[1..]);
      FilterDistinct(s[1..], p);
      if p(s[0]) {
        FilterMembership(s[1..], p, s[0]);
      }
    }
  }

  lemma {:induction false} CountAppend(a: seq<Pick>, b: seq<Pick>, today: int)
    ensures CountPendingPast(a + b, today) == CountPendingPast(a, today) + CountPendingPast(b, today)
    decreases |b|
  {
    if b == [] {
      assert a + b == a;
    } else {
      var b' := b[..|b| - 1];
      assert (a + b)[..|a + b| - 1] == a + b';
      CountAppend(a, b', today);
    }
  }

  lemma {:induction false} PendingCountPast(picks: seq<Pick>, today: int)
    ensures CountPendingPast(Filter(picks, IsPending), today) == CountPendingPast(picks, today)
    decreases |picks|
  {
    if picks != [] {
      var head, rest := [picks[0]], picks[1..];
      assert picks == head + rest;
      PendingCountPast(rest, today);
      var f := Filter(picks, IsPending);
      assert f == (if IsPending(picks[0]) then head else []) + Filter(rest, IsPending);
      CountAppend(if IsPending(picks[0]) then head else [], Filter(rest, IsPending), today);
      CountAppend(head, rest, today);
      assert CountPendingPast([], today) == 0;
    }
  }

  /** `OnDate` of a concatenation. */
  lemma {:induction false} OnDateAppend(a: seq<Pick>, b: seq<Pick>, d: int)
    ensures OnDate(a + b, d) == OnDate(a, d) + OnDate(b, d)
    decreases |b|
  {
    if b == [] {
      assert a + b == a;
    } else {
      var b' := b[..|b| - 1];
      assert (a + b)[..|a + b| - 1] == a + b';
      OnDateAppend(a, b', d);
    }
  }

  /** A pick is in a date's group exactly when it is in the list and has that date. */
  lemma {:induction false} OnDateMembership(s: seq<Pick>, d: int, x: Pick)
    ensures x in OnDate(s, d) <==> x in s && x.date == d
    decreases |s|
  {
    if s != [] {
      var init := s[..|s| - 1];
      OnDateMembership(init, d, x);
      assert s == init + [s[|s| - 1]];
    }
  }

  /** Selecting a date and filtering commute. */
  lemma {:induction false} OnDateFilter(s: seq<Pick>, p: Pick -> bool, d: int)
    ensures OnDate(Filter(s, p), d) == Filter(OnDate(s, d), p)
    decreases |s|
  {
    if s != [] {
      var init, x := s[..|s| - 1], s[|s| - 1];
      assert s == init + [x];
      OnDateFilter(init, p, d);
      FilterAppend(init, [x], p);
      assert [x][1..] == [];
      var fx := if p(x) then [x] else [];
      assert Filter([x], p) == fx;
      OnDateAppend(Filter(init, p), fx, d);
      var dx := if x.date == d then [x] else [];
      FilterAppend(OnDate(init, d), dx, p);
      assert Filter(dx, p) == OnDate(fx, d) by {
        if p(x) {
          assert fx[..0] == [];
        }
        if x.date == d {
          assert Filter(dx, p) == Filter([x], p);
        }
      }
    }
  }

  /** Within a date's group of pending picks, the resolvable ones are that date's resolvable picks. */
  lemma ResolvableOnDate(picks: seq<Pick>, d: int, today: int, games: int -> Option<seq<int>>,
                         box: int -> Option<map<int, BoxLine>>, search: string -> Option<seq<int>>)
    ensures |Filter(OnDate(Filter(picks, IsPending), d), ResolvableIn(today, games, box, search))|
            == |OnDate(Filter(picks, ResolvableIn(today, games, box, search)), d)|
  {
    var R := ResolvableIn(today, games, box, search);
    forall x | R(x)
      ensures IsPending(x)
    {
      assert AutoResolution(x, today, games, box, search).Some?;
    }
    FilterFilterStronger(picks, R, IsPending);
    OnDateFilter(Filter(picks, IsPending), R, d);
  }

  /** Before a date is visited, the slots of its group still hold the original picks. */
  lemma GroupUntouched(picks: seq<Pick>, updated: seq<Pick>, dates: seq<int>, k: nat, today: int,
                       games: int -> Option<seq<int>>, box: int -> Option<map<int, BoxLine>>,
                       search: string -> Option<seq<int>>)
    requires Distinct(dates) && k < |dates| && |updated| == |picks|
    requires forall i :: 0 <= i < |picks| ==>
               updated[i] == if picks[i].date in dates[..k] then AutoResolvedPick(picks[i], today, games, box, search) else picks[i]
    ensures forall i :: 0 <= i < |picks| && picks[i] in OnDate(Filter(picks, IsPending), dates[k]) ==> updated[i] == picks[i]
  {
    forall i | 0 <= i < |picks| && picks[i] in OnDate(Filter(picks, IsPending), dates[k])
      ensures updated[i] == picks[i]
    {
      OnDateMembership(Filter(picks, IsPending), dates[k], picks[i]);
      assert dates[k] !in dates[..k];
    }
  }

  /** After a date is visited, every slot of that date holds its `AutoResolvedPick`. */
  lemma GroupVisited(picks: seq<Pick>, updated: seq<Pick>, after: seq<Pick>, dates: seq<int>, k: nat, today: int,
                     games: int -> Option<seq<int>>, box: int -> Option<map<int, BoxLine>>,
                     search: string -> Option<seq<int>>)
    requires k < |dates| && |updated| == |after| == |picks|
    requires forall i :: 0 <= i < |picks| ==>
               updated[i] == if picks[i].date in dates[..k] then AutoResolvedPick(picks[i], today, games, box, search) else picks[i]
    requires forall i :: 0 <= i < |picks| ==>
               after[i] == if picks[i] in OnDate(Filter(picks, IsPending), dates[k])
                           then AutoResolvedPick(picks[i], today, games, box, search) else updated[i]
    ensures forall i :: 0 <= i < |picks| ==>
              after[i] == if picks[i].date in dates[..k + 1] then AutoResolvedPick(picks[i], today, games, box, search) else picks[i]
  {
    forall i | 0 <= i < |picks|
      ensures after[i] == if picks[i].date in dates[..k + 1] then AutoResolvedPick(picks[i], today, games, box, search) else picks[i]
    {
      InPrefixSnoc(dates, k, picks[i].date);
      GroupVisitedOne(picks[i], picks, updated[i], after[i], dates, k, today, games, box, search);
    }
  }

  /** A prefix one longer holds one more element. */
  lemma InPrefixSnoc(s: seq<int>, k: nat, x: int)
    requires k < |s|
    ensures x in s[..k + 1] <==> x in s[..k] || x == s[k]
  {
    assert s[..k + 1] == s[..k] + [s[k]];
  }

  /** `GroupVisited` for one pick `x` of the list, whose slot held `u` before the visit and `a` after it. */
  lemma GroupVisitedOne(x: Pick, picks: seq<Pick>, u: Pick, a: Pick, dates: seq<int>, k: nat, today: int,
                        games: int -> Option<seq<int>>, box: int -> Option<map<int, BoxLine>>,
                        search: string -> Option<seq<int>>)
    requires x in picks && k < |dates|
    requires x.date in dates[..k + 1] <==> x.date in dates[..k] || x.date == dates[k]
    requires u == if x.date in dates[..k] then AutoResolvedPick(x, today, games, box, search) else x
    requires a == if x in OnDate(Filter(picks, IsPending), dates[k]) then AutoResolvedPick(x, today, games, box, search) else u
    ensures a == if x.date in dates[..k + 1] then AutoResolvedPick(x, today, games, box, search) else x
  {
    OnDateMembership(Filter(picks, IsPending), dates[k], x);
    FilterMembership(picks, IsPending, x);
  }

  /** The pending picks of one past date are pending picks of the list with that date. */
  lemma GroupMembers(picks: seq<Pick>, d: int, today: int)
    requires d < today
    ensures forall m :: 0 <= m < |OnDate(Filter(picks, IsPending), d)| ==>
              && OnDate(Filter(picks, IsPending), d)[m] in picks
              && PendingPast(OnDate(Filter(picks, IsPending), d)[m], today)
              && OnDate(Filter(picks, IsPending), d)[m].date == d
  {
    var pending := Filter(picks, IsPending);
    OnDateFrom(pending, d);
    forall q | q in pending
      ensures q in picks && IsPending(q)
    {
      FilterMembership(picks, IsPending, q);
    }
  }

  /** The loop over `datesToResolve`. */
  method ResolveDates(picks: seq<Pick>, dates: seq<int>, byDate: map<int, seq<Pick>>, today: int,
                      games: int -> Option<seq<int>>, box: int -> Option<map<int, BoxLine>>,
                      search: string -> Option<seq<int>>)
    returns (updated: seq<Pick>, resolved: nat, failed: nat)
    requires Distinct(dates)
    requires forall k :: 0 <= k < |dates| ==>
               dates[k] < today && dates[k] in byDate && byDate[dates[k]] == OnDate(Filter(picks, IsPending), dates[k])
    ensures ResolvedFromPast(picks, updated, today)
    ensures resolved + failed == SumGroups(Filter(picks, IsPending), dates)
    ensures resolved == SumGroups(Filter(picks, ResolvableIn(today, games, box, search)), dates)
    ensures UniqueIds(picks) ==> forall i :: 0 <= i < |picks| ==>
              updated[i] == if picks[i].date in dates then AutoResolvedPick(picks[i], today, games, box, search) else picks[i]
  {
    ghost var R := ResolvableIn(today, games, box, search);
    updated, resolved, failed := picks, 0, 0;
    for k := 0 to |dates|
      invariant ResolvedFromPast(picks, updated, today)
      invariant resolved + failed == SumGroups(Filter(picks, IsPending), dates[..k])
      invariant resolved == SumGroups(Filter(picks, R), dates[..k])
      invariant UniqueIds(picks) ==> forall i :: 0 <= i < |picks| ==>
                  updated[i] == if picks[i].date in dates[..k] then AutoResolvedPick(picks[i], today, games, box, search) else picks[i]
    {
      var date := dates[k];
      SumGroupsStep(Filter(picks, IsPending), dates, k);
      SumGroupsStep(Filter(picks, R), dates, k);
      GroupMembers(picks, date, today);
      ResolvableOnDate(picks, date, today, games, box, search);
      if UniqueIds(picks) {
        GroupUntouched(picks, updated, dates, k, today, games, box, search);
      }
      var u, r, f := ResolveDate(picks, updated, date, byDate[date], today, games, box, search);
      if UniqueIds(picks) {
        GroupVisited(picks, updated, u, dates, k, today, games, box, search);
      }
      updated, resolved, failed := u, resolved + r, failed + f;
    }
    assert dates[..|dates|] == dates;
  }

  /** The past dates among the keys cover exactly the pending picks of past days. */
  lemma PastDates(pending: seq<Pick>, keys: seq<int>, today: int)
    requires Distinct(keys)
    requires forall k :: 0 <= k < |pending| ==> pending[k].date in keys && pending[k].result == Pending
    ensures var past := Filter(keys, (d: int) => d < today);
            Distinct(past) && SumGroups(pending, past) == CountPendingPast(pending, today)
  {
    var past := Filter(keys, (d: int) => d < today);
    FilterDistinct(keys, (d: int) => d < today);
    forall k | 0 <= k < |pending|
      ensures pending[k].date in past <==> pending[k].date < today
    {
      FilterMembership(keys, (d: int) => d < today, pending[k].date);
    }
    SumGroupsPast(pending, past, today);
  }

  /** A list of pending picks of past days counts in full. */
  lemma {:induction false} CountAllPast(s: seq<Pick>, today: int)
    requires forall k :: 0 <= k < |s| ==> PendingPast(s[k], today)
    ensures CountPendingPast(s, today) == |s|
    decreases |s|
  {
    if s != [] {
      CountAllPast(s[..|s| - 1], today);
    }
  }

  /**
   * With the past dates of the pending picks, a pick whose date is not
   * among them is left alone, and summed over them the resolvable picks
   * count once each.
   */
  lemma ResolvableOnPastDates(picks: seq<Pick>, dates: seq<int>, today: int, games: int -> Option<seq<int>>,
                              box: int -> Option<map<int, BoxLine>>, search: string -> Option<seq<int>>)
    requires Distinct(dates)
    requires forall k :: 0 <= k < |Filter(picks, IsPending)| ==>
               (Filter(picks, IsPending)[k].date in dates <==> Filter(picks, IsPending)[k].date < today)
    ensures forall i :: 0 <= i < |picks| && picks[i].date !in dates ==>
              AutoResolvedPick(picks[i], today, games, box, search) == picks[i]
    ensures SumGroups(Filter(picks, ResolvableIn(today, games, box, search)), dates)
            == |Filter(picks, ResolvableIn(today, games, box, search))|
  {
    var R := ResolvableIn(today, games, box, search);
    var rs := Filter(picks, R);
    forall x | x in picks && PendingPast(x, today)
      ensures x.date in dates
    {
      FilterMembership(picks, IsPending, x);
    }
    forall k | 0 <= k < |rs|
      ensures PendingPast(rs[k], today) && rs[k].date in dates
    {
      assert R(rs[k]);
      FilterMembership(picks, R, rs[k]);
    }
    SumGroupsPast(rs, dates, today);
    CountAllPast(rs, today);
  }

  /**
   * `byDate` and `datesToResolve`: the past dates of the pending picks,
   * each once, with each date's pending picks in order.
   */
  method PastGroups(pending: seq<Pick>, today: int) returns (dates: seq<int>, byDate: map<int, seq<Pick>>)
    requires forall k :: 0 <= k < |pending| ==> pending[k].result == Pending
    ensures Distinct(dates)
    ensures forall k :: 0 <= k < |dates| ==>
              dates[k] < today && dates[k] in byDate && byDate[dates[k]] == OnDate(pending, dates[k])
    ensures forall k :: 0 <= k < |pending| ==> (pending[k].date in dates <==> pending[k].date < today)
    ensures SumGroups(pending, dates) == CountPendingPast(pending, today)
  {
    var keys;
    keys, byDate := GroupByDate(pending);
    dates := Filter(keys, (d: int) => d < today);
    PastDates(pending, keys, today);
    forall k | 0 <= k < |dates|
      ensures dates[k] < today && dates[k] in byDate
    {
      FilterMembership(keys, (d: int) => d < today, dates[k]);
    }
    forall k | 0 <= k < |pending|
      ensures pending[k].date in dates <==> pending[k].date < today
    {
      FilterMembership(keys, (d: int) => d < today, pending[k].date);
    }
  }

  /** Without pending picks nothing is resolvable and every pick stays as it is. */
  lemma NoPendingLeavesAll(picks: seq<Pick>, today: int, games: int -> Option<seq<int>>,
                           box: int -> Option<map<int, BoxLine>>, search: string -> Option<seq<int>>)
    requires |Filter(picks, IsPending)| == 0
    ensures Filter(picks, ResolvableIn(today, games, box, search)) == []
    ensures forall i :: 0 <= i < |picks| ==> AutoResolvedPick(picks[i], today, games, box, search) == picks[i]
  {
    forall i | 0 <= i < |picks|
      ensures !ResolvableIn(today, games, box, search)(picks[i])
      ensures AutoResolvedPick(picks[i], today, games, box, search) == picks[i]
    {
      assert !IsPending(picks[i]);
    }
    FilterNone(picks, ResolvableIn(today, games, box, search));
  }

  /**
   * `autoResolve`: groups the pending picks by date, and for each past
   * date merges that day's box scores and resolves each of its picks.
   * `games(d)` is the game ids of day `d` (`None` when `fetchGames`
   * throws), `box(pk)` the `fetchBoxHits` answer and `search(name)` the ids
   * `searchPlayers` returns (`None` when it throws).  Every pending pick of
   * a past day is counted once, as resolved or as failed; `resolved` counts
   * the picks `AutoResolution` resolves, and with unique ids every slot
   * ends as `AutoResolvedPick` of its pick.
   */
  method AutoResolve(picks: seq<Pick>, today: int, games: int -> Option<seq<int>>,
                     box: int -> Option<map<int, BoxLine>>, search: string -> Option<seq<int>>)
    returns (updated: seq<Pick>, resolved: nat, failed: nat)
    ensures |updated| == |picks|
    ensures forall i :: 0 <= i < |picks| ==> updated[i].id == picks[i].id
    ensures forall i :: 0 <= i < |picks| && updated[i] != picks[i] ==>
              Resolved(picks[i], updated[i]) &&
              exists j :: 0 <= j < |picks| && picks[j].id == picks[i].id && PendingPast(picks[j], today)
    ensures resolved + failed == CountPendingPast(picks, today)
    ensures resolved == |Filter(picks, ResolvableIn(today, games, box, search))|
    ensures UniqueIds(picks) ==> forall i :: 0 <= i < |picks| ==>
              updated[i] == AutoResolvedPick(picks[i], today, games, box, search)
  {
    updated, resolved, failed := picks, 0, 0;
    PendingCountPast(picks, today);
    var pending := Filter(picks, IsPending);
    if |pending| == 0 {
      NoPendingLeavesAll(picks, today, games, box, search);
      return;
    }
    var datesToResolve, byDate := PastGroups(pending, today);
    ResolvableOnPastDates(picks, datesToResolve, today, games, box, search);
    if |datesToResolve| == 0 {
      return;
    }
    updated, resolved, failed := ResolveDates(picks, datesToResolve, byDate, today, games, box, search);
  }

  /** With unique ids, `autoResolve` touches only pending picks of past days. */
  lemma UniqueIdsTouchOnlyPast(picks: seq<Pick>, updated: seq<Pick>, today: int, i: nat)
    requires UniqueIds(picks)
    requires i < |picks| == |updated|
    requires updated[i] != picks[i] ==>
               exists j :: 0 <= j < |picks| && picks[j].id == picks[i].id && PendingPast(picks[j], today)
    ensures updated[i] != picks[i] ==> PendingPast(picks[i], today)
  {
    if updated[i] != picks[i] {
      var j :| 0 <= j < |picks| && picks[j].id == picks[i].id && PendingPast(picks[j], today);
      assert j == i;
    }
  }

  /** The mount check (a pending pick dated yesterday or earlier) fires exactly when there is something to resolve. */
  lemma MountCheckAgrees(picks: seq<Pick>, today: int)
    ensures (exists i :: 0 <= i < |picks| && picks[i].result == Pending && picks[i].date <= today - 1)
              <==> CountPendingPast(picks, today) > 0
  {
    CountPositive(picks, today);
  }

  lemma {:induction false} CountPositive(s: seq<Pick>, today: int)
    ensures CountPendingPast(s, today) > 0 <==> exists i :: 0 <= i < |s| && PendingPast(s[i], today)
    decreases |s|
  {
    if s != [] {
      var init := s[..|s| - 1];
      CountPositive(init, today);
      if exists i :: 0 <= i < |init| && PendingPast(init[i], today) {
        var i :| 0 <= i < |init| && PendingPast(init[i], today);
        assert s[i] == init[i];
      }
      if exists i :: 0 <= i < |s| && PendingPast(s[i], today) {
        var i :| 0 <= i < |s| && PendingPast(s[i], today);
        if i < |init| {
          assert init[i] == s[i];
        }
      }
    }
  }
}

/**
 * The backtester (frontend/src/components/tools/Backtester.jsx): runs the
 * hit-score engine over a range of past dates, takes the best `topN`
 * batters of each day and checks them against that day's box scores.
 *
 * Per day the source fetches the slate, builds a pool from the rosters
 * (there are no lineups for past games: every batter is projected fifth),
 * scores it in batches of 8, sorts by score, keeps the first `topN` and
 * grades each against the set of players with a hit in its game.  The
 * fetches are inputs: `slate(d)` is `fetchGames(d)` (`None` when it throws),
 * `rosters` the `fetchRoster` answers by team id, `data(c)` everything
 * fetched for one pool entry (`None` when `scoreBatter` returns `null`),
 * `box(pk)` the box-score answer (`None` when it fails).  The abort button
 * is the point at which the flag is first seen, in `Abort`.
 */
module Backtester {
  import opened Wrappers
  import opened Sorting
  import opened Numeric
  import opened Batching
  import GameLog
  import HitScore
  import TodaysPicks

  type Game = TodaysPicks.Game
  type Candidate = TodaysPicks.Candidate

  // ---------------------------------------------------------------------
  // The days of the range
  // ---------------------------------------------------------------------

  /**
   * `for (d = start; d <= end; d = addDays(d, 1)) days.push(d)`, with days
   * as consecutive integers: every day from `start` to `end` inclusive, in
   * ascending order, and none when `end` is before `start`.
   */
  method EnumerateDays(start: int, end: int) returns (days: seq<int>)
    ensures |days| == if start <= end then end - start + 1 else 0
    ensures forall i :: 0 <= i < |days| ==> days[i] == start + i
  {
    days := [];
    var d := start;
    while d <= end
      invariant start <= d <= end + 1 || (d == start && end < start)
      invariant |days| == d - start
      invariant forall i :: 0 <= i < |days| ==> days[i] == start + i
      decreases end - d
    {
      days := days + [d];
      d := d + 1;
    }
  }

  /** The enumerated days are strictly ascending and each lies in the range. */
  lemma DaysAscending(days: seq<int>, start: int, end: int)
    requires |days| == if start <= end then end - start + 1 else 0
    requires forall i :: 0 <= i < |days| ==> days[i] == start + i
    ensures forall i, j :: 0 <= i < j < |days| ==> days[i] < days[j]
    ensures forall i :: 0 <= i < |days| ==> start <= days[i] <= end
    ensures forall d :: start <= d <= end ==> d in days
  {
    forall d | start <= d <= end
      ensures d in days
    {
      assert days[d - start] == d;
    }
  }

  // ---------------------------------------------------------------------
  // Scoring one batter (`scoreBatter` of the backtester)
  // ---------------------------------------------------------------------

  /** The batting position every backtest entry is scored at. */
  const BACKTEST_LINEUP_POS: int := 5

  /**
   * The hand fix-up of the backtester: an unknown hand is replaced by the
   * looked-up one (`"R"` if that is empty), but is left as it was when the
   * lookup returns `null`.
   */
  function BacktestHand(hand: Option<string>, personInfo: Option<string>): (h: Option<string>)
    ensures TodaysPicks.HandKnown(hand) ==> h == hand
    ensures !TodaysPicks.HandKnown(hand) && personInfo.Some? ==>
              h == Some(if personInfo.value != "" then personInfo.value else "R")
    ensures !TodaysPicks.HandKnown(hand) && personInfo.None? ==> h == hand
  {
    if TodaysPicks.HandKnown(hand) then hand
    else if personInfo.Some? then Some(if personInfo.value != "" then personInfo.value else "R")
    else hand
  }

  /**
   * The two fix-ups agree whenever the lookup answers; without an answer
   * the pick board settles a missing hand on `"R"` while the backtester
   * leaves it missing.
   */
  lemma HandFixUpsCompared(hand: Option<string>, personInfo: Option<string>)
    ensures personInfo.Some? ==> BacktestHand(hand, personInfo) == TodaysPicks.FixedHand(hand, personInfo)
    ensures hand.None? && personInfo.None? ==>
              BacktestHand(hand, personInfo) == None && TodaysPicks.FixedHand(hand, personInfo) == Some("R")
  {
  }

  /**
   * The argument object of `computeHitScore`: the pick board's, with the
   * batting position fixed at 5 and no Statcast row.
   */
  function BacktestInputs(c: Candidate, d: TodaysPicks.BatterData, now: int): (inp: HitScore.HitInputs)
    ensures inp.lineupPos == BACKTEST_LINEUP_POS
    ensures inp.statcast.None? && !HitScore.HasStatcast(inp)
    ensures inp.hasBvP <==> TodaysPicks.HasBvP(TodaysPicks.Merged(d.main, d.spring).bvp)
  {
    var m := TodaysPicks.Merged(d.main, d.spring);
    TodaysPicks.InputsOf(c.(lineupPos := BACKTEST_LINEUP_POS), BacktestHand(c.pitcher.hand, d.personInfo),
                         m.(statcast := None), now)
  }

  /** One scored batter, with the fields the results table shows. */
  datatype Scored = Scored(
    batterId: int, batterName: string, pitcherId: int, pitcherHand: Option<string>,
    team: string, gamePk: int, score: int, tier: HitScore.Tier, hasBvP: bool)

  /** `scoreBatter`: `None` when any step throws. */
  function ScoreBatter(c: Candidate, data: Option<TodaysPicks.BatterData>, now: int): (r: Option<Scored>)
    ensures r.Some? <==> data.Some?
    ensures r.Some? ==> && r.value.batterId == c.batter.id && r.value.gamePk == c.game.gamePk
                        && 0 <= r.value.score <= 100 && r.value.tier == HitScore.TierOf(r.value.score)
  {
    if data.None? then None
    else
      var d := data.value;
      var m := TodaysPicks.Merged(d.main, d.spring);
      var sd := HitScore.ComputeHitScore(BacktestInputs(c, d, now));
      Some(Scored(c.batter.id, c.batter.name, c.pitcher.id, BacktestHand(c.pitcher.hand, d.personInfo),
                  TodaysPicks.TeamOf(c.game, c.side).team, c.game.gamePk, sd.score, sd.tier,
                  TodaysPicks.HasBvP(m.bvp)))
  }

  /**
   * Backtest scores do not depend on the clock: the pitcher's rest is
   * measured from the current time rather than the backtested date, but
   * without Statcast the rest bonus is not part of either weight table.
   */
  lemma ScoreIgnoresClock(c: Candidate, d: TodaysPicks.BatterData, now: int, now': int)
    ensures ScoreBatter(c, Some(d), now).value.score == ScoreBatter(c, Some(d), now').value.score
  {
    var inp := BacktestInputs(c, d, now);
    var inp' := BacktestInputs(c, d, now');
    assert inp' == inp.(pitcherDaysRest := inp'.pitcherDaysRest);
    HitScore.RestIgnoredWithoutStatcast(inp, inp'.pitcherDaysRest);
  }

  /** Every backtest score lists the "no Statcast" pill: the plain weight tables always apply. */
  lemma ScoredWithoutStatcast(c: Candidate, d: TodaysPicks.BatterData, now: int)
    ensures !HitScore.ComputeHitScore(BacktestInputs(c, d, now)).hasStatcast
    ensures HitScore.NoStatcastData in HitScore.ComputeHitScore(BacktestInputs(c, d, now)).factors
  {
    var inp := BacktestInputs(c, d, now);
    HitScore.NoStatcastPill(inp);
  }

  // ---------------------------------------------------------------------
  // Box scores (`fetchBoxHits`)
  // ---------------------------------------------------------------------

  /** A box-score batting line: the player's id (if any) and hits, 0 when missing. */
  datatype BoxPlayer = BoxPlayer(personId: Option<int>, hits: int)

  /** The players of both sides; a side that is missing has none. */
  datatype BoxTeams = BoxTeams(home: seq<BoxPlayer>, away: seq<BoxPlayer>)

  /** The ids of the players with at least one hit. */
  function HitIds(players: seq<BoxPlayer>): set<int> {
    set p | p in players && p.personId.Some? && p.hits > 0 :: p.personId.value
  }

  /** The hit set of a box-score answer: empty when the fetch failed. */
  function HitSetOf(answer: Option<BoxTeams>): (r: set<int>)
    ensures answer.None? ==> r == {}
  {
    if answer.None? then {} else HitIds(answer.value.home + answer.value.away)
  }

  /** A player is in the hit set exactly when one of their lines shows a hit. */
  lemma HitSetExact(answer: BoxTeams, id: int)
    ensures id in HitSetOf(Some(answer)) <==>
              exists p :: p in answer.home + answer.away && p.personId == Some(id) && p.hits > 0
  {
    if exists p :: p in answer.home + answer.away && p.personId == Some(id) && p.hits > 0 {
      var p :| p in answer.home + answer.away && p.personId == Some(id) && p.hits > 0;
      assert p.personId.value == id;
    }
  }

  /** `fetchBoxHits`: walks both sides' players and collects those with a hit. */
  method FetchBoxHits(answer: Option<BoxTeams>) returns (hitSet: set<int>)
    ensures hitSet == HitSetOf(answer)
  {
    hitSet := {};
    if answer.None? {
      return;
    }
    var sides := [answer.value.home, answer.value.away];
    ghost var seen: seq<BoxPlayer> := [];
    for si := 0 to 2
      invariant seen == (if si == 0 then [] else if si == 1 then sides[0] else sides[0] + sides[1])
      invariant hitSet == HitIds(seen)
    {
      var players := sides[si];
      for k := 0 to |players|
        invariant hitSet == HitIds(seen + players[..k])
      {
        var p := players[k];
        assert players[..k + 1] == players[..k] + [p];
        if p.personId.Some? && p.hits > 0 {
          hitSet := hitSet + {p.personId.value};
        }
        HitIdsSnoc(seen + players[..k], p);
        assert seen + players[..k + 1] == (seen + players[..k]) + [p];
      }
      assert players[..|players|] == players;
      seen := seen + players;
    }
  }

  lemma HitIdsSnoc(s: seq<BoxPlayer>, p: BoxPlayer)
    ensures HitIds(s + [p]) == HitIds(s) + (if p.personId.Some? && p.hits > 0 then {p.personId.value} else {})
  {
    assert forall q :: q in s + [p] <==> q in s || q == p;
  }

  // ---------------------------------------------------------------------
  // One day
  // ---------------------------------------------------------------------

  const BATCH: nat := 8

  /** A top pick with its verdict: hit, no hit, or `null` when its game has no hit set. */
  datatype Graded = Graded(pick: Scored, gotHit: Option<bool>)

  datatype Note = NoGames | Failed

  datatype DayResult = DayResult(date: int, picks: seq<Graded>, note: Option<Note>)

  function ScoreKey(s: Scored): real { s.score as real }

  /** `hitSets`: one hit set per game of the slate. */
  function HitSets(games: seq<Game>, box: int -> Option<BoxTeams>): (m: map<int, set<int>>)
    ensures forall g :: g in games ==> g.gamePk in m && m[g.gamePk] == HitSetOf(box(g.gamePk))
    ensures forall pk :: pk in m ==> exists g :: g in games && g.gamePk == pk
  {
    map pk | pk in (set g | g in games :: g.gamePk) :: HitSetOf(box(pk))
  }

  lemma HitSetsSnoc(games: seq<Game>, g: Game, box: int -> Option<BoxTeams>)
    ensures HitSets(games + [g], box) == HitSets(games, box)[g.gamePk := HitSetOf(box(g.gamePk))]
  {
    var l, r := HitSets(games + [g], box), HitSets(games, box)[g.gamePk := HitSetOf(box(g.gamePk))];
    forall pk | pk in l
      ensures pk in r
    {
      var h :| h in games + [g] && h.gamePk == pk;
      if h != g {
        assert h in games;
      }
    }
    assert l.Keys == r.Keys;
  }

  /** The concurrent box-score fetches of one day, one hit set per game. */
  method BuildHitSets(games: seq<Game>, box: int -> Option<BoxTeams>) returns (hitSets: map<int, set<int>>)
    ensures hitSets == HitSets(games, box)
  {
    hitSets := map[];
    for gi := 0 to |games|
      invariant hitSets == HitSets(games[..gi], box)
    {
      var hits := FetchBoxHits(box(games[gi].gamePk));
      assert games[..gi + 1] == games[..gi] + [games[gi]];
      HitSetsSnoc(games[..gi], games[gi], box);
      hitSets := hitSets[games[gi].gamePk := hits];
    }
    assert games[..|games|] == games;
  }

  /** `actualHits ? actualHits.has(p.batterId) : null`. */
  function Grade(p: Scored, hitSets: map<int, set<int>>): (g: Graded)
    ensures g.pick == p
    ensures g.gotHit.None? <==> p.gamePk !in hitSets
    ensures g.gotHit == Some(true) <==> p.gamePk in hitSets && p.batterId in hitSets[p.gamePk]
  {
    Graded(p, if p.gamePk in hitSets then Some(p.batterId in hitSets[p.gamePk]) else None)
  }

  function GradeAll(top: seq<Scored>, hitSets: map<int, set<int>>): (r: seq<Graded>)
    ensures |r| == |top|
    ensures forall i :: 0 <= i < |r| ==> r[i] == Grade(top[i], hitSets)
  {
    seq(|top|, i requires 0 <= i < |top| => Grade(top[i], hitSets))
  }

  /** The score of each pool entry of the day. */
  function Scorer(data: Candidate -> Option<TodaysPicks.BatterData>, now: int): Candidate -> Option<Scored> {
    c => ScoreBatter(c, data(c), now)
  }

  /** A score is for the entry's own game. */
  ghost predicate KeepsGame(score: Candidate -> Option<Scored>) {
    forall c :: score(c).Some? ==> score(c).value.gamePk == c.game.gamePk
  }

  /** `scoreBatter` scores an entry for its own game. */
  lemma ScorerKeepsGame(data: Candidate -> Option<TodaysPicks.BatterData>, now: int)
    ensures KeepsGame(Scorer(data, now))
  {
    forall c | Scorer(data, now)(c).Some?
      ensures Scorer(data, now)(c).value.gamePk == c.game.gamePk
    {
      assert Scorer(data, now)(c) == ScoreBatter(c, data(c), now);
    }
  }

  /** The pool of a slate: the pick board's rule with no confirmed lineups. */
  function PoolOf(games: seq<Game>, rosters: map<int, seq<GameLog.Player>>): seq<Candidate> {
    TodaysPicks.PoolOf(games, map[], rosters)
  }

  /** What one day of the run yields; `abortAt` is the batch at which the flag is seen, if it is. */
  function DayResultOf(date: int, slate: Option<seq<Game>>, rosters: map<int, seq<GameLog.Player>>,
                       score: Candidate -> Option<Scored>, box: int -> Option<BoxTeams>,
                       topN: nat, abortAt: Option<nat>): DayResult
  {
    if slate.None? then DayResult(date, [], Some(Failed))
    else if |slate.value| == 0 then DayResult(date, [], Some(NoGames))
    else
      var top := TopPicks(PoolOf(slate.value, rosters), score, topN, abortAt);
      DayResult(date, GradeAll(top, HitSets(slate.value, box)), None)
  }

  /** `scored.sort(...)` then `slice(0, topN)`, over the entries the batch loop covered. */
  function TopPicks(pool: seq<Candidate>, score: Candidate -> Option<Scored>, topN: nat, abortAt: Option<nat>): seq<Scored> {
    Take(SortBy(Kept(pool[..Covered(|pool|, BATCH, abortAt)], score), ScoreKey, true), topN)
  }

  /** The body of the loop over `days`, for one day. */
  method RunDay(date: int, slate: Option<seq<Game>>, rosters: map<int, seq<GameLog.Player>>,
                score: Candidate -> Option<Scored>, box: int -> Option<BoxTeams>,
                topN: nat, abortAt: Option<nat>)
    returns (day: DayResult)
    requires KeepsGame(score)
    ensures day == DayResultOf(date, slate, rosters, score, box, topN, abortAt)
    ensures forall k :: 0 <= k < |day.picks| ==> day.picks[k].gotHit.Some?
  {
    DayPicksAllGraded(date, slate, rosters, score, box, topN, abortAt);
    if slate.None? {
      return DayResult(date, [], Some(Failed));
    }
    var games := slate.value;
    if |games| == 0 {
      return DayResult(date, [], Some(NoGames));
    }
    var pool, _ := TodaysPicks.BuildPool(games, map[], rosters);
    var scored, done := RunBatches(pool, BATCH, score, abortAt);
    var top := Take(SortBy(scored, ScoreKey, true), topN);
    assert top == TopPicks(pool, score, topN, abortAt);
    var hitSets := BuildHitSets(games, box);
    day := DayResult(date, GradeAll(top, hitSets), None);
  }

  /**
   * A day's picks are the best of the scored entries: in score order, best
   * first, and no scored entry left out beats one that was kept.
   */
  lemma {:induction false} TopPicksAreBest(pool: seq<Candidate>, score: Candidate -> Option<Scored>,
                                           topN: nat, abortAt: Option<nat>)
    ensures var sorted := SortBy(Kept(pool[..Covered(|pool|, BATCH, abortAt)], score), ScoreKey, true);
            && |TopPicks(pool, score, topN, abortAt)| <= topN
            && (forall i, j :: 0 <= i < j < |TopPicks(pool, score, topN, abortAt)| ==>
                  TopPicks(pool, score, topN, abortAt)[i].score >= TopPicks(pool, score, topN, abortAt)[j].score)
            && (forall i, j :: 0 <= i < |TopPicks(pool, score, topN, abortAt)| <= j < |sorted| ==>
                  TopPicks(pool, score, topN, abortAt)[i].score >= sorted[j].score)
  {
    var sorted := SortBy(Kept(pool[..Covered(|pool|, BATCH, abortAt)], score), ScoreKey, true);
    var top := TopPicks(pool, score, topN, abortAt);
    forall i, j | 0 <= i < j < |top|
      ensures top[i].score >= top[j].score
    {
      assert InOrder(ScoreKey, true, sorted[i], sorted[j]);
    }
    forall i, j | 0 <= i < |top| <= j < |sorted|
      ensures top[i].score >= sorted[j].score
    {
      TakeDominates(sorted, ScoreKey, true, topN, i, j);
    }
  }

  /** Every top pick is the score of an entry of the pool. */
  lemma TopFromPool(pool: seq<Candidate>, score: Candidate -> Option<Scored>, topN: nat, abortAt: Option<nat>, p: Scored)
    requires p in TopPicks(pool, score, topN, abortAt)
    ensures exists i :: 0 <= i < |pool| && score(pool[i]) == Some(p)
  {
    var covered := pool[..Covered(|pool|, BATCH, abortAt)];
    var scored := Kept(covered, score);
    var sorted := SortBy(scored, ScoreKey, true);
    assert p in sorted;
    assert p in multiset(scored);
    KeptMembership(covered, score, p);
    var i :| 0 <= i < |covered| && score(covered[i]) == Some(p);
    assert covered[i] == pool[i];
  }

  /**
   * Every pick of a day comes from a pool entry: some entry of the pool,
   * facing the opposing probable pitcher and projected fifth, scores to it.
   */
  lemma DayPicksFromPool(slate: seq<Game>, rosters: map<int, seq<GameLog.Player>>,
                         data: Candidate -> Option<TodaysPicks.BatterData>,
                         now: int, topN: nat, abortAt: Option<nat>, p: Scored)
    requires p in TopPicks(PoolOf(slate, rosters), Scorer(data, now), topN, abortAt)
    ensures exists c :: c in PoolOf(slate, rosters) && c.game in slate && c.lineupPos == BACKTEST_LINEUP_POS
                        && ScoreBatter(c, data(c), now) == Some(p)
  {
    var pool := PoolOf(slate, rosters);
    TopFromPool(pool, Scorer(data, now), topN, abortAt, p);
    var i :| 0 <= i < |pool| && Scorer(data, now)(pool[i]) == Some(p);
    var c := pool[i];
    assert c in pool;
    TodaysPicks.PoolWithoutLineups(slate, rosters);
    assert ScoreBatter(c, data(c), now) == Some(p);
  }

  /**
   * A day that has a slate grades every pick: each top pick's game is on
   * the slate, so its hit set exists and `gotHit` is never `null`.  (A box
   * score that failed to load gives an empty set, which grades as a miss.)
   */
  lemma {:induction false} DayPicksAllGraded(date: int, slate: Option<seq<Game>>, rosters: map<int, seq<GameLog.Player>>,
                                             score: Candidate -> Option<Scored>,
                                             box: int -> Option<BoxTeams>, topN: nat, abortAt: Option<nat>)
    requires KeepsGame(score)
    ensures forall k :: 0 <= k < |DayResultOf(date, slate, rosters, score, box, topN, abortAt).picks| ==>
              DayResultOf(date, slate, rosters, score, box, topN, abortAt).picks[k].gotHit.Some?
  {
    if slate.Some? && |slate.value| > 0 {
      var pool := PoolOf(slate.value, rosters);
      var top := TopPicks(pool, score, topN, abortAt);
      var hs := HitSets(slate.value, box);
      TodaysPicks.PoolWithoutLineups(slate.value, rosters);
      forall k | 0 <= k < |top|
        ensures top[k].gamePk in hs
      {
        TopFromPool(pool, score, topN, abortAt, top[k]);
        var i :| 0 <= i < |pool| && score(pool[i]) == Some(top[k]);
        assert pool[i] in pool;
      }
    }
  }

  /** A pick whose game's box score failed to load counts as a miss. */
  lemma FailedBoxIsMiss(p: Scored, hitSets: map<int, set<int>>, box: int -> Option<BoxTeams>)
    requires p.gamePk in hitSets && hitSets[p.gamePk] == HitSetOf(box(p.gamePk)) && box(p.gamePk).None?
    ensures Grade(p, hitSets).gotHit == Some(false)
  {
  }

  // ---------------------------------------------------------------------
  // The run over all days
  // ---------------------------------------------------------------------

  /**
   * Where the abort flag is first seen: never, at the abort test before day
   * `d`, or at the abort test before batch `b` of day `d` (the rest of that day
   * still runs on the entries scored so far, and the abort test before day
   * `d + 1` then stops the run).
   */
  datatype Abort = Never | BeforeDay(d: nat) | InBatch(d: nat, b: nat)

  /** The abort test before day `di` sees the flag. */
  predicate StopsAt(abort: Abort, di: nat) {
    (abort.BeforeDay? && abort.d <= di) || (abort.InBatch? && abort.d < di)
  }

  /** The batch at which day `di`'s loop sees the flag. */
  function BatchAbort(abort: Abort, di: nat): Option<nat> {
    if abort.InBatch? && abort.d == di then Some(abort.b) else None
  }

  /** The number of days the run visits. */
  function DaysRun(abort: Abort, n: nat): (k: nat)
    ensures k <= n
    ensures forall di :: 0 <= di < k ==> !StopsAt(abort, di)
    ensures k == n || StopsAt(abort, k)
  {
    match abort
    case Never => n
    case BeforeDay(d) => MinNat(d, n)
    case InBatch(d, _) => MinNat(d + 1, n)
  }

  /** `DaysRun` is the first day whose check sees the flag, or every day. */
  lemma DaysRunAt(abort: Abort, n: nat, di: nat)
    requires di <= n
    requires forall i :: 0 <= i < di ==> !StopsAt(abort, i)
    requires di == n || StopsAt(abort, di)
    ensures DaysRun(abort, n) == di
  {
  }

  /** The results of the first `n` days, each day run with the batch at which it sees the flag. */
  function DaysOf(days: seq<int>, slate: int -> Option<seq<Game>>, rosters: map<int, seq<GameLog.Player>>,
                  score: Candidate -> Option<Scored>, box: int -> Option<BoxTeams>,
                  topN: nat, abort: Abort, n: nat): (r: seq<DayResult>)
    requires n <= |days|
    ensures |r| == n
  {
    if n == 0 then []
    else DaysOf(days, slate, rosters, score, box, topN, abort, n - 1)
         + [DayResultOf(days[n - 1], slate(days[n - 1]), rosters, score, box, topN, BatchAbort(abort, n - 1))]
  }

  /** Entry `i` is day `i`'s result. */
  lemma {:induction false} DaysOfAt(days: seq<int>, slate: int -> Option<seq<Game>>, rosters: map<int, seq<GameLog.Player>>,
                                    score: Candidate -> Option<Scored>, box: int -> Option<BoxTeams>,
                                    topN: nat, abort: Abort, n: nat, i: nat)
    requires i < n <= |days|
    ensures DaysOf(days, slate, rosters, score, box, topN, abort, n)[i]
            == DayResultOf(days[i], slate(days[i]), rosters, score, box, topN, BatchAbort(abort, i))
  {
    if i < n - 1 {
      DaysOfAt(days, slate, rosters, score, box, topN, abort, n - 1, i);
    }
  }

  /** Every pick of every day run is graded. */
  lemma {:induction false} DaysOfGraded(days: seq<int>, slate: int -> Option<seq<Game>>, rosters: map<int, seq<GameLog.Player>>,
                                        score: Candidate -> Option<Scored>, box: int -> Option<BoxTeams>,
                                        topN: nat, abort: Abort, n: nat)
    requires KeepsGame(score)
    requires n <= |days|
    ensures forall i, k :: 0 <= i < n && 0 <= k < |DaysOf(days, slate, rosters, score, box, topN, abort, n)[i].picks| ==>
              DaysOf(days, slate, rosters, score, box, topN, abort, n)[i].picks[k].gotHit.Some?
  {
    var r := DaysOf(days, slate, rosters, score, box, topN, abort, n);
    forall i | 0 <= i < n
      ensures forall k :: 0 <= k < |r[i].picks| ==> r[i].picks[k].gotHit.Some?
    {
      DaysOfAt(days, slate, rosters, score, box, topN, abort, n, i);
      DayPicksAllGraded(days[i], slate(days[i]), rosters, score, box, topN, BatchAbort(abort, i));
    }
  }

  /** The loop over `days`: one result per day visited, in order, every pick graded. */
  method RunDays(days: seq<int>, slate: int -> Option<seq<Game>>, rosters: map<int, seq<GameLog.Player>>,
                 score: Candidate -> Option<Scored>, box: int -> Option<BoxTeams>,
                 topN: nat, abort: Abort)
    returns (dayResults: seq<DayResult>)
    requires KeepsGame(score)
    ensures DaysRun(abort, |days|) <= |days|
    ensures dayResults == DaysOf(days, slate, rosters, score, box, topN, abort, DaysRun(abort, |days|))
    ensures forall i, k :: 0 <= i < |dayResults| && 0 <= k < |dayResults[i].picks| ==> dayResults[i].picks[k].gotHit.Some?
  {
    dayResults := [];
    var di := 0;
    while di < |days|
      invariant di <= |days|
      invariant forall i :: 0 <= i < di ==> !StopsAt(abort, i)
      invariant dayResults == DaysOf(days, slate, rosters, score, box, topN, abort, di)
    {
      if StopsAt(abort, di) {
        break;
      }
      var day := RunDay(days[di], slate(days[di]), rosters, score, box, topN, BatchAbort(abort, di));
      dayResults := dayResults + [day];
      di := di + 1;
    }
    DaysRunAt(abort, |days|, di);
    DaysOfGraded(days, slate, rosters, score, box, topN, abort, di);
  }

  // ---------------------------------------------------------------------
  // Summary
  // ---------------------------------------------------------------------

  /** Every graded pick of the run, day after day. */
  function AllPicks(days: seq<DayResult>): seq<Graded>
    decreases |days|
  {
    if days == [] then [] else AllPicks(days[..|days| - 1]) + days[|days| - 1].picks
  }

  predicate IsWin(p: Graded) { p.gotHit == Some(true) }
  predicate IsLoss(p: Graded) { p.gotHit == Some(false) }
  predicate IsUnknown(p: Graded) { p.gotHit.None? }

  /** The number of picks satisfying `f`. */
  function CountIf(s: seq<Graded>, f: Graded -> bool): nat
    decreases |s|
  {
    if s == [] then 0 else CountIf(s[..|s| - 1], f) + (if f(s[|s| - 1]) then 1 else 0)
  }

  /** The hits and the decided picks of one tier. */
  function TierWins(s: seq<Graded>, t: HitScore.Tier): nat
    decreases |s|
  {
    if s == [] then 0
    else TierWins(s[..|s| - 1], t) + (if s[|s| - 1].pick.tier == t && IsWin(s[|s| - 1]) then 1 else 0)
  }

  function TierDecided(s: seq<Graded>, t: HitScore.Tier): nat
    decreases |s|
  {
    if s == [] then 0
    else TierDecided(s[..|s| - 1], t) + (if s[|s| - 1].pick.tier == t && !IsUnknown(s[|s| - 1]) then 1 else 0)
  }

  datatype Tally = Tally(hits: nat, decided: nat)

  datatype Summary = Summary(totalPicks: nat, wins: nat, losses: nat, unknown: nat,
                             tierHits: map<HitScore.Tier, Tally>)

  const TIERS: set<HitScore.Tier> := {HitScore.Elite, HitScore.Strong, HitScore.Solid, HitScore.Risky}

  /** The tallies of the summary, updated for one more pick. */
  function CountPick(s: Summary, p: Graded): Summary
    requires p.pick.tier in s.tierHits
  {
    var t := s.tierHits[p.pick.tier];
    if IsWin(p) then
      s.(totalPicks := s.totalPicks + 1, wins := s.wins + 1,
         tierHits := s.tierHits[p.pick.tier := Tally(t.hits + 1, t.decided + 1)])
    else if IsLoss(p) then
      s.(totalPicks := s.totalPicks + 1, losses := s.losses + 1,
         tierHits := s.tierHits[p.pick.tier := Tally(t.hits, t.decided + 1)])
    else s.(totalPicks := s.totalPicks + 1, unknown := s.unknown + 1)
  }

  /** The summary holds the tallies of the picks `s`. */
  ghost predicate Tallies(sum: Summary, s: seq<Graded>) {
    && sum.totalPicks == |s|
    && sum.wins == CountIf(s, IsWin)
    && sum.losses == CountIf(s, IsLoss)
    && sum.unknown == CountIf(s, IsUnknown)
    && sum.tierHits.Keys == TIERS
    && forall t :: t in TIERS ==> sum.tierHits[t] == Tally(TierWins(s, t), TierDecided(s, t))
  }

  lemma CountPickSnoc(sum: Summary, s: seq<Graded>, p: Graded)
    requires Tallies(sum, s)
    ensures p.pick.tier in sum.tierHits && Tallies(CountPick(sum, p), s + [p])
  {
    var s' := s + [p];
    assert s'[..|s|] == s && s'[|s|] == p;
    OneVerdict(p);
    assert p.pick.tier in TIERS by {
      match p.pick.tier
      case Elite =>
      case Strong =>
      case Solid =>
      case Risky =>
    }
    var sum' := CountPick(sum, p);
    assert sum'.tierHits.Keys == TIERS;
    forall t | t in TIERS
      ensures sum'.tierHits[t] == Tally(TierWins(s', t), TierDecided(s', t))
    {
      if t != p.pick.tier {
        assert sum'.tierHits[t] == sum.tierHits[t];
      }
    }
  }

  /** The two nested loops of the summary. */
  method Summarize(days: seq<DayResult>) returns (sum: Summary)
    ensures Tallies(sum, AllPicks(days))
  {
    sum := Summary(0, 0, 0, 0, map t | t in TIERS :: Tally(0, 0));
    for di := 0 to |days|
      invariant Tallies(sum, AllPicks(days[..di]))
    {
      assert days[..di + 1][..di] == days[..di];
      sum := CountDay(sum, AllPicks(days[..di]), days[di].picks);
      assert AllPicks(days[..di + 1]) == AllPicks(days[..di]) + days[di].picks;
    }
    assert days[..|days|] == days;
  }

  /** The inner loop of the summary, over one day's picks. */
  method CountDay(sum: Summary, ghost before: seq<Graded>, picks: seq<Graded>) returns (sum': Summary)
    requires Tallies(sum, before)
    ensures Tallies(sum', before + picks)
  {
    sum' := sum;
    assert before + picks[..0] == before;
    for k := 0 to |picks|
      invariant Tallies(sum', before + picks[..k])
    {
      CountPickSnoc(sum', before + picks[..k], picks[k]);
      assert picks[..k + 1] == picks[..k] + [picks[k]];
      assert before + picks[..k + 1] == (before + picks[..k]) + [picks[k]];
      sum' := CountPick(sum', picks[k]);
    }
    assert picks[..|picks|] == picks;
  }

  /** Every pick is a win, a loss or unknown: `wins + losses + unknown == totalPicks`. */
  lemma {:induction false} Partition(s: seq<Graded>)
    ensures CountIf(s, IsWin) + CountIf(s, IsLoss) + CountIf(s, IsUnknown) == |s|
    decreases |s|
  {
    if s != [] {
      Partition(s[..|s| - 1]);
      OneVerdict(s[|s| - 1]);
    }
  }

  /** Each pick has exactly one verdict. */
  lemma OneVerdict(p: Graded)
    ensures (IsWin(p) && !IsLoss(p) && !IsUnknown(p)) || (!IsWin(p) && IsLoss(p) && !IsUnknown(p))
            || (!IsWin(p) && !IsLoss(p) && IsUnknown(p))
  {
    if p.gotHit.Some? {
      assert p.gotHit == Some(p.gotHit.value);
      if p.gotHit.value {
        assert IsWin(p);
      } else {
        assert IsLoss(p);
      }
    }
  }

  /** A tier's hits never exceed its decided picks, and the tiers' decided picks add up to the wins and losses. */
  lemma {:induction false} TierBounds(s: seq<Graded>)
    ensures forall t :: TierWins(s, t) <= TierDecided(s, t)
    ensures TierDecided(s, HitScore.Elite) + TierDecided(s, HitScore.Strong) + TierDecided(s, HitScore.Solid)
            + TierDecided(s, HitScore.Risky) == CountIf(s, IsWin) + CountIf(s, IsLoss)
    ensures TierWins(s, HitScore.Elite) + TierWins(s, HitScore.Strong) + TierWins(s, HitScore.Solid)
            + TierWins(s, HitScore.Risky) == CountIf(s, IsWin)
    decreases |s|
  {
    if s != [] {
      TierBounds(s[..|s| - 1]);
      OneVerdict(s[|s| - 1]);
    }
  }

  /** The tally of each tier of a run's summary: hits at most decided. */
  lemma SummaryBounds(sum: Summary, s: seq<Graded>)
    requires Tallies(sum, s)
    ensures sum.wins + sum.losses + sum.unknown == sum.totalPicks
    ensures forall t :: t in TIERS ==> sum.tierHits[t].hits <= sum.tierHits[t].decided
  {
    Partition(s);
    TierBounds(s);
  }

  /** The picks of days that each come from a slate are all graded. */
  lemma {:induction false} NoUnknownWithSlates(days: seq<DayResult>)
    requires forall i, k :: 0 <= i < |days| && 0 <= k < |days[i].picks| ==> days[i].picks[k].gotHit.Some?
    ensures CountIf(AllPicks(days), IsUnknown) == 0
    decreases |days|
  {
    if days != [] {
      var init, last := days[..|days| - 1], days[|days| - 1];
      NoUnknownWithSlates(init);
      NoUnknownAppend(AllPicks(init), last.picks);
    }
  }

  lemma {:induction false} NoUnknownAppend(a: seq<Graded>, b: seq<Graded>)
    requires CountIf(a, IsUnknown) == 0
    requires forall k :: 0 <= k < |b| ==> b[k].gotHit.Some?
    ensures CountIf(a + b, IsUnknown) == 0
    decreases |b|
  {
    if b == [] {
      assert a + b == a;
    } else {
      var b' := b[..|b| - 1];
      assert (a + b)[..|a + b| - 1] == a + b';
      assert (a + b)[|a + b| - 1] == b[|b| - 1];
      NoUnknownAppend(a, b');
    }
  }

  /**
   * `winRate`: `"—"` when no pick is decided, else the percentage of
   * decided picks that hit, to one decimal.
   */
  function WinRate(sum: Summary): (r: Option<real>)
    requires sum.wins + sum.losses + sum.unknown == sum.totalPicks
    ensures r.None? <==> sum.wins + sum.losses == 0
    ensures r.Some? ==> 0.0 <= r.value <= 100.0
    ensures r.Some? ==> var exact := sum.wins as real / (sum.wins + sum.losses) as real * 100.0;
                        exact - 0.05 < r.value <= exact + 0.05
  {
    if sum.totalPicks - sum.unknown > 0 then
      var exact := sum.wins as real / (sum.wins + sum.losses) as real * 100.0;
      PercentBounds(sum.wins, sum.wins + sum.losses);
      Some(Fixed1(exact))
    else None
  }

  /** The tier breakdown: `"—"` for a tier with no decided pick, else the rounded hit percentage. */
  function TierPercent(t: Tally): (r: Option<real>)
    requires t.hits <= t.decided
    ensures r.None? <==> t.decided == 0
    ensures r.Some? ==> 0.0 <= r.value <= 100.0
  {
    if t.decided > 0 then
      PercentBounds(t.hits, t.decided);
      Fixed0Bounded(t.hits as real / t.decided as real * 100.0, 100);
      Some(Fixed0(t.hits as real / t.decided as real * 100.0))
    else None
  }

  lemma PercentBounds(w: nat, d: nat)
    requires 0 < d && w <= d
    ensures 0.0 <= w as real / d as real * 100.0 <= 100.0
    ensures 0.0 <= Fixed1(w as real / d as real * 100.0) <= 100.0
  {
    var x := w as real / d as real;
    assert 0.0 <= x <= 1.0;
    Fixed1Bounded(x * 100.0, 100);
  }

  /** `run`: the days, the result of each day visited, and the summary over them. */
  method Run(start: int, end: int, slate: int -> Option<seq<Game>>, rosters: map<int, seq<GameLog.Player>>,
             data: Candidate -> Option<TodaysPicks.BatterData>, box: int -> Option<BoxTeams>,
             now: int, topN: nat, abort: Abort)
    returns (days: seq<int>, dayResults: seq<DayResult>, summary: Summary, winRate: Option<real>)
    ensures |days| == if start <= end then end - start + 1 else 0
    ensures forall i :: 0 <= i < |days| ==> days[i] == start + i
    ensures DaysRun(abort, |days|) <= |days|
    ensures dayResults == DaysOf(days, slate, rosters, Scorer(data, now), box, topN, abort, DaysRun(abort, |days|))
    ensures Tallies(summary, AllPicks(dayResults))
    ensures summary.wins + summary.losses + summary.unknown == summary.totalPicks
    ensures summary.unknown == 0
    ensures winRate.None? <==> summary.totalPicks == 0
  {
    days := EnumerateDays(start, end);
    var score := Scorer(data, now);
    ScorerKeepsGame(data, now);
    dayResults := RunDays(days, slate, rosters, score, box, topN, abort);
    summary := Summarize(dayResults);
    SummaryBounds(summary, AllPicks(dayResults));
    NoUnknownWithSlates(dayResults);
    winRate := WinRate(summary);
  }
}

# DiamondIQ core, modelled in Dafny

DiamondIQ is a baseball research front end. It scores every batter on a
day's slate for the chance of at least one hit (the Hit Score), and it keeps
a record of the picks made with it. This project models the computational
core of the app and proves properties of it:

- the statistics kernel `frontend/src/utils/mlbApi.js`:
  - the TTL cache;
  - the game-log splits, streak and games-with-hit counts;
  - the roster filter and the game-log sort;
  - the Hit Score engine with its factor pills and colour and tier helpers;
  - the Baseball Savant CSV parse;
- the odds helpers in `frontend/src/utils/propLinesApi.js`;
- the decision and bookkeeping logic of the tool pages:
  - TodaysPicks, ResearchHub, PickTracker and Backtester;
  - PitcherIntel, ABSTracker, StatcastTool and ParkFactors.

Network answers, the clock and browser storage are inputs to the model.
Most of them are `Option` values: `None` stands for a failed fetch or a
`null` answer. The clock is a `now` parameter, and dates are day numbers.
Each asynchronous fan-out (`Promise.allSettled`) is a sequential loop that
keeps the fulfilled, non-null results.

## Layout

One module per source file, plus shared helpers:

- `wrappers.dfy` (`Option`);
- `text.dfy` (trim, split, case, integer parsing);
- `sorting.dfy` (a stable sort, filter and slice, the header-click rule);
- `numeric.dfy` (`Math.round`, `toFixed`, ratios, clamps);
- `batching.dfy` (the batch loop shared by TodaysPicks and Backtester).

The rest follow the source files:

- `cache.dfy` (`TtlCache`);
- `gamelog.dfy`, `hitscore.dfy` and `savant.dfy` (parts of `mlbApi.js`);
- `proplines.dfy` (`propLinesApi.js`);
- one file per tool page.

Code that updates state step by step is modelled as methods with loops, each
proved against a specification function. This covers:

- the cache, the pick store, the score cache and the odds caches, which are
  classes;
- the pool, batch, box-score and leaderboard loops.

Code made of expressions is modelled as functions with lemmas.

## Model

| member | source | states |
|---|---|---|
| TtlCache.Ttl | frontend/src/utils/mlbApi.js:14-26 | each category's lifetime in milliseconds, as the `TTL` table gives it; every one lies between 2 minutes and 24 hours |
| TtlCache.LiveOnly | frontend/src/utils/mlbApi.js:38-41 | the sweep keeps a key exactly when it was present and `now <= exp`, and keeps its entry unchanged |
| TtlCache.Cache.constructor | frontend/src/utils/mlbApi.js:12 | the cache starts with no entries |
| TtlCache.Cache.Get | frontend/src/utils/mlbApi.js:28-33 | a valid key yields its data and leaves the map alone; an expired key yields nothing and is deleted; a missing key yields nothing |
| TtlCache.Cache.Set | frontend/src/utils/mlbApi.js:35-42 | the key is overwritten with expiry `now + ttl`; above 2000 entries every expired entry is then deleted |
| TtlCache.Cache.Clear | frontend/src/utils/mlbApi.js:45 | the map is emptied |
| TtlCache.Cache.Stats | frontend/src/utils/mlbApi.js:48-53 | `total` is the number of entries, `valid` the ones with `now <= exp`, `expired` the others, and `valid + expired == total` |
| TtlCache.SweepKeepsLive | frontend/src/utils/mlbApi.js:38-41 | a live entry of another key survives a write, with its entry unchanged |
| TtlCache.NoSweepBelowHighWater | frontend/src/utils/mlbApi.js:35-41 | with fewer than 2000 entries a write changes only its own key |
| TtlCache.SetThenGet | frontend/src/utils/mlbApi.js:28-42 | a value just written with a non-negative lifetime is present and valid at the same instant, sweep or not |
| TtlCache.SweepLeavesNoExpired | frontend/src/utils/mlbApi.js:38-41 | after a sweep no entry left has expired |
| GameLog.GamePA | frontend/src/utils/mlbApi.js:195 | a game's plate appearances are its `plateAppearances`, or its at-bats when that field is 0 or missing |
| GameLog.TotalsPlausible | frontend/src/utils/mlbApi.js:185-197 | summing plausible lines keeps hits at most at-bats, and extra-base hits at most hits |
| GameLog.GamesWithHit | frontend/src/utils/mlbApi.js:222-224 | the count is the number of games with a hit: at most the log's length, and all of it when every game has a hit |
| GameLog.LeadingHits | frontend/src/utils/mlbApi.js:212-219 | the leading run: every game before it has a hit, and the game after it (if any) does not |
| GameLog.ComputeActiveStreak | frontend/src/utils/mlbApi.js:212-219 | the loop returns the leading run of games with a hit, stopping at the first hitless game |
| GameLog.LeadingHitsUnique | frontend/src/utils/mlbApi.js:212-219 | the streak is the only count with hits before it and a hitless game or the end after it |
| GameLog.StreakAtMostGamesWithHit | frontend/src/utils/mlbApi.js:212-224 | streak <= games with a hit <= games; a hitless newest game gives streak 0 |
| GameLog.ComputeSplit | frontend/src/utils/mlbApi.js:182-209 | the loop over the first `n` games returns the split of that window, `null` when it is empty |
| GameLog.SplitNullIff | frontend/src/utils/mlbApi.js:183-184 | the split is `null` exactly when `n` is 0 or the log is empty |
| GameLog.SplitCounts | frontend/src/utils/mlbApi.js:183-207 | the window holds `min(n, |log|)` games; the counters are its totals; `tb = hits + doubles + 2*triples + 3*hr`; games with a hit are at most the window |
| GameLog.SplitRates | frontend/src/utils/mlbApi.js:198-207 | every split's rates are read off its counters (`RatesRead`): AVG, OBP and SLG are the ratios rounded to three places, K% and BB% the percentages rounded to one place, each 0 on a zero denominator; OPS rounds the unrounded OBP + SLG; the hit rate is the share of games with a hit rounded to a whole percent |
| GameLog.SplitFromRates | frontend/src/utils/mlbApi.js:198-207 | the same reading holds of any split record built from a window's totals |
| GameLog.PlateAppearancesFallBack | frontend/src/utils/mlbApi.js:195 | with no plate-appearance field anywhere, PA equals at-bats |
| GameLog.SplitFromBounds | frontend/src/utils/mlbApi.js:197-207 | for plausible totals AVG is in [0, 1], SLG in [0, 4], the hit rate in [0, 100] |
| GameLog.SplitBounds | frontend/src/utils/mlbApi.js:182-209 | for plausible game lines AVG is in [0, 1], SLG in [0, 4], the hit rate in [0, 100] |
| GameLog.ToPlayer | frontend/src/utils/mlbApi.js:138 | id, name and position are copied; the batting side is the code, or `"?"` when missing or empty |
| GameLog.MapPlayers | frontend/src/utils/mlbApi.js:137-138 | one player per roster row, in order |
| GameLog.RosterBattersExact | frontend/src/utils/mlbApi.js:137-139 | a player is kept exactly when it comes from a roster row whose position is not P, SP, RP or CP |
| GameLog.GameLogOf | frontend/src/utils/mlbApi.js:170-176 | the log is a permutation of every split of every block, newest date first |
| HitScore.OrDefault | frontend/src/utils/mlbApi.js:654 | `parseFloat(x) \|\| d`: the value when present and non-zero, the default otherwise |
| HitScore.Norm | frontend/src/utils/mlbApi.js:653 | `norm(avg)` lies in [0, 1], is 0 for a missing average and `avg / 0.4` inside [0, .400] |
| HitScore.NormMonotone | frontend/src/utils/mlbApi.js:653 | a higher average never normalises lower |
| HitScore.NormMissingIsFloor | frontend/src/utils/mlbApi.js:653 | a missing average normalises no higher than any non-negative one |
| HitScore.ParkScore | frontend/src/utils/mlbApi.js:655 | the park score lies in [0, 1] |
| HitScore.LineupBonus | frontend/src/utils/mlbApi.js:688 | the lineup bonus is 0, 1 or 2 |
| HitScore.RestBonus | frontend/src/utils/mlbApi.js:689 | the rest bonus is 0, 1 or 2 |
| HitScore.StatcastScore | frontend/src/utils/mlbApi.js:661-673 | the Statcast composite lies in [0, 1] and is 0 without Statcast (`xba <= 0`) |
| HitScore.SumsBounded | frontend/src/utils/mlbApi.js:676-724 | every weight table's unrounded sum is at least 0; with Statcast the BvP table reaches at most 93 and the other 99, without Statcast both reach 100 |
| HitScore.WindPills | frontend/src/utils/mlbApi.js:747-750 | the wind pills are weather pills only |
| HitScore.TempPills | frontend/src/utils/mlbApi.js:751-753 | the temperature pills are weather pills only |
| HitScore.WeatherPills | frontend/src/utils/mlbApi.js:744-755 | what the weather block adds is weather pills only |
| HitScore.FormPills | frontend/src/utils/mlbApi.js:730-733 | the form block adds only L7, BvP and platoon pills, with the L7 pill first if at all |
| HitScore.ContactPills | frontend/src/utils/mlbApi.js:734-737 | the contact block adds only xBA, barrel and hard-hit pills, xBA first if at all, and nothing without Statcast |
| HitScore.ContextPills | frontend/src/utils/mlbApi.js:738-741 | the context block adds only park, missing-data and rest pills; "No BvP data" exactly without BvP, "No Statcast" exactly without Statcast |
| HitScore.TierOf | frontend/src/utils/mlbApi.js:757 | Elite from 75, Strong from 60 to 74, Solid from 45 to 59, Risky below 45, each both ways |
| HitScore.ComputeHitScore | frontend/src/utils/mlbApi.js:652-761 | all scores lie in 0..100; `score` is the BvP variant exactly when `hasBvP`; the tier is the score's; Statcast numbers come back, and `hasStatcast` is set, exactly when the player has Statcast; `hasBvP` is passed through; the pills are the four blocks in order |
| HitScore.ClampNeverFires | frontend/src/utils/mlbApi.js:760 | the final `Math.min(·, 100)` never changes a value: each score is its rounded sum |
| HitScore.ScoreMonotoneInL7 | frontend/src/utils/mlbApi.js:679-723 | a better last-7 average never lowers the score |
| HitScore.ScoreAntitoneInPitcherAvg | frontend/src/utils/mlbApi.js:696-718 | a higher average against the pitcher never raises the score |
| HitScore.MissingPitcherAvgIsFullTerm | frontend/src/utils/mlbApi.js:696-718 | a missing pitcher average scores as an average of 0 would |
| HitScore.RestIgnoredWithoutStatcast | frontend/src/utils/mlbApi.js:704-723 | without Statcast the pitcher's rest changes neither score |
| HitScore.EmptyInputsScoreTwelve | frontend/src/utils/mlbApi.js:714-723 | no data at all, batting ninth against a pitcher on two days' rest, scores 12, not 0 |
| HitScore.NoBvPPill | frontend/src/utils/mlbApi.js:739 | "No BvP data" is among the pills exactly when `hasBvP` is false |
| HitScore.NoStatcastPill | frontend/src/utils/mlbApi.js:740 | "No Statcast" is among the pills exactly when the expected average is not positive |
| HitScore.AtMostOneL7Pill | frontend/src/utils/mlbApi.js:730-731 | only the first pill can be an L7 pill |
| HitScore.AtMostOneXbaPill | frontend/src/utils/mlbApi.js:734-735 | an xBA pill can only sit right after the form pills, so there is at most one |
| HitScore.NoWeatherPillInDome | frontend/src/utils/mlbApi.js:745-746 | a domed venue gets no wind or temperature pill |
| HitScore.IsPlayerHot | frontend/src/utils/mlbApi.js:474-479 | never hot below 60 (or for an unparseable score); from 60, hot exactly with a streak of 5 or an L7 average of .350 with a score of 65 |
| HitScore.AvgColor | frontend/src/utils/mlbApi.js:764-770 | each colour band exactly, NaN counting as cold |
| HitScore.ScoreColor | frontend/src/utils/mlbApi.js:772-777 | each colour exactly when the score is in the matching tier |
| HitScore.TierClass | frontend/src/utils/mlbApi.js:779-781 | `badge-<tier>` for the four tier keys, `badge-gray` for anything else |
| Savant.Clean | frontend/src/utils/mlbApi.js:452 | a cleaned cell is the input's slice between its leading and trailing white space, with every `"` removed; the slice neither starts nor ends with white space |
| Savant.CleanAll | frontend/src/utils/mlbApi.js:450-452 | one cleaned cell per piece, in order |
| Savant.Cell | frontend/src/utils/mlbApi.js:453 | `vals[i]` is present exactly when the row is long enough (`undefined` otherwise) |
| Savant.EntriesKeys | frontend/src/utils/mlbApi.js:453 | a record's keys are exactly the column names |
| Savant.EntriesLast | frontend/src/utils/mlbApi.js:453 | a name not repeated later holds the cell at its own index (a repeated name keeps its last cell) |
| Savant.Rows | frontend/src/utils/mlbApi.js:451-454 | one record per data line, the k-th from line k |
| Savant.ParseLeaderboard | frontend/src/utils/mlbApi.js:428-456 | no records (the prior-season path) exactly when the trimmed body has fewer than two lines |
| Savant.RowColumns | frontend/src/utils/mlbApi.js:450-453 | a record's keys are the column names; a unique column holds the cleaned cell at its index, or nothing on a short line |
| Savant.LeaderboardRecords | frontend/src/utils/mlbApi.js:429-454 | one record per line after the header, the k-th built from line k + 1 |
| Text.TrimExact | frontend/src/utils/mlbApi.js:429 | the trimmed text occurs in the input right after its leading white space, everything before and after it in the input is white space, and it neither starts nor ends with white space |
| Text.TrimContained | frontend/src/utils/mlbApi.js:429 | the trimmed text is a slice of the input |
| Text.StripQuotes | frontend/src/utils/mlbApi.js:450 | the result holds no `"` and every other character of the input, each as often as the input does |
| Text.StripQuotesAppend | frontend/src/utils/mlbApi.js:450 | removing quotes from a concatenation removes them from each part, so the kept characters stay in order |
| Text.StripQuotesChar | frontend/src/utils/mlbApi.js:450 | a single character is dropped exactly when it is `"` |
| Text.Split | frontend/src/utils/mlbApi.js:429 | at least one piece, none holding the separator |
| Text.JoinSplit | frontend/src/utils/mlbApi.js:429 | joining the pieces with the separator gives the input back |
| Text.SplitJoin | frontend/src/utils/mlbApi.js:429 | splitting a join of separator-free pieces gives the pieces back |
| Text.LastSegment | frontend/src/utils/propLinesApi.js:79 | the text after the last separator: a suffix of the input holding no separator, which is the whole input or follows a separator |
| Text.JoinLast | frontend/src/utils/propLinesApi.js:79 | a join of two or more pieces ends with the separator and the last piece |
| Text.ToLower | frontend/src/utils/propLinesApi.js:92 | same length, each ASCII capital lowered, no capital left |
| Text.ParseIntValue | frontend/src/utils/mlbApi.js:748 | leading white space, an optional `+` or `-`, then a run of digits parse to the value of that run, negated for `-`; whatever follows the run is ignored, unless the run is `0` followed by `x` or `X` (the hexadecimal case) |
| Text.ParseIntHex | frontend/src/utils/mlbApi.js:748 | leading white space, an optional sign, `0x` or `0X`, then a run of hexadecimal digits parse to the run's value in base 16, negated for `-`; what follows is ignored |
| Text.ParseIntHexNoDigits | frontend/src/utils/mlbApi.js:748 | `0x` or `0X` with no hexadecimal digit after it gives no number |
| Text.ParseIntNoDigits | frontend/src/utils/mlbApi.js:748 | leading white space and an optional sign followed by no digit give no number |
| Text.ParseSignedValue | frontend/src/utils/mlbApi.js:748 | an optional sign and a digit run, with the white space already skipped, parse to the signed value of the run, unless the run is `0` followed by `x` or `X` |
| Text.ParseIntToString | frontend/src/utils/mlbApi.js:748 | `parseInt(String(i)) == i` for every integer |
| Numeric.Round | frontend/src/utils/mlbApi.js:679 | `Math.round` as the nearest integer, halves rounding up |
| Numeric.Fixed3 | frontend/src/utils/mlbApi.js:204 | the value of `toFixed(3)` is a whole number of thousandths within half a thousandth of its argument |
| Numeric.Fixed3Unique | frontend/src/utils/mlbApi.js:204 | no other whole number of thousandths lies that close, so the value is the nearest thousandth, halves up |
| Numeric.Fixed1 | frontend/src/utils/mlbApi.js:205 | the value of `toFixed(1)` is a whole number of tenths within half a tenth of its argument |
| Numeric.Fixed1Unique | frontend/src/utils/mlbApi.js:205 | no other whole number of tenths lies that close |
| Numeric.Fixed0 | frontend/src/utils/mlbApi.js:207 | the value of `toFixed(0)` is a whole number within a half of its argument |
| Numeric.Fixed0Unique | frontend/src/utils/mlbApi.js:207 | no other whole number lies that close |
| Numeric.FixedInteger | frontend/src/utils/mlbApi.js:204-207 | no precision changes a whole number |
| Numeric.Fixed3Bounded | frontend/src/utils/mlbApi.js:204 | rounding to three places keeps a value inside [0, c] |
| Numeric.Ratio | frontend/src/utils/mlbApi.js:198-200 | a zero denominator gives 0, and no ratio of counts is negative |
| Numeric.RatioBounded | frontend/src/utils/mlbApi.js:198-200 | a numerator at most c times the denominator gives at most c |
| Numeric.Clamp01 | frontend/src/utils/mlbApi.js:653 | the result lies in [0, 1] and leaves values already there alone |
| Sorting.SortBy | frontend/src/components/tools/TodaysPicks.jsx:281-295 | the sorted copy is a permutation of its input, ordered by the key in the chosen direction |
| Sorting.SortByStable | frontend/src/components/tools/TodaysPicks.jsx:281-295 | the sort is stable: the elements of one key value come out in their input order |
| Sorting.InsertKeepsTies | frontend/src/components/tools/TodaysPicks.jsx:281-295 | inserting an element puts it before the elements already there that share its key value, and keeps their order |
| Sorting.Filter | frontend/src/components/tools/TodaysPicks.jsx:275-279 | every kept element passes, every passing element is kept, nothing is invented |
| Sorting.FilterMembership | frontend/src/components/tools/TodaysPicks.jsx:275-279 | an element is kept exactly when it is in the input and passes |
| Sorting.FilterOrdered | frontend/src/components/tools/TodaysPicks.jsx:275-295 | filtering an ordered list leaves it ordered |
| Sorting.Take | frontend/src/components/tools/TodaysPicks.jsx:303 | `slice(0, n)` is the prefix of length `min(n, length)` |
| Sorting.TakeDominates | frontend/src/components/tools/TodaysPicks.jsx:303 | each row kept by the slice sorts at least as high as each row cut |
| Sorting.FindIndex | frontend/src/components/tools/PickTracker.jsx:162 | the first index whose element passes, or none when no element passes |
| Sorting.ClickHeader | frontend/src/components/tools/TodaysPicks.jsx:270-273 | clicking the sorted column flips the direction; another column becomes the sort, descending |
| Sorting.ClickTwiceRestores | frontend/src/components/tools/TodaysPicks.jsx:270-273 | two clicks on the sorted column restore the original direction |
| Batching.ChunksTile | frontend/src/components/tools/TodaysPicks.jsx:172-173 | the batches taken so far are, joined, a prefix of the pool |
| Batching.KeptMembership | frontend/src/components/tools/TodaysPicks.jsx:174-176 | a value is kept exactly when some pool entry scores to it |
| Batching.KeptLength | frontend/src/components/tools/TodaysPicks.jsx:174-176 | at most one result per pool entry |
| Batching.ScoreBatch | frontend/src/components/tools/TodaysPicks.jsx:173-176 | the results of one batch are the kept scores of its entries |
| Batching.Progress | frontend/src/components/tools/TodaysPicks.jsx:177 | one progress value per batch |
| Batching.ProgressAt | frontend/src/components/tools/TodaysPicks.jsx:177 | after batch k the counter shows `min((k+1)·size, n)` |
| Batching.RunBatches | frontend/src/components/tools/TodaysPicks.jsx:170-178 | the loop visits the whole pool in batches (or stops at an abort), its results are the kept scores of what it visited, and the counter follows `Progress` |
| Batching.RunCoversPool | frontend/src/components/tools/TodaysPicks.jsx:171 | once the loop index passes the end, the batches cover the whole pool |
| TodaysPicks.ConfirmedEntries | frontend/src/components/tools/TodaysPicks.jsx:133-145 | one entry per posted player, batting at the posted order, marked confirmed |
| TodaysPicks.ProjectedEntries | frontend/src/components/tools/TodaysPicks.jsx:148-157 | one entry per roster player, batting fifth, marked projected |
| TodaysPicks.PushConfirmed | frontend/src/components/tools/TodaysPicks.jsx:133-145 | the loop appends exactly the confirmed entries |
| TodaysPicks.PushProjected | frontend/src/components/tools/TodaysPicks.jsx:148-157 | the loop appends exactly the projected entries |
| TodaysPicks.AddSide | frontend/src/components/tools/TodaysPicks.jsx:121-160 | one side adds its pool entries and, when the other side has a pitcher, its team name |
| TodaysPicks.AddGame | frontend/src/components/tools/TodaysPicks.jsx:118-161 | a game adds both sides' entries and teams, and nothing when neither side has a pitcher |
| TodaysPicks.PoolOfSnoc | frontend/src/components/tools/TodaysPicks.jsx:118-161 | the pool and the team set grow one game at a time |
| TodaysPicks.BuildPool | frontend/src/components/tools/TodaysPicks.jsx:115-164 | the pool loop computes `PoolOf` and `TeamsOf` of the schedule |
| TodaysPicks.SidePoolShape | frontend/src/components/tools/TodaysPicks.jsx:124-159 | no opposing pitcher means no entries; a confirmed lineup of nine or more is used as posted; otherwise at most 13 roster players; every entry is well formed |
| TodaysPicks.NoPitchersNoBatters | frontend/src/components/tools/TodaysPicks.jsx:119 | a game without either probable pitcher adds nobody |
| TodaysPicks.PoolWellFormed | frontend/src/components/tools/TodaysPicks.jsx:115-164 | every pool entry comes from a scheduled game and is well formed |
| TodaysPicks.PoolWithoutLineups | frontend/src/components/tools/TodaysPicks.jsx:129-157 | with no lineup posted every entry is a roster player projected fifth |
| TodaysPicks.MergeFallback | frontend/src/components/tools/TodaysPicks.jsx:220-233 | the data is thin exactly when the log has fewer than five games or no season average, and the result is the fallback merge |
| TodaysPicks.MergedFields | frontend/src/components/tools/TodaysPicks.jsx:220-233 | the merge changes the log, season line, pitcher line and pitcher log only under their guards, and nothing else |
| TodaysPicks.MergeExtendsLog | frontend/src/components/tools/TodaysPicks.jsx:229 | the merge only appends to the game log |
| TodaysPicks.MergeNotIdempotent | frontend/src/components/tools/TodaysPicks.jsx:229 | merging twice differs from merging once |
| TodaysPicks.FixedHand | frontend/src/components/tools/TodaysPicks.jsx:189-197 | a known hand stays; an unknown one is looked up; an empty one becomes `"R"`; the result is never empty |
| TodaysPicks.ParkFactor | frontend/src/components/tools/TodaysPicks.jsx:244 | the venue's factor, or 100 for an unknown venue, always within 92..121 |
| TodaysPicks.RestDays | frontend/src/components/tools/TodaysPicks.jsx:245-247 | 4 without a start, otherwise the rounded days since the latest start |
| TodaysPicks.PlatoonKey | frontend/src/components/tools/TodaysPicks.jsx:240 | `"vs. Left"` exactly for a left-handed pitcher, otherwise `"vs. Right"` |
| TodaysPicks.InputsOf | frontend/src/components/tools/TodaysPicks.jsx:240-258 | BvP counts only with five at-bats, rest defaults to 4, unknown parks to 100, the platoon split follows the pitcher's hand |
| TodaysPicks.ScoreBatter | frontend/src/components/tools/TodaysPicks.jsx:187-267 | a pick exactly when the body does not throw (`data` present), for that entry, flagged as fallback when the data was thin, with a score in [0, 100] |
| TodaysPicks.BoardSorted | frontend/src/components/tools/TodaysPicks.jsx:170-180 | the board holds exactly the scored entries, best score first, no more than the pool |
| TodaysPicks.BoardFromPool | frontend/src/components/tools/TodaysPicks.jsx:170-180 | every pick comes from a pool entry whose data was fetched |
| TodaysPicks.StatusMap | frontend/src/components/tools/TodaysPicks.jsx:105-112 | one status pair per game with lineup data |
| TodaysPicks.PickBoard.constructor | frontend/src/components/tools/TodaysPicks.jsx:32 | the score cache starts empty |
| TodaysPicks.PickBoard.NeedsRun | frontend/src/components/tools/TodaysPicks.jsx:83-92 | a run happens exactly when the date's board is not fresh: missing, never stamped, or five minutes old or older |
| TodaysPicks.PickBoard.Run | frontend/src/components/tools/TodaysPicks.jsx:94-184 | a failed schedule fetch leaves the cache alone; otherwise the date's entry becomes the sorted board of the pool with the team set; the progress values are one per batch, `min(6 * (k + 1), pool size)` for batch k, as many batches as cover the pool, the last being the pool size |
| TodaysPicks.VisibleExact | frontend/src/components/tools/TodaysPicks.jsx:275-295 | a pick is shown exactly when it passes the tier and team filters, as often as it occurs, in column order |
| TodaysPicks.PercentileBounds | frontend/src/components/tools/TodaysPicks.jsx:298-301 | the rank lies in [1, 100] and the last row is at 100 |
| TodaysPicks.PercentileMonotone | frontend/src/components/tools/TodaysPicks.jsx:298-301 | ranks never decrease down the table |
| TodaysPicks.Top10 | frontend/src/components/tools/TodaysPicks.jsx:303 | the first ten rows, or all of a shorter table |
| TodaysPicks.ConfirmedSidesBound | frontend/src/components/tools/TodaysPicks.jsx:966-970 | no more confirmed sides than two per game |
| TodaysPicks.LineupStatusCounts | frontend/src/components/tools/TodaysPicks.jsx:962-971 | no bar for an empty map; otherwise the confirmed count and a total of two sides per game |
| PickTracker.Truthy | frontend/src/components/tools/PickTracker.jsx:59 | `x \|\| null` keeps a number exactly when it is present and not 0 |
| PickTracker.EvaluatePickAsWritten | frontend/src/components/tools/PickTracker.jsx:40-49 | no stats give no verdict; each named prop compares its own column; any other prop is judged on one hit |
| PickTracker.HomeRunPropMisjudged | frontend/src/components/tools/PickTracker.jsx:40-49 | the offered "1+ Home Runs" prop is judged a win for a single without a home run |
| PickTracker.EvaluatePick | frontend/src/components/tools/PickTracker.jsx:40-49 | as written, except that the offered home-run prop is judged on home runs |
| PickTracker.EvaluatePickMonotone | frontend/src/components/tools/PickTracker.jsx:40-49 | a box line at least as good in every column never turns a win into a loss |
| PickTracker.EvaluateOfferedProps | frontend/src/components/tools/PickTracker.jsx:40-49 | each prop the form offers is judged on the column it names; the streak and custom props on one hit |
| PickTracker.QuickPick | frontend/src/components/tools/PickTracker.jsx:55-67 | the quick-added pick carries a null result, the time stamp as id, and the prefilled date and prop or their defaults; its player name, team and opponent are the prefilled ones, and its player id, score and game id are kept only when non-zero (`|| null`); it is not auto-resolved |
| PickTracker.UpdateResult | frontend/src/components/tools/PickTracker.jsx:215-218 | the list keeps its length |
| PickTracker.UpdateResultOnly | frontend/src/components/tools/PickTracker.jsx:215-218 | only picks with the given id change, and only in their result |
| PickTracker.AddPick | frontend/src/components/tools/PickTracker.jsx:223-227 | the entered pick, with the fresh id, a pending result, not auto-resolved and its game id kept only when non-zero, goes in front of the unchanged list; its player, team, opponent, date, prop and score are those entered |
| PickTracker.RemovePickExact | frontend/src/components/tools/PickTracker.jsx:219-222 | a pick survives exactly when its id differs |
| PickTracker.RemoveAbsent | frontend/src/components/tools/PickTracker.jsx:219-222 | removing an id nobody has changes nothing |
| PickTracker.RemoveAfterUpdate | frontend/src/components/tools/PickTracker.jsx:215-222 | updating and then removing an id equals removing it |
| PickTracker.RemoveAfterAdd | frontend/src/components/tools/PickTracker.jsx:219-227 | removing a freshly added pick restores the list |
| PickTracker.PickStore.constructor | frontend/src/components/tools/PickTracker.jsx:7-10 | the store holds the saved list |
| PickTracker.PickStore.OpenAddPick | frontend/src/components/tools/PickTracker.jsx:52-83 | the quick pick is put in front unless a pick for the same player, date and prop exists, in which case nothing changes |
| PickTracker.PickStore.UpdateResultOf | frontend/src/components/tools/PickTracker.jsx:215-218 | the stored list becomes the updated list |
| PickTracker.PickStore.RemovePickOf | frontend/src/components/tools/PickTracker.jsx:219-222 | the stored list becomes the list without the id |
| PickTracker.PickStore.AddPickOf | frontend/src/components/tools/PickTracker.jsx:223-227 | the stored list becomes the list with the new pick in front |
| PickTracker.RecordPartition | frontend/src/components/tools/PickTracker.jsx:230-233 | wins, losses and null results make up the decided picks, which with the pending ones make up the list |
| PickTracker.WinRate | frontend/src/components/tools/PickTracker.jsx:234 | null exactly when nothing is decided, otherwise a percentage in [0, 100] |
| PickTracker.RunOfMeaning | frontend/src/components/tools/PickTracker.jsx:238-243 | the run is the longest prefix of one result |
| PickTracker.CurrentStreak | frontend/src/components/tools/PickTracker.jsx:237-243 | the streak is the run of the newest decided pick's result, and its type is that result (none for no decided pick) |
| PickTracker.FilteredExact | frontend/src/components/tools/PickTracker.jsx:246-254 | a pick is listed exactly when it passes the result filter and the name search, in date order |
| PickTracker.BoxMapKeys | frontend/src/components/tools/PickTracker.jsx:16-36 | the parsed box score holds exactly the players with an id |
| PickTracker.BoxMapLast | frontend/src/components/tools/PickTracker.jsx:24-33 | a player listed twice keeps the later line |
| PickTracker.FetchBoxHits | frontend/src/components/tools/PickTracker.jsx:16-36 | a failed fetch gives null; otherwise the id-to-line map of the home then the away players |
| PickTracker.MergeStatsLast | frontend/src/components/tools/PickTracker.jsx:151-159 | a player's merged line comes from the last game that lists them |
| PickTracker.MergeStatsCovers | frontend/src/components/tools/PickTracker.jsx:151-159 | a player in any box score is in the merged map |
| PickTracker.BoxesOf | frontend/src/components/tools/PickTracker.jsx:143-149 | one box-score answer per game of the day |
| PickTracker.FirstIndex | frontend/src/components/tools/PickTracker.jsx:162 | the first position of the id, or none exactly when the id is absent |
| PickTracker.FirstKnown | frontend/src/components/tools/PickTracker.jsx:184-190 | the first search result that played that day, or none when none did |
| PickTracker.LookupStats | frontend/src/components/tools/PickTracker.jsx:164-192 | a player id found by name search always comes with stats |
| PickTracker.GameLookupRedundant | frontend/src/components/tools/PickTracker.jsx:164-175 | the game-specific lookup never finds a player the merged map lacks |
| PickTracker.ResolvedTrans | frontend/src/components/tools/PickTracker.jsx:186-197 | resolving twice is still a resolution of the original pick |
| PickTracker.ResolvePick | frontend/src/components/tools/PickTracker.jsx:162-199 | a pick is resolved exactly when stats were found; it becomes hit when `evaluatePick` as written (the empty prop read as "1+ Hits") says it won and miss otherwise, is marked auto-resolved, and takes the id found by name search when there was one |
| PickTracker.ResolvePickIdempotent | frontend/src/components/tools/PickTracker.jsx:194-199 | resolving an already resolved slot again gives the same pick |
| PickTracker.ResolvePickIntended | frontend/src/components/tools/PickTracker.jsx:40-49 | with the corrected rule, the offered "1+ Home Runs" prop is a hit exactly when the player homered; otherwise resolved exactly when stats were found |
| PickTracker.ResolveIntendedAgrees | frontend/src/components/tools/PickTracker.jsx:40-49 | for every prop other than "1+ Home Runs" the corrected and the as-written resolution agree |
| PickTracker.HomeRunPickResolvedAsHit | frontend/src/components/tools/PickTracker.jsx:40-49 | a "1+ Home Runs" pick with one hit and no home run is stored as a hit as written and as a miss when corrected |
| PickTracker.AutoResolution | frontend/src/components/tools/PickTracker.jsx:161-199 | a pick is resolved exactly when it is pending, from a past day, its day's games were fetched and its stats were found; the verdict is the as-written `evaluatePick` one |
| PickTracker.AutoResolveSettles | frontend/src/components/tools/PickTracker.jsx:111-213 | an auto-resolved pick is no longer resolvable, so a second run changes nothing |
| PickTracker.ResolveVisit | frontend/src/components/tools/PickTracker.jsx:161-199 | visiting a pick whose slot holds the pick or its resolution leaves its resolution there, and succeeds exactly when it is resolvable |
| PickTracker.ResolvableMeans | frontend/src/components/tools/PickTracker.jsx:161-199 | a pending past pick of a fetched date counts as resolvable exactly when `ResolvePick` finds its stats |
| PickTracker.UniqueVisit | frontend/src/components/tools/PickTracker.jsx:161-199 | with unique ids, one visit adds the resolution of that one pick and changes no other slot |
| PickTracker.VisitPick | frontend/src/components/tools/PickTracker.jsx:161-200 | one pass of the inner loop: it reports a match exactly when the pick is resolvable, and with unique ids the list gains exactly that pick's resolution |
| PickTracker.ResolveStep | frontend/src/components/tools/PickTracker.jsx:161-199 | resolving one more pending past pick keeps every change a resolution of such a pick |
| PickTracker.ResolveDate | frontend/src/components/tools/PickTracker.jsx:161-202 | within one date every change resolves a pending past pick; resolved counts the group's resolvable picks and failed the rest; with unique ids each pick of the group becomes its auto-resolution and no other pick changes |
| PickTracker.OnDateSnoc | frontend/src/components/tools/PickTracker.jsx:117-121 | adding a pick extends only its own date's group |
| PickTracker.GroupOne | frontend/src/components/tools/PickTracker.jsx:118-121 | one pick keeps the grouping invariant |
| PickTracker.GroupedSnoc | frontend/src/components/tools/PickTracker.jsx:118-121 | appending the pick to its date keeps the keys in first-appearance order and each group complete |
| PickTracker.GroupByDate | frontend/src/components/tools/PickTracker.jsx:116-121 | distinct date keys, one group per key holding exactly that date's pending picks in order |
| PickTracker.SumGroupsPast | frontend/src/components/tools/PickTracker.jsx:125-202 | over the past dates the groups count each pending past pick once |
| PickTracker.PendingCountPast | frontend/src/components/tools/PickTracker.jsx:113 | filtering to pending keeps every pending past pick |
| PickTracker.GroupMembers | frontend/src/components/tools/PickTracker.jsx:113-125 | the picks of a past date's group are pending past picks of the list |
| PickTracker.ResolveDates | frontend/src/components/tools/PickTracker.jsx:137-203 | every change resolves a pending past pick; resolved plus failed counts every pending pick of the dates visited, and resolved the resolvable ones; with unique ids a pick of a visited date becomes its auto-resolution and every other pick is unchanged |
| PickTracker.ResolvableOnDate | frontend/src/components/tools/PickTracker.jsx:161-200 | the resolvable picks of one date's pending group are the resolvable picks of that date |
| PickTracker.GroupUntouched | frontend/src/components/tools/PickTracker.jsx:137-161 | before a date is visited, its pending picks still hold their original values |
| PickTracker.GroupVisited | frontend/src/components/tools/PickTracker.jsx:137-202 | after a date is visited, exactly the picks of the dates visited so far hold their auto-resolutions |
| PickTracker.PastDates | frontend/src/components/tools/PickTracker.jsx:125 | the past date keys cover exactly the pending picks of past days |
| PickTracker.PastGroups | frontend/src/components/tools/PickTracker.jsx:116-125 | the past dates are distinct, each keyed to its pending picks in order, exactly the dates of pending picks before today, and their groups count every pending past pick once |
| PickTracker.ResolvableOnPastDates | frontend/src/components/tools/PickTracker.jsx:123-203 | a pick off the past dates is never auto-resolved, and the groups of the past dates hold every resolvable pick |
| PickTracker.NoPendingLeavesAll | frontend/src/components/tools/PickTracker.jsx:113-114 | with no pending pick nothing is resolvable and every pick stays as it is |
| PickTracker.AutoResolve | frontend/src/components/tools/PickTracker.jsx:111-213 | the list keeps its length and order of ids; every change resolves a pending past pick; resolved counts the resolvable picks and failed the other pending past ones; with unique ids every pick becomes its auto-resolution (hit or miss by the as-written `evaluatePick`) |
| PickTracker.UniqueIdsTouchOnlyPast | frontend/src/components/tools/PickTracker.jsx:161-199 | with unique ids only pending picks of past days change |
| PickTracker.MountCheckAgrees | frontend/src/components/tools/PickTracker.jsx:104-109 | the mount check fires exactly when some pending pick is from a past day |
| PropLines.NameOf | frontend/src/utils/propLinesApi.js:52-53 | a player name is the trimmed outcome name, and an outcome with no name, or a blank one, is skipped |
| PropLines.Apply | frontend/src/utils/propLinesApi.js:62-63 | an "Over" outcome sets the over price, an "Under" one the under price; the point and bookmaker stay |
| PropLines.OutcomeItems | frontend/src/utils/propLinesApi.js:51 | one item per outcome, in order |
| PropLines.ItemsNamed | frontend/src/utils/propLinesApi.js:49-53 | every item carries the name its outcome gives |
| PropLines.StepFacts | frontend/src/utils/propLinesApi.js:52-63 | one outcome creates its player's line if new and updates only that line |
| PropLines.StepKeys | frontend/src/utils/propLinesApi.js:54 | a new player name is appended to the key order; a known one leaves it |
| PropLines.CollapseSnoc | frontend/src/utils/propLinesApi.js:49-66 | the collapse takes outcomes one at a time in bookmaker, market, outcome order |
| PropLines.CollapseWellFormed | frontend/src/utils/propLinesApi.js:49-66 | the key order lists each player of the map once |
| PropLines.CollapseNames | frontend/src/utils/propLinesApi.js:52-55 | a player has a line exactly when some outcome names them |
| PropLines.CollapseFirst | frontend/src/utils/propLinesApi.js:54-61 | the point and bookmaker come from the player's first outcome |
| PropLines.CollapseLastPrice | frontend/src/utils/propLinesApi.js:62-63 | each price comes from the last outcome that sets it |
| PropLines.CollapseUnsetPrice | frontend/src/utils/propLinesApi.js:57-58 | a price no outcome sets stays null |
| PropLines.Absorb | frontend/src/utils/propLinesApi.js:51-64 | one pass of the innermost loop body applies one step of the collapse |
| PropLines.AbsorbOutcomes | frontend/src/utils/propLinesApi.js:51-64 | the outcome loop continues the collapse over the market's outcomes |
| PropLines.AbsorbMarkets | frontend/src/utils/propLinesApi.js:50-65 | the market loop continues the collapse over the bookmaker's markets |
| PropLines.Collapse | frontend/src/utils/propLinesApi.js:48-66 | the nested loops compute the collapse of every outcome in order |
| PropLines.MatchEvent | frontend/src/utils/propLinesApi.js:74-81 | none for no events or no team name; otherwise the first event whose home team contains the name, or whose last word the name contains, ignoring case |
| PropLines.MatchEventOwnName | frontend/src/utils/propLinesApi.js:74-81 | an event listing the team itself as home team is always found |
| PropLines.FindPlayerLine | frontend/src/utils/propLinesApi.js:90-95 | none for no map or no name; otherwise the line of the first key containing the name's last word, ignoring case |
| PropLines.FindPlayerLineHits | frontend/src/utils/propLinesApi.js:48-95 | in a collapsed map, a key holding the last word is always found |
| PropLines.LookupHits | frontend/src/utils/propLinesApi.js:90-95 | in any well-formed map, a key holding the last word is always found |
| PropLines.FmtOdds | frontend/src/utils/propLinesApi.js:84-87 | a dash exactly for a missing price; a plus sign exactly for a positive one; the text reads back as the price |
| PropLines.FindMarket | frontend/src/utils/propLinesApi.js:117-118 | the first market with that key, or none exactly when no market has it |
| PropLines.FindMarketFirst | frontend/src/utils/propLinesApi.js:117-118 | a later market with the same key is never read |
| PropLines.FindPrice | frontend/src/utils/propLinesApi.js:120-123 | none for no market or no outcome of that name; otherwise the price of the first outcome of that name, which may itself be absent |
| PropLines.FindPriceFirst | frontend/src/utils/propLinesApi.js:120-123 | a later outcome of the same name is never read |
| PropLines.GameOddsKeys | frontend/src/utils/propLinesApi.js:112-127 | the table holds exactly the home teams of the events that have a bookmaker |
| PropLines.GameOddsLast | frontend/src/utils/propLinesApi.js:112-127 | a home team listed twice keeps the later event's line |
| PropLines.GameOdds | frontend/src/utils/propLinesApi.js:111-128 | the event loop computes the game-odds table |
| PropLines.OddsClient.constructor | frontend/src/utils/propLinesApi.js:7-13 | no caches filled |
| PropLines.OddsClient.FetchMLBEvents | frontend/src/utils/propLinesApi.js:15-30 | today's cached list is reused; without a key or on a failed fetch nothing is stored and the list is empty; otherwise the answer is stored for today |
| PropLines.OddsClient.FetchEventProps | frontend/src/utils/propLinesApi.js:35-69 | a cached map is reused; without a key or on a failed fetch the empty map is returned and nothing stored; otherwise the collapse is stored under the event and market |
| PropLines.OddsClient.FetchGameOdds | frontend/src/utils/propLinesApi.js:102-130 | a table under ten minutes old is reused; without a key or on a failed fetch the empty table; otherwise the new table is stored with the time |
| Backtester.EnumerateDays | frontend/src/components/tools/Backtester.jsx:49-52 | one day per date from start to end inclusive, in order, none when start is after end |
| Backtester.DaysAscending | frontend/src/components/tools/Backtester.jsx:49-52 | the days ascend and cover exactly the range |
| Backtester.BacktestHand | frontend/src/components/tools/Backtester.jsx:295-300 | a known hand stays; a lookup answer replaces an unknown one, "R" when empty; a null lookup leaves it |
| Backtester.HandFixUpsCompared | frontend/src/components/tools/Backtester.jsx:295-300 | the two hand fix-ups agree when the lookup answers, and differ (none against "R") when it does not |
| Backtester.BacktestInputs | frontend/src/components/tools/Backtester.jsx:334-350 | every entry bats fifth, without Statcast, and BvP counts on the merged data's five at-bats |
| Backtester.ScoreBatter | frontend/src/components/tools/Backtester.jsx:292-359 | a result exactly when the body does not throw (`data` present), for that batter and game, with a score in [0, 100] and its tier |
| Backtester.ScoreIgnoresClock | frontend/src/components/tools/Backtester.jsx:341-350 | the backtest score does not depend on the clock, since rest days only count with Statcast |
| Backtester.ScoredWithoutStatcast | frontend/src/components/tools/Backtester.jsx:344-350 | every backtest score is computed without Statcast and says so among its factors |
| Backtester.HitSetOf | frontend/src/components/tools/Backtester.jsx:16-32 | a failed box score gives the empty set |
| Backtester.HitSetExact | frontend/src/components/tools/Backtester.jsx:22-29 | an id is in the hit set exactly when a home or away player with that id had a hit |
| Backtester.HitIdsSnoc | frontend/src/components/tools/Backtester.jsx:25-28 | each player adds their id exactly when they had a hit |
| Backtester.FetchBoxHits | frontend/src/components/tools/Backtester.jsx:16-32 | the loops compute the hit set of the box score |
| Backtester.HitSets | frontend/src/components/tools/Backtester.jsx:102-107 | every game of the slate has its hit set, and no other game does |
| Backtester.HitSetsSnoc | frontend/src/components/tools/Backtester.jsx:104-106 | the map grows one game at a time |
| Backtester.BuildHitSets | frontend/src/components/tools/Backtester.jsx:102-107 | the writes build the hit-set map of the slate |
| Backtester.Grade | frontend/src/components/tools/Backtester.jsx:109-113 | unknown exactly when the game has no hit set, a win exactly when the batter is in it |
| Backtester.GradeAll | frontend/src/components/tools/Backtester.jsx:109-113 | one graded pick per top pick, in order |
| Backtester.ScorerKeepsGame | frontend/src/components/tools/Backtester.jsx:292-359 | a scored entry keeps its game |
| Backtester.RunDay | frontend/src/components/tools/Backtester.jsx:58-118 | one day's result is its top picks graded against the box scores, each with a verdict |
| Backtester.TopPicksAreBest | frontend/src/components/tools/Backtester.jsx:98-99 | at most N picks, best first, none below a scored entry left out |
| Backtester.TopFromPool | frontend/src/components/tools/Backtester.jsx:86-99 | every top pick is the score of some pool entry |
| Backtester.DayPicksFromPool | frontend/src/components/tools/Backtester.jsx:69-99 | every top pick scores a roster batter of a scheduled game, batting fifth |
| Backtester.DayPicksAllGraded | frontend/src/components/tools/Backtester.jsx:102-113 | every pick of a day has a verdict, since every game gets a hit set |
| Backtester.FailedBoxIsMiss | frontend/src/components/tools/Backtester.jsx:110-111 | a failed box score grades its picks as misses, not as unknown |
| Backtester.DaysRun | frontend/src/components/tools/Backtester.jsx:58-59 | the loop runs until the first day the stop flag is seen, or to the end |
| Backtester.DaysRunAt | frontend/src/components/tools/Backtester.jsx:58-59 | the number of days run is the first stopping day |
| Backtester.DaysOf | frontend/src/components/tools/Backtester.jsx:56-119 | one result per day run |
| Backtester.DaysOfAt | frontend/src/components/tools/Backtester.jsx:58-118 | day i's result is the result of running that date |
| Backtester.DaysOfGraded | frontend/src/components/tools/Backtester.jsx:58-118 | every pick of every day has a verdict |
| Backtester.RunDays | frontend/src/components/tools/Backtester.jsx:56-119 | the day loop computes the results of the days run, each pick with a verdict |
| Backtester.CountPickSnoc | frontend/src/components/tools/Backtester.jsx:125-130 | counting one more pick keeps the tallies exact |
| Backtester.Summarize | frontend/src/components/tools/Backtester.jsx:122-131 | the summary tallies every pick of every day |
| Backtester.CountDay | frontend/src/components/tools/Backtester.jsx:125-130 | one day's picks extend the tallies |
| Backtester.Partition | frontend/src/components/tools/Backtester.jsx:126-129 | wins, losses and unknown picks make up the total |
| Backtester.OneVerdict | frontend/src/components/tools/Backtester.jsx:127-129 | each pick is exactly one of win, loss or unknown |
| Backtester.TierBounds | frontend/src/components/tools/Backtester.jsx:123-128 | a tier never has more hits than decided picks; the tiers' counts add up to the decided picks and the wins |
| Backtester.SummaryBounds | frontend/src/components/tools/Backtester.jsx:122-131 | the summary's counts add up to the total, and each tier's hits are at most its decided picks |
| Backtester.NoUnknownWithSlates | frontend/src/components/tools/Backtester.jsx:110-129 | with every pick graded no pick is unknown |
| Backtester.WinRate | frontend/src/components/tools/Backtester.jsx:135 | a dash exactly when nothing is decided, otherwise the win percentage to one place, within [0, 100] |
| Backtester.TierPercent | frontend/src/components/tools/Backtester.jsx:215-216 | a dash exactly for a tier with no decided picks, otherwise a percentage in [0, 100] |
| Backtester.Run | frontend/src/components/tools/Backtester.jsx:45-139 | the days of the range, the results of the days run, a summary that tallies them with no unknown picks, and a win rate that is a dash exactly when there are no picks |
| PitcherIntel.SideEntry | frontend/src/components/tools/PitcherIntel.jsx:24-25 | a side adds one entry exactly when it has a probable pitcher |
| PitcherIntel.EntriesCount | frontend/src/components/tools/PitcherIntel.jsx:21-27 | one entry per probable pitcher of the slate |
| PitcherIntel.EntriesExact | frontend/src/components/tools/PitcherIntel.jsx:21-27 | an entry is listed exactly when it is some side's pitcher, game and team |
| PitcherIntel.CollectEntries | frontend/src/components/tools/PitcherIntel.jsx:21-27 | the loops compute the entry list |
| PitcherIntel.FixHand | frontend/src/components/tools/PitcherIntel.jsx:35-41 | a present hand stays; a missing one takes the looked-up hand, "?" when that is empty, and stays missing on a null lookup |
| PitcherIntel.FallbackFields | frontend/src/components/tools/PitcherIntel.jsx:47-58 | with neither average nor ERA the spring line replaces the stats, and the spring log replaces an empty log |
| PitcherIntel.FallbackKeepsSeasonData | frontend/src/components/tools/PitcherIntel.jsx:51-57 | a season average or ERA keeps the season data; a non-empty log is kept |
| PitcherIntel.Last2 | frontend/src/components/tools/PitcherIntel.jsx:59 | the two most recent starts, or fewer |
| PitcherIntel.Last2Values | frontend/src/components/tools/PitcherIntel.jsx:60-62 | the hit sum and the average over the last starts, 0 without starts |
| PitcherIntel.DaysRest | frontend/src/components/tools/PitcherIntel.jsx:63-65 | 5 without a start, otherwise the rounded days since the latest start |
| PitcherIntel.Hittability | frontend/src/components/tools/PitcherIntel.jsx:67-69 | at most 100 |
| PitcherIntel.HittabilityBounds | frontend/src/components/tools/PitcherIntel.jsx:67-69 | with non-negative average and ERA, within [0, 100] |
| PitcherIntel.HittabilityDefault | frontend/src/components/tools/PitcherIntel.jsx:67-69 | a pitcher without stats rates 51 |
| PitcherIntel.HittabilityMonotone | frontend/src/components/tools/PitcherIntel.jsx:67-69 | a higher average against and ERA never lower the rating |
| PitcherIntel.LoadPitcher | frontend/src/components/tools/PitcherIntel.jsx:34-73 | the steps of the loader compute the pitcher's row |
| PitcherIntel.RowFacts | frontend/src/components/tools/PitcherIntel.jsx:59-72 | the row keeps the entry, holds the fallback stats and the last two starts, rates at most 100, and is hot or cold exactly by the source's thresholds |
| PitcherIntel.HotAndColdAtOnce | frontend/src/components/tools/PitcherIntel.jsx:70-71 | a pitcher can be listed as hot and cold at once |
| PitcherIntel.Board | frontend/src/components/tools/PitcherIntel.jsx:28-29 | one row per entry |
| PitcherIntel.Load | frontend/src/components/tools/PitcherIntel.jsx:17-32 | a failed schedule fetch leaves the board empty; otherwise the load step builds the board, one row per entry |
| PitcherIntel.BoardRows | frontend/src/components/tools/PitcherIntel.jsx:21-29 | one row per probable pitcher, in entry order, each for its own pitcher, game and team |
| PitcherIntel.VisibleExact | frontend/src/components/tools/PitcherIntel.jsx:80-92 | a row is shown exactly when it passes the hand filter, in column order, as often as it occurs |
| PitcherIntel.HotColdLists | frontend/src/components/tools/PitcherIntel.jsx:94-95 | the hot and cold lists are exactly the shown rows that are hot or cold, in column order |
| ABSTracker.TagAll | frontend/src/components/tools/ABSTracker.jsx:24 | one tagged challenge per challenge of the game, in order |
| ABSTracker.AllChallengesExact | frontend/src/components/tools/ABSTracker.jsx:23-25 | one tagged entry per challenge of the day, and exactly those |
| ABSTracker.AllChallengesAppend | frontend/src/components/tools/ABSTracker.jsx:23-25 | flattening distributes over the list of games |
| ABSTracker.BumpAgrees | frontend/src/components/tools/ABSTracker.jsx:33-49 | counting a challenge that belongs to the person extends their tallies and list by it |
| ABSTracker.EndedSnoc | frontend/src/components/tools/ABSTracker.jsx:36-47 | each challenge adds one to exactly its own outcome |
| ABSTracker.SkipAgrees | frontend/src/components/tools/ABSTracker.jsx:40-49 | a challenge not counted for the person leaves their entry as it was |
| ABSTracker.BoardMapAgrees | frontend/src/components/tools/ABSTracker.jsx:27-51 | each entry tallies exactly its person's counted challenges, and total is won plus lost plus unknown |
| ABSTracker.NoneFiled | frontend/src/components/tools/ABSTracker.jsx:31-33 | a person without an entry has no counted challenge |
| ABSTracker.OutcomesPartition | frontend/src/components/tools/ABSTracker.jsx:36-47 | won, lost and unknown outcomes make up all challenges |
| ABSTracker.BoardMapKeys | frontend/src/components/tools/ABSTracker.jsx:30-33 | a person has an entry exactly when some challenge names them with an id or a name |
| ABSTracker.KeyOrderExact | frontend/src/components/tools/ABSTracker.jsx:33-52 | the entry order lists each person with an entry once |
| ABSTracker.Values | frontend/src/components/tools/ABSTracker.jsx:52 | one value per key, in key order |
| ABSTracker.ValuesExact | frontend/src/components/tools/ABSTracker.jsx:52 | every entry, and only those, is among the values |
| ABSTracker.LeaderboardOrdered | frontend/src/components/tools/ABSTracker.jsx:52 | every listed entry has a challenge, and the list runs from most challenges down |
| ABSTracker.SortedKeepsCounted | frontend/src/components/tools/ABSTracker.jsx:52 | exactly the entries with a challenge survive the filter and sort |
| ABSTracker.LeaderboardExact | frontend/src/components/tools/ABSTracker.jsx:52 | an entry is listed exactly when it has at least one challenge |
| ABSTracker.FileChallenge | frontend/src/components/tools/ABSTracker.jsx:29-50 | a challenge without an identified person changes nothing; otherwise the person's entry is created if new and bumped when the challenge counts for the board |
| ABSTracker.BuildBoard | frontend/src/components/tools/ABSTracker.jsx:27-53 | the loop computes the leaderboard |
| ABSTracker.UmpireCountsAll | frontend/src/components/tools/ABSTracker.jsx:30-39 | the umpire board counts every challenge for its umpire |
| ABSTracker.ChallengerBoardsDisjoint | frontend/src/components/tools/ABSTracker.jsx:41-43 | no challenge counts for both the batter and the pitcher board; batters count offense challenges, pitchers defense ones |
| ABSTracker.WonPercent | frontend/src/components/tools/ABSTracker.jsx:168 | none exactly when nothing is decided, otherwise a percentage in [0, 100] |
| ABSTracker.Percent | frontend/src/components/tools/ABSTracker.jsx:168 | a rounded share lies in [0, 100] |
| ABSTracker.PercentMonotone | frontend/src/components/tools/ABSTracker.jsx:168 | a larger share never rounds lower |
| ABSTracker.Shown | frontend/src/components/tools/ABSTracker.jsx:167 | the first fifty entries, or all of a shorter board |
| ABSTracker.DistancesNonNegative | frontend/src/components/tools/ABSTracker.jsx:64-65 | every distance summed is non-negative, and so is the sum |
| ABSTracker.OverturnPct | frontend/src/components/tools/ABSTracker.jsx:87 | a dash exactly for no challenges, otherwise a percentage in [0, 100] |
| ABSTracker.MeanDistance | frontend/src/components/tools/ABSTracker.jsx:64-65 | the mean distance is never negative |
| ABSTracker.SummaryBounds | frontend/src/components/tools/ABSTracker.jsx:59-63 | overturned plus upheld, and offense plus defense, are at most the total; with every challenge tagged by side the sides make up the total |
| ResearchHub.SideEntries | frontend/src/components/tools/ResearchHub.jsx:78-81 | one pool entry per roster player, for that team and game |
| ResearchHub.IdsMembership | frontend/src/components/tools/ResearchHub.jsx:69-80 | an id is seen exactly when some entry carries it |
| ResearchHub.DedupIds | frontend/src/components/tools/ResearchHub.jsx:79-80 | dropping repeated ids keeps the same set of ids |
| ResearchHub.DedupDistinct | frontend/src/components/tools/ResearchHub.jsx:79-80 | after dropping repeats no two entries share an id |
| ResearchHub.DedupFrom | frontend/src/components/tools/ResearchHub.jsx:79-81 | every kept entry was visited |
| ResearchHub.DedupKeepsFirst | frontend/src/components/tools/ResearchHub.jsx:79-81 | the first visit of each id is kept |
| ResearchHub.DedupSuffix | frontend/src/components/tools/ResearchHub.jsx:79-81 | a later visit never removes a kept entry |
| ResearchHub.AddSidePool | frontend/src/components/tools/ResearchHub.jsx:73-83 | one side's roster slice extends the pool, skipping ids already seen, and the seen set stays the pool's ids |
| ResearchHub.EntriesSnoc | frontend/src/components/tools/ResearchHub.jsx:78-81 | the roster slice is visited one player at a time |
| ResearchHub.DedupSnoc | frontend/src/components/tools/ResearchHub.jsx:79-81 | a visit adds its entry exactly when its id is new |
| ResearchHub.VisitsSnoc | frontend/src/components/tools/ResearchHub.jsx:72-85 | the visits and the team set grow one game at a time |
| ResearchHub.LoadPool | frontend/src/components/tools/ResearchHub.jsx:67-87 | the loops build the deduplicated pool of every side's first 13 roster players, and the set of all team names |
| ResearchHub.PoolProperties | frontend/src/components/tools/ResearchHub.jsx:68-85 | no id twice in the pool, every visited id present, at most 13 players per side |
| ResearchHub.ResearchLogChanges | frontend/src/components/tools/ResearchHub.jsx:107-111 | a log changes only when it has fewer than three games and the spring log is longer, and then only by appending |
| ResearchHub.BatterRow | frontend/src/components/tools/ResearchHub.jsx:103-139 | a row exactly when the body does not throw (fetched data present), for that entry, holding the log after the spring fallback |
| ResearchHub.RowContext | frontend/src/components/tools/ResearchHub.jsx:132-135 | home exactly when the team is the home team; the opposing hand defaults to "R"; the platoon key follows the hand |
| ResearchHub.Hub.constructor | frontend/src/components/tools/ResearchHub.jsx:42 | the per-date cache starts empty |
| ResearchHub.Hub.LoadAllPlayers | frontend/src/components/tools/ResearchHub.jsx:56-101 | a force reload drops the cached date; a cached date is reused; a failed schedule fetch stores nothing; otherwise the rows of the pool are stored with the team set |
| ResearchHub.PowerNeedsAverage | frontend/src/components/tools/ResearchHub.jsx:176-180 | the power lens ranks by slugging only with an average of .200 or better, otherwise 0 |
| ResearchHub.FilteredExact | frontend/src/components/tools/ResearchHub.jsx:185-193 | a row is listed exactly when it passes the lens, team and name filters, ordered by the lens value, as often as it occurs |
| ResearchHub.Toggled | frontend/src/components/tools/ResearchHub.jsx:141-148 | toggling removes a pinned id, adds a new one while fewer than four are pinned, and otherwise changes nothing |
| ResearchHub.ToggleBounded | frontend/src/components/tools/ResearchHub.jsx:141-148 | never more than four pins, and a toggle that changed something is undone by a second |
| ResearchHub.PinBoard.constructor | frontend/src/components/tools/ResearchHub.jsx:38 | nothing is pinned at first |
| ResearchHub.PinBoard.TogglePin | frontend/src/components/tools/ResearchHub.jsx:141-148 | the pin set becomes the toggled set and stays at most four |
| ResearchHub.PinnedRowsExact | frontend/src/components/tools/ResearchHub.jsx:195 | the comparison holds exactly the rows whose batter is pinned |
| ResearchHub.SeqMax | frontend/src/components/tools/ResearchHub.jsx:665 | the maximum is at least every value and is one of them |
| ResearchHub.BestMarks | frontend/src/components/tools/ResearchHub.jsx:665-682 | one mark per value |
| ResearchHub.BestMarksMeaning | frontend/src/components/tools/ResearchHub.jsx:665-682 | a value is marked exactly when it is positive, shown and the maximum; ties are all marked; some value is marked when one is positive and all are shown |
| StatcastTool.SortValue | frontend/src/components/tools/StatcastTool.jsx:43 | a column that does not parse sorts as 0, otherwise by its value |
| StatcastTool.Filtered | frontend/src/components/tools/StatcastTool.jsx:33-45 | exactly the rows the filter keeps, each as often as in the data, ordered by the chosen column |
| StatcastTool.KeptMeetsMinPA | frontend/src/components/tools/StatcastTool.jsx:35 | a kept row meets the minimum plate appearances unless its count does not parse |
| StatcastTool.SearchMatches | frontend/src/components/tools/StatcastTool.jsx:36 | with a search a kept row has a name containing it, ignoring case; clearing the search never drops a row |
| StatcastTool.XbaFilters | frontend/src/components/tools/StatcastTool.jsx:37-39 | "under" keeps only positive differences, "over" only negative ones |
| StatcastTool.XbaFilterDropsOnlyWrongSign | frontend/src/components/tools/StatcastTool.jsx:37-39 | the xBA filter drops only rows whose difference has the wrong sign |
| StatcastTool.Shown | frontend/src/components/tools/StatcastTool.jsx:131 | the first hundred rows, or all of a shorter table |
| StatcastTool.ShownDominates | frontend/src/components/tools/StatcastTool.jsx:131 | each drawn row sorts at least as high as each row left off |
| StatcastTool.HandleSort | frontend/src/components/tools/StatcastTool.jsx:25-28 | the clicked column becomes the sort; the same column flips direction, another sorts descending; the filters stay |
| StatcastTool.UnderBanner | frontend/src/components/tools/StatcastTool.jsx:57-58 | after the "buy low" banner every difference shown is positive, largest first |
| StatcastTool.OverBanner | frontend/src/components/tools/StatcastTool.jsx:62 | after the "sell high" banner every difference shown is negative, most negative first |
| StatcastTool.InitialViewKeeps | frontend/src/components/tools/StatcastTool.jsx:10-45 | as the page opens every row with at least one plate appearance, or an unreadable count, is listed |
| ParkFactors.Filtered | frontend/src/components/tools/ParkFactors.jsx:47-53 | exactly the parks passing the type filter and the name, team or abbreviation search, each as often as in the table, ordered by the chosen column |
| ParkFactors.TypeFilterExact | frontend/src/components/tools/ParkFactors.jsx:49 | a type filter lists exactly the parks of that type |
| ParkFactors.UnfilteredIsWholeTable | frontend/src/components/tools/ParkFactors.jsx:47-53 | without filters the table is a reordering of all parks |
| ParkFactors.Top5 | frontend/src/components/tools/ParkFactors.jsx:55 | five parks (all, when fewer), drawn from the table without repeating one more often than it occurs, highest factor first, and no copy left out has a higher factor than a park shown |
| ParkFactors.Top5LeavesOutOnlyLower | frontend/src/components/tools/ParkFactors.jsx:55 | a park left out of the top five has no higher factor than any park shown, and each shown park is in the table |
| ParkFactors.ParksTable | frontend/src/components/tools/ParkFactors.jsx:3-55 | the table holds 30 parks, so the top list has five |
| ParkFactors.BarPct | frontend/src/components/tools/ParkFactors.jsx:133 | the bar width maps factors 80..130 linearly onto 0..100 and clamps outside |
| ParkFactors.BarPctMonotone | frontend/src/components/tools/ParkFactors.jsx:133 | a higher factor never draws a shorter bar |
| ParkFactors.HandleSort | frontend/src/components/tools/ParkFactors.jsx:42-45 | the clicked column becomes the sort; the same column flips direction, another sorts descending |

## Findings

| source | as written | input that shows it | evidently intended | confidence | as-written member | corrected member |
|---|---|---|---|---|---|---|
| frontend/src/components/tools/PickTracker.jsx:40-49 | `evaluatePick` tests the prop `"Home Run"`. The form offers `"1+ Home Runs"`, which falls through to the one-hit default. | prop `"1+ Home Runs"` with 1 hit, 1 total base and 0 home runs: scored a win | the offered home-run prop is judged on home runs | not executed | PickTracker.EvaluatePickAsWritten, PickTracker.HomeRunPropMisjudged, PickTracker.ResolvePick, PickTracker.HomeRunPickResolvedAsHit | PickTracker.EvaluatePick, PickTracker.ResolvePickIntended |

## Notes on the code

- **Hit Score weights.** The four weight tables of `computeHitScore` do
  not each total 100.
  - The two Statcast tables total 89 and 95, plus the lineup and rest bonuses, at most 2 each.
  - The two tables without Statcast total 100, including their bonus.
  - So the `Math.min(…, 100)` clamp never changes a value
    (`HitScore.SumsBounded`, `HitScore.ClampNeverFires`).
- **Empty inputs.** An entry with no data at all, batting ninth with two
  days of rest, scores 12 rather than 0. The missing pitcher average gives
  the full pitcher term, and the default park factor gives its share
  (`HitScore.EmptyInputsScoreTwelve`).
- **Fallback merge.** The spring-training merge in TodaysPicks is not
  idempotent: a log still under five games is extended again on a second
  merge (`TodaysPicks.MergeNotIdempotent`).
- **`openAddPick`.** It stores the new pick with a `null` result, not
  `"pending"`. Such a pick counts as decided in the record but is never
  auto-resolved (`PickTracker.QuickPick`, `PickTracker.RecordPartition`).
- **Pitcher hand.** The three pages fix up a missing pitcher hand in three
  different ways (`TodaysPicks.FixedHand`, `Backtester.BacktestHand`,
  `PitcherIntel.FixHand`, `Backtester.HandFixUpsCompared`).
- **Backtester verdicts.** The backtester never reports a pick as
  unknown. Every game of a slate gets a hit set, and a failed box score
  gives the empty set, so its picks count as misses
  (`Backtester.FailedBoxIsMiss`, `Backtester.Run`).
- **Backtester scores.** For the same data, the backtester's score does not
  depend on the clock. Rest days only count with Statcast, which the
  backtester never passes (`Backtester.ScoreIgnoresClock`).
- **PitcherIntel hot and cold.** A pitcher can be hot and cold at once: 14
  hits over two starts with a low average (`PitcherIntel.HotAndColdAtOnce`).

## Left out

- PickTracker.AutoResolve: resolves with `evaluatePick` as written, so the "1+ Home Runs" prop is judged on hits, as the program does; `PickTracker.ResolvePickIntended` is the resolution under the corrected rule, and `PickTracker.ResolveIntendedAgrees` shows they differ only for that prop.
- HTTP, proxies and API keys are left out: the fetch answers are inputs. The Odds API key is a `hasKey` flag. `getRemainingRequests` only returns an unset variable.
- Concurrency is left out: each `Promise.allSettled` is a sequential loop; the results are sorted or keyed afterwards.
- React state, rendering, toasts, event dispatch, canvas share cards and the auto-advancing date effect are left out: they are display code.
- localStorage is the `picks` field of `PickTracker.PickStore`; JSON parsing and its failure path are left out.
- The Savant fallback to the prior season's CSV is a second fetch of the same parse, and is not modelled.
- Team lists are alphabetically sorted arrays in the source; the model keeps them as sets, because their order only affects a drop-down.
- `toFixed` results are modelled as the rounded number, not the string.
- Strings are pre-parsed: stat fields arrive as `Option<real>` (`parseFloat` failure is `None`), and counting fields as `nat` defaulting to 0.
- Numbers are unbounded reals and integers; IEEE rounding, `NaN` propagation beyond the cases named in the contracts, and 53-bit limits are not modelled.
- Ids are integers; the source mixes numeric ids with object keys, which are strings.
- `Object.values` and `Object.entries` orders are modelled as insertion order. JavaScript lists integer-like keys first, so the ABSTracker leaderboard can tie-break differently.
- ABSTracker keys a person by `id || name`; the model keys by a tagged `Uid`, so an id that equals another person's name does not collide as it can in the source.
- Backtester adds `p.person?.id` even when it is undefined; the model only records present ids, because an undefined id matches no pick.
- PitcherIntel.Load: the outer `catch` is modelled only for a failed `fetchGames` (`games` is `None`, the board stays empty). `loadPitcher` is taken never to reject, because the fetchers it calls catch their own failures and `Promise.allSettled` never rejects. So the `status === "fulfilled"` filter keeps every row. The spring fallback at lines 50-58 has no `catch` of its own.
- The strike-zone geometry (`distFromZone` with `Math.sqrt`) is left out: distances are inputs.
- `tierBadgeLabel` is not modelled: it maps tiers to emoji labels for display.
- The StatcastTool, PitcherIntel and ParkFactors colour helpers (`diffColor`, `avgClr`, `fColor`) are not modelled: they only pick CSS colours.
- The prop line attached to each TodaysPicks pick (`loadPropLinesForGame`) is left out of `Pick`; the lookup itself is `PropLines.MatchEvent` and `PropLines.FindPlayerLine`.
- StatcastTool.KeptMeetsMinPA: a row whose plate appearances do not parse is kept, as in the source, so the bound holds only for rows with a count.
- Numeric.Fixed3, Numeric.Fixed1, Numeric.Fixed0: a negative value exactly halfway between two grid points rounds up here, while `toFixed` rounds it away from zero; every caller passes a value that is not negative.
- Text.TrimExact: only the white space `IsSpace` lists is trimmed: ASCII white space, U+00A0 and U+FEFF. The rest of the Unicode set of `String.prototype.trim` is not.
- Text.ToLower: only ASCII letters are lowered, not the full Unicode mapping of `toLowerCase`.
- ParkFactors.ParksTable: proves the table size and the top-five length, not the published range of each factor.

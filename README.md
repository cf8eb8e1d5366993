# crypto-intel-trigger: a verified model of the mover pipeline

crypto-intel-trigger watches the crypto market on a schedule. Every five minutes the collection
task fetches a market snapshot and stores the coins and their prices. It then detects *movers*:
coins whose 24h change, or 1h change at half the threshold, crosses a percentage threshold. It
drops the coins still cooling down from an earlier alert, records the new mover events, and hands
the ten largest to the alert task and up to five to the research task. Predictions made about those
events are scored every six hours by the evaluation task, once they are a day old. Each one becomes
correct, incorrect or partial against the coin's current price, and the day's statistics and the
overall accuracy follow from the results. The prediction engine supplies the forecasting rules: it
matches a new move against comparable past events, forecasts a direction with a confidence, and
computes the accuracy of past predictions.

The model is in Dafny, one module per part of the system:

- `MoverDetector` (`mover_detector.dfy`): the per-coin test and the loop plus stable sort of
  `detectMovers`. The sort is an in-place insertion sort on an array, proved equal to a reference
  stable sort. Also the severity bands.
- `PredictionEngine` (`prediction_engine.dfy`): analogue matching, market-cap tiers, the
  forecast, and `calculateAccuracy`, all as functions with lemmas.
- `Store` (`store.dfy`): the relational store as a class, with one field per table the tasks
  touch (`coins`, `price_snapshots`, `mover_events`, `predictions`, `daily_stats`). Its methods
  are the writes the tasks issue. Store-generated row ids are modelled as positions in their
  table.
- `EvaluatePredictions` (`evaluate_predictions.dfy`): the evaluation task. Its ghost loop
  invariant ties the running table and counters to a specification of the whole run.
- `CollectPrices` (`collect_prices.dfy`): the collection task. It covers the batch loops, the
  cooldown filter, the alert and research selections, the research loop and the daily-statistics
  upsert.
- `Schema`, `Seqs`, `Numbers`, `Wrappers`: row types, order-preserving filters, prefixes and
  batches, and `Option`.

Conventions:

- Prices, percentages and market caps are `real`.
- Nullable fields are `Option`, and JavaScript's `x || 0` on them is `GetOr(0.0)`.
- Timestamps are integer seconds.
- The clock reading (`now`) and its UTC date (`today`) are parameters of each run.
- The market snapshot, the current-price map and the count of today's research reports are
  inputs. They are the answers of the market-data provider and of the store.

One IEEE case is modelled exactly: the realised change when the price at prediction time is 0.
`Change` distinguishes a finite value from the two infinities and NaN. The comparisons
`actualChange > 0` and `Math.abs(actualChange) < 2` are evaluated on it as JavaScript evaluates
them. Non-finite values reach `actual_change` as null, because JSON has no such numbers. Likewise
a zero magnitude of the new move makes the similarity ratio infinite or NaN, so nothing matches.

The outcome write-back at src/trigger/evaluate-predictions.ts:127-150 sends
`metadata: supabase.rpc ? undefined : {...}`. The client always has `rpc`, so the value is
`undefined` and the update carries no column. The model therefore leaves `mover_events`
untouched during evaluation, and `EvaluatePredictions.EvaluatePredictions` states this.

## Model

| member | source | states |
|---|---|---|
| MoverDetector.DetectCoin | src/lib/mover-detector.ts:46-93 | A coin emits a 24h event exactly when \|change24h\| reaches the threshold. It emits a 1h event exactly when that test fails and \|change1h\| reaches half of it. Missing changes count as 0. The magnitude is the triggering window's change, and the move is a pump exactly when it is positive. `btcRelative` is change24h minus BTC's change and `volumeRatio` is null. Id, price, market cap and detection time come from the coin and the run. |
| MoverDetector.NullChangesNeverTrigger | src/lib/mover-detector.ts:47-48 | With a positive threshold, a coin whose two changes are both null emits nothing. |
| MoverDetector.DefaultThresholdExample | src/lib/mover-detector.ts:31 | Under the default 10% threshold, +15% in 24h against +2% for BTC is a 24h pump of magnitude 15 with btcRelative 13. |
| MoverDetector.EmittedLength | src/lib/mover-detector.ts:46-94 | The loop emits at most one event per coin. |
| MoverDetector.EmittedSound | src/lib/mover-detector.ts:46-94 | Every emitted event is the event of some coin of the snapshot. |
| MoverDetector.EmittedComplete | src/lib/mover-detector.ts:46-94 | Every coin that triggers contributes its event. |
| MoverDetector.InsertByMagnitude | src/lib/mover-detector.ts:97 | One step of the reference sort yields the old elements plus the new one (multiset equality). |
| MoverDetector.SortByMagnitude | src/lib/mover-detector.ts:97 | The reference sort is a permutation of its input. |
| MoverDetector.InsertKeepsSorted | src/lib/mover-detector.ts:97 | Inserting into a list ranked by \|magnitude\| keeps it ranked. |
| MoverDetector.SortIsSorted | src/lib/mover-detector.ts:97 | The reference sort ranks by \|magnitude\|, largest first. |
| MoverDetector.InsertWithKey | src/lib/mover-detector.ts:97 | An insertion step never reorders events of equal \|magnitude\|. |
| MoverDetector.SortIsStable | src/lib/mover-detector.ts:97 | Stability: for every \|magnitude\|, the events of that size keep their snapshot order. |
| MoverDetector.InsertPosition | src/lib/mover-detector.ts:97 | The insertion puts the new event directly after the last event at least as large as it. |
| MoverDetector.InsertPositionAt | src/lib/mover-detector.ts:97 | The same position, stated element by element. |
| MoverDetector.InsertIntoPrefix | src/lib/mover-detector.ts:97 | The in-place step leaves the array prefix equal to the reference insertion, and the rest of the array unchanged. |
| MoverDetector.SortPrefixStep | src/lib/mover-detector.ts:97 | Sorting one more element of the input is one more insertion step. |
| MoverDetector.SortEventsInPlace | src/lib/mover-detector.ts:97 | The in-place sort of the array equals the reference stable sort of its old contents. |
| MoverDetector.DetectMovers | src/lib/mover-detector.ts:38-100 | The result is the stable \|magnitude\| ranking of the emitted events. It is sorted, a permutation of them, keeps equal magnitudes in snapshot order, and is no longer than the snapshot. |
| MoverDetector.MoveSeverity | src/lib/mover-detector.ts:105-111 | The band is extreme exactly from 50, major exactly in [25, 50), significant exactly in [15, 25), and notable below 15. |
| MoverDetector.SeverityMonotone | src/lib/mover-detector.ts:105-111 | The band never falls as \|magnitude\| grows, and the sign of the move does not matter. |
| PredictionEngine.MarketCapTier | src/lib/prediction-engine.ts:70-75 | Each of the four tiers holds exactly when the market cap lies in its band. |
| PredictionEngine.TierMonotone | src/lib/prediction-engine.ts:70-75 | A larger market cap never lands in a lower tier. |
| PredictionEngine.TierBoundary | src/lib/prediction-engine.ts:72-73 | 999,999,999 is small and 1,000,000,000 is mid. |
| PredictionEngine.FindSimilarEvents | src/lib/prediction-engine.ts:42-65 | The result is the first min(20, m) of the m matching events of history, repeated entries included. It is a subsequence of history whose every element satisfies the three matching conditions, and has exactly that length. |
| PredictionEngine.SimilarEventsComplete | src/lib/prediction-engine.ts:46-64 | Below the cap, every matching event of history is returned. |
| PredictionEngine.FirstMatchesWin | src/lib/prediction-engine.ts:64 | When the older part of history already holds 20 matches, later events cannot change the result: the first matches win, not the best. |
| PredictionEngine.ZeroMagnitudeFindsNothing | src/lib/prediction-engine.ts:54-55 | A new move of magnitude 0 matches nothing, since its ratios are infinite or NaN. |
| PredictionEngine.SimilarMagnitudeBand | src/lib/prediction-engine.ts:53-55 | The ratio test is the band 0.5·\|current\| ≤ \|e\| ≤ 2·\|current\|, inclusive at both ends. |
| PredictionEngine.MeanOutcome | src/lib/prediction-engine.ts:101-103 | The mean outcome is positive exactly when the sum of outcomes is. |
| PredictionEngine.PositiveRatio | src/lib/prediction-engine.ts:105-106 | The share of positive outcomes lies in [0, 1]. |
| PredictionEngine.ConsistencyConfidence | src/lib/prediction-engine.ts:112-113 | The consistency confidence lies in [0.4, 0.8]. It is 0.4 exactly for an even split and 0.8 exactly when the outcomes are unanimous. |
| PredictionEngine.ClampConfidence | src/lib/prediction-engine.ts:127 | The clamp lands in [0.1, 0.95] and leaves values already inside unchanged. |
| PredictionEngine.Summaries | src/lib/prediction-engine.ts:129-135 | One summary per analogue, position by position. |
| PredictionEngine.MakePrediction | src/lib/prediction-engine.ts:80-137 | The confidence is always in [0.1, 0.95]. Exactly min(5, n) analogues are reported for n outcome-bearing ones: the first of them, in order. No analogues gives (down, 0.4, []) for pumps and dumps alike; analogues without outcomes give (down, 0.5, []). With outcomes, the direction is up exactly when the mean outcome is positive, and the confidence is the clamped blend of consistency and past accuracy. It lies in [0.4, 0.8] when no accuracy is known. |
| PredictionEngine.WorkedExample | src/lib/prediction-engine.ts:98-118 | Twenty outcomes, twelve positive, with sum 60 and past accuracy 0.6 give up with confidence 0.516. |
| PredictionEngine.Share | src/lib/prediction-engine.ts:164 | correct/total lies in [0, 1], and multiplying it by the total gives back the correct count. |
| PredictionEngine.CalculateAccuracy | src/lib/prediction-engine.ts:142-168 | The total counts the rows that are not pending and have a change, and the correct count is those whose direction agreed. correct ≤ total. Without such rows the result is (0, 0, 0); otherwise the accuracy is correct/total. |
| EvaluatePredictions.SelectDue | src/trigger/evaluate-predictions.ts:28-35 | Exactly the pending rows at least 24 hours old that reference a mover event are selected, in table order. |
| EvaluatePredictions.RealisedChange | src/trigger/evaluate-predictions.ts:88-90 | The change is finite exactly when the price at prediction time is non-zero. A zero price gives NaN for a zero current price and +∞ for a positive one. |
| EvaluatePredictions.RealisedChangeInverts | src/trigger/evaluate-predictions.ts:90 | A finite change takes the old price to the new one. With a positive old price it is positive exactly when the price rose. |
| EvaluatePredictions.Classify | src/trigger/evaluate-predictions.ts:93-109 | The status is correct exactly when the called direction agreed with `actualChange > 0`, and partial exactly when it disagreed on a move under 2%. Otherwise it is incorrect. |
| EvaluatePredictions.ClassifyExamples | src/trigger/evaluate-predictions.ts:93-109 | A 0% change against down is correct, +1.5% against down is partial, +3% against down is incorrect, and NaN against up is incorrect. |
| EvaluatePredictions.ClassifyAgreesWithAccuracy | src/trigger/evaluate-predictions.ts:111-118 | A scored row with a finite change is one the engine's accuracy counts, and it counts as correct exactly when it was classified correct. A non-finite change is stored as null and is not counted. |
| EvaluatePredictions.Evaluate | src/trigger/evaluate-predictions.ts:71-109 | A selected row is skipped exactly when its coin has no current price or its event cannot be read. Otherwise it gets one of the three final statuses. |
| EvaluatePredictions.EvaluationEffect | src/trigger/evaluate-predictions.ts:111-119 | Rows that are not due or have no price are unchanged. A scored row gets a final status and the evaluation time, and only its status, change and evaluation time differ. |
| EvaluatePredictions.EvaluationIdempotent | src/trigger/evaluate-predictions.ts:28-35 | Running the evaluation again with the same prices changes nothing. |
| EvaluatePredictions.JudgedRowsStay | src/trigger/evaluate-predictions.ts:33-35 | A row one run judged has left `pending`, so no later run, whatever its cutoff, prices, events or clock, changes it again. |
| EvaluatePredictions.Outcomes | src/trigger/evaluate-predictions.ts:70-125 | The outcome sequence has one entry per selected row, each the evaluation of that row. |
| EvaluatePredictions.CountsSnoc | src/trigger/evaluate-predictions.ts:97-104 | Each outcome adds one to exactly one of the two counters, or to neither when it is skipped. |
| EvaluatePredictions.CountsPartition | src/trigger/evaluate-predictions.ts:97-109 | correct + incorrect + skipped equals the number of selected rows, and the incorrect counter counts both incorrect and partial rows. |
| EvaluatePredictions.Percentage | src/trigger/evaluate-predictions.ts:177 | correct/total·100 lies in [0, 100], and multiplying it by the total gives back 100·correct. |
| EvaluatePredictions.CreditCorrectEffect | src/trigger/evaluate-predictions.ts:160-167 | Only today's row changes, only in `predictions_correct`, which grows by the correct count; no row is added. |
| EvaluatePredictions.OverallAccuracy | src/trigger/evaluate-predictions.ts:170-177 | No accuracy exactly when no row has left pending. Otherwise it is the percentage of correct rows among the settled ones, with partial rows in the total only. |
| EvaluatePredictions.ScorePrediction | src/trigger/evaluate-predictions.ts:71-119 | One iteration returns the row's outcome. A judged row is written at its id, and a skipped row changes nothing. |
| EvaluatePredictions.ProgressStep | src/trigger/evaluate-predictions.ts:70-125 | The loop invariant survives one iteration, with the counters grown by that outcome. |
| EvaluatePredictions.ProgressDone | src/trigger/evaluate-predictions.ts:70-125 | At the end of the loop, the table is the evaluated table and the counters are the tallies of all outcomes. |
| EvaluatePredictions.ScoreDue | src/trigger/evaluate-predictions.ts:70-125 | The loop leaves the table equal to the evaluated table and the counters equal to the correct and incorrect tallies. It touches no other table. |
| EvaluatePredictions.CreditDailyStats | src/trigger/evaluate-predictions.ts:152-167 | Today's `predictions_correct` grows by the correct count when today's row exists; otherwise nothing is written. |
| EvaluatePredictions.EvaluatePredictions | src/trigger/evaluate-predictions.ts:22-187 | With nothing due, the run reports so and changes nothing. Otherwise the predictions table becomes the evaluated table and today's statistics are credited. The report carries the selected count, both counters and the overall accuracy of the new table. Coins, snapshots and mover events are unchanged. |
| Store.UpsertAllFrame | src/trigger/collect-prices.ts:52-55 | After an upsert the table's ids are the old ids plus the batch's, and rows the batch does not mention are kept. |
| Store.UpsertAllConcat | src/trigger/collect-prices.ts:52-55 | Upserting two batches in turn is upserting their concatenation. |
| Store.UpsertAllStores | src/trigger/collect-prices.ts:54 | With distinct ids, every upserted row is stored as given. |
| Store.Database.UpsertCoins | src/trigger/collect-prices.ts:54 | The `coins` table becomes the upsert of the batch, and nothing else changes. |
| Store.Database.InsertPriceSnapshots | src/trigger/collect-prices.ts:72 | The batch is appended to `price_snapshots`, and nothing else changes. |
| Store.Database.InsertMoverEvents | src/trigger/collect-prices.ts:128-131 | The events are appended, and the ids returned are their new positions, in order. |
| Store.Database.UpdatePrediction | src/trigger/evaluate-predictions.ts:112-119 | Only the row with that id changes, in its status, change and evaluation time. An unknown id changes nothing. |
| Store.Database.PutDailyStats | src/trigger/collect-prices.ts:176-194 | Only the row of the given date is written. |
| Seqs.ChunksPartition | src/trigger/collect-prices.ts:52-53 | The 100-row batches, concatenated in order, give back the whole list. |
| CollectPrices.CoinRecords | src/trigger/collect-prices.ts:43-49 | One active coin row per snapshot coin, in order, stamped with the run time. |
| CollectPrices.PriceRecords | src/trigger/collect-prices.ts:58-67 | Snapshot rows exist for the first min(500, n) coins only, stamped with the snapshot time. |
| CollectPrices.ChunksFrom | src/trigger/collect-prices.ts:52-53 | The batch starting at i is the slice [i, i+100), and the next batch starts at i+100. |
| CollectPrices.UpsertCoinsInBatches | src/trigger/collect-prices.ts:51-55 | The batch loop leaves `coins` as one upsert of all records, and its requests are exactly the 100-row chunks. |
| CollectPrices.InsertPriceSnapshotsInBatches | src/trigger/collect-prices.ts:69-73 | The batch loop appends all records in order, and its requests are exactly the 100-row chunks. |
| CollectPrices.RecentCoinIds | src/trigger/collect-prices.ts:92-97 | A coin is cooling down exactly when it has an event detected at or after the window start. |
| CollectPrices.DefaultCooldownWindow | src/trigger/collect-prices.ts:88-97 | Under the default four-hour cooldown, a coin with an event in the last four hours is cooling down, and with no event in that window no coin is. |
| CollectPrices.FilterKeepsRanking | src/trigger/collect-prices.ts:98 | Filtering a ranked list keeps it ranked. |
| CollectPrices.CooldownFilter | src/trigger/collect-prices.ts:87-98 | Exactly the movers whose coin is not cooling down are kept, in their order, as many as there are such movers (repeated entries included), and the ranking is kept. |
| CollectPrices.FindId | src/trigger/collect-prices.ts:137 | No id is found exactly when no returned row has that coin. |
| CollectPrices.FirstRow | src/trigger/collect-prices.ts:137 | `find` returns the id of the first returned row of the coin. |
| CollectPrices.FindIdOfInserted | src/trigger/collect-prices.ts:137 | The id found for a mover is that of the first stored event of its coin, at or before its own. |
| CollectPrices.Alerts | src/trigger/collect-prices.ts:134-147 | The alert batch holds the first min(10, n) movers, in order. |
| CollectPrices.AlertsCarryIds | src/trigger/collect-prices.ts:136-137 | Every alert carries the id of a stored event of its coin. With one mover per coin, that is the mover's own event. |
| CollectPrices.AlertsAreTopMovers | src/trigger/collect-prices.ts:76-98 | For the new movers of a run (detected, ranked, past the cooldown), no mover left out of the alert batch moved more than one in it. |
| CollectPrices.ResearchSelectionAsWritten | src/trigger/collect-prices.ts:160-161 | As written: `slice(0, min(5, r))` with JavaScript's negative-end rule. The result is a prefix of the movers. With r ≥ 0 it has min(5, r, n) movers; with r < 0 it drops \|r\| movers from the tail, keeping max(n + r, 0). |
| CollectPrices.OverdrawnAllowanceResearchesMore | src/trigger/collect-prices.ts:151-161 | With 8 movers, a limit of 20 and 22 reports today, the written slice researches 6 movers. |
| CollectPrices.ResearchSelection | src/trigger/collect-prices.ts:160-161 | Corrected: a prefix of the movers, at most 5, never more than the allowance left, and none once the allowance is used up. |
| CollectPrices.ResearchSelectionAgrees | src/trigger/collect-prices.ts:161 | With an allowance not overdrawn, the corrected selection is the written one. |
| CollectPrices.ResearchRequests | src/trigger/collect-prices.ts:163-173 | At most one request per selected mover. |
| CollectPrices.ResearchRequestsSound | src/trigger/collect-prices.ts:163-173 | Every request names a selected mover and the id found for its coin. When every selected coin was stored, none is lost. |
| CollectPrices.ResearchRequestsSnoc | src/trigger/collect-prices.ts:163-173 | One more selected mover adds its request, or none when its event is not found. |
| CollectPrices.TriggerResearch | src/trigger/collect-prices.ts:163-173 | The research loop sends exactly the requests of the selection, in order. |
| CollectPrices.UpdateDailyStats | src/trigger/collect-prices.ts:175-194 | Today's row gets its mover count raised, or is inserted with that count. Other tables are unchanged. |
| CollectPrices.RecordMoversEffect | src/trigger/collect-prices.ts:182-194 | After the write today's row exists and its `total_movers` grew by n from its old value, or from 0. Its other counters and all other days are kept. |
| CollectPrices.StoreSnapshot | src/trigger/collect-prices.ts:42-73 | The coins are upserted and the top-500 snapshots appended; nothing else changes. |
| CollectPrices.SkipCoolingDown | src/trigger/collect-prices.ts:87-98 | The cooldown step returns the cooldown filter of the detected movers against the stored events. |
| CollectPrices.RecordNewMovers | src/trigger/collect-prices.ts:111-194 | The new events are appended and the alert batch built. The research requests follow from the (corrected) selection, and today's mover count is raised. |
| CollectPrices.CollectPrices | src/trigger/collect-prices.ts:30-202 | Coins and snapshots are always stored. With no movers, or none past the cooldown, the run returns early: no events, alerts, research or statistics. Otherwise the new movers are appended, alerted and researched (with the corrected selection), and counted today. The report carries the coin count, the new-mover count, min(n, 10) alerts and the research count. |

## Left out

- Network access and the store client are not modelled: the market-data fetch, the price lookup,
  the store queries and the alert and research task triggers. Their answers are inputs, and the
  triggers are returned as values (`alerts`, `research`).
- Errors of those calls are not modelled: failed queries, a `throw error`, a non-OK HTTP status,
  an insert that returns no rows. Every write succeeds.
- The provider-side filter of the snapshot (market cap ≥ 1M, volume ≥ 100k, in
  src/lib/coingecko.ts) is part of the given snapshot, not of this model.
- Environment parsing (`parseInt`/`parseFloat` of the settings) is not modelled. Thresholds, the
  cooldown and the research limit are parameters, with their defaults as constants. A setting that
  does not parse (NaN) is not modelled.
- `volumeThreshold` is never read by the detector, and the `volume_spike`, `breakout` and
  `breakdown` move types are never produced, so none of them appears.
- Display text is not modelled: `formatMoverAlert`, `formatPrice`, `formatNumber`, the reasoning
  sentence of `makePrediction`, `toFixed` rounding of the accuracy, and console logging. The
  overall accuracy is the exact percentage, or `None` where the source reports "N/A".
- Dates are not computed: `setHours` (including DST effects), ISO-string comparisons and the
  UTC-date split. Time is integer seconds and `today` a parameter. The research count "since today"
  is the parameter `researchedToday`.
- Store-generated ids (UUIDs) are positions in their table. `if (eventId)` is therefore true
  whenever a row is found.
- Floating point is exact `real` arithmetic, apart from the division-by-zero cases described
  above.
- PredictionEngine.HasOutcome: an `outcome_24h` that is present but null is treated like an absent
  one, whereas the source's `!== undefined` test would keep it (and count it as 0).
- Store.UpsertAll: a batch with two rows of the same id is applied in order, row by row. The real
  upsert rejects such a batch.
- CollectPrices.RecordMovers: the counters of a newly inserted `daily_stats` row other than
  `total_movers` are taken to default to 0. The row types in src/lib/database.types.ts make them
  optional, but the database defaults are not part of this model.
- The outcome write-back (src/trigger/evaluate-predictions.ts:127-150) stores nothing, as
  explained above, so no mover event changes during evaluation.
- `MakePrediction` has no reasoning field, and `Prediction` carries direction, confidence and the
  reported analogues only.
- CollectPrices.RecordNewMovers: research uses the corrected selection, `ResearchSelection`, so an overdrawn allowance researches no mover where the written `slice(0, r)` with r < 0 researches all but \|r\| of them (see Findings).
- CollectPrices.CollectPrices: research uses the corrected selection, `ResearchSelection`. The slice as written is kept as `ResearchSelectionAsWritten` and its overdrawn case is pinned by a lemma (see Findings). Both agree whenever the allowance is not overdrawn.
- Concurrency between runs (two runs updating the same `daily_stats` row) is not modelled. Each
  run is one sequential method.

## Findings

| source | as written | input that shows it | evidently intended | confidence | as-written member | corrected member |
|---|---|---|---|---|---|---|
| src/trigger/collect-prices.ts:160-161 | `movers.slice(0, Math.min(5, remainingResearch))`. Once today's count exceeds the limit, the allowance is negative and `slice` counts the end from the back. | 8 new movers, `MAX_RESEARCH_PER_DAY` 20, 22 reports today: the allowance is −2, the slice is `slice(0, -2)`, and 6 movers are researched. | Research stops once the daily allowance is used up, taking at most min(5, allowance) movers. | not executed | CollectPrices.ResearchSelectionAsWritten, with CollectPrices.OverdrawnAllowanceResearchesMore | CollectPrices.ResearchSelection, with CollectPrices.ResearchSelectionAgrees |

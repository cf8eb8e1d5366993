/** The evaluation task (src/trigger/evaluate-predictions.ts): pending predictions at least a day old
    are scored against the coin's current price, the day's statistics are credited with the correct
    calls, and the overall accuracy is reported. */
module EvaluatePredictions {
  import opened Wrappers
  import opened Schema
  import opened Numbers
  import Seqs
  import opened MoverDetector
  import opened Store
  import PredictionEngine

  /** A prediction is scored once it is 24 hours old. */
  const EvaluationDelay: int := 24 * 3600

  /** `mover_events!inner(...)`: a row is selected only when it references an existing event. */
  predicate Joined(p: PredictionRow, events: seq<MoverEvent>) {
    p.moverEventId.Some? && p.moverEventId.value < |events|
  }

  predicate Due(p: PredictionRow, cutoff: int, events: seq<MoverEvent>) {
    p.status == Pending && p.predictedAt <= cutoff && Joined(p, events)
  }

  function DueAt(cutoff: int, events: seq<MoverEvent>): PredictionRow -> bool {
    p => Due(p, cutoff, events)
  }

  /** The selection of pending rows, in table order. */
  function SelectDue(rows: seq<PredictionRow>, cutoff: int, events: seq<MoverEvent>): (r: seq<PredictionRow>)
    ensures forall p :: p in r <==> p in rows && Due(p, cutoff, events)
    ensures Seqs.IsSubsequence(r, rows)
  {
    forall p ensures p in Seqs.Filter(rows, DueAt(cutoff, events)) <==> p in rows && Due(p, cutoff, events) {
      Seqs.FilterMembership(rows, DueAt(cutoff, events), p);
    }
    Seqs.FilterIsSubsequence(rows, DueAt(cutoff, events));
    Seqs.Filter(rows, DueAt(cutoff, events))
  }

  // ---------------------------------------------------------------------------------------------
  // Scoring one prediction

  /** A realised change in percent as IEEE arithmetic produces it: dividing by a zero price at
      prediction time gives an infinity, or NaN when the current price is zero too. */
  datatype Change = Finite(percent: real) | PlusInfinity | MinusInfinity | NotANumber

  /** `((current - before) / before) * 100`. */
  function RealisedChange(before: real, current: real): (c: Change)
    ensures c.Finite? <==> before != 0.0
    ensures before == 0.0 ==> (c == NotANumber <==> current == 0.0) && (c == PlusInfinity <==> current > 0.0)
  {
    if before != 0.0 then Finite((current - before) / before * 100.0)
    else if current > 0.0 then PlusInfinity
    else if current < 0.0 then MinusInfinity
    else NotANumber
  }

  /** A finite change is the one that takes the old price to the new one, and with a positive price
      at prediction time it is positive exactly when the price rose. */
  lemma RealisedChangeInverts(before: real, current: real)
    requires before != 0.0
    ensures before * (100.0 + RealisedChange(before, current).percent) == current * 100.0
    ensures before > 0.0 ==> (RealisedChange(before, current).percent > 0.0 <==> current > before)
  {
    var pct := RealisedChange(before, current).percent;
    assert pct == (current - before) / before * 100.0;
    assert before * pct == (current - before) * 100.0;
    if before > 0.0 {
      assert pct > 0.0 <==> current - before > 0.0;
    }
  }

  /** `actualChange > 0`, which is false for NaN. */
  predicate IsUp(c: Change) {
    (c.Finite? && c.percent > 0.0) || c == PlusInfinity
  }

  /** `Math.abs(actualChange) < 2`, false for the infinities and NaN. */
  predicate IsSmall(c: Change) {
    c.Finite? && Abs(c.percent) < 2.0
  }

  /** The value that reaches `actual_change`: JSON has no infinities or NaN and sends them as null. */
  function StoredChange(c: Change): Option<real> {
    if c.Finite? then Some(c.percent) else None
  }

  /** The status a matured prediction gets: correct when it called the direction, partial when it
      missed it on a move of less than 2%, incorrect otherwise. */
  function Classify(predictedDirection: string, c: Change): (s: PredictionStatus)
    ensures s == Correct || s == Incorrect || s == Partial
    ensures s == Correct <==> ((predictedDirection == "up") <==> IsUp(c))
    ensures s == Partial <==> !((predictedDirection == "up") <==> IsUp(c)) && IsSmall(c)
  {
    if (predictedDirection == "up") == IsUp(c) then Correct
    else if IsSmall(c) then Partial
    else Incorrect
  }

  /** A flat price against a `down` call is correct; a small rise against it is partial, a larger
      one incorrect. */
  lemma ClassifyExamples()
    ensures Classify("down", Finite(0.0)) == Correct
    ensures Classify("down", Finite(1.5)) == Partial
    ensures Classify("down", Finite(3.0)) == Incorrect
    ensures Classify("up", NotANumber) == Incorrect
  {
  }

  /** A finite change is written back, so the scored row is one the engine's accuracy counts, and it
      counts as correct exactly when it was classified correct. A non-finite change is stored as
      null, so the row is settled but not scored. */
  lemma ClassifyAgreesWithAccuracy(p: PredictionRow, c: Change, now: int)
    ensures var q := p.(status := Classify(p.predictedDirection, c), actualChange := StoredChange(c), evaluatedAt := Some(now));
            (PredictionEngine.IsScored(q) <==> c.Finite?) &&
            (c.Finite? ==> (PredictionEngine.CalledDirection(q) <==> q.status == Correct))
  {
  }

  datatype Outcome = Skipped | Judged(status: PredictionStatus, change: Change)

  /** A row that cannot be scored, and is skipped: its coin has no current price, or its mover event
      cannot be read. */
  predicate Unscorable(p: PredictionRow, prices: map<string, real>, events: seq<MoverEvent>) {
    p.coinId !in prices || !Joined(p, events)
  }

  function Evaluate(p: PredictionRow, prices: map<string, real>, events: seq<MoverEvent>): (o: Outcome)
    ensures o.Skipped? <==> Unscorable(p, prices, events)
    ensures o.Judged? ==> o.status == Correct || o.status == Incorrect || o.status == Partial
  {
    if Unscorable(p, prices, events) then Skipped
    else
      var c := RealisedChange(events[p.moverEventId.value].price, prices[p.coinId]);
      Judged(Classify(p.predictedDirection, c), c)
  }

  function Updated(p: PredictionRow, o: Outcome, now: int): PredictionRow {
    match o
    case Skipped => p
    case Judged(status, change) => p.(status := status, actualChange := StoredChange(change), evaluatedAt := Some(now))
  }

  function EvaluatedRow(p: PredictionRow, cutoff: int, prices: map<string, real>, events: seq<MoverEvent>, now: int): PredictionRow {
    if Due(p, cutoff, events) then Updated(p, Evaluate(p, prices, events), now) else p
  }

  /** The predictions table once every selected row has been scored. */
  function EvaluatedTable(t: seq<PredictionRow>, cutoff: int, prices: map<string, real>, events: seq<MoverEvent>, now: int): (r: seq<PredictionRow>)
    ensures |r| == |t|
  {
    seq(|t|, i requires 0 <= i < |t| => EvaluatedRow(t[i], cutoff, prices, events, now))
  }

  /** What scoring does to a row: rows that are not due, or that are skipped, are left alone; a
      scored row gets a final status, its realised change and the evaluation time, and nothing else
      about it changes. */
  lemma EvaluationEffect(t: seq<PredictionRow>, cutoff: int, prices: map<string, real>, events: seq<MoverEvent>, now: int, i: nat)
    requires i < |t|
    ensures var r := EvaluatedTable(t, cutoff, prices, events, now);
            (!Due(t[i], cutoff, events) || t[i].coinId !in prices ==> r[i] == t[i]) &&
            (Due(t[i], cutoff, events) && t[i].coinId in prices ==>
               r[i].status in {Correct, Incorrect, Partial} &&
               r[i].evaluatedAt == Some(now) &&
               r[i].(status := t[i].status, actualChange := t[i].actualChange, evaluatedAt := t[i].evaluatedAt) == t[i])
  {
  }

  /** Scoring twice with the same prices is scoring once: a scored row is no longer pending, and a
      skipped row is skipped again. */
  lemma EvaluationIdempotent(t: seq<PredictionRow>, cutoff: int, prices: map<string, real>, events: seq<MoverEvent>, now: int)
    ensures EvaluatedTable(EvaluatedTable(t, cutoff, prices, events, now), cutoff, prices, events, now)
         == EvaluatedTable(t, cutoff, prices, events, now)
  {
    var r := EvaluatedTable(t, cutoff, prices, events, now);
    forall i | 0 <= i < |t|
      ensures EvaluatedRow(r[i], cutoff, prices, events, now) == r[i]
    {
      if Due(r[i], cutoff, events) {
        assert r[i] == t[i];
      }
    }
  }

  /** A row judged by one run is never judged again: whatever cutoff, prices, events and clock a
      later run uses, it leaves that row as the first run wrote it. */
  lemma JudgedRowsStay(t: seq<PredictionRow>, cutoff: int, prices: map<string, real>, events: seq<MoverEvent>, now: int,
                       cutoff2: int, prices2: map<string, real>, events2: seq<MoverEvent>, now2: int, i: nat)
    requires i < |t| && Due(t[i], cutoff, events) && !Unscorable(t[i], prices, events)
    ensures var r := EvaluatedTable(t, cutoff, prices, events, now);
            r[i].status != Pending &&
            EvaluatedTable(r, cutoff2, prices2, events2, now2)[i] == r[i]
  {
    EvaluationEffect(t, cutoff, prices, events, now, i);
    var r := EvaluatedTable(t, cutoff, prices, events, now);
    EvaluationEffect(r, cutoff2, prices2, events2, now2, i);
  }

  // ---------------------------------------------------------------------------------------------
  // The counters

  predicate IsCorrectOutcome(o: Outcome) { o.Judged? && o.status == Correct }
  predicate IsMissedOutcome(o: Outcome) { o.Judged? && o.status != Correct }
  predicate IsSkippedOutcome(o: Outcome) { o.Skipped? }
  predicate IsIncorrectOutcome(o: Outcome) { o.Judged? && o.status == Incorrect }
  predicate IsPartialOutcome(o: Outcome) { o.Judged? && o.status == Partial }

  function Outcomes(due: seq<PredictionRow>, prices: map<string, real>, events: seq<MoverEvent>): (r: seq<Outcome>)
    ensures |r| == |due|
    ensures forall i :: 0 <= i < |due| ==> r[i] == Evaluate(due[i], prices, events)
  {
    if due == [] then [] else Outcomes(due[..|due| - 1], prices, events) + [Evaluate(due[|due| - 1], prices, events)]
  }

  function CorrectCount(due: seq<PredictionRow>, prices: map<string, real>, events: seq<MoverEvent>): nat {
    Seqs.Count(Outcomes(due, prices, events), IsCorrectOutcome)
  }

  function IncorrectCount(due: seq<PredictionRow>, prices: map<string, real>, events: seq<MoverEvent>): nat {
    Seqs.Count(Outcomes(due, prices, events), IsMissedOutcome)
  }

  /** One more outcome adds to exactly one of the two counters, or to neither when skipped. */
  lemma CountsSnoc(os: seq<Outcome>, o: Outcome)
    ensures Seqs.Count(os + [o], IsCorrectOutcome) == Seqs.Count(os, IsCorrectOutcome) + (if o.Judged? && o.status == Correct then 1 else 0)
    ensures Seqs.Count(os + [o], IsMissedOutcome) == Seqs.Count(os, IsMissedOutcome) + (if o.Judged? && o.status != Correct then 1 else 0)
  {
    Seqs.FilterSnoc(os, o, IsCorrectOutcome);
    Seqs.FilterSnoc(os, o, IsMissedOutcome);
  }

  /** Every selected row is counted correct, counted incorrect or skipped, and a partial row is
      counted as incorrect. */
  lemma {:induction false} CountsPartition(os: seq<Outcome>)
    requires forall i :: 0 <= i < |os| && os[i].Judged? ==> os[i].status == Correct || os[i].status == Incorrect || os[i].status == Partial
    ensures Seqs.Count(os, IsCorrectOutcome) + Seqs.Count(os, IsMissedOutcome) + Seqs.Count(os, IsSkippedOutcome) == |os|
    ensures Seqs.Count(os, IsMissedOutcome) == Seqs.Count(os, IsIncorrectOutcome) + Seqs.Count(os, IsPartialOutcome)
  {
    if os != [] {
      CountsPartition(os[1..]);
    }
  }

  // ---------------------------------------------------------------------------------------------
  // Daily statistics and overall accuracy

  /** `predictions_correct` of today's row grows by the correct count; without a row nothing is
      written. */
  function CreditCorrect(stats: map<string, DailyStatsRow>, today: string, correct: nat): map<string, DailyStatsRow> {
    if today in stats then stats[today := stats[today].(predictionsCorrect := stats[today].predictionsCorrect + correct)]
    else stats
  }

  /** Only today's row changes, and only in `predictions_correct`; no row is added. */
  lemma CreditCorrectEffect(stats: map<string, DailyStatsRow>, today: string, correct: nat)
    ensures var r := CreditCorrect(stats, today, correct);
            r.Keys == stats.Keys &&
            (today in stats ==> r[today].predictionsCorrect == stats[today].predictionsCorrect + correct &&
                                r[today].(predictionsCorrect := stats[today].predictionsCorrect) == stats[today]) &&
            (forall d :: d in stats && d != today ==> r[d] == stats[d])
  {
  }

  predicate IsSettled(p: PredictionRow) { p.status != Pending }
  predicate IsCorrectRow(p: PredictionRow) { p.status == Correct }

  /** `correct / total * 100` for a non-empty tally. */
  function Percentage(correct: nat, total: nat): (r: real)
    requires correct <= total && total > 0
    ensures 0.0 <= r <= 100.0
    ensures r * total as real == correct as real * 100.0
  {
    var share := PredictionEngine.Share(correct, total);
    assert share * 100.0 * total as real == (share * total as real) * 100.0;
    share * 100.0
  }

  /** The percentage of correct rows among all rows that are no longer pending; none without any. */
  function OverallAccuracy(t: seq<PredictionRow>): (r: Option<real>)
    ensures r.None? <==> Seqs.Count(t, IsSettled) == 0
    ensures r.Some? ==> Seqs.Count(t, IsCorrectRow) <= Seqs.Count(t, IsSettled) &&
                        r.value == Percentage(Seqs.Count(t, IsCorrectRow), Seqs.Count(t, IsSettled))
  {
    var total := Seqs.Count(t, IsSettled);
    Seqs.FilterFilter(t, IsSettled, IsCorrectRow, IsCorrectRow);
    var correct := Seqs.Count(t, IsCorrectRow);
    assert correct <= total;
    if total > 0 then Some(Percentage(correct, total)) else None
  }

  datatype EvaluationReport =
    | NothingToEvaluate
    | Evaluated(evaluated: nat, correct: nat, incorrect: nat, overallAccuracy: Option<real>)

  // ---------------------------------------------------------------------------------------------
  // The task

  /** Scores one selected row: looks up the current price and the price at prediction time, and
      writes the status, the realised change and the evaluation time. */
  method ScorePrediction(db: Database, prediction: PredictionRow, prices: map<string, real>, now: int) returns (outcome: Outcome)
    requires db.Valid()
    modifies db
    ensures db.Valid()
    ensures outcome == Evaluate(prediction, prices, db.moverEvents)
    ensures db.coins == old(db.coins) && db.priceSnapshots == old(db.priceSnapshots)
    ensures db.moverEvents == old(db.moverEvents) && db.dailyStats == old(db.dailyStats)
    ensures outcome.Judged? && prediction.id < |old(db.predictions)| ==>
              db.predictions == old(db.predictions)[prediction.id := Updated(old(db.predictions)[prediction.id], outcome, now)]
    ensures outcome.Skipped? || prediction.id >= |old(db.predictions)| ==> db.predictions == old(db.predictions)
  {
    if prediction.coinId !in prices {
      return Skipped;
    }
    var eventId := prediction.moverEventId;
    if eventId.None? || eventId.value >= |db.moverEvents| {
      return Skipped;
    }
    var priceAtPrediction := db.moverEvents[eventId.value].price;
    var currentPrice := prices[prediction.coinId];
    var actualChange := RealisedChange(priceAtPrediction, currentPrice);

    var predictedUp := prediction.predictedDirection == "up";
    var actualUp := IsUp(actualChange);
    var isCorrect := predictedUp == actualUp;

    var status := Incorrect;
    if isCorrect {
      status := Correct;
    }
    if !isCorrect && IsSmall(actualChange) {
      status := Partial;
    }
    outcome := Judged(status, actualChange);
    db.UpdatePrediction(prediction.id, status, StoredChange(actualChange), now);
  }

  /** The loop's progress after `k` selected rows: the rows in `done` are scored and all others are
      as they were, every earlier row is scored or skipped, and the counters tally the outcomes. */
  ghost predicate Progress(k: nat, pending: seq<PredictionRow>, t: seq<PredictionRow>, cur: seq<PredictionRow>,
                           done: set<nat>, outcomes: seq<Outcome>, correct: nat, incorrect: nat,
                           cutoff: int, prices: map<string, real>, events: seq<MoverEvent>, now: int)
  {
    k <= |pending| && |cur| == |t| && |outcomes| == k &&
    (forall j :: j in done ==> j < |t| && Due(t[j], cutoff, events)) &&
    (forall j :: 0 <= j < |t| ==> cur[j] == (if j in done then Updated(t[j], Evaluate(t[j], prices, events), now) else t[j])) &&
    (forall m :: 0 <= m < k ==> pending[m].id in done || Unscorable(pending[m], prices, events)) &&
    (forall m :: 0 <= m < k ==> outcomes[m] == Evaluate(pending[m], prices, events)) &&
    correct == Seqs.Count(outcomes, IsCorrectOutcome) &&
    incorrect == Seqs.Count(outcomes, IsMissedOutcome)
  }

  lemma ProgressStep(k: nat, pending: seq<PredictionRow>, t: seq<PredictionRow>, cur: seq<PredictionRow>,
                     done: set<nat>, outcomes: seq<Outcome>, correct: nat, incorrect: nat,
                     cutoff: int, prices: map<string, real>, events: seq<MoverEvent>, now: int, o: Outcome)
    requires Progress(k, pending, t, cur, done, outcomes, correct, incorrect, cutoff, prices, events, now)
    requires k < |pending| && pending[k].id < |t| && pending[k] == t[pending[k].id] && Due(t[pending[k].id], cutoff, events)
    requires o == Evaluate(pending[k], prices, events)
    ensures var id := pending[k].id;
            Progress(k + 1, pending, t,
                     if o.Judged? then cur[id := Updated(cur[id], o, now)] else cur,
                     if o.Judged? then done + {id} else done,
                     outcomes + [o],
                     correct + (if o.Judged? && o.status == Correct then 1 else 0),
                     incorrect + (if o.Judged? && o.status != Correct then 1 else 0),
                     cutoff, prices, events, now)
  {
    CountsSnoc(outcomes, o);
  }

  /** At the end of the loop the table is the scored table and the counters are the tallies. */
  lemma ProgressDone(pending: seq<PredictionRow>, t: seq<PredictionRow>, cur: seq<PredictionRow>,
                     done: set<nat>, outcomes: seq<Outcome>, correct: nat, incorrect: nat,
                     cutoff: int, prices: map<string, real>, events: seq<MoverEvent>, now: int)
    requires Progress(|pending|, pending, t, cur, done, outcomes, correct, incorrect, cutoff, prices, events, now)
    requires pending == SelectDue(t, cutoff, events)
    requires forall i :: 0 <= i < |t| ==> t[i].id == i
    ensures cur == EvaluatedTable(t, cutoff, prices, events, now)
    ensures correct == CorrectCount(pending, prices, events) && incorrect == IncorrectCount(pending, prices, events)
  {
    assert outcomes == Outcomes(pending, prices, events);
    forall j | 0 <= j < |t|
      ensures cur[j] == EvaluatedRow(t[j], cutoff, prices, events, now)
    {
      if Due(t[j], cutoff, events) && j !in done {
        assert t[j] in pending;
        var m :| 0 <= m < |pending| && pending[m] == t[j];
        assert pending[m].id == j;
      }
    }
  }

  /** The scoring loop: every due prediction in turn is scored and written back, counting the correct
      and the incorrect calls. */
  method ScoreDue(db: Database, pending: seq<PredictionRow>, prices: map<string, real>, now: int)
    returns (correctCount: nat, incorrectCount: nat)
    requires db.Valid()
    requires pending == SelectDue(db.predictions, now - EvaluationDelay, db.moverEvents)
    modifies db
    ensures db.Valid()
    ensures db.coins == old(db.coins) && db.priceSnapshots == old(db.priceSnapshots)
    ensures db.moverEvents == old(db.moverEvents) && db.dailyStats == old(db.dailyStats)
    ensures db.predictions == EvaluatedTable(old(db.predictions), now - EvaluationDelay, prices, old(db.moverEvents), now)
    ensures correctCount == CorrectCount(pending, prices, old(db.moverEvents))
    ensures incorrectCount == IncorrectCount(pending, prices, old(db.moverEvents))
  {
    var t, events := db.predictions, db.moverEvents;
    var cutoff := now - EvaluationDelay;
    assert forall i :: 0 <= i < |t| ==> t[i].id == i;

    correctCount, incorrectCount := 0, 0;
    ghost var done: set<nat> := {};
    ghost var outcomes: seq<Outcome> := [];
    for k := 0 to |pending|
      invariant db.Valid()
      invariant db.coins == old(db.coins) && db.priceSnapshots == old(db.priceSnapshots)
      invariant db.moverEvents == events && db.dailyStats == old(db.dailyStats)
      invariant Progress(k, pending, t, db.predictions, done, outcomes, correctCount, incorrectCount, cutoff, prices, events, now)
    {
      var prediction := pending[k];
      assert prediction in t;
      ghost var id: nat := prediction.id;
      assert id < |t| && prediction == t[id];
      ghost var cur := db.predictions;
      var outcome := ScorePrediction(db, prediction, prices, now);
      ProgressStep(k, pending, t, cur, done, outcomes, correctCount, incorrectCount, cutoff, prices, events, now, outcome);
      if outcome.Judged? {
        if outcome.status == Correct {
          correctCount := correctCount + 1;
        } else {
          incorrectCount := incorrectCount + 1;
        }
        done := done + {id};
      }
      outcomes := outcomes + [outcome];
    }
    ProgressDone(pending, t, db.predictions, done, outcomes, correctCount, incorrectCount, cutoff, prices, events, now);
  }

  /** The daily-statistics update: today's row, when there is one, is credited with the correct
      count. */
  method CreditDailyStats(db: Database, today: string, correctCount: nat)
    requires db.Valid()
    modifies db
    ensures db.Valid()
    ensures db.dailyStats == CreditCorrect(old(db.dailyStats), today, correctCount)
    ensures db.coins == old(db.coins) && db.priceSnapshots == old(db.priceSnapshots)
    ensures db.moverEvents == old(db.moverEvents) && db.predictions == old(db.predictions)
  {
    if today in db.dailyStats {
      var stats := db.dailyStats[today];
      assert stats.date == today;
      db.PutDailyStats(stats.(predictionsCorrect := stats.predictionsCorrect + correctCount));
    }
  }

  /** One run. `prices` is the current USD price per coin as the price provider returned it; `now`
      and `today` are the run's clock reading and its UTC date. */
  method EvaluatePredictions(db: Database, prices: map<string, real>, now: int, today: string) returns (report: EvaluationReport)
    requires db.Valid()
    modifies db
    ensures db.Valid()
    ensures db.coins == old(db.coins) && db.priceSnapshots == old(db.priceSnapshots) && db.moverEvents == old(db.moverEvents)
    ensures var due := SelectDue(old(db.predictions), now - EvaluationDelay, old(db.moverEvents));
            if due == [] then
              report == NothingToEvaluate && db.predictions == old(db.predictions) && db.dailyStats == old(db.dailyStats)
            else
              db.predictions == EvaluatedTable(old(db.predictions), now - EvaluationDelay, prices, old(db.moverEvents), now) &&
              db.dailyStats == CreditCorrect(old(db.dailyStats), today, CorrectCount(due, prices, old(db.moverEvents))) &&
              report == Evaluated(|due|, CorrectCount(due, prices, old(db.moverEvents)), IncorrectCount(due, prices, old(db.moverEvents)),
                                  OverallAccuracy(db.predictions))
  {
    var pending := SelectDue(db.predictions, now - EvaluationDelay, db.moverEvents);
    if |pending| == 0 {
      return NothingToEvaluate;
    }

    var correctCount, incorrectCount := ScoreDue(db, pending, prices, now);
    CreditDailyStats(db, today, correctCount);

    var accuracy := OverallAccuracy(db.predictions);
    report := Evaluated(|pending|, correctCount, incorrectCount, accuracy);
  }
}

/** Analogue matching and forecasting (src/lib/prediction-engine.ts): past events comparable to a
    new move, a directional forecast with a confidence from their outcomes, and the accuracy of
    past predictions. */
module PredictionEngine {
  import opened Wrappers
  import opened Schema
  import opened Numbers
  import Seqs

  /** The new move a forecast is made for. */
  datatype PredictionInput = PredictionInput(
    coinId: string,
    symbol: string,
    magnitude: real,
    moveType: MoveType,
    marketCap: real,
    volume24h: real,
    rank: Option<int>)

  /** A past mover event with, once it has matured, its realised 24h outcome in percent. */
  datatype HistoricalEvent = HistoricalEvent(
    coinId: string,
    symbol: string,
    magnitude: real,
    moveType: string,
    marketCap: real,
    detectedAt: string,
    outcome24h: Option<real>)

  datatype Direction = Up | Down

  /** An analogue as it is reported with the forecast. */
  datatype SimilarEvent = SimilarEvent(coinId: string, symbol: string, magnitude: real, outcome: real, date: string)

  /** A forecast; its reasoning sentence is display text and is left out. */
  datatype Prediction = Prediction(direction: Direction, confidence: real, similarEvents: seq<SimilarEvent>)

  // ---------------------------------------------------------------------------------------------
  // Market-cap tiers

  datatype Tier = Micro | Small | Mid | Large

  function TierRank(t: Tier): nat {
    match t
    case Micro => 0
    case Small => 1
    case Mid => 2
    case Large => 3
  }

  function MarketCapTier(marketCap: real): (r: Tier)
    ensures r == Large <==> marketCap >= 10_000_000_000.0
    ensures r == Mid <==> 1_000_000_000.0 <= marketCap < 10_000_000_000.0
    ensures r == Small <==> 100_000_000.0 <= marketCap < 1_000_000_000.0
    ensures r == Micro <==> marketCap < 100_000_000.0
  {
    if marketCap >= 10_000_000_000.0 then Large
    else if marketCap >= 1_000_000_000.0 then Mid
    else if marketCap >= 100_000_000.0 then Small
    else Micro
  }

  /** A larger market cap never lands in a lower tier. */
  lemma TierMonotone(a: real, b: real)
    requires a <= b
    ensures TierRank(MarketCapTier(a)) <= TierRank(MarketCapTier(b))
  {
  }

  /** The boundary between the small and mid tiers lies exactly at one billion. */
  lemma TierBoundary()
    ensures MarketCapTier(999_999_999.0) == Small
    ensures MarketCapTier(1_000_000_000.0) == Mid
  {
  }

  // ---------------------------------------------------------------------------------------------
  // Similar events

  predicate SameDirection(current: PredictionInput, e: HistoricalEvent) {
    (current.moveType == Pump && e.magnitude > 0.0) || (current.moveType == Dump && e.magnitude < 0.0)
  }

  /** `|e.magnitude| / |current.magnitude|`; with a zero candidate the quotient is infinite or NaN in
      JavaScript, and no comparison with it holds. */
  function MagnitudeRatio(current: PredictionInput, e: HistoricalEvent): Option<real> {
    if current.magnitude == 0.0 then None else Some(Abs(e.magnitude) / Abs(current.magnitude))
  }

  predicate SimilarMagnitude(current: PredictionInput, e: HistoricalEvent) {
    match MagnitudeRatio(current, e)
    case Some(ratio) => ratio >= 0.5 && ratio <= 2.0
    case None => false
  }

  predicate IsSimilar(current: PredictionInput, e: HistoricalEvent) {
    SameDirection(current, e) && SimilarMagnitude(current, e) &&
    MarketCapTier(current.marketCap) == MarketCapTier(e.marketCap)
  }

  function SimilarTo(current: PredictionInput): HistoricalEvent -> bool {
    e => IsSimilar(current, e)
  }

  /** The cap on the analogues returned. */
  const MaxSimilarEvents: nat := 20

  /** All matches of the three conditions in history order, then the first 20 of them. */
  function FindSimilarEvents(current: PredictionInput, history: seq<HistoricalEvent>): (r: seq<HistoricalEvent>)
    ensures |r| <= MaxSimilarEvents
    ensures forall e :: e in r ==> e in history && IsSimilar(current, e)
    ensures Seqs.IsSubsequence(r, history)
    ensures |r| == Seqs.Min(MaxSimilarEvents, Seqs.Count(history, SimilarTo(current)))
  {
    var matches := Seqs.Filter(history, SimilarTo(current));
    Seqs.FilterIsSubsequence(history, SimilarTo(current));
    Seqs.PrefixIsSubsequence(matches, Seqs.Min(MaxSimilarEvents, |matches|));
    Seqs.SubsequenceTrans(matches[..Seqs.Min(MaxSimilarEvents, |matches|)], matches, history);
    forall e | e in matches ensures e in history && IsSimilar(current, e) {
      Seqs.FilterMembership(history, SimilarTo(current), e);
    }
    matches[..Seqs.Min(MaxSimilarEvents, |matches|)]
  }

  /** Completeness below the cap: when fewer than 20 are returned, every similar event of history
      is among them. */
  lemma SimilarEventsComplete(current: PredictionInput, history: seq<HistoricalEvent>, e: HistoricalEvent)
    requires e in history && IsSimilar(current, e)
    requires |FindSimilarEvents(current, history)| < MaxSimilarEvents
    ensures e in FindSimilarEvents(current, history)
  {
    Seqs.FilterMembership(history, SimilarTo(current), e);
  }

  /** The first matches win, not the best: once the older part of history already holds 20 matches,
      nothing later is considered. */
  lemma FirstMatchesWin(current: PredictionInput, older: seq<HistoricalEvent>, newer: seq<HistoricalEvent>)
    requires |Seqs.Filter(older, SimilarTo(current))| >= MaxSimilarEvents
    ensures FindSimilarEvents(current, older + newer) == FindSimilarEvents(current, older)
  {
    Seqs.FilterConcat(older, newer, SimilarTo(current));
    var a := Seqs.Filter(older, SimilarTo(current));
    var b := Seqs.Filter(newer, SimilarTo(current));
    assert (a + b)[..MaxSimilarEvents] == a[..MaxSimilarEvents];
  }

  /** A zero-magnitude candidate matches nothing. */
  lemma ZeroMagnitudeFindsNothing(current: PredictionInput, history: seq<HistoricalEvent>)
    requires current.magnitude == 0.0
    ensures FindSimilarEvents(current, history) == []
  {
    Seqs.FilterNone(history, SimilarTo(current));
  }

  /** Comparing a quotient with a bound is comparing the dividend with the scaled bound. */
  lemma DivisionBound(m: real, c: real, k: real)
    requires c > 0.0
    ensures (m / c >= k) == (m >= k * c)
    ensures (m / c <= k) == (m <= k * c)
  {
    var q := m / c;
    assert q * c == m;
    if q >= k { assert q * c >= k * c; } else { assert q * c < k * c; }
    if q <= k { assert q * c <= k * c; } else { assert q * c > k * c; }
  }

  /** Both ends of the ratio band are inclusive: the matching rule in multiplicative form. */
  lemma SimilarMagnitudeBand(current: PredictionInput, e: HistoricalEvent)
    requires current.magnitude != 0.0
    ensures SimilarMagnitude(current, e) <==>
              0.5 * Abs(current.magnitude) <= Abs(e.magnitude) <= 2.0 * Abs(current.magnitude)
  {
    var c, m := Abs(current.magnitude), Abs(e.magnitude);
    assert SimilarMagnitude(current, e) == (m / c >= 0.5 && m / c <= 2.0);
    DivisionBound(m, c, 0.5);
    DivisionBound(m, c, 2.0);
  }

  // ---------------------------------------------------------------------------------------------
  // Forecast

  predicate HasOutcome(e: HistoricalEvent) { e.outcome24h.Some? }

  predicate HasPositiveOutcome(e: HistoricalEvent) { e.outcome24h.GetOr(0.0) > 0.0 }

  function WithOutcome(s: seq<HistoricalEvent>): seq<HistoricalEvent> { Seqs.Filter(s, HasOutcome) }

  function OutcomeSum(s: seq<HistoricalEvent>): real {
    if s == [] then 0.0 else s[0].outcome24h.GetOr(0.0) + OutcomeSum(s[1..])
  }

  /** The mean outcome; it is positive exactly when the sum is. */
  function MeanOutcome(s: seq<HistoricalEvent>): (r: real)
    requires |s| > 0
    ensures r > 0.0 <==> OutcomeSum(s) > 0.0
  {
    OutcomeSum(s) / |s| as real
  }

  /** The share of analogues whose outcome was positive, between 0 and 1. */
  function PositiveRatio(s: seq<HistoricalEvent>): (r: real)
    requires |s| > 0
    ensures 0.0 <= r <= 1.0
  {
    Seqs.Count(s, HasPositiveOutcome) as real / |s| as real
  }

  /** `0.4 + consistency * 0.4`, where consistency is 0 for an even split and 1 when unanimous. */
  function ConsistencyConfidence(s: seq<HistoricalEvent>): (r: real)
    requires |s| > 0
    ensures 0.4 <= r <= 0.8
    ensures r == 0.4 <==> PositiveRatio(s) == 0.5
    ensures r == 0.8 <==> PositiveRatio(s) == 0.0 || PositiveRatio(s) == 1.0
  {
    var consistency := Abs(PositiveRatio(s) - 0.5) * 2.0;
    0.4 + consistency * 0.4
  }

  /** Past accuracy, when known, weighs 30% against the analogues' consistency. */
  function BlendWithAccuracy(confidence: real, historicalAccuracy: Option<real>): real {
    match historicalAccuracy
    case Some(acc) => confidence * 0.7 + acc * 0.3
    case None => confidence
  }

  function ClampConfidence(c: real): (r: real)
    ensures 0.1 <= r <= 0.95
    ensures 0.1 <= c <= 0.95 ==> r == c
  {
    MinReal(0.95, MaxReal(0.1, c))
  }

  function Summarize(e: HistoricalEvent): SimilarEvent {
    SimilarEvent(e.coinId, e.symbol, e.magnitude, e.outcome24h.GetOr(0.0), e.detectedAt)
  }

  function Summaries(s: seq<HistoricalEvent>): (r: seq<SimilarEvent>)
    ensures |r| == |s|
    ensures forall i :: 0 <= i < |s| ==> r[i] == Summarize(s[i])
  {
    if s == [] then [] else [Summarize(s[0])] + Summaries(s[1..])
  }

  /** At most five analogues are reported. */
  const MaxReported: nat := 5

  function MakePrediction(input: PredictionInput, similarEvents: seq<HistoricalEvent>, historicalAccuracy: Option<real>): (p: Prediction)
    ensures 0.1 <= p.confidence <= 0.95
    ensures |p.similarEvents| <= MaxReported
    ensures |p.similarEvents| == Seqs.Min(MaxReported, |WithOutcome(similarEvents)|)
    ensures forall i :: 0 <= i < |p.similarEvents| ==>
              i < |WithOutcome(similarEvents)| && p.similarEvents[i] == Summarize(WithOutcome(similarEvents)[i])
    ensures similarEvents == [] ==> p == Prediction(Down, 0.4, [])
    ensures similarEvents != [] && WithOutcome(similarEvents) == [] ==> p == Prediction(Down, 0.5, [])
    ensures WithOutcome(similarEvents) != [] ==>
              (p.direction == Up <==> OutcomeSum(WithOutcome(similarEvents)) > 0.0) &&
              p.confidence == ClampConfidence(BlendWithAccuracy(ConsistencyConfidence(WithOutcome(similarEvents)), historicalAccuracy))
    ensures WithOutcome(similarEvents) != [] && historicalAccuracy.None? ==> 0.4 <= p.confidence <= 0.8
  {
    // pumps and dumps get the same default direction
    var defaultDirection := if input.moveType == Pump then Down else Down;
    if |similarEvents| == 0 then
      Prediction(defaultDirection, 0.4, [])
    else
      var eventsWithOutcome := WithOutcome(similarEvents);
      var direction :=
        if |eventsWithOutcome| > 0 then (if MeanOutcome(eventsWithOutcome) > 0.0 then Up else Down)
        else defaultDirection;
      var confidence :=
        if |eventsWithOutcome| > 0 then BlendWithAccuracy(ConsistencyConfidence(eventsWithOutcome), historicalAccuracy)
        else 0.5;
      Prediction(direction, ClampConfidence(confidence),
                 Summaries(eventsWithOutcome[..Seqs.Min(MaxReported, |eventsWithOutcome|)]))
  }

  /** The worked example: twenty analogues, twelve of them positive, with a positive mean and a past
      accuracy of 0.6, forecast up with confidence 0.48 blended to 0.516. */
  lemma WorkedExample(input: PredictionInput, similarEvents: seq<HistoricalEvent>)
    requires |WithOutcome(similarEvents)| == 20
    requires Seqs.Count(WithOutcome(similarEvents), HasPositiveOutcome) == 12
    requires OutcomeSum(WithOutcome(similarEvents)) == 60.0
    ensures MakePrediction(input, similarEvents, Some(0.6)) == Prediction(Up, 0.516, MakePrediction(input, similarEvents, Some(0.6)).similarEvents)
  {
    var w := WithOutcome(similarEvents);
    assert PositiveRatio(w) == 0.6;
    assert ConsistencyConfidence(w) == 0.48;
    assert similarEvents != [];
  }

  // ---------------------------------------------------------------------------------------------
  // Accuracy of past predictions

  datatype AccuracyStats = AccuracyStats(accuracy: real, total: nat, correct: nat)

  /** `correct / total` for a non-empty tally, a share between 0 and 1. */
  function Share(correct: nat, total: nat): (r: real)
    requires correct <= total && total > 0
    ensures 0.0 <= r <= 1.0
    ensures r * total as real == correct as real
  {
    correct as real / total as real
  }

  /** Rows that count: evaluated, with a realised change. */
  predicate IsScored(p: PredictionRow) { p.status != Pending && p.actualChange.Some? }

  /** The predicted direction agreed with the realised change (a change of 0 is not up). */
  predicate CalledDirection(p: PredictionRow) {
    (p.predictedDirection == "up") == (p.actualChange.GetOr(0.0) > 0.0)
  }

  predicate ScoredAndCalled(p: PredictionRow) { IsScored(p) && CalledDirection(p) }

  function CalculateAccuracy(predictions: seq<PredictionRow>): (r: AccuracyStats)
    ensures r.total == Seqs.Count(predictions, IsScored)
    ensures r.correct == Seqs.Count(predictions, ScoredAndCalled)
    ensures r.correct <= r.total
    ensures r.total == 0 ==> r == AccuracyStats(0.0, 0, 0)
    ensures r.total > 0 ==> r.accuracy == Share(r.correct, r.total)
  {
    var evaluated := Seqs.Filter(predictions, IsScored);
    Seqs.FilterFilter(predictions, IsScored, CalledDirection, ScoredAndCalled);
    if |evaluated| == 0 then
      AccuracyStats(0.0, 0, 0)
    else
      var correct := Seqs.Count(evaluated, CalledDirection);
      AccuracyStats(Share(correct, |evaluated|), |evaluated|, correct)
  }
}

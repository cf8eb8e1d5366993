/** Mover detection (src/lib/mover-detector.ts): a market snapshot becomes at most one pump or dump
    event per coin, ranked by the size of the move. */
module MoverDetector {
  import opened Wrappers
  import opened Schema
  import opened Numbers

  /** One coin of the market-data provider's answer; the percentage changes may be null. */
  datatype CoinMarketData = CoinMarketData(
    id: string,
    symbol: string,
    name: string,
    currentPrice: real,
    marketCap: real,
    marketCapRank: Option<int>,
    totalVolume: real,
    priceChange1h: Option<real>,
    priceChange24h: Option<real>,
    priceChange7d: Option<real>)

  datatype MarketSnapshot = MarketSnapshot(coins: seq<CoinMarketData>, timestamp: int, btcChange24h: real)

  /** The event's metadata: which window triggered it, and the auxiliary changes it records. */
  datatype Metadata =
    | Window24h(change1h: real, change7d: Option<real>)
    | Window1h(change24h: real)

  datatype MoverEvent = MoverEvent(
    coinId: string,
    symbol: string,
    name: string,
    moveType: MoveType,
    magnitude: real,
    price: real,
    marketCap: real,
    volume24h: real,
    volumeRatio: Option<real>,
    btcRelative: Option<real>,
    rank: Option<int>,
    metadata: Metadata,
    detectedAt: int)

  /** The `PRICE_THRESHOLD` used when the environment does not set one (a fraction: 10%). */
  const DefaultPriceThreshold: real := 0.10

  /** Missing changes count as 0 (`x || 0`). */
  function Change24h(coin: CoinMarketData): real { coin.priceChange24h.GetOr(0.0) }
  function Change1h(coin: CoinMarketData): real { coin.priceChange1h.GetOr(0.0) }

  /** The 24h threshold in percent; the 1h window uses half of it. */
  function ThresholdPercent(priceThreshold: real): real { priceThreshold * 100.0 }

  /** The threshold the event's window required: the full percentage for 24h, half of it for 1h. */
  function WindowThreshold(e: MoverEvent, priceThreshold: real): real {
    if e.metadata.Window24h? then ThresholdPercent(priceThreshold) else ThresholdPercent(priceThreshold) * 0.5
  }

  /** The body of the per-coin loop: the 24h test wins, the 1h test runs only when it fails. */
  function DetectCoin(coin: CoinMarketData, btcChange24h: real, priceThreshold: real, now: int): (r: Option<MoverEvent>)
    ensures (r.Some? && r.value.metadata.Window24h?) <==> Abs(Change24h(coin)) >= ThresholdPercent(priceThreshold)
    ensures (r.Some? && r.value.metadata.Window1h?) <==>
              Abs(Change24h(coin)) < ThresholdPercent(priceThreshold) &&
              Abs(Change1h(coin)) >= ThresholdPercent(priceThreshold) * 0.5
    ensures r.Some? ==> r.value.magnitude == (if r.value.metadata.Window24h? then Change24h(coin) else Change1h(coin))
    ensures r.Some? ==> (r.value.moveType == Pump <==> r.value.magnitude > 0.0)
    ensures r.Some? ==> Abs(r.value.magnitude) >= WindowThreshold(r.value, priceThreshold)
    ensures r.Some? ==> r.value.btcRelative == Some(Change24h(coin) - btcChange24h) && r.value.volumeRatio == None
    ensures r.Some? ==> r.value.coinId == coin.id && r.value.price == coin.currentPrice &&
                        r.value.marketCap == coin.marketCap && r.value.detectedAt == now
  {
    var change24h := Change24h(coin);
    var change1h := Change1h(coin);
    var btcRelative := change24h - btcChange24h;
    var thresholdPercent := ThresholdPercent(priceThreshold);
    if Abs(change24h) >= thresholdPercent then
      Some(MoverEvent(coin.id, coin.symbol, coin.name, if change24h > 0.0 then Pump else Dump, change24h,
                      coin.currentPrice, coin.marketCap, coin.totalVolume, None, Some(btcRelative),
                      coin.marketCapRank, Window24h(change1h, coin.priceChange7d), now))
    else if Abs(change1h) >= thresholdPercent * 0.5 then
      Some(MoverEvent(coin.id, coin.symbol, coin.name, if change1h > 0.0 then Pump else Dump, change1h,
                      coin.currentPrice, coin.marketCap, coin.totalVolume, None, Some(btcRelative),
                      coin.marketCapRank, Window1h(change24h), now))
    else
      None
  }

  /** A coin whose changes are both null never triggers under a positive threshold. */
  lemma NullChangesNeverTrigger(coin: CoinMarketData, btcChange24h: real, priceThreshold: real, now: int)
    requires coin.priceChange24h.None? && coin.priceChange1h.None? && priceThreshold > 0.0
    ensures DetectCoin(coin, btcChange24h, priceThreshold, now).None?
  {
  }

  /** Under the default 10% threshold, a coin up 15% in 24h while BTC rose 2% is a 24h pump of
      magnitude 15 that beat BTC by 13 points. */
  lemma DefaultThresholdExample(coin: CoinMarketData, now: int)
    requires coin.priceChange24h == Some(15.0)
    ensures var r := DetectCoin(coin, 2.0, DefaultPriceThreshold, now);
            r.Some? && r.value.metadata.Window24h? && r.value.moveType == Pump &&
            r.value.magnitude == 15.0 && r.value.btcRelative == Some(13.0)
  {
  }

  /** The events in snapshot order, before the sort: what the loop pushes. */
  function Emitted(coins: seq<CoinMarketData>, btcChange24h: real, priceThreshold: real, now: int): seq<MoverEvent>
  {
    if coins == [] then []
    else
      Emitted(coins[..|coins| - 1], btcChange24h, priceThreshold, now) +
      (match DetectCoin(coins[|coins| - 1], btcChange24h, priceThreshold, now)
       case Some(e) => [e]
       case None => [])
  }

  /** At most one event per coin. */
  lemma {:induction false} EmittedLength(coins: seq<CoinMarketData>, btcChange24h: real, priceThreshold: real, now: int)
    ensures |Emitted(coins, btcChange24h, priceThreshold, now)| <= |coins|
  {
    if coins != [] {
      EmittedLength(coins[..|coins| - 1], btcChange24h, priceThreshold, now);
    }
  }

  /** Every event is the event of a coin of the snapshot. */
  lemma {:induction false} EmittedSound(coins: seq<CoinMarketData>, btcChange24h: real, priceThreshold: real, now: int)
    ensures forall e :: e in Emitted(coins, btcChange24h, priceThreshold, now) ==>
              exists i :: 0 <= i < |coins| && DetectCoin(coins[i], btcChange24h, priceThreshold, now) == Some(e)
  {
    if coins != [] {
      var init := coins[..|coins| - 1];
      EmittedSound(init, btcChange24h, priceThreshold, now);
      forall e | e in Emitted(coins, btcChange24h, priceThreshold, now)
        ensures exists i :: 0 <= i < |coins| && DetectCoin(coins[i], btcChange24h, priceThreshold, now) == Some(e)
      {
        if e in Emitted(init, btcChange24h, priceThreshold, now) {
          var i :| 0 <= i < |init| && DetectCoin(init[i], btcChange24h, priceThreshold, now) == Some(e);
          assert coins[i] == init[i];
        } else {
          assert DetectCoin(coins[|coins| - 1], btcChange24h, priceThreshold, now) == Some(e);
        }
      }
    }
  }

  /** Every coin that triggers contributes its event. */
  lemma {:induction false} EmittedComplete(coins: seq<CoinMarketData>, btcChange24h: real, priceThreshold: real, now: int)
    ensures forall i :: 0 <= i < |coins| && DetectCoin(coins[i], btcChange24h, priceThreshold, now).Some? ==>
              DetectCoin(coins[i], btcChange24h, priceThreshold, now).value in Emitted(coins, btcChange24h, priceThreshold, now)
  {
    if coins != [] {
      var init := coins[..|coins| - 1];
      EmittedComplete(init, btcChange24h, priceThreshold, now);
      forall i | 0 <= i < |coins| && DetectCoin(coins[i], btcChange24h, priceThreshold, now).Some?
        ensures DetectCoin(coins[i], btcChange24h, priceThreshold, now).value in Emitted(coins, btcChange24h, priceThreshold, now)
      {
        if i < |init| {
          assert coins[i] == init[i];
        }
      }
    }
  }

  // ---------------------------------------------------------------------------------------------
  // Ranking: `events.sort((a, b) => Math.abs(b.magnitude) - Math.abs(a.magnitude))`, a stable sort.

  function Key(e: MoverEvent): real { Abs(e.magnitude) }

  ghost predicate SortedByMagnitude(s: seq<MoverEvent>) {
    forall i, j :: 0 <= i < j < |s| ==> Key(s[i]) >= Key(s[j])
  }

  /** Inserts `x` after every trailing element at least as large as it: a later event never overtakes
      an earlier event of equal magnitude. */
  function InsertByMagnitude(t: seq<MoverEvent>, x: MoverEvent): (r: seq<MoverEvent>)
    ensures |r| == |t| + 1
    ensures multiset(r) == multiset(t) + multiset{x}
  {
    if t == [] || Key(t[|t| - 1]) >= Key(x) then t + [x]
    else
      assert t == t[..|t| - 1] + [t[|t| - 1]];
      InsertByMagnitude(t[..|t| - 1], x) + [t[|t| - 1]]
  }

  /** The reference stable sort, largest |magnitude| first. */
  function SortByMagnitude(s: seq<MoverEvent>): (r: seq<MoverEvent>)
    ensures |r| == |s|
    ensures multiset(r) == multiset(s)
  {
    if s == [] then []
    else
      assert s == s[..|s| - 1] + [s[|s| - 1]];
      InsertByMagnitude(SortByMagnitude(s[..|s| - 1]), s[|s| - 1])
  }

  /** The events of |magnitude| `k`, in order. */
  function WithKey(s: seq<MoverEvent>, k: real): seq<MoverEvent> {
    if s == [] then []
    else WithKey(s[..|s| - 1], k) + (if Key(s[|s| - 1]) == k then [s[|s| - 1]] else [])
  }

  lemma {:induction false} InsertKeepsSorted(t: seq<MoverEvent>, x: MoverEvent)
    requires SortedByMagnitude(t)
    ensures SortedByMagnitude(InsertByMagnitude(t, x))
    decreases |t|
  {
    if t != [] && Key(t[|t| - 1]) < Key(x) {
      var init, last := t[..|t| - 1], t[|t| - 1];
      InsertKeepsSorted(init, x);
      var u := InsertByMagnitude(init, x);
      forall y | y in u ensures Key(y) >= Key(last) {
        assert y in multiset(u);
        if y != x {
          assert y in multiset(init);
          var i :| 0 <= i < |init| && init[i] == y;
          assert t[i] == y;
        }
      }
      assert InsertByMagnitude(t, x) == u + [last];
    }
  }

  lemma {:induction false} SortIsSorted(s: seq<MoverEvent>)
    ensures SortedByMagnitude(SortByMagnitude(s))
  {
    if s != [] {
      SortIsSorted(s[..|s| - 1]);
      InsertKeepsSorted(SortByMagnitude(s[..|s| - 1]), s[|s| - 1]);
    }
  }

  lemma WithKeySnoc(s: seq<MoverEvent>, x: MoverEvent, k: real)
    ensures WithKey(s + [x], k) == WithKey(s, k) + (if Key(x) == k then [x] else [])
  {
    assert (s + [x])[..|s|] == s;
  }

  lemma {:induction false} InsertWithKey(t: seq<MoverEvent>, x: MoverEvent, k: real)
    ensures WithKey(InsertByMagnitude(t, x), k) == WithKey(t, k) + (if Key(x) == k then [x] else [])
    decreases |t|
  {
    if t == [] || Key(t[|t| - 1]) >= Key(x) {
      WithKeySnoc(t, x, k);
    } else {
      var init, last := t[..|t| - 1], t[|t| - 1];
      var u := InsertByMagnitude(init, x);
      assert t == init + [last];
      assert InsertByMagnitude(t, x) == u + [last];
      InsertWithKey(init, x, k);
      WithKeySnoc(u, last, k);
      WithKeySnoc(init, last, k);
      if Key(x) == k {
        assert Key(last) != k;
      }
    }
  }

  /** Stability: for every |magnitude|, the events of that size keep their snapshot order. */
  lemma {:induction false} SortIsStable(s: seq<MoverEvent>, k: real)
    ensures WithKey(SortByMagnitude(s), k) == WithKey(s, k)
  {
    if s != [] {
      var init, last := s[..|s| - 1], s[|s| - 1];
      SortIsStable(init, k);
      InsertWithKey(SortByMagnitude(init), last, k);
    }
  }

  /** Dropping the last element and slicing commute. */
  lemma SliceOfInit(t: seq<MoverEvent>, j: nat)
    requires j < |t|
    ensures t[..|t| - 1][..j] == t[..j]
    ensures t[..|t| - 1][j..] + [t[|t| - 1]] == t[j..]
  {
  }

  /** Where the insertion puts `x`: after `t[..j]`, when `x` is larger than everything in `t[j..]`
      and not larger than `t[j - 1]`. */
  lemma {:induction false} InsertPosition(t: seq<MoverEvent>, j: nat, x: MoverEvent)
    requires j <= |t|
    requires j == 0 || Key(t[j - 1]) >= Key(x)
    requires forall m :: j <= m < |t| ==> Key(t[m]) < Key(x)
    ensures InsertByMagnitude(t, x) == t[..j] + [x] + t[j..]
    decreases |t|
  {
    if |t| == j {
      assert t[..j] == t && t[j..] == [];
    } else {
      var init, last := t[..|t| - 1], t[|t| - 1];
      assert Key(last) < Key(x);
      assert InsertByMagnitude(t, x) == InsertByMagnitude(init, x) + [last];
      InsertPosition(init, j, x);
      SliceOfInit(t, j);
      calc {
        InsertByMagnitude(t, x);
        (init[..j] + [x] + init[j..]) + [last];
        init[..j] + [x] + (init[j..] + [last]);
      }
    }
  }

  /** The same position, element by element. */
  lemma InsertPositionAt(t: seq<MoverEvent>, j: nat, x: MoverEvent)
    requires j <= |t|
    requires j == 0 || Key(t[j - 1]) >= Key(x)
    requires forall m :: j <= m < |t| ==> Key(t[m]) < Key(x)
    ensures |InsertByMagnitude(t, x)| == |t| + 1
    ensures forall m :: 0 <= m < j ==> InsertByMagnitude(t, x)[m] == t[m]
    ensures InsertByMagnitude(t, x)[j] == x
    ensures forall m :: j < m <= |t| ==> InsertByMagnitude(t, x)[m] == t[m - 1]
  {
    InsertPosition(t, j, x);
  }

  /** One step of the insertion sort: `a[i]` moves left past the smaller events of the sorted
      prefix `a[..i]`. */
  method InsertIntoPrefix(a: array<MoverEvent>, i: nat)
    requires i < a.Length
    modifies a
    ensures a[..i + 1] == InsertByMagnitude(old(a[..i]), old(a[i]))
    ensures a[i + 1..] == old(a[i + 1..])
  {
    ghost var t := a[..i];
    var x := a[i];
    var j := i;
    while j > 0 && Key(a[j - 1]) < Key(x)
      invariant 0 <= j <= i
      invariant forall m {:trigger a[m]} :: 0 <= m < j ==> a[m] == t[m]
      invariant a[j] == x
      invariant forall m {:trigger a[m]} :: j < m <= i ==> a[m] == t[m - 1]
      invariant forall m :: j <= m < i ==> Key(t[m]) < Key(x)
      invariant a[i + 1..] == old(a[i + 1..])
    {
      a[j - 1], a[j] := a[j], a[j - 1];
      j := j - 1;
    }
    InsertPositionAt(t, j, x);
    assert a[..i + 1] == InsertByMagnitude(t, x);
  }

  lemma SortPrefixStep(s: seq<MoverEvent>, i: nat)
    requires i < |s|
    ensures SortByMagnitude(s[..i + 1]) == InsertByMagnitude(SortByMagnitude(s[..i]), s[i])
  {
    assert s[..i + 1][..i] == s[..i];
  }

  /** Insertion sort of `a` in place, as the engine's stable `Array.prototype.sort` with this
      comparator leaves it. */
  method SortEventsInPlace(a: array<MoverEvent>)
    modifies a
    ensures a[..] == SortByMagnitude(old(a[..]))
  {
    ghost var s := a[..];
    var i := 0;
    while i < a.Length
      invariant 0 <= i <= a.Length
      invariant a[..i] == SortByMagnitude(s[..i])
      invariant a[i..] == s[i..]
    {
      assert a[i] == s[i] && a[i + 1..] == s[i + 1..] by {
        assert a[i..][0] == a[i] && a[i..][1..] == a[i + 1..];
      }
      InsertIntoPrefix(a, i);
      SortPrefixStep(s, i);
      i := i + 1;
    }
    assert s[..a.Length] == s;
    assert a[..] == a[..a.Length];
  }

  /** `detectMovers`: push the event of every coin that triggers, then rank them. */
  method DetectMovers(snapshot: MarketSnapshot, priceThreshold: real, now: int) returns (events: seq<MoverEvent>)
    ensures events == SortByMagnitude(Emitted(snapshot.coins, snapshot.btcChange24h, priceThreshold, now))
    ensures SortedByMagnitude(events)
    ensures multiset(events) == multiset(Emitted(snapshot.coins, snapshot.btcChange24h, priceThreshold, now))
    ensures forall k :: WithKey(events, k) == WithKey(Emitted(snapshot.coins, snapshot.btcChange24h, priceThreshold, now), k)
    ensures |events| <= |snapshot.coins|
  {
    var coins := snapshot.coins;
    var found: seq<MoverEvent> := [];
    for i := 0 to |coins|
      invariant found == Emitted(coins[..i], snapshot.btcChange24h, priceThreshold, now)
    {
      assert coins[..i + 1][..i] == coins[..i];
      var e := DetectCoin(coins[i], snapshot.btcChange24h, priceThreshold, now);
      if e.Some? {
        found := found + [e.value];
      }
    }
    assert coins[..|coins|] == coins;
    var a := new MoverEvent[|found|](k requires 0 <= k < |found| => found[k]);
    assert a[..] == found;
    SortEventsInPlace(a);
    events := a[..];
    SortIsSorted(found);
    EmittedLength(coins, snapshot.btcChange24h, priceThreshold, now);
    forall k ensures WithKey(events, k) == WithKey(found, k) {
      SortIsStable(found, k);
    }
  }

  // ---------------------------------------------------------------------------------------------
  // Severity bands (`getMoveSeverity`), used for display only.

  datatype Severity = Notable | Significant | Major | Extreme

  function SeverityRank(s: Severity): nat {
    match s
    case Notable => 0
    case Significant => 1
    case Major => 2
    case Extreme => 3
  }

  function MoveSeverity(magnitude: real): (r: Severity)
    ensures r == Extreme <==> Abs(magnitude) >= 50.0
    ensures r == Major <==> 25.0 <= Abs(magnitude) < 50.0
    ensures r == Significant <==> 15.0 <= Abs(magnitude) < 25.0
    ensures r == Notable <==> Abs(magnitude) < 15.0
  {
    var abs := Abs(magnitude);
    if abs >= 50.0 then Extreme
    else if abs >= 25.0 then Major
    else if abs >= 15.0 then Significant
    else Notable
  }

  /** The band depends only on |magnitude| and never falls as the move grows. */
  lemma SeverityMonotone(m1: real, m2: real)
    requires Abs(m1) <= Abs(m2)
    ensures SeverityRank(MoveSeverity(m1)) <= SeverityRank(MoveSeverity(m2))
    ensures MoveSeverity(m1) == MoveSeverity(-m1)
  {
  }
}

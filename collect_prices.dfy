/** The collection task (src/trigger/collect-prices.ts), run every five minutes: it stores the
    market snapshot, detects movers, drops the coins still cooling down from an earlier alert,
    records the new events, and hands the top of the list to the alert and research tasks. */
module CollectPrices {
  import opened Wrappers
  import opened Schema
  import Seqs
  import opened MoverDetector
  import opened Store

  /** Rows per upsert or insert request. */
  const BatchSize: nat := 100
  /** Only the 500 largest coins get a price snapshot. */
  const MaxPriceSnapshots: nat := 500
  /** `ALERT_COOLDOWN_HOURS` when the environment does not set it. */
  const DefaultCooldownHours: int := 4
  /** Movers per alert batch. */
  const MaxAlerts: nat := 10
  /** Research tasks started per run. */
  const MaxResearchPerRun: int := 5
  /** `MAX_RESEARCH_PER_DAY` when the environment does not set it. */
  const DefaultMaxResearchPerDay: int := 20

  // ---------------------------------------------------------------------------------------------
  // Coins and price snapshots

  function CoinRecord(coin: CoinMarketData, now: int): CoinRow {
    CoinRow(coin.id, coin.symbol, coin.name, true, now)
  }

  /** One active `coins` row per coin of the snapshot, in snapshot order. */
  function CoinRecords(coins: seq<CoinMarketData>, now: int): (r: seq<CoinRow>)
    ensures |r| == |coins|
    ensures forall i :: 0 <= i < |coins| ==> r[i].id == coins[i].id && r[i].isActive && r[i].updatedAt == now
  {
    seq(|coins|, i requires 0 <= i < |coins| => CoinRecord(coins[i], now))
  }

  function PriceRecord(coin: CoinMarketData, recordedAt: int): PriceSnapshotRow {
    PriceSnapshotRow(coin.id, coin.currentPrice, coin.totalVolume, coin.marketCap,
                     coin.priceChange1h, coin.priceChange24h, coin.priceChange7d, recordedAt)
  }

  /** Snapshots of the first 500 coins only, all stamped with the snapshot's time. */
  function PriceRecords(coins: seq<CoinMarketData>, recordedAt: int): (r: seq<PriceSnapshotRow>)
    ensures |r| == Seqs.Min(MaxPriceSnapshots, |coins|)
    ensures forall i :: 0 <= i < |r| ==> r[i].coinId == coins[i].id && r[i].price == coins[i].currentPrice && r[i].recordedAt == recordedAt
  {
    var top := coins[..Seqs.Min(MaxPriceSnapshots, |coins|)];
    seq(|top|, i requires 0 <= i < |top| => PriceRecord(top[i], recordedAt))
  }

  /** The batches sent by `for (i = 0; i < n; i += 100)` are exactly the 100-row chunks. */
  lemma ChunksFrom<T>(s: seq<T>, i: nat)
    requires i < |s|
    ensures Seqs.Chunks(s[i..], BatchSize) == [s[i..Seqs.Min(i + BatchSize, |s|)]] + Seqs.Chunks(s[Seqs.Min(i + BatchSize, |s|)..], BatchSize)
  {
    if |s| - i > BatchSize {
      assert s[i..][..BatchSize] == s[i..i + BatchSize];
      assert s[i..][BatchSize..] == s[i + BatchSize..];
    } else {
      assert s[i..Seqs.Min(i + BatchSize, |s|)] == s[i..];
      assert Seqs.Chunks(s[|s|..], BatchSize) == [];
    }
  }

  /** `coins` upserted 100 rows at a time: the table ends as if the whole list had been upserted,
      and the requests sent are the 100-row chunks of the list. */
  method UpsertCoinsInBatches(db: Database, records: seq<CoinRow>) returns (ghost batches: seq<seq<CoinRow>>)
    requires db.Valid()
    modifies db
    ensures db.Valid()
    ensures db.coins == UpsertAll(old(db.coins), records)
    ensures batches == Seqs.Chunks(records, BatchSize)
    ensures db.priceSnapshots == old(db.priceSnapshots) && db.moverEvents == old(db.moverEvents)
    ensures db.predictions == old(db.predictions) && db.dailyStats == old(db.dailyStats)
  {
    batches := [];
    var i := 0;
    while i < |records|
      invariant db.Valid()
      invariant db.coins == UpsertAll(old(db.coins), records[..Seqs.Min(i, |records|)])
      invariant batches + Seqs.Chunks(records[Seqs.Min(i, |records|)..], BatchSize) == Seqs.Chunks(records, BatchSize)
      invariant db.priceSnapshots == old(db.priceSnapshots) && db.moverEvents == old(db.moverEvents)
      invariant db.predictions == old(db.predictions) && db.dailyStats == old(db.dailyStats)
      decreases |records| - i
    {
      var end := Seqs.Min(i + BatchSize, |records|);
      var batch := records[i..end];
      db.UpsertCoins(batch);
      UpsertAllConcat(old(db.coins), records[..i], batch);
      assert records[..i] + batch == records[..end];
      ChunksFrom(records, i);
      batches := batches + [batch];
      i := i + BatchSize;
    }
    assert records[..|records|] == records;
  }

  /** `price_snapshots` inserted 100 rows at a time: all rows, in order. */
  method InsertPriceSnapshotsInBatches(db: Database, records: seq<PriceSnapshotRow>) returns (ghost batches: seq<seq<PriceSnapshotRow>>)
    requires db.Valid()
    modifies db
    ensures db.Valid()
    ensures db.priceSnapshots == old(db.priceSnapshots) + records
    ensures batches == Seqs.Chunks(records, BatchSize)
    ensures db.coins == old(db.coins) && db.moverEvents == old(db.moverEvents)
    ensures db.predictions == old(db.predictions) && db.dailyStats == old(db.dailyStats)
  {
    batches := [];
    var i := 0;
    while i < |records|
      invariant db.Valid()
      invariant db.priceSnapshots == old(db.priceSnapshots) + records[..Seqs.Min(i, |records|)]
      invariant batches + Seqs.Chunks(records[Seqs.Min(i, |records|)..], BatchSize) == Seqs.Chunks(records, BatchSize)
      invariant db.coins == old(db.coins) && db.moverEvents == old(db.moverEvents)
      invariant db.predictions == old(db.predictions) && db.dailyStats == old(db.dailyStats)
      decreases |records| - i
    {
      var end := Seqs.Min(i + BatchSize, |records|);
      var batch := records[i..end];
      db.InsertPriceSnapshots(batch);
      assert records[..i] + batch == records[..end];
      ChunksFrom(records, i);
      batches := batches + [batch];
      i := i + BatchSize;
    }
    assert records[..|records|] == records;
  }

  // ---------------------------------------------------------------------------------------------
  // Cooldown

  /** The start of the cooldown window, `cooldownHours` before now. */
  function CooldownStart(now: int, cooldownHours: int): int {
    now - cooldownHours * 3600
  }

  /** The coins with a mover event detected at or after `since`. */
  function RecentCoinIds(events: seq<MoverEvent>, since: int): (r: set<string>)
    ensures forall id :: id in r <==> exists e :: e in events && e.detectedAt >= since && e.coinId == id
  {
    set e | e in events && e.detectedAt >= since :: e.coinId
  }

  /** Under the default cooldown, a coin with an event in the last four hours is cooling down, and
      with no event in that window no coin is. */
  lemma DefaultCooldownWindow(events: seq<MoverEvent>, now: int)
    ensures forall e :: e in events && e.detectedAt >= now - 4 * 3600 ==>
              e.coinId in RecentCoinIds(events, CooldownStart(now, DefaultCooldownHours))
    ensures (forall e :: e in events ==> e.detectedAt < now - 4 * 3600) ==>
              RecentCoinIds(events, CooldownStart(now, DefaultCooldownHours)) == {}
  {
  }

  function NotIn(recent: set<string>): MoverEvent -> bool {
    (m: MoverEvent) => m.coinId !in recent
  }

  /** A filter keeps the magnitude ranking. */
  lemma {:induction false} FilterKeepsRanking(s: seq<MoverEvent>, p: MoverEvent -> bool)
    requires SortedByMagnitude(s)
    ensures SortedByMagnitude(Seqs.Filter(s, p))
  {
    if s != [] {
      var rest := Seqs.Filter(s[1..], p);
      FilterKeepsRanking(s[1..], p);
      if p(s[0]) {
        forall j | 0 <= j < |rest| ensures Key(s[0]) >= Key(rest[j]) {
          Seqs.FilterMembership(s[1..], p, rest[j]);
          var m :| 0 <= m < |s[1..]| && s[1..][m] == rest[j];
          assert s[1..][m] == s[m + 1];
        }
        assert Seqs.Filter(s, p) == [s[0]] + rest;
      }
    }
  }

  /** The movers whose coin is not cooling down, still in ranking order. */
  function CooldownFilter(movers: seq<MoverEvent>, recent: set<string>): (r: seq<MoverEvent>)
    ensures forall m :: m in r <==> m in movers && m.coinId !in recent
    ensures Seqs.IsSubsequence(r, movers)
    ensures |r| == Seqs.Count(movers, NotIn(recent))
    ensures SortedByMagnitude(movers) ==> SortedByMagnitude(r)
  {
    forall m ensures m in Seqs.Filter(movers, NotIn(recent)) <==> m in movers && m.coinId !in recent {
      Seqs.FilterMembership(movers, NotIn(recent), m);
    }
    Seqs.FilterIsSubsequence(movers, NotIn(recent));
    assert SortedByMagnitude(movers) ==> SortedByMagnitude(Seqs.Filter(movers, NotIn(recent))) by {
      if SortedByMagnitude(movers) {
        FilterKeepsRanking(movers, NotIn(recent));
      }
    }
    Seqs.Filter(movers, NotIn(recent))
  }

  // ---------------------------------------------------------------------------------------------
  // Alerts

  /** A row returned by the mover insert: its new id and its coin. */
  datatype InsertedMover = InsertedMover(id: nat, coinId: string)

  /** The rows the insert of `movers` returns when the table held `base` events before. */
  function Inserted(movers: seq<MoverEvent>, base: nat): (r: seq<InsertedMover>)
    ensures |r| == |movers|
    ensures forall k :: 0 <= k < |movers| ==> r[k] == InsertedMover(base + k, movers[k].coinId)
  {
    seq(|movers|, k requires 0 <= k < |movers| => InsertedMover(base + k, movers[k].coinId))
  }

  /** The rows returned for ids `base`, `base + 1`, ... are `Inserted(movers, base)`. */
  function ReturnedRows(movers: seq<MoverEvent>, ids: seq<nat>): (r: seq<InsertedMover>)
    requires |ids| == |movers|
    ensures forall base: nat :: (forall k :: 0 <= k < |ids| ==> ids[k] == base + k) ==> r == Inserted(movers, base)
  {
    seq(|movers|, k requires 0 <= k < |movers| => InsertedMover(ids[k], movers[k].coinId))
  }

  /** `insertedMovers.find(im => im.coin_id === coinId)?.id`: the first row of that coin. */
  function FindId(inserted: seq<InsertedMover>, coinId: string): (r: Option<nat>)
    ensures r.None? <==> forall k :: 0 <= k < |inserted| ==> inserted[k].coinId != coinId
  {
    if inserted == [] then None
    else if inserted[0].coinId == coinId then Some(inserted[0].id)
    else
      var r := FindId(inserted[1..], coinId);
      assert r.None? ==> forall k :: 0 <= k < |inserted| ==> inserted[k].coinId != coinId by {
        if r.None? {
          forall k | 0 <= k < |inserted| ensures inserted[k].coinId != coinId {
            if k > 0 { assert inserted[k] == inserted[1..][k - 1]; }
          }
        }
      }
      r
  }

  /** One entry of the alert batch. */
  datatype AlertItem = AlertItem(
    id: Option<nat>,
    symbol: string,
    name: string,
    magnitude: real,
    price: real,
    marketCap: real,
    volume24h: real,
    btcRelative: Option<real>,
    rank: Option<int>)

  function AlertFor(m: MoverEvent, inserted: seq<InsertedMover>): AlertItem {
    AlertItem(FindId(inserted, m.coinId), m.symbol, m.name, m.magnitude, m.price, m.marketCap, m.volume24h, m.btcRelative, m.rank)
  }

  /** The alert batch: the first ten movers, each with the id of its stored event. */
  function Alerts(movers: seq<MoverEvent>, inserted: seq<InsertedMover>): (r: seq<AlertItem>)
    ensures |r| == Seqs.Min(MaxAlerts, |movers|)
    ensures forall i :: 0 <= i < |r| ==> r[i].symbol == movers[i].symbol && r[i].magnitude == movers[i].magnitude
  {
    var top := movers[..Seqs.Min(MaxAlerts, |movers|)];
    seq(|top|, i requires 0 <= i < |top| => AlertFor(top[i], inserted))
  }

  /** The position of the first row of `coinId`, given that row `i` is one; `FindId` returns its id. */
  function FirstRow(inserted: seq<InsertedMover>, coinId: string, i: nat): (k: nat)
    requires i < |inserted| && inserted[i].coinId == coinId
    ensures k <= i && inserted[k].coinId == coinId && FindId(inserted, coinId) == Some(inserted[k].id)
    ensures forall j :: 0 <= j < k ==> inserted[j].coinId != coinId
    decreases i
  {
    if inserted[0].coinId == coinId then 0
    else
      var k := 1 + FirstRow(inserted[1..], coinId, i - 1);
      assert forall j :: 0 <= j < k ==> inserted[j].coinId != coinId by {
        forall j | 0 <= j < k ensures inserted[j].coinId != coinId {
          if j > 0 { assert inserted[j] == inserted[1..][j - 1]; }
        }
      }
      k
  }

  /** The id found for a mover's coin is that of the first stored event of the coin, at or before
      the mover's own. */
  lemma FindIdOfInserted(movers: seq<MoverEvent>, base: nat, i: nat)
    requires i < |movers|
    ensures var r := FindId(Inserted(movers, base), movers[i].coinId);
            r.Some? && base <= r.value <= base + i && movers[r.value - base].coinId == movers[i].coinId &&
            forall j :: 0 <= j < r.value - base ==> movers[j].coinId != movers[i].coinId
  {
    var ins := Inserted(movers, base);
    var cid := movers[i].coinId;
    assert ins[i].coinId == cid;
    var k := FirstRow(ins, cid, i);
    assert ins[k] == InsertedMover(base + k, movers[k].coinId);
    forall j | 0 <= j < k ensures movers[j].coinId != cid {
      assert ins[j].coinId == movers[j].coinId;
    }
  }

  /** Every alert refers to a stored event of its own coin, and with one event per coin it is the
      event stored for that very mover. */
  lemma AlertsCarryIds(movers: seq<MoverEvent>, base: nat, i: nat)
    requires i < |Alerts(movers, Inserted(movers, base))|
    ensures var a := Alerts(movers, Inserted(movers, base))[i];
            a.id.Some? && base <= a.id.value < base + |movers| && movers[a.id.value - base].coinId == movers[i].coinId
    ensures (forall j, k :: 0 <= j < k < |movers| ==> movers[j].coinId != movers[k].coinId) ==>
              Alerts(movers, Inserted(movers, base))[i].id == Some(base + i)
  {
    var a := Alerts(movers, Inserted(movers, base))[i];
    assert a.id == FindId(Inserted(movers, base), movers[i].coinId);
    FindIdOfInserted(movers, base, i);
    var v := a.id.value - base;
    assert v <= i && movers[v].coinId == movers[i].coinId;
    if forall j, k :: 0 <= j < k < |movers| ==> movers[j].coinId != movers[k].coinId {
      assert !(v < i);
      assert a.id == Some(base + i);
    }
  }

  // ---------------------------------------------------------------------------------------------
  // Research

  /** The daily allowance left: `maxResearch - (count || 0)`; negative once it is overdrawn. */
  function RemainingResearch(maxResearch: int, researchedToday: Option<int>): int {
    maxResearch - researchedToday.GetOr(0)
  }

  /** As written: `movers.slice(0, Math.min(5, remaining))`. With a non-negative allowance that is
      the first `min(5, remaining)` movers; with a negative one JavaScript counts the end from the
      back and only drops that many movers from the tail. */
  function ResearchSelectionAsWritten(movers: seq<MoverEvent>, remaining: int): (r: seq<MoverEvent>)
    ensures |r| <= |movers| && r == movers[..|r|]
    ensures remaining >= 0 ==> |r| == Seqs.Min(Seqs.Min(MaxResearchPerRun, remaining), |movers|)
    ensures remaining < 0 ==> |r| == (if |movers| + remaining > 0 then |movers| + remaining else 0)
  {
    Seqs.SliceTo(movers, Seqs.Min(MaxResearchPerRun, remaining))
  }

  /** An overdrawn allowance does not stop research: of eight new movers with the limit at 20 and
      22 reports already written today, six are researched, more than even the per-run cap. */
  lemma OverdrawnAllowanceResearchesMore(movers: seq<MoverEvent>)
    requires |movers| == 8
    ensures RemainingResearch(DefaultMaxResearchPerDay, Some(22)) == -2
    ensures |ResearchSelectionAsWritten(movers, RemainingResearch(DefaultMaxResearchPerDay, Some(22)))| == 6
  {
  }

  /** Corrected: at most five, never more than the allowance left, and none once it is used up. */
  function ResearchSelection(movers: seq<MoverEvent>, remaining: int): (r: seq<MoverEvent>)
    ensures |r| <= |movers| && r == movers[..|r|]
    ensures |r| <= MaxResearchPerRun && (remaining <= 0 ==> r == []) && (remaining > 0 ==> |r| <= remaining)
    ensures |r| == Seqs.Min(|movers|, if remaining <= 0 then 0 else Seqs.Min(MaxResearchPerRun, remaining))
  {
    var n := if remaining <= 0 then 0 else Seqs.Min(MaxResearchPerRun, remaining);
    movers[..Seqs.Min(|movers|, n)]
  }

  /** Where the allowance is not overdrawn, the corrected selection is the one written. */
  lemma ResearchSelectionAgrees(movers: seq<MoverEvent>, remaining: int)
    requires remaining >= 0
    ensures ResearchSelection(movers, remaining) == ResearchSelectionAsWritten(movers, remaining)
  {
  }

  /** A research task request. */
  datatype ResearchRequest = ResearchRequest(eventId: nat, coinId: string, symbol: string, magnitude: real)

  /** The requests sent for the selected movers: one for each mover whose stored event is found. */
  function ResearchRequests(selection: seq<MoverEvent>, inserted: seq<InsertedMover>): (r: seq<ResearchRequest>)
    ensures |r| <= |selection|
  {
    if selection == [] then []
    else
      var init, m := selection[..|selection| - 1], selection[|selection| - 1];
      var rest := ResearchRequests(init, inserted);
      match FindId(inserted, m.coinId)
      case Some(eventId) => rest + [ResearchRequest(eventId, m.coinId, m.symbol, m.magnitude)]
      case None => rest
  }

  /** Every request names a selected mover and the id of that mover's stored event, and when every
      selected mover was stored no request is lost. */
  lemma {:induction false} ResearchRequestsSound(selection: seq<MoverEvent>, inserted: seq<InsertedMover>)
    ensures var r := ResearchRequests(selection, inserted);
            forall q :: q in r ==> exists m :: m in selection && q == ResearchRequest(q.eventId, m.coinId, m.symbol, m.magnitude) &&
                                               FindId(inserted, m.coinId) == Some(q.eventId)
    ensures (forall m :: m in selection ==> FindId(inserted, m.coinId).Some?) ==>
            |ResearchRequests(selection, inserted)| == |selection|
  {
    if selection != [] {
      var init, m := selection[..|selection| - 1], selection[|selection| - 1];
      ResearchRequestsSound(init, inserted);
      assert forall x :: x in init ==> x in selection;
    }
  }

  /** One more selected mover adds its request, or none when its event is not found. */
  lemma ResearchRequestsSnoc(s: seq<MoverEvent>, m: MoverEvent, inserted: seq<InsertedMover>)
    ensures ResearchRequests(s + [m], inserted) ==
            ResearchRequests(s, inserted) +
            (match FindId(inserted, m.coinId)
             case Some(eventId) => [ResearchRequest(eventId, m.coinId, m.symbol, m.magnitude)]
             case None => [])
  {
    assert (s + [m])[..|s|] == s;
  }

  /** Starts one research task per selected mover whose stored event is found, in selection order. */
  method TriggerResearch(selection: seq<MoverEvent>, inserted: seq<InsertedMover>) returns (requests: seq<ResearchRequest>)
    ensures requests == ResearchRequests(selection, inserted)
  {
    requests := [];
    for i := 0 to |selection|
      invariant requests == ResearchRequests(selection[..i], inserted)
    {
      var mover := selection[i];
      assert selection[..i + 1] == selection[..i] + [mover];
      ResearchRequestsSnoc(selection[..i], mover, inserted);
      var eventId := FindId(inserted, mover.coinId);
      if eventId.Some? {
        requests := requests + [ResearchRequest(eventId.value, mover.coinId, mover.symbol, mover.magnitude)];
      }
    }
    assert selection[..|selection|] == selection;
  }

  // ---------------------------------------------------------------------------------------------
  // Daily statistics and the report

  /** Today's `total_movers` grows by the new movers; without a row for today one is inserted with
      every other counter at its default of 0. */
  function RecordMovers(stats: map<string, DailyStatsRow>, today: string, n: nat): map<string, DailyStatsRow> {
    if today in stats then stats[today := stats[today].(totalMovers := stats[today].totalMovers + n)]
    else stats[today := DailyStatsRow(today, n, 0, 0, 0, 0, 0, 0)]
  }

  /** Reads today's row and updates it, or inserts one. */
  method UpdateDailyStats(db: Database, today: string, n: nat)
    requires db.Valid()
    modifies db
    ensures db.Valid()
    ensures db.dailyStats == RecordMovers(old(db.dailyStats), today, n)
    ensures db.coins == old(db.coins) && db.priceSnapshots == old(db.priceSnapshots)
    ensures db.moverEvents == old(db.moverEvents) && db.predictions == old(db.predictions)
  {
    if today in db.dailyStats {
      var existing := db.dailyStats[today];
      assert existing.date == today;
      db.PutDailyStats(existing.(totalMovers := existing.totalMovers + n));
    } else {
      db.PutDailyStats(DailyStatsRow(today, n, 0, 0, 0, 0, 0, 0));
    }
  }

  /** Only today's row changes: its mover count grows by `n` and its other counters are kept. */
  lemma RecordMoversEffect(stats: map<string, DailyStatsRow>, today: string, n: nat)
    ensures var r := RecordMovers(stats, today, n);
            today in r && r.Keys == stats.Keys + {today} &&
            r[today].totalMovers == (if today in stats then stats[today].totalMovers else 0) + n &&
            (today in stats ==> r[today].(totalMovers := stats[today].totalMovers) == stats[today]) &&
            (forall d :: d in stats && d != today ==> r[d] == stats[d])
  {
  }

  datatype CollectionReport =
    | NoMovers(coinsProcessed: nat)
    | AllCoolingDown(coinsProcessed: nat, moversDetected: nat)
    | Collected(coinsProcessed: nat, moversDetected: nat, alertsSent: nat, researchTriggered: nat)

  // ---------------------------------------------------------------------------------------------
  // The task

  /** All movers of the snapshot, ranked. */
  function Detected(snapshot: MarketSnapshot, priceThreshold: real, now: int): seq<MoverEvent> {
    SortByMagnitude(Emitted(snapshot.coins, snapshot.btcChange24h, priceThreshold, now))
  }

  /** The detected movers whose coin is not cooling down, against the events stored before the run. */
  function NewMovers(events: seq<MoverEvent>, snapshot: MarketSnapshot, priceThreshold: real, cooldownHours: int, now: int): seq<MoverEvent> {
    CooldownFilter(Detected(snapshot, priceThreshold, now), RecentCoinIds(events, CooldownStart(now, cooldownHours)))
  }

  /** The alert batch of a run holds its largest new moves: no new mover left out of the batch
      moved more than one in it. */
  lemma AlertsAreTopMovers(events: seq<MoverEvent>, snapshot: MarketSnapshot, priceThreshold: real,
                           cooldownHours: int, now: int, i: nat, j: nat)
    requires i < Seqs.Min(MaxAlerts, |NewMovers(events, snapshot, priceThreshold, cooldownHours, now)|) <= j
    requires j < |NewMovers(events, snapshot, priceThreshold, cooldownHours, now)|
    ensures var movers := NewMovers(events, snapshot, priceThreshold, cooldownHours, now);
            Key(movers[i]) >= Key(movers[j])
  {
    SortIsSorted(Emitted(snapshot.coins, snapshot.btcChange24h, priceThreshold, now));
  }

  /** Stores the snapshot: upserts its coins and inserts the price snapshots of its top 500, both in
      batches of 100. */
  method StoreSnapshot(db: Database, snapshot: MarketSnapshot, now: int)
    requires db.Valid()
    modifies db
    ensures db.Valid()
    ensures db.coins == UpsertAll(old(db.coins), CoinRecords(snapshot.coins, now))
    ensures db.priceSnapshots == old(db.priceSnapshots) + PriceRecords(snapshot.coins, snapshot.timestamp)
    ensures db.moverEvents == old(db.moverEvents) && db.predictions == old(db.predictions) && db.dailyStats == old(db.dailyStats)
  {
    var coinRecords := CoinRecords(snapshot.coins, now);
    ghost var coinBatches := UpsertCoinsInBatches(db, coinRecords);

    var priceRecords := PriceRecords(snapshot.coins, snapshot.timestamp);
    ghost var priceBatches := InsertPriceSnapshotsInBatches(db, priceRecords);
  }

  /** Drops the detected movers whose coin already has an event stored within the cooldown window. */
  method SkipCoolingDown(db: Database, allMovers: seq<MoverEvent>, cooldownHours: int, now: int) returns (movers: seq<MoverEvent>)
    ensures movers == CooldownFilter(allMovers, RecentCoinIds(db.moverEvents, CooldownStart(now, cooldownHours)))
  {
    var recentCoinIds := RecentCoinIds(db.moverEvents, CooldownStart(now, cooldownHours));
    movers := CooldownFilter(allMovers, recentCoinIds);
  }

  /** What happens to a non-empty list of new movers: store their events, build the alert batch
      and the research requests, and count them in today's statistics. */
  method RecordNewMovers(db: Database, movers: seq<MoverEvent>, maxResearch: int, researchedToday: Option<int>, today: string)
    returns (alerts: seq<AlertItem>, research: seq<ResearchRequest>, researched: nat)
    requires db.Valid()
    modifies db
    ensures db.Valid()
    ensures db.moverEvents == old(db.moverEvents) + movers
    ensures db.dailyStats == RecordMovers(old(db.dailyStats), today, |movers|)
    ensures db.coins == old(db.coins) && db.priceSnapshots == old(db.priceSnapshots) && db.predictions == old(db.predictions)
    ensures alerts == Alerts(movers, Inserted(movers, |old(db.moverEvents)|))
    ensures research == ResearchRequests(ResearchSelection(movers, RemainingResearch(maxResearch, researchedToday)),
                                         Inserted(movers, |old(db.moverEvents)|))
    ensures researched == |ResearchSelection(movers, RemainingResearch(maxResearch, researchedToday))|
  {
    var ids := db.InsertMoverEvents(movers);
    var insertedMovers := ReturnedRows(movers, ids);

    alerts := Alerts(movers, insertedMovers);

    var remainingResearch := RemainingResearch(maxResearch, researchedToday);
    var moversToResearch := ResearchSelection(movers, remainingResearch);
    research := TriggerResearch(moversToResearch, insertedMovers);
    researched := |moversToResearch|;

    UpdateDailyStats(db, today, |movers|);
  }

  /** One run. The snapshot is the provider's answer; `now` and `today` are the clock reading and
      its UTC date, `researchedToday` the count of today's research reports (null when the count
      query gives none). */
  method CollectPrices(db: Database, snapshot: MarketSnapshot, priceThreshold: real, cooldownHours: int,
                       maxResearch: int, researchedToday: Option<int>, now: int, today: string)
    returns (report: CollectionReport, alerts: seq<AlertItem>, research: seq<ResearchRequest>)
    requires db.Valid()
    modifies db
    ensures db.Valid()
    ensures db.coins == UpsertAll(old(db.coins), CoinRecords(snapshot.coins, now))
    ensures db.priceSnapshots == old(db.priceSnapshots) + PriceRecords(snapshot.coins, snapshot.timestamp)
    ensures db.predictions == old(db.predictions)
    ensures Detected(snapshot, priceThreshold, now) == [] ==>
              report == NoMovers(|snapshot.coins|) && alerts == [] && research == [] &&
              db.moverEvents == old(db.moverEvents) && db.dailyStats == old(db.dailyStats)
    ensures var movers := NewMovers(old(db.moverEvents), snapshot, priceThreshold, cooldownHours, now);
            Detected(snapshot, priceThreshold, now) != [] && movers == [] ==>
              report == AllCoolingDown(|snapshot.coins|, |Detected(snapshot, priceThreshold, now)|) && alerts == [] && research == [] &&
              db.moverEvents == old(db.moverEvents) && db.dailyStats == old(db.dailyStats)
    ensures var movers := NewMovers(old(db.moverEvents), snapshot, priceThreshold, cooldownHours, now);
            movers != [] ==>
              db.moverEvents == old(db.moverEvents) + movers &&
              db.dailyStats == RecordMovers(old(db.dailyStats), today, |movers|)
    ensures var movers := NewMovers(old(db.moverEvents), snapshot, priceThreshold, cooldownHours, now);
            movers != [] ==>
              alerts == Alerts(movers, Inserted(movers, |old(db.moverEvents)|)) &&
              research == ResearchRequests(ResearchSelection(movers, RemainingResearch(maxResearch, researchedToday)),
                                           Inserted(movers, |old(db.moverEvents)|))
    ensures var movers := NewMovers(old(db.moverEvents), snapshot, priceThreshold, cooldownHours, now);
            movers != [] ==>
              report == Collected(|snapshot.coins|, |movers|, Seqs.Min(|movers|, MaxAlerts),
                                  |ResearchSelection(movers, RemainingResearch(maxResearch, researchedToday))|)
  {
    StoreSnapshot(db, snapshot, now);

    var allMovers := DetectMovers(snapshot, priceThreshold, now);
    assert allMovers == Detected(snapshot, priceThreshold, now);
    if |allMovers| == 0 {
      return NoMovers(|snapshot.coins|), [], [];
    }

    var movers := SkipCoolingDown(db, allMovers, cooldownHours, now);
    if |movers| == 0 {
      return AllCoolingDown(|snapshot.coins|, |allMovers|), [], [];
    }

    var researched;
    alerts, research, researched := RecordNewMovers(db, movers, maxResearch, researchedToday, today);
    report := Collected(|snapshot.coins|, |movers|, Seqs.Min(|movers|, MaxAlerts), researched);
  }
}

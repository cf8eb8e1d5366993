/** The rows of the relational store (src/lib/database.types.ts). Timestamps are seconds since the
    epoch; calendar dates are their `YYYY-MM-DD` strings. */
module Schema {
  import opened Wrappers

  datatype MoveType = Pump | Dump

  datatype PredictionStatus = Pending | Correct | Incorrect | Partial | Expired

  /** A row of `coins`, written by the collection task's upsert. */
  datatype CoinRow = CoinRow(id: string, symbol: string, name: string, isActive: bool, updatedAt: int)

  /** A row of `price_snapshots`. */
  datatype PriceSnapshotRow = PriceSnapshotRow(
    coinId: string,
    price: real,
    volume24h: real,
    marketCap: real,
    priceChange1h: Option<real>,
    priceChange24h: Option<real>,
    priceChange7d: Option<real>,
    recordedAt: int)

  /** A row of `predictions`; `id` is the row's key. The free-text reasoning, the predicted
      magnitude and `created_at` are not read by the modelled code and are left out. */
  datatype PredictionRow = PredictionRow(
    id: nat,
    coinId: string,
    moverEventId: Option<nat>,
    predictedDirection: string,
    confidence: real,
    horizonHours: nat,
    status: PredictionStatus,
    actualChange: Option<real>,
    predictedAt: int,
    evaluatedAt: Option<int>)

  /** A row of `daily_stats`, keyed by its date. */
  datatype DailyStatsRow = DailyStatsRow(
    date: string,
    totalMovers: int,
    pumps: int,
    dumps: int,
    volumeSpikes: int,
    researchCount: int,
    predictionsMade: int,
    predictionsCorrect: int)
}

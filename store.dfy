/** The relational store the two scheduled tasks read and write, as one object whose tables are
    fields. Row ids that the store generates (UUIDs) are modelled as positions in the table. */
module Store {
  import opened Schema
  import opened MoverDetector

  /** `upsert(rows, { onConflict: "id" })` on `coins`, row by row: each row replaces the one with
      its id, or is added. */
  function UpsertAll(table: map<string, CoinRow>, rows: seq<CoinRow>): map<string, CoinRow>
    decreases |rows|
  {
    if rows == [] then table else UpsertAll(table[rows[0].id := rows[0]], rows[1..])
  }

  /** The upserted table holds the old ids and the batch's, and a row whose id the batch does not
      mention is kept as it was. */
  lemma {:induction false} UpsertAllFrame(table: map<string, CoinRow>, rows: seq<CoinRow>)
    ensures UpsertAll(table, rows).Keys == table.Keys + set row | row in rows :: row.id
    ensures forall id :: id in table && (forall row :: row in rows ==> row.id != id) ==> UpsertAll(table, rows)[id] == table[id]
    decreases |rows|
  {
    if rows != [] {
      var t := table[rows[0].id := rows[0]];
      UpsertAllFrame(t, rows[1..]);
      assert forall row :: row in rows <==> row == rows[0] || row in rows[1..];
      assert (set row | row in rows :: row.id) == {rows[0].id} + set row | row in rows[1..] :: row.id;
    }
  }

  /** Upserting two batches one after the other is upserting their concatenation. */
  lemma {:induction false} UpsertAllConcat(table: map<string, CoinRow>, a: seq<CoinRow>, b: seq<CoinRow>)
    ensures UpsertAll(UpsertAll(table, a), b) == UpsertAll(table, a + b)
    decreases |a|
  {
    if a != [] {
      var t := table[a[0].id := a[0]];
      assert (a + b)[0] == a[0];
      assert (a + b)[1..] == a[1..] + b;
      calc {
        UpsertAll(UpsertAll(table, a), b);
        UpsertAll(UpsertAll(t, a[1..]), b);
        { UpsertAllConcat(t, a[1..], b); }
        UpsertAll(t, a[1..] + b);
        UpsertAll(table, a + b);
      }
    } else {
      assert a + b == b;
    }
  }

  /** With distinct ids, every upserted row is stored as given. */
  lemma {:induction false} UpsertAllStores(table: map<string, CoinRow>, rows: seq<CoinRow>, k: nat)
    requires k < |rows|
    requires forall i, j :: 0 <= i < j < |rows| ==> rows[i].id != rows[j].id
    ensures rows[k].id in UpsertAll(table, rows) && UpsertAll(table, rows)[rows[k].id] == rows[k]
    decreases |rows|
  {
    if k == 0 {
      assert forall row :: row in rows[1..] ==> row.id != rows[0].id;
      UpsertAllFrame(table[rows[0].id := rows[0]], rows[1..]);
    } else {
      UpsertAllStores(table[rows[0].id := rows[0]], rows[1..], k - 1);
    }
  }

  class Database {
    var coins: map<string, CoinRow>
    var priceSnapshots: seq<PriceSnapshotRow>
    /** `mover_events`; an event's id is its position. */
    var moverEvents: seq<MoverEvent>
    /** `predictions`; a row's id is its position. */
    var predictions: seq<PredictionRow>
    /** `daily_stats`, keyed by date. */
    var dailyStats: map<string, DailyStatsRow>

    ghost predicate Valid()
      reads this
    {
      (forall i :: 0 <= i < |predictions| ==> predictions[i].id == i) &&
      (forall d :: d in dailyStats ==> dailyStats[d].date == d)
    }

    constructor ()
      ensures Valid()
      ensures coins == map[] && priceSnapshots == [] && moverEvents == [] && predictions == [] && dailyStats == map[]
    {
      coins := map[];
      priceSnapshots := [];
      moverEvents := [];
      predictions := [];
      dailyStats := map[];
    }

    method UpsertCoins(batch: seq<CoinRow>)
      requires Valid()
      modifies this
      ensures Valid()
      ensures coins == UpsertAll(old(coins), batch)
      ensures priceSnapshots == old(priceSnapshots) && moverEvents == old(moverEvents)
      ensures predictions == old(predictions) && dailyStats == old(dailyStats)
    {
      coins := UpsertAll(coins, batch);
    }

    method InsertPriceSnapshots(batch: seq<PriceSnapshotRow>)
      requires Valid()
      modifies this
      ensures Valid()
      ensures priceSnapshots == old(priceSnapshots) + batch
      ensures coins == old(coins) && moverEvents == old(moverEvents)
      ensures predictions == old(predictions) && dailyStats == old(dailyStats)
    {
      priceSnapshots := priceSnapshots + batch;
    }

    /** `insert(rows).select("id, ...")`: the new rows and the ids they were given, in order. */
    method InsertMoverEvents(rows: seq<MoverEvent>) returns (ids: seq<nat>)
      requires Valid()
      modifies this
      ensures Valid()
      ensures moverEvents == old(moverEvents) + rows
      ensures |ids| == |rows| && forall k :: 0 <= k < |rows| ==> ids[k] == |old(moverEvents)| + k
      ensures coins == old(coins) && priceSnapshots == old(priceSnapshots)
      ensures predictions == old(predictions) && dailyStats == old(dailyStats)
    {
      var n := |moverEvents|;
      ids := seq(|rows|, k => n + k);
      moverEvents := moverEvents + rows;
    }

    /** `update({ status, actual_change, evaluated_at }).eq("id", id)`; an id that matches no row
        updates nothing. */
    method UpdatePrediction(id: nat, status: PredictionStatus, actualChange: Wrappers.Option<real>, evaluatedAt: int)
      requires Valid()
      modifies this
      ensures Valid()
      ensures id < |old(predictions)| ==>
                predictions == old(predictions)[id := old(predictions)[id].(status := status, actualChange := actualChange, evaluatedAt := Wrappers.Some(evaluatedAt))]
      ensures id >= |old(predictions)| ==> predictions == old(predictions)
      ensures coins == old(coins) && priceSnapshots == old(priceSnapshots)
      ensures moverEvents == old(moverEvents) && dailyStats == old(dailyStats)
    {
      if id < |predictions| {
        predictions := predictions[id := predictions[id].(status := status, actualChange := actualChange, evaluatedAt := Wrappers.Some(evaluatedAt))];
      }
    }

    /** Writes the `daily_stats` row of `row.date`, by update when there is one, else by insert. */
    method PutDailyStats(row: DailyStatsRow)
      requires Valid()
      modifies this
      ensures Valid()
      ensures dailyStats == old(dailyStats)[row.date := row]
      ensures coins == old(coins) && priceSnapshots == old(priceSnapshots)
      ensures moverEvents == old(moverEvents) && predictions == old(predictions)
    {
      dailyStats := dailyStats[row.date := row];
    }
  }
}

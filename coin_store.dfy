/**
 * The realtime price table of src/entities/coin/model/store.ts: a map from a
 * canonical coin id to its latest price record, plus the feed's connection
 * status. The table is only ever changed by a last-writer-wins merge.
 */
module CoinModel {
  import opened Wrappers
  import SocketManager

  /** RealtimePrice (src/entities/coin/model/types.ts). */
  datatype RealtimePrice = RealtimePrice(price: real, changePercent: real, volume: real)

  /** The store's `wsStatus` values: the socket manager's four statuses. */
  type ConnectionStatus = SocketManager.ConnectionStatus

  /** Canonical coin id to its latest record. */
  type PriceTable = map<string, RealtimePrice>

  /**
   * The table after applying `batch`: every key of the batch maps to the
   * batch's record, every other key keeps its entry, and no key is lost.
   */
  function Merge(table: PriceTable, batch: PriceTable): (r: PriceTable)
    ensures r.Keys == table.Keys + batch.Keys
    ensures forall k :: k in batch ==> r[k] == batch[k]
    ensures forall k :: k in table && k !in batch ==> r[k] == table[k]
  {
    table + batch
  }

  /** Applying the same batch twice leaves the table it left after once. */
  lemma MergeIdempotent(table: PriceTable, batch: PriceTable)
    ensures Merge(Merge(table, batch), batch) == Merge(table, batch)
  {
  }

  /** Across two merges, the later batch's record wins for a key in both. */
  lemma LastWriterWins(table: PriceTable, first: PriceTable, second: PriceTable, id: string)
    requires id in second
    ensures id in Merge(Merge(table, first), second)
    ensures Merge(Merge(table, first), second)[id] == second[id]
  {
  }

  /** The map lookup `realtimePrices[coinId]`, absent for an unknown id. */
  function Lookup(table: PriceTable, coinId: string): (r: Option<RealtimePrice>)
    ensures r.Some? <==> coinId in table
    ensures r.Some? ==> r.value == table[coinId]
  {
    if coinId in table then Some(table[coinId]) else None
  }

  /** The zustand store created by `useCoinStore`. */
  class CoinStore {
    var realtimePrices: PriceTable
    var wsStatus: ConnectionStatus

    /** The initial state: an empty table, status `disconnected`. */
    constructor ()
      ensures realtimePrices == map[] && wsStatus == SocketManager.Disconnected
    {
      realtimePrices := map[];
      wsStatus := SocketManager.Disconnected;
    }

    /** `setRealtimePrices`: copy the table and write each batch entry into the copy. */
    method SetRealtimePrices(prices: PriceTable)
      modifies this
      ensures realtimePrices == Merge(old(realtimePrices), prices)
      ensures wsStatus == old(wsStatus)
    {
      var updated := realtimePrices;
      var pending := prices.Keys;
      while pending != {}
        invariant pending <= prices.Keys
        invariant updated.Keys == old(realtimePrices).Keys + (prices.Keys - pending)
        invariant forall k :: k in prices && k !in pending ==> updated[k] == prices[k]
        invariant forall k :: k in old(realtimePrices) && (k !in prices || k in pending) ==>
          updated[k] == old(realtimePrices)[k]
        decreases pending
      {
        var key :| key in pending;
        updated := updated[key := prices[key]];
        pending := pending - {key};
      }
      realtimePrices := updated;
    }

    /** `setWsStatus`: replace the status, leave the table alone. */
    method SetWsStatus(status: ConnectionStatus)
      modifies this
      ensures wsStatus == status && SelectWsStatus(this) == status
      ensures realtimePrices == old(realtimePrices)
    {
      wsStatus := status;
    }

    /** `getRealtimePrice`: the current record of `coinId`, or absent. */
    function GetRealtimePrice(coinId: string): (r: Option<RealtimePrice>)
      reads this
      ensures r.Some? <==> coinId in realtimePrices
      ensures r.Some? ==> r.value == realtimePrices[coinId]
    {
      Lookup(realtimePrices, coinId)
    }
  }

  /** `selectRealtimePrice(coinId)(state)`. */
  function SelectRealtimePrice(coinId: string, state: CoinStore): (r: Option<RealtimePrice>)
    reads state
    ensures r.Some? <==> coinId in state.realtimePrices
    ensures r.Some? ==> r.value == state.realtimePrices[coinId]
  {
    Lookup(state.realtimePrices, coinId)
  }

  /** `selectWsStatus(state)`. */
  function SelectWsStatus(state: CoinStore): (r: ConnectionStatus)
    reads state
    ensures r == state.wsStatus
  {
    state.wsStatus
  }

  /** The selector and the store's own getter agree on every id. */
  lemma SelectorMatchesGetter(state: CoinStore, coinId: string)
    ensures SelectRealtimePrice(coinId, state) == state.GetRealtimePrice(coinId)
  {
  }
}

/**
 * The Binance ticker feed of src/entities/coin/api/binance-ws.ts: the fixed
 * table from canonical coin ids to Binance trading pairs, its lower-cased
 * inverse, the translation of one `!miniTicker@arr` frame into a batch of
 * realtime prices, and the module's two pieces of state (the current socket
 * manager and the current price handler).
 */
module BinanceFeed {
  import opened Wrappers
  import opened Strings
  import opened CoinModel
  import SocketManager

  /** `COINGECKO_TO_BINANCE`: canonical coin id to its USDT trading pair. */
  const CoingeckoToBinance: map<string, string> := map[
      "bitcoin" := "BTCUSDT",
      "ethereum" := "ETHUSDT",
      "binancecoin" := "BNBUSDT",
      "ripple" := "XRPUSDT",
      "cardano" := "ADAUSDT",
      "solana" := "SOLUSDT",
      "dogecoin" := "DOGEUSDT",
      "polkadot" := "DOTUSDT",
      "shiba-inu" := "SHIBUSDT",
      "litecoin" := "LTCUSDT",
      "avalanche" := "AVAXUSDT",
      "chainlink" := "LINKUSDT",
      "uniswap" := "UNIUSDT",
      "polygon" := "MATICUSDT",
      "stellar" := "XLMUSDT",
      "near-protocol" := "NEARUSDT",
      "aptos" := "APTUSDT",
      "sui" := "SUIUSDT",
      "internet-computer" := "ICPUSDT",
      "tron" := "TRXUSDT"
    ]

  /**
   * `BINANCE_TO_COINGECKO`, the map built from the table's entries with
   * each pair lower-cased, written out; `ReverseIsInverse` proves it is
   * exactly that inversion.
   */
  const BinanceToCoingecko: map<string, string> := map[
      "btcusdt" := "bitcoin",
      "ethusdt" := "ethereum",
      "bnbusdt" := "binancecoin",
      "xrpusdt" := "ripple",
      "adausdt" := "cardano",
      "solusdt" := "solana",
      "dogeusdt" := "dogecoin",
      "dotusdt" := "polkadot",
      "shibusdt" := "shiba-inu",
      "ltcusdt" := "litecoin",
      "avaxusdt" := "avalanche",
      "linkusdt" := "chainlink",
      "uniusdt" := "uniswap",
      "maticusdt" := "polygon",
      "xlmusdt" := "stellar",
      "nearusdt" := "near-protocol",
      "aptusdt" := "aptos",
      "suiusdt" := "sui",
      "icpusdt" := "internet-computer",
      "trxusdt" := "tron"
    ]

  /** `c` and the lower-cased pair `s` correspond in both tables. */
  ghost predicate Paired(c: string, s: string) {
    && c in CoingeckoToBinance && s in BinanceToCoingecko
    && ToLower(CoingeckoToBinance[c]) == s && BinanceToCoingecko[s] == c
    && c != ""
  }

  // One lemma per entry keeps each proof small.
  lemma Paired0() ensures Paired("bitcoin", "btcusdt") {
    assert CoingeckoToBinance["bitcoin"] == "BTCUSDT";
    assert BinanceToCoingecko["btcusdt"] == "bitcoin";
    assert ToLower("BTCUSDT") == "btcusdt";
  }
  lemma Paired1() ensures Paired("ethereum", "ethusdt") {
    assert CoingeckoToBinance["ethereum"] == "ETHUSDT";
    assert BinanceToCoingecko["ethusdt"] == "ethereum";
    assert ToLower("ETHUSDT") == "ethusdt";
  }
  lemma Paired2() ensures Paired("binancecoin", "bnbusdt") {
    assert CoingeckoToBinance["binancecoin"] == "BNBUSDT";
    assert BinanceToCoingecko["bnbusdt"] == "binancecoin";
    assert ToLower("BNBUSDT") == "bnbusdt";
  }
  lemma Paired3() ensures Paired("ripple", "xrpusdt") {
    assert CoingeckoToBinance["ripple"] == "XRPUSDT";
    assert BinanceToCoingecko["xrpusdt"] == "ripple";
    assert ToLower("XRPUSDT") == "xrpusdt";
  }
  lemma Paired4() ensures Paired("cardano", "adausdt") {
    assert CoingeckoToBinance["cardano"] == "ADAUSDT";
    assert BinanceToCoingecko["adausdt"] == "cardano";
    assert ToLower("ADAUSDT") == "adausdt";
  }
  lemma Paired5() ensures Paired("solana", "solusdt") {
    assert CoingeckoToBinance["solana"] == "SOLUSDT";
    assert BinanceToCoingecko["solusdt"] == "solana";
    assert ToLower("SOLUSDT") == "solusdt";
  }
  lemma Paired6() ensures Paired("dogecoin", "dogeusdt") {
    assert CoingeckoToBinance["dogecoin"] == "DOGEUSDT";
    assert BinanceToCoingecko["dogeusdt"] == "dogecoin";
    assert ToLower("DOGEUSDT") == "dogeusdt";
  }
  lemma Paired7() ensures Paired("polkadot", "dotusdt") {
    assert CoingeckoToBinance["polkadot"] == "DOTUSDT";
    assert BinanceToCoingecko["dotusdt"] == "polkadot";
    assert ToLower("DOTUSDT") == "dotusdt";
  }
  lemma Paired8() ensures Paired("shiba-inu", "shibusdt") {
    assert CoingeckoToBinance["shiba-inu"] == "SHIBUSDT";
    assert BinanceToCoingecko["shibusdt"] == "shiba-inu";
    assert ToLower("SHIBUSDT") == "shibusdt";
  }
  lemma Paired9() ensures Paired("litecoin", "ltcusdt") {
    assert CoingeckoToBinance["litecoin"] == "LTCUSDT";
    assert BinanceToCoingecko["ltcusdt"] == "litecoin";
    assert ToLower("LTCUSDT") == "ltcusdt";
  }
  lemma Paired10() ensures Paired("avalanche", "avaxusdt") {
    assert CoingeckoToBinance["avalanche"] == "AVAXUSDT";
    assert BinanceToCoingecko["avaxusdt"] == "avalanche";
    assert ToLower("AVAXUSDT") == "avaxusdt";
  }
  lemma Paired11() ensures Paired("chainlink", "linkusdt") {
    assert CoingeckoToBinance["chainlink"] == "LINKUSDT";
    assert BinanceToCoingecko["linkusdt"] == "chainlink";
    assert ToLower("LINKUSDT") == "linkusdt";
  }
  lemma Paired12() ensures Paired("uniswap", "uniusdt") {
    assert CoingeckoToBinance["uniswap"] == "UNIUSDT";
    assert BinanceToCoingecko["uniusdt"] == "uniswap";
    assert ToLower("UNIUSDT") == "uniusdt";
  }
  lemma Paired13() ensures Paired("polygon", "maticusdt") {
    assert CoingeckoToBinance["polygon"] == "MATICUSDT";
    assert BinanceToCoingecko["maticusdt"] == "polygon";
    assert ToLower("MATICUSDT") == "maticusdt";
  }
  lemma Paired14() ensures Paired("stellar", "xlmusdt") {
    assert CoingeckoToBinance["stellar"] == "XLMUSDT";
    assert BinanceToCoingecko["xlmusdt"] == "stellar";
    assert ToLower("XLMUSDT") == "xlmusdt";
  }
  lemma Paired15() ensures Paired("near-protocol", "nearusdt") {
    assert CoingeckoToBinance["near-protocol"] == "NEARUSDT";
    assert BinanceToCoingecko["nearusdt"] == "near-protocol";
    assert ToLower("NEARUSDT") == "nearusdt";
  }
  lemma Paired16() ensures Paired("aptos", "aptusdt") {
    assert CoingeckoToBinance["aptos"] == "APTUSDT";
    assert BinanceToCoingecko["aptusdt"] == "aptos";
    assert ToLower("APTUSDT") == "aptusdt";
  }
  lemma Paired17() ensures Paired("sui", "suiusdt") {
    assert CoingeckoToBinance["sui"] == "SUIUSDT";
    assert BinanceToCoingecko["suiusdt"] == "sui";
    assert ToLower("SUIUSDT") == "suiusdt";
  }
  lemma Paired18() ensures Paired("internet-computer", "icpusdt") {
    assert CoingeckoToBinance["internet-computer"] == "ICPUSDT";
    assert BinanceToCoingecko["icpusdt"] == "internet-computer";
    assert ToLower("ICPUSDT") == "icpusdt";
  }
  lemma Paired19() ensures Paired("tron", "trxusdt") {
    assert CoingeckoToBinance["tron"] == "TRXUSDT";
    assert BinanceToCoingecko["trxusdt"] == "tron";
    assert ToLower("TRXUSDT") == "trxusdt";
  }

  /** Every coin of the forward table has its lower-cased pair in the inverse, mapped back to it. */
  lemma ForwardPaired()
    ensures forall c :: c in CoingeckoToBinance ==> Paired(c, ToLower(CoingeckoToBinance[c]))
  {
    forall c | c in CoingeckoToBinance
      ensures Paired(c, ToLower(CoingeckoToBinance[c]))
    {
      if c == "bitcoin" { Paired0(); }
      else if c == "ethereum" { Paired1(); }
      else if c == "binancecoin" { Paired2(); }
      else if c == "ripple" { Paired3(); }
      else if c == "cardano" { Paired4(); }
      else if c == "solana" { Paired5(); }
      else if c == "dogecoin" { Paired6(); }
      else if c == "polkadot" { Paired7(); }
      else if c == "shiba-inu" { Paired8(); }
      else if c == "litecoin" { Paired9(); }
      else if c == "avalanche" { Paired10(); }
      else if c == "chainlink" { Paired11(); }
      else if c == "uniswap" { Paired12(); }
      else if c == "polygon" { Paired13(); }
      else if c == "stellar" { Paired14(); }
      else if c == "near-protocol" { Paired15(); }
      else if c == "aptos" { Paired16(); }
      else if c == "sui" { Paired17(); }
      else if c == "internet-computer" { Paired18(); }
      else if c == "tron" { Paired19(); }
      else { assert false; }
    }
  }

  /** Every key of the inverse is the lower-cased pair of the coin it maps to. */
  lemma BackwardPaired()
    ensures forall s :: s in BinanceToCoingecko ==> Paired(BinanceToCoingecko[s], s)
  {
    forall s | s in BinanceToCoingecko
      ensures Paired(BinanceToCoingecko[s], s)
    {
      if s == "btcusdt" { Paired0(); }
      else if s == "ethusdt" { Paired1(); }
      else if s == "bnbusdt" { Paired2(); }
      else if s == "xrpusdt" { Paired3(); }
      else if s == "adausdt" { Paired4(); }
      else if s == "solusdt" { Paired5(); }
      else if s == "dogeusdt" { Paired6(); }
      else if s == "dotusdt" { Paired7(); }
      else if s == "shibusdt" { Paired8(); }
      else if s == "ltcusdt" { Paired9(); }
      else if s == "avaxusdt" { Paired10(); }
      else if s == "linkusdt" { Paired11(); }
      else if s == "uniusdt" { Paired12(); }
      else if s == "maticusdt" { Paired13(); }
      else if s == "xlmusdt" { Paired14(); }
      else if s == "nearusdt" { Paired15(); }
      else if s == "aptusdt" { Paired16(); }
      else if s == "suiusdt" { Paired17(); }
      else if s == "icpusdt" { Paired18(); }
      else if s == "trxusdt" { Paired19(); }
      else { assert false; }
    }
  }

  /**
   * The inverse table holds, for every coin of the forward table, its
   * lower-cased pair mapped back to the coin, and its keys are exactly
   * those pairs; so no two coins share a pair, whatever its case.
   */
  lemma ReverseIsInverse()
    ensures forall c :: c in CoingeckoToBinance ==>
      ToLower(CoingeckoToBinance[c]) in BinanceToCoingecko
      && BinanceToCoingecko[ToLower(CoingeckoToBinance[c])] == c
    ensures forall s :: s in BinanceToCoingecko ==>
      BinanceToCoingecko[s] in CoingeckoToBinance
      && ToLower(CoingeckoToBinance[BinanceToCoingecko[s]]) == s
    ensures forall c1, c2 ::
      (c1 in CoingeckoToBinance && c2 in CoingeckoToBinance &&
       ToLower(CoingeckoToBinance[c1]) == ToLower(CoingeckoToBinance[c2])) ==> c1 == c2
  {
    ForwardPaired();
    BackwardPaired();
  }

  /** `getBinanceSymbol`: the trading pair of a listed coin, absent otherwise. */
  function GetBinanceSymbol(coingeckoId: string): (r: Option<string>)
    ensures r.Some? <==> coingeckoId in CoingeckoToBinance
    ensures r.Some? ==> r.value == CoingeckoToBinance[coingeckoId]
  {
    if coingeckoId in CoingeckoToBinance then Some(CoingeckoToBinance[coingeckoId]) else None
  }

  /** `BINANCE_TO_COINGECKO.get(symbol.toLowerCase())`. */
  function CoinIdOf(symbol: string): (r: Option<string>)
    ensures r.Some? <==> ToLower(symbol) in BinanceToCoingecko
    ensures r.Some? ==> r.value == BinanceToCoingecko[ToLower(symbol)]
  {
    var key := ToLower(symbol);
    if key in BinanceToCoingecko then Some(BinanceToCoingecko[key]) else None
  }

  /**
   * A symbol resolves to a coin exactly when it is, up to case, that coin's
   * trading pair; the coin is listed and its id is not empty.
   */
  lemma CoinIdOfIff(symbol: string, c: string)
    ensures CoinIdOf(symbol) == Some(c) <==>
      (c in CoingeckoToBinance && ToLower(symbol) == ToLower(CoingeckoToBinance[c]))
    ensures CoinIdOf(symbol) == Some(c) ==> c != ""
  {
    ForwardPaired();
    BackwardPaired();
  }

  /** Looking up a coin's pair and resolving it again gives back the coin. */
  lemma SymbolRoundTrip(c: string)
    requires c in CoingeckoToBinance
    ensures GetBinanceSymbol(c).Some?
    ensures CoinIdOf(GetBinanceSymbol(c).value) == Some(c)
  {
    CoinIdOfIff(CoingeckoToBinance[c], c);
  }

  /** Resolution ignores case: the lower-cased symbol resolves the same way. */
  lemma CoinIdOfIgnoresCase(symbol: string)
    ensures CoinIdOf(ToLower(symbol)) == CoinIdOf(symbol)
  {
    ToLowerIdempotent(symbol);
  }

  /**
   * One element of a `!miniTicker@arr` frame (BinanceTickerData in
   * src/entities/coin/model/types.ts): the symbol `s`, close price `c`,
   * change percent `P`, base volume `v` and quote volume `q`, all as text.
   */
  datatype Ticker = Ticker(s: string, c: string, P: string, v: string, q: string)

  /** A decoded frame: an array of tickers, or any other value. */
  datatype Payload = TickerArray(tickers: seq<Ticker>) | NotAnArray

  /**
   * The record written for a ticker; `parseFloat` stands for the
   * JavaScript function of that name. The volume is the quote volume.
   */
  function Record(t: Ticker, parseFloat: string -> real): (r: RealtimePrice)
    ensures r.price == parseFloat(t.c)
    ensures r.changePercent == parseFloat(t.P)
    ensures r.volume == parseFloat(t.q)
  {
    RealtimePrice(parseFloat(t.c), parseFloat(t.P), parseFloat(t.q))
  }

  /**
   * The ticker names `c` in the inverse table `reverse` (`if (coinId)`
   * rejects an empty id).
   */
  predicate Resolves(reverse: map<string, string>, t: Ticker, c: string) {
    ToLower(t.s) in reverse && reverse[ToLower(t.s)] == c && c != ""
  }

  /**
   * The price map the frame handler builds, resolving symbols through
   * `reverse`: the tickers in order, each resolving ticker writing its coin's
   * record over any earlier one. The handler uses `BinanceToCoingecko`.
   */
  function Batch(reverse: map<string, string>, tickers: seq<Ticker>, parseFloat: string -> real): PriceTable
    decreases |tickers|
  {
    if |tickers| == 0 then map[]
    else
      var rest := Batch(reverse, tickers[..|tickers| - 1], parseFloat);
      var t := tickers[|tickers| - 1];
      var key := ToLower(t.s);
      if key in reverse && reverse[key] != "" then rest[reverse[key] := Record(t, parseFloat)] else rest
  }

  /** A coin is in the batch exactly when some ticker resolves to it. */
  lemma {:induction false} BatchKeys(reverse: map<string, string>, tickers: seq<Ticker>,
                                     parseFloat: string -> real, c: string)
    ensures c in Batch(reverse, tickers, parseFloat) <==>
      exists i :: 0 <= i < |tickers| && Resolves(reverse, tickers[i], c)
    decreases |tickers|
  {
    if |tickers| > 0 {
      var init := tickers[..|tickers| - 1];
      BatchKeys(reverse, init, parseFloat, c);
      if c in Batch(reverse, tickers, parseFloat) && !Resolves(reverse, tickers[|tickers| - 1], c) {
        var i :| 0 <= i < |init| && Resolves(reverse, init[i], c);
        assert tickers[i] == init[i];
      }
      if exists i :: 0 <= i < |tickers| && Resolves(reverse, tickers[i], c) {
        var i :| 0 <= i < |tickers| && Resolves(reverse, tickers[i], c);
        if i < |init| {
          assert init[i] == tickers[i];
        }
      }
    }
  }

  /**
   * The record of a coin in the batch comes from the last ticker that
   * resolves to it.
   */
  lemma {:induction false} BatchLastWins(reverse: map<string, string>, tickers: seq<Ticker>,
                                         parseFloat: string -> real, c: string)
    requires c in Batch(reverse, tickers, parseFloat)
    ensures exists i ::
      && 0 <= i < |tickers| && Resolves(reverse, tickers[i], c)
      && Batch(reverse, tickers, parseFloat)[c] == Record(tickers[i], parseFloat)
      && (forall j :: i < j < |tickers| ==> !Resolves(reverse, tickers[j], c))
    decreases |tickers|
  {
    var n := |tickers|;
    var init := tickers[..n - 1];
    if Resolves(reverse, tickers[n - 1], c) {
      assert n - 1 < n && Resolves(reverse, tickers[n - 1], c)
        && Batch(reverse, tickers, parseFloat)[c] == Record(tickers[n - 1], parseFloat);
    } else {
      assert c in Batch(reverse, init, parseFloat);
      assert Batch(reverse, tickers, parseFloat)[c] == Batch(reverse, init, parseFloat)[c];
      BatchLastWins(reverse, init, parseFloat, c);
      var i :| && 0 <= i < |init| && Resolves(reverse, init[i], c)
        && Batch(reverse, init, parseFloat)[c] == Record(init[i], parseFloat)
        && (forall j :: i < j < |init| ==> !Resolves(reverse, init[j], c));
      assert tickers[i] == init[i];
      forall j | i < j < n
        ensures !Resolves(reverse, tickers[j], c)
      {
        if j < n - 1 {
          assert tickers[j] == init[j];
        }
      }
      assert Batch(reverse, tickers, parseFloat)[c] == Record(tickers[i], parseFloat);
    }
  }

  /** Every coin in a batch the handler builds is listed in the forward table. */
  lemma BatchCanonical(tickers: seq<Ticker>, parseFloat: string -> real)
    ensures forall c :: c in Batch(BinanceToCoingecko, tickers, parseFloat) ==> c in CoingeckoToBinance
  {
    BackwardPaired();
    forall c | c in Batch(BinanceToCoingecko, tickers, parseFloat)
      ensures c in CoingeckoToBinance
    {
      BatchKeys(BinanceToCoingecko, tickers, parseFloat, c);
      var i :| 0 <= i < |tickers| && Resolves(BinanceToCoingecko, tickers[i], c);
      assert Paired(c, ToLower(tickers[i].s));
    }
  }

  /**
   * A ticker for a listed coin, in any case, puts that coin's record into
   * the batch; a ticker whose symbol is not listed leaves the batch alone.
   */
  lemma BatchAppend(tickers: seq<Ticker>, t: Ticker, parseFloat: string -> real)
    ensures forall c :: c in CoingeckoToBinance && ToLower(t.s) == ToLower(CoingeckoToBinance[c]) ==>
      && c in Batch(BinanceToCoingecko, tickers + [t], parseFloat)
      && Batch(BinanceToCoingecko, tickers + [t], parseFloat)[c] == Record(t, parseFloat)
    ensures ToLower(t.s) !in BinanceToCoingecko ==>
      Batch(BinanceToCoingecko, tickers + [t], parseFloat) == Batch(BinanceToCoingecko, tickers, parseFloat)
  {
    var all := tickers + [t];
    assert all[..|all| - 1] == tickers;
    forall c | c in CoingeckoToBinance && ToLower(t.s) == ToLower(CoingeckoToBinance[c])
      ensures c in Batch(BinanceToCoingecko, all, parseFloat)
      ensures Batch(BinanceToCoingecko, all, parseFloat)[c] == Record(t, parseFloat)
    {
      CoinIdOfIff(t.s, c);
    }
  }

  /** The frame handler's loop: build the batch ticker by ticker. */
  method TranslateTickers(tickers: seq<Ticker>, parseFloat: string -> real) returns (prices: PriceTable)
    ensures prices == Batch(BinanceToCoingecko, tickers, parseFloat)
  {
    prices := map[];
    for i := 0 to |tickers|
      invariant prices == Batch(BinanceToCoingecko, tickers[..i], parseFloat)
    {
      var t := tickers[i];
      var coinId := CoinIdOf(t.s);
      if coinId.Some? && coinId.value != "" {
        prices := prices[coinId.value := Record(t, parseFloat)];
      }
      assert tickers[..i + 1][..i] == tickers[..i];
    }
    assert tickers[..|tickers|] == tickers;
  }

  /** The identity of a price handler passed to `connectBinanceWS`. */
  type HandlerId = nat

  /** One call of a price handler with the batch it was given. */
  datatype Delivery = Delivery(handler: HandlerId, prices: PriceTable)

  /**
   * The module's state: `wsManager` and `priceHandler`, and the calls
   * made to price handlers, in order.
   */
  class Feed {
    var manager: SocketManager.WebSocketManager?
    var priceHandler: Option<HandlerId>
    var deliveries: seq<Delivery>

    /** A manager exists exactly while a handler is installed. */
    ghost predicate Valid()
      reads this, manager
    {
      && (manager == null <==> priceHandler.None?)
      && (manager != null ==> manager.Valid())
    }

    /** Module load: no manager, no handler. */
    constructor ()
      ensures Valid()
      ensures manager == null && priceHandler == None && deliveries == []
    {
      manager := null;
      priceHandler := None;
      deliveries := [];
    }

    /**
     * `connectBinanceWS`: tear down the current manager, install the
     * handler, and connect a new reconnecting manager.
     */
    method ConnectBinanceWS(handler: HandlerId, socketThrows: bool)
      requires Valid()
      modifies this, manager
      ensures Valid()
      ensures old(manager) != null ==> SocketManager.TornDown(old(manager).Model())
      ensures old(manager) != null ==>
        old(manager).effects == old(manager.effects) + SocketManager.DisconnectStep(old(manager.Model())).effects
      ensures manager != null && fresh(manager) && manager.reconnect
      ensures manager.Model() == SocketManager.ConnectStep(SocketManager.Corrected, SocketManager.Initial(true), socketThrows).next
      ensures manager.effects == SocketManager.ConnectStep(SocketManager.Corrected, SocketManager.Initial(true), socketThrows).effects
      ensures priceHandler == Some(handler) && deliveries == old(deliveries)
    {
      if manager != null {
        SocketManager.DisconnectTearsDown(manager.Model());
        manager.Disconnect();
      }
      priceHandler := Some(handler);
      var m := new SocketManager.WebSocketManager(true);
      m.Connect(socketThrows);
      manager := m;
    }

    /** `disconnectBinanceWS`: tear down the manager and drop both references. */
    method DisconnectBinanceWS()
      requires Valid()
      modifies this, manager
      ensures Valid()
      ensures manager == null && priceHandler == None && deliveries == old(deliveries)
      ensures old(manager) != null ==> SocketManager.TornDown(old(manager).Model())
      ensures old(manager) != null ==>
        old(manager).effects == old(manager.effects) + SocketManager.DisconnectStep(old(manager.Model())).effects
    {
      if manager != null {
        SocketManager.DisconnectTearsDown(manager.Model());
        manager.Disconnect();
      }
      manager := null;
      priceHandler := None;
    }

    /**
     * The manager's `onMessage` callback: ignore anything but an array;
     * otherwise build the batch and hand it to the current handler unless
     * it is empty. Returns the batch handed on, if any.
     */
    method OnFrame(data: Payload, parseFloat: string -> real) returns (delivered: Option<PriceTable>)
      modifies this
      ensures data.NotAnArray? ==> delivered.None?
      ensures data.TickerArray? ==>
        (delivered.Some? <==> |Batch(BinanceToCoingecko, data.tickers, parseFloat)| > 0)
      ensures delivered.Some? ==> data.TickerArray? && delivered.value == Batch(BinanceToCoingecko, data.tickers, parseFloat)
      ensures deliveries == old(deliveries) +
        (if delivered.Some? && priceHandler.Some? then [Delivery(priceHandler.value, delivered.value)] else [])
      ensures manager == old(manager) && priceHandler == old(priceHandler)
    {
      delivered := None;
      if data.NotAnArray? {
        return;
      }
      var prices := TranslateTickers(data.tickers, parseFloat);
      if |prices| > 0 {
        delivered := Some(prices);
        if priceHandler.Some? {
          deliveries := deliveries + [Delivery(priceHandler.value, prices)];
        }
      }
    }
  }
}

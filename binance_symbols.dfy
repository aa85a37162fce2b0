/** The fixed mapping from the maker's pair names to Binance stream ids
    (src/core/marketData/binance/BinanceSymbols.ts). */
module BinanceSymbols {
  import opened Common

  const Symbols: map<string, string> := map[
    "ETH/BTC" := "ethbtc",
    "LTC/BTC" := "ltcbtc",
    "XTZ/BTC" := "xtzbtc",
    "XTZ/ETH" := "xtzeth",
    "BTC/USDT" := "btcusdt",
    "ETH/USDT" := "ethusdt",
    "LTC/USDT" := "ltcusdt",
    "XTZ/USDT" := "xtzusdt"
  ]

  /** Every stream id in the table is non-empty (so `|| null` never turns
      a listed pair into `null`) and lower-case. */
  lemma TableIdsLowerCase()
    ensures forall s :: s in Symbols ==> Symbols[s] != "" && IsLowerCase(Symbols[s])
  {
  }

  /** `getSymbol`: the stream id of a listed pair, `null` otherwise. */
  function GetSymbol(symbol: string): (r: Option<string>)
    ensures r.Some? <==> symbol in Symbols
    ensures r.Some? ==> r.value == Symbols[symbol] && r.value != "" && IsLowerCase(r.value)
  {
    TableIdsLowerCase();
    if symbol in Symbols && Symbols[symbol] != "" then Some(Symbols[symbol]) else None
  }

  /** `getRestSymbol`: the upper-case form of the stream id, `null` exactly
      when `getSymbol` is; lower-casing it gives the stream id back. */
  function GetRestSymbol(symbol: string): (r: Option<string>)
    ensures r.None? <==> GetSymbol(symbol).None?
    ensures r.Some? ==> r.value == ToUpper(GetSymbol(symbol).value) && ToLower(r.value) == GetSymbol(symbol).value
  {
    if symbol in Symbols && Symbols[symbol] != "" then
      TableIdsLowerCase();
      LowerUpperRoundTrip(Symbols[symbol]);
      Some(ToUpper(Symbols[symbol]))
    else None
  }

  /** Examples of `GetSymbol`'s contract: pairs outside the table, such as
      the reversed spelling of a listed one, have no stream. */
  lemma UnlistedPairs()
    ensures GetSymbol("BTC/ETH").None? && GetRestSymbol("USDT/BTC").None?
    ensures GetSymbol("eth/btc").None?
  {
  }

  /** The REST API's symbol for each listed pair, written out. */
  const RestIds: map<string, string> := map[
    "ETH/BTC" := "ETHBTC",
    "LTC/BTC" := "LTCBTC",
    "XTZ/BTC" := "XTZBTC",
    "XTZ/ETH" := "XTZETH",
    "BTC/USDT" := "BTCUSDT",
    "ETH/USDT" := "ETHUSDT",
    "LTC/USDT" := "LTCUSDT",
    "XTZ/USDT" := "XTZUSDT"
  ]

  /** Every listed pair has a REST symbol, and it is the one written out in
      `RestIds`; no other pair has one. */
  lemma RestSymbols()
    ensures forall s :: s in Symbols <==> s in RestIds
    ensures forall s :: s in RestIds ==> GetRestSymbol(s) == Some(RestIds[s])
  {
    assert ToUpper("ethbtc") == "ETHBTC";
    assert ToUpper("ltcbtc") == "LTCBTC";
    assert ToUpper("xtzbtc") == "XTZBTC";
    assert ToUpper("xtzeth") == "XTZETH";
    assert ToUpper("btcusdt") == "BTCUSDT";
    assert ToUpper("ethusdt") == "ETHUSDT";
    assert ToUpper("ltcusdt") == "LTCUSDT";
    assert ToUpper("xtzusdt") == "XTZUSDT";
  }
}

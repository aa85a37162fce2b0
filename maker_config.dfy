/** The maker's configuration object (src/maker/configuration/MakerConfig.ts,
    with the shapes of SymbolConfig.ts and NetworkConfig.ts). The JSON
    record of symbols is an ordered list of names with a map from name to
    settings, so that `Object.values` order and `find` are modelled. */
module MakerConfigs {
  import opened Common

  /** A side's settings as read from JSON: the quantity is still a number. */
  datatype RawSideConfig = RawSideConfig(
    enabled: bool,
    spreadInPercents: real,
    limitCount: int,
    limitDistanceInPercents: real,
    qty: real)

  /** A side's settings once the quantity is a `bigint`. */
  datatype SideConfig = SideConfig(
    enabled: bool,
    spreadInPercents: real,
    limitCount: int,
    limitDistanceInPercents: real,
    qty: int)

  datatype RawSymbolConfig = RawSymbolConfig(
    symbol: string,
    sourceSymbol: string,
    bids: RawSideConfig,
    asks: RawSideConfig,
    modifySpreadInPercents: real,
    contractAddress: string,
    network: string,
    pricePrecision: nat)

  datatype SymbolConfig = SymbolConfig(
    symbol: string,
    sourceSymbol: string,
    bids: SideConfig,
    asks: SideConfig,
    modifySpreadInPercents: real,
    contractAddress: string,
    network: string,
    pricePrecision: nat)
  {
    function SideOf(side: Side): SideConfig
    {
      if side == Bid then bids else asks
    }
  }

  datatype NetworkConfig = NetworkConfig(rpcNode: string, chainId: int)

  /** `BigInt(x)` of a number: exact for an integral value, a `RangeError`
      (here `None`) otherwise. */
  function ToBigInt(x: real): (r: Option<int>)
    ensures r.Some? <==> x == x.Floor as real
    ensures r.Some? ==> r.value as real == x
  {
    if x == x.Floor as real then Some(x.Floor) else None
  }

  function NormalizeSide(raw: RawSideConfig, qty: int): SideConfig
  {
    SideConfig(raw.enabled, raw.spreadInPercents, raw.limitCount, raw.limitDistanceInPercents, qty)
  }

  /** What the constructor does to one symbol's settings: the contract
      address is lower-cased and both quantities become integers of the
      same value; it fails when either quantity is not integral. Nothing
      else changes. */
  function NormalizeSymbol(raw: RawSymbolConfig): (r: Option<SymbolConfig>)
    ensures r.Some? <==> ToBigInt(raw.asks.qty).Some? && ToBigInt(raw.bids.qty).Some?
    ensures r.Some? ==>
      && r.value.contractAddress == ToLower(raw.contractAddress)
      && IsLowerCase(r.value.contractAddress)
      && r.value.asks.qty as real == raw.asks.qty
      && r.value.bids.qty as real == raw.bids.qty
      && r.value.symbol == raw.symbol && r.value.sourceSymbol == raw.sourceSymbol
      && r.value.network == raw.network && r.value.pricePrecision == raw.pricePrecision
      && r.value.modifySpreadInPercents == raw.modifySpreadInPercents
      && r.value.bids.enabled == raw.bids.enabled && r.value.asks.enabled == raw.asks.enabled
      && r.value.bids.spreadInPercents == raw.bids.spreadInPercents
      && r.value.asks.spreadInPercents == raw.asks.spreadInPercents
      && r.value.bids.limitCount == raw.bids.limitCount && r.value.asks.limitCount == raw.asks.limitCount
      && r.value.bids.limitDistanceInPercents == raw.bids.limitDistanceInPercents
      && r.value.asks.limitDistanceInPercents == raw.asks.limitDistanceInPercents
  {
    ToLowerIsLower(raw.contractAddress);
    match (ToBigInt(raw.asks.qty), ToBigInt(raw.bids.qty))
    case (Some(a), Some(b)) =>
      Some(SymbolConfig(raw.symbol, raw.sourceSymbol, NormalizeSide(raw.bids, b), NormalizeSide(raw.asks, a),
                        raw.modifySpreadInPercents, ToLower(raw.contractAddress), raw.network, raw.pricePrecision))
    case _ => None
  }

  /** Addresses compare equal ignoring ASCII case. */
  predicate SameAddress(a: string, b: string)
  {
    ToLower(a) == ToLower(b)
  }

  /** `configs[i]` matches `address` and no earlier configuration does. */
  predicate IsFirstMatch(configs: seq<SymbolConfig>, address: string, i: int)
  {
    && 0 <= i < |configs|
    && SameAddress(configs[i].contractAddress, address)
    && forall j :: 0 <= j < i ==> !SameAddress(configs[j].contractAddress, address)
  }

  /** `Array.prototype.find` with the case-insensitive address test: the
      first configuration in `configs` whose address matches. */
  function FindByContract(configs: seq<SymbolConfig>, address: string): (r: Option<SymbolConfig>)
    ensures r.None? <==> forall i :: 0 <= i < |configs| ==> !SameAddress(configs[i].contractAddress, address)
    ensures r.Some? ==> exists i :: IsFirstMatch(configs, address, i) && configs[i] == r.value
    decreases |configs|
  {
    if configs == [] then None
    else if SameAddress(configs[0].contractAddress, address) then
      assert IsFirstMatch(configs, address, 0);
      Some(configs[0])
    else
      var r := FindByContract(configs[1..], address);
      if r.Some? then
        var i :| IsFirstMatch(configs[1..], address, i) && configs[1..][i] == r.value;
        assert IsFirstMatch(configs, address, i + 1) by {
          forall j | 0 <= j < i + 1
            ensures !SameAddress(configs[j].contractAddress, address)
          {
            if j > 0 {
              assert configs[j] == configs[1..][j - 1];
            }
          }
        }
        r
      else
        assert forall i :: 0 <= i < |configs| ==> !SameAddress(configs[i].contractAddress, address) by {
          forall i | 0 <= i < |configs|
            ensures !SameAddress(configs[i].contractAddress, address)
          {
            if i > 0 {
              assert configs[i] == configs[1..][i - 1];
            }
          }
        }
        r
  }

  class MakerConfig {
    /** The symbol names in the JSON record's key order. */
    const names: seq<string>
    const symbols: map<string, SymbolConfig>
    const networks: map<string, NetworkConfig>
    const tokens: map<string, string>

    /** One entry per name, and every stored address is lower-case. */
    ghost predicate Valid()
    {
      && NoDuplicates(names)
      && (forall n :: n in symbols <==> n in names)
      && (forall n :: n in symbols ==> IsLowerCase(symbols[n].contractAddress))
    }

    constructor (names: seq<string>, symbols: map<string, SymbolConfig>,
                 networks: map<string, NetworkConfig>, tokens: map<string, string>)
      ensures this.names == names && this.symbols == symbols
      ensures this.networks == networks && this.tokens == tokens
    {
      this.names := names;
      this.symbols := symbols;
      this.networks := networks;
      this.tokens := tokens;
    }

    /** `new MakerConfig(json)`: each symbol in key order gets its address
        lower-cased and its ask and then bid quantity converted; a
        non-integral quantity makes the constructor throw (`null`). */
    static method Create(names: seq<string>, raw: map<string, RawSymbolConfig>,
                         networks: map<string, NetworkConfig>, tokens: map<string, string>)
      returns (c: MakerConfig?)
      requires NoDuplicates(names) && forall n :: n in raw <==> n in names
      ensures c == null <==> exists i :: 0 <= i < |names| && NormalizeSymbol(raw[names[i]]).None?
      ensures c != null ==> fresh(c) && c.Valid() && c.names == names && c.networks == networks && c.tokens == tokens
      ensures c != null ==> forall n :: n in raw ==> c.symbols[n] == NormalizeSymbol(raw[n]).value
    {
      var normalized: map<string, SymbolConfig> := map[];
      for i := 0 to |names|
        invariant forall n :: n in normalized <==> n in names[..i]
        invariant forall n :: n in names[..i] ==>
          NormalizeSymbol(raw[n]).Some? && normalized[n] == NormalizeSymbol(raw[n]).value
      {
        var symbol := raw[names[i]];
        var contractAddress := ToLower(symbol.contractAddress);
        var asksQty := ToBigInt(symbol.asks.qty);
        if asksQty.None? {
          assert NormalizeSymbol(raw[names[i]]).None?;
          return null;
        }
        var bidsQty := ToBigInt(symbol.bids.qty);
        if bidsQty.None? {
          assert NormalizeSymbol(raw[names[i]]).None?;
          return null;
        }
        var s := SymbolConfig(symbol.symbol, symbol.sourceSymbol,
                              NormalizeSide(symbol.bids, bidsQty.value), NormalizeSide(symbol.asks, asksQty.value),
                              symbol.modifySpreadInPercents, contractAddress, symbol.network, symbol.pricePrecision);
        assert s == NormalizeSymbol(symbol).value;
        assert names[..i + 1] == names[..i] + [names[i]];
        normalized := normalized[names[i] := s];
      }
      assert names[..|names|] == names;
      c := new MakerConfig(names, normalized, networks, tokens);
    }

    /** `getSymbol(name)`: the settings stored under `name`, `undefined`
        for an unknown name; a stored address is always lower-case. */
    function GetSymbol(symbol: string): (r: Option<SymbolConfig>)
      ensures r.Some? <==> symbol in symbols
      ensures r.Some? ==> r.value == symbols[symbol]
      ensures Valid() && r.Some? ==> IsLowerCase(r.value.contractAddress)
    {
      if symbol in symbols then Some(symbols[symbol]) else None
    }

    /** `getSymbols()`: every configuration, once, in key order. */
    function GetSymbols(): (r: seq<SymbolConfig>)
      requires Valid()
      ensures |r| == |names|
      ensures forall i :: 0 <= i < |r| ==> r[i] == symbols[names[i]]
      ensures forall n :: n in symbols ==> symbols[n] in r
    {
      seq(|names|, i requires 0 <= i < |names| => symbols[names[i]])
    }

    /** `getSymbolByContract(address)`: the first configuration, in key
        order, whose address equals `address` ignoring case; `undefined`
        exactly when none does. */
    function GetSymbolByContract(address: string): (r: Option<SymbolConfig>)
      requires Valid()
      ensures r.None? <==> forall n :: n in symbols ==> !SameAddress(symbols[n].contractAddress, address)
      ensures r.Some? ==> r.value in symbols.Values && SameAddress(r.value.contractAddress, address)
      ensures r.Some? ==> exists i :: IsFirstMatch(GetSymbols(), address, i) && GetSymbols()[i] == r.value
    {
      var all := GetSymbols();
      var r := FindByContract(all, address);
      if r.Some? then
        var i :| IsFirstMatch(all, address, i) && all[i] == r.value;
        assert symbols[names[i]] == r.value;
        r
      else
        assert forall n :: n in symbols ==> !SameAddress(symbols[n].contractAddress, address) by {
          forall n | n in symbols
            ensures !SameAddress(symbols[n].contractAddress, address)
          {
            var i :| 0 <= i < |names| && names[i] == n;
            assert all[i] == symbols[n];
          }
        }
        r
    }

    /** Every configured symbol is found from its own contract address,
        however that address is cased; when addresses are distinct it is
        exactly that symbol's settings. */
    lemma {:induction false} FoundByOwnAddress(n: string, address: string)
      requires Valid() && n in symbols
      requires SameAddress(address, symbols[n].contractAddress)
      ensures GetSymbolByContract(address).Some?
      ensures (forall m :: m in symbols && m != n ==> !SameAddress(symbols[m].contractAddress, address)) ==>
        GetSymbolByContract(address).value == symbols[n]
    {
      var r := GetSymbolByContract(address);
      assert SameAddress(symbols[n].contractAddress, address);
      if forall m :: m in symbols && m != n ==> !SameAddress(symbols[m].contractAddress, address) {
        var m :| m in symbols && symbols[m] == r.value;
        if m != n {
          assert false;
        }
      }
    }
  }
}

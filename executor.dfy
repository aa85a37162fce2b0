/** The order executor for the on-chain limit order book
    (src/core/execution/onchainLob/Executor.ts): per-symbol maps of active
    orders (by order id), pending placements (by transaction hash) and
    cancellations in flight, per-market snapshot flags and an availability
    bit with change notifications.

    Each asynchronous method is one synchronous step whose external results
    are parameters: the nonce the RPC reports, the hash `placeOrder` or
    `claimOrder` returned (`None` when it threw), the REST open-order list
    of a market and the tracker's outcome events. Emitted events and
    issued RPC requests are recorded in logs. */
module Executors {
  import opened Common
  import opened Orders
  import opened MakerConfigs
  import opened NonceManagers

  /** The market id meaning "every market" in a user-orders update. */
  const ALL_MARKETS: string := "allMarkets"
  /** The error name of a tracker that gave up waiting for a receipt. */
  const TIMEOUT_REACHED_ERROR: string := "TIMEOUT_REACHED"
  /** Receipt status of a transaction that succeeded. */
  const RECEIPT_SUCCESS: int := 1

  datatype Event = OrdersChanged(orders: seq<Order>) | AvailabilityChanged(isAvailable: bool)

  /** `type: marketOnly ? "ioc" : "limit"`. */
  datatype PlaceKind = Limit | Ioc

  /** An RPC request sent to the exchange contract. */
  datatype Submission =
    | PlaceOrder(market: string, kind: PlaceKind, side: Side, size: int, price: real, nonce: int)
    | ClaimOrder(market: string, orderId: string, nonce: int)

  type OrderMap = map<string, Order>

  /** The part of the executor's state that order updates change. */
  datatype ExecState = ExecState(
    active: map<string, OrderMap>,
    pending: map<string, OrderMap>,
    snapshots: map<string, bool>,
    isAvailable: bool,
    events: seq<Event>)

  /** Result of processing part of an update: go on, or stop because an
      exception ended the handler (state changes made so far remain). */
  datatype Outcome = Continue(st: ExecState) | Abort(st: ExecState)

  function Lookup(m: map<string, OrderMap>, symbol: string, key: string): Option<Order>
  {
    if symbol in m && key in m[symbol] then Some(m[symbol][key]) else None
  }

  /** Both order maps have an entry for the same symbols; active orders are
      stored under their symbol and order id and are active; pending
      orders are stored under their symbol and transaction hash, which is
      also their order id, and are `Pending`. */
  ghost predicate WellKeyedMaps(active: map<string, OrderMap>, pending: map<string, OrderMap>)
  {
    && active.Keys == pending.Keys
    && (forall s, id :: s in active && id in active[s] ==>
          active[s][id].orderId == id && active[s][id].symbol == s && active[s][id].IsActive())
    && (forall s, tx :: s in pending && tx in pending[s] ==>
          pending[s][tx].txnHash == tx && pending[s][tx].orderId == tx &&
          pending[s][tx].symbol == s && pending[s][tx].status == Pending)
  }

  ghost predicate WellKeyed(st: ExecState)
  {
    WellKeyedMaps(st.active, st.pending)
  }

  /** The pending order recorded for a placement with hash `txId`. */
  function NewPendingOrder(symbol: string, side: Side, price: real, qty: int, txId: string, now: int): (o: Order)
    ensures o.status == Pending && o.orderId == txId && o.txnHash == txId && o.symbol == symbol
    ensures o.leaveQty == qty && o.claimedQty == 0 && o.qty == qty && o.price == price && o.side == side
    ensures !o.IsActive() && !o.IsUnclaimed()
  {
    Order(txId, price, qty, qty, 0, side, symbol, Pending, Return, now, now, txId)
  }

  /** Recording a new pending order under its own hash keeps the maps
      well keyed. */
  lemma AddPendingKeepsWellKeyed(active: map<string, OrderMap>, pending: map<string, OrderMap>, o: Order)
    requires WellKeyedMaps(active, pending) && o.symbol in pending
    requires o.status == Pending && o.orderId == o.txnHash
    ensures WellKeyedMaps(active, pending[o.symbol := pending[o.symbol][o.txnHash := o]])
  {
    var p: map<string, OrderMap> := pending[o.symbol := pending[o.symbol][o.txnHash := o]];
    forall s: string, tx: string | s in p && tx in p[s]
      ensures p[s][tx].txnHash == tx && p[s][tx].orderId == tx && p[s][tx].symbol == s && p[s][tx].status == Pending
    {
      if s == o.symbol && tx == o.txnHash {
        assert p[s][tx] == o;
      } else {
        assert p[s][tx] == pending[s][tx];
      }
    }
  }

  /** The active-map change of `saveOrder`: an active order is stored under
      its id, any other order removes that id; other ids are untouched. */
  function SaveToActive(active: OrderMap, o: Order): (r: OrderMap)
    ensures o.IsActive() ==> o.orderId in r && r[o.orderId] == o
    ensures !o.IsActive() ==> o.orderId !in r
    ensures forall id :: id != o.orderId ==> (id in r <==> id in active) && (id in r ==> r[id] == active[id])
  {
    if o.IsActive() then active[o.orderId := o] else active - {o.orderId}
  }

  /** `tryRemovePendingOrder`: the pending entry for `txId` is gone
      afterwards, no other entry changes, and one notification carrying the
      removed order is emitted exactly when there was an entry. */
  function PendingRemoved(st: ExecState, symbol: string, txId: string): (r: ExecState)
    requires symbol in st.pending
    ensures r.active == st.active && r.snapshots == st.snapshots && r.isAvailable == st.isAvailable
    ensures r.pending.Keys == st.pending.Keys && txId !in r.pending[symbol]
    ensures forall s, tx :: s != symbol || tx != txId ==> Lookup(r.pending, s, tx) == Lookup(st.pending, s, tx)
    ensures |r.events| == |st.events| + (if txId in st.pending[symbol] then 1 else 0)
    ensures r.events[..|st.events|] == st.events
    ensures txId in st.pending[symbol] ==> r.events[|st.events|] == OrdersChanged([st.pending[symbol][txId]])
    ensures WellKeyed(st) ==> WellKeyed(r)
  {
    var symbolPendingOrders := st.pending[symbol];
    if txId !in symbolPendingOrders then st
    else
      var order := symbolPendingOrders[txId];
      st.(pending := st.pending[symbol := symbolPendingOrders - {txId}],
          events := st.events + [OrdersChanged([order])])
  }

  /** `saveOrder`: an unknown symbol throws (`None`); otherwise the order's
      active entry is upserted or deleted, the pending entry under its
      transaction hash is removed, and nothing else changes. */
  function Saved(st: ExecState, o: Order): (r: Option<ExecState>)
    requires st.active.Keys == st.pending.Keys
    ensures r.None? <==> o.symbol !in st.active
    ensures r.Some? ==>
      && r.value.active.Keys == st.active.Keys && r.value.pending.Keys == st.pending.Keys
      && r.value.snapshots == st.snapshots && r.value.isAvailable == st.isAvailable
      && Lookup(r.value.active, o.symbol, o.orderId) == (if o.IsActive() then Some(o) else None)
      && (forall s, id :: s != o.symbol || id != o.orderId ==> Lookup(r.value.active, s, id) == Lookup(st.active, s, id))
      && Lookup(r.value.pending, o.symbol, o.txnHash) == None
      && (forall s, tx :: s != o.symbol || tx != o.txnHash ==> Lookup(r.value.pending, s, tx) == Lookup(st.pending, s, tx))
      && |r.value.events| == |st.events| + (if o.txnHash in st.pending[o.symbol] then 1 else 0)
      && r.value.events[..|st.events|] == st.events
      && (o.txnHash in st.pending[o.symbol] ==>
            r.value.events[|st.events|] == OrdersChanged([st.pending[o.symbol][o.txnHash]]))
    ensures WellKeyed(st) && r.Some? ==> WellKeyed(r.value)
  {
    if o.symbol !in st.active then None
    else
      var st1 := st.(active := st.active[o.symbol := SaveToActive(st.active[o.symbol], o)]);
      SaveActiveFacts(st, o);
      Some(PendingRemoved(st1, o.symbol, o.txnHash))
  }

  /** The active-map half of `saveOrder`: only the entry under the order's
      symbol and id can change, and the maps stay well keyed. */
  lemma SaveActiveFacts(st: ExecState, o: Order)
    requires o.symbol in st.active
    ensures var a := st.active[o.symbol := SaveToActive(st.active[o.symbol], o)];
      && a.Keys == st.active.Keys
      && Lookup(a, o.symbol, o.orderId) == (if o.IsActive() then Some(o) else None)
      && (forall s, id :: s != o.symbol || id != o.orderId ==> Lookup(a, s, id) == Lookup(st.active, s, id))
      && (WellKeyed(st) ==> WellKeyedMaps(a, st.pending))
  {
    var a: map<string, OrderMap> := st.active[o.symbol := SaveToActive(st.active[o.symbol], o)];
    if WellKeyed(st) {
      forall s: string, id: string | s in a && id in a[s]
        ensures a[s][id].orderId == id && a[s][id].symbol == s && a[s][id].IsActive()
      {
        if s != o.symbol {
          assert a[s] == st.active[s];
        }
      }
    }
  }

  /** `for (const order of orders) saveOrder(order)`: stops at the first
      order whose symbol is unknown, keeping the earlier saves. */
  function AllSaved(st: ExecState, orders: seq<Order>): (r: Outcome)
    requires st.active.Keys == st.pending.Keys
    ensures r.st.active.Keys == st.active.Keys && r.st.pending.Keys == st.pending.Keys
    ensures |r.st.events| >= |st.events|
    ensures r.st.snapshots == st.snapshots && r.st.isAvailable == st.isAvailable
    ensures WellKeyed(st) ==> WellKeyed(r.st)
    decreases |orders|
  {
    if orders == [] then Continue(st)
    else
      match Saved(st, orders[0])
      case None => Abort(st)
      case Some(st') => AllSaved(st', orders[1..])
  }

  /** The save loop runs to the end when every order's symbol is known. */
  lemma {:induction false} AllSavedCompletes(st: ExecState, orders: seq<Order>)
    requires st.active.Keys == st.pending.Keys
    requires forall i :: 0 <= i < |orders| ==> orders[i].symbol in st.active
    ensures AllSaved(st, orders).Continue?
    decreases |orders|
  {
    if orders != [] {
      var st' := Saved(st, orders[0]).value;
      forall i | 0 <= i < |orders[1..]|
        ensures orders[1..][i].symbol in st'.active
      {
        assert orders[1..][i] == orders[i + 1];
      }
      AllSavedCompletes(st', orders[1..]);
    }
  }

  /** An order whose symbol is unknown stops the save loop. */
  lemma {:induction false} AllSavedStopsAtUnknown(st: ExecState, orders: seq<Order>, k: int)
    requires st.active.Keys == st.pending.Keys
    requires 0 <= k < |orders| && orders[k].symbol !in st.active
    ensures AllSaved(st, orders).Abort?
    decreases |orders|
  {
    if orders[0].symbol in st.active {
      var st' := Saved(st, orders[0]).value;
      assert orders[1..][k - 1] == orders[k];
      AllSavedStopsAtUnknown(st', orders[1..], k - 1);
    }
  }

  /** `orders.map(fromOnchainLobOrder)`: the first unknown status throws. */
  function ConvertAll(lobs: seq<LobOrder>, symbol: string): (r: Result<seq<Order>>)
    ensures r.Ok? <==> forall i :: 0 <= i < |lobs| ==> IsKnownTag(ToLower(lobs[i].status))
    ensures r.Ok? ==> |r.value| == |lobs| && forall i :: 0 <= i < |lobs| ==> FromLobOrder(lobs[i], symbol) == Ok(r.value[i])
    decreases |lobs|
  {
    if lobs == [] then Ok([])
    else
      match FromLobOrder(lobs[0], symbol)
      case Err(e) => Err(e)
      case Ok(o) =>
        match ConvertAll(lobs[1..], symbol)
        case Err(e) => Err(e)
        case Ok(rest) =>
          assert forall i :: 1 <= i < |lobs| ==> lobs[i] == lobs[1..][i - 1];
          Ok([o] + rest)
  }

  /** The REST loop `saveOrder(fromOnchainLobOrder(o))`: converts and saves
      one order at a time, stopping at the first one that throws. */
  function RestSaved(st: ExecState, lobs: seq<LobOrder>, symbol: string): (r: Outcome)
    requires st.active.Keys == st.pending.Keys
    ensures r.st.active.Keys == st.active.Keys && r.st.pending.Keys == st.pending.Keys
    ensures r.st.snapshots == st.snapshots && r.st.isAvailable == st.isAvailable
    ensures lobs != [] && symbol !in st.active ==> r == Abort(st)
    ensures |r.st.events| >= |st.events|
    ensures WellKeyed(st) ==> WellKeyed(r.st)
    decreases |lobs|
  {
    if lobs == [] then Continue(st)
    else
      match FromLobOrder(lobs[0], symbol)
      case Err(_) => Abort(st)
      case Ok(o) =>
        match Saved(st, o)
        case None => Abort(st)
        case Some(st') => RestSaved(st', lobs[1..], symbol)
  }

  /** The REST loop converts and saves in one pass; when every status is
      known it is the save loop over the converted orders, and otherwise it
      is cut short. */
  lemma {:induction false} RestSavedIsAllSaved(st: ExecState, lobs: seq<LobOrder>, symbol: string)
    requires st.active.Keys == st.pending.Keys
    ensures ConvertAll(lobs, symbol).Ok? ==> RestSaved(st, lobs, symbol) == AllSaved(st, ConvertAll(lobs, symbol).value)
    ensures ConvertAll(lobs, symbol).Err? ==> RestSaved(st, lobs, symbol).Abort?
    decreases |lobs|
  {
    if lobs != [] {
      match FromLobOrder(lobs[0], symbol)
      case Err(_) =>
      case Ok(o) =>
        match Saved(st, o)
        case None =>
          if ConvertAll(lobs, symbol).Ok? {
            assert ConvertAll(lobs, symbol).value[0] == o;
          }
        case Some(st') =>
          RestSavedIsAllSaved(st', lobs[1..], symbol);
          if ConvertAll(lobs, symbol).Ok? {
            var orders := ConvertAll(lobs, symbol).value;
            assert orders == [o] + ConvertAll(lobs[1..], symbol).value;
            assert orders[1..] == ConvertAll(lobs[1..], symbol).value;
          }
      }
    }

  /** `userOrders.filter(o => o.market.id === marketId)`. */
  function MarketOrders(userOrders: seq<LobOrder>, marketId: string): (r: seq<LobOrder>)
    ensures forall o :: o in r <==> o in userOrders && o.marketId == marketId
    ensures |r| <= |userOrders|
    decreases |userOrders|
  {
    if userOrders == [] then []
    else (if userOrders[0].marketId == marketId then [userOrders[0]] else []) + MarketOrders(userOrders[1..], marketId)
  }

  /** The filter keeps the orders of the market in their order and with
      their repeats: it maps a concatenation to the concatenation of the
      filtered parts (and, by `MarketOrdersSingle`, a single order to
      itself or to nothing). */
  lemma {:induction false} MarketOrdersAppend(a: seq<LobOrder>, b: seq<LobOrder>, marketId: string)
    ensures MarketOrders(a + b, marketId) == MarketOrders(a, marketId) + MarketOrders(b, marketId)
    decreases |a|
  {
    if a == [] {
      assert a + b == b;
    } else {
      var head: seq<LobOrder> := if a[0].marketId == marketId then [a[0]] else [];
      assert a + b == [a[0]] + (a[1..] + b);
      assert MarketOrders(a + b, marketId) == head + MarketOrders(a[1..] + b, marketId);
      assert MarketOrders(a, marketId) == head + MarketOrders(a[1..], marketId);
      MarketOrdersAppend(a[1..], b, marketId);
    }
  }

  lemma MarketOrdersSingle(o: LobOrder, marketId: string)
    ensures MarketOrders([o], marketId) == if o.marketId == marketId then [o] else []
  {
    assert [o][1..] == [];
  }

  /** The `isAvailable` setter: the new value is stored, and an
      availability event is emitted exactly when it differs from the old. */
  function WithAvailability(st: ExecState, value: bool): (r: ExecState)
    ensures r.isAvailable == value
    ensures r.active == st.active && r.pending == st.pending && r.snapshots == st.snapshots
    ensures |r.events| == |st.events| + (if st.isAvailable != value then 1 else 0)
    ensures r.events[..|st.events|] == st.events
    ensures st.isAvailable != value ==> r.events[|st.events|] == AvailabilityChanged(value)
    ensures WellKeyed(st) ==> WellKeyed(r)
  {
    if st.isAvailable != value then st.(isAvailable := value, events := st.events + [AvailabilityChanged(value)])
    else st
  }

  /** The `reduce((s, p) => s && p, true)` over the snapshot flags. */
  predicate AllReceived(flags: map<string, bool>)
  {
    forall m :: m in flags ==> flags[m]
  }

  /** A snapshot's end: the market's flag is set and availability becomes
      "every flag set" (or true for an "allMarkets" update). */
  function RecordSnapshot(st: ExecState, marketId: string, isAllMarkets: bool): (r: ExecState)
    ensures r.snapshots == st.snapshots[marketId := true]
    ensures r.isAvailable == (isAllMarkets || AllReceived(r.snapshots))
    ensures r.active == st.active && r.pending == st.pending
    ensures |r.events| >= |st.events|
  {
    var flags := st.snapshots[marketId := true];
    WithAvailability(st.(snapshots := flags), isAllMarkets || AllReceived(flags))
  }

  /** The rest of the handler's body for one market once its stream
      orders are saved: on a snapshot the REST open orders are saved, the
      market's flag is set and availability recomputed; then the stream
      orders are emitted. */
  function FinishMarket(s1: ExecState, marketId: string, isAllMarkets: bool, isSnapshot: bool,
                        orders: seq<Order>, symbol: string, restOrders: string -> Option<seq<LobOrder>>): (r: Outcome)
    requires s1.active.Keys == s1.pending.Keys
    ensures r.st.active.Keys == s1.active.Keys && r.st.pending.Keys == s1.pending.Keys
    ensures r.Continue? ==> |r.st.events| > |s1.events| && r.st.events[|r.st.events| - 1] == OrdersChanged(orders)
    ensures r.Continue? && isSnapshot ==>
      && r.st.snapshots == s1.snapshots[marketId := true]
      && r.st.isAvailable == (isAllMarkets || AllReceived(r.st.snapshots))
    ensures !isSnapshot ==> r == Continue(s1.(events := s1.events + [OrdersChanged(orders)]))
    ensures isSnapshot && restOrders(marketId).None? ==> r == Abort(s1)
    ensures isSnapshot && restOrders(marketId).Some? ==>
      var saved := RestSaved(s1, restOrders(marketId).value, symbol);
      && (saved.Abort? ==> r == saved)
      && (saved.Continue? ==> r.Continue? && r.st.active == saved.st.active && r.st.pending == saved.st.pending)
    ensures WellKeyed(s1) ==> WellKeyed(r.st)
  {
    if isSnapshot then
      match restOrders(marketId)
      case None => Abort(s1)
      case Some(activeOrders) =>
        match RestSaved(s1, activeOrders, symbol)
        case Abort(s) => Abort(s)
        case Continue(s2) =>
          var s3 := RecordSnapshot(s2, marketId, isAllMarkets);
          Continue(s3.(events := s3.events + [OrdersChanged(orders)]))
    else
      Continue(s1.(events := s1.events + [OrdersChanged(orders)]))
  }

  /** The handler's body for one market id: resolve its symbol (unknown:
      stop the whole handler), convert the stream orders of that market,
      save them, on a snapshot also save the REST open orders (`None`: the
      request failed), set the market's flag and recompute availability,
      and finally emit the converted stream orders. */
  function OnMarket(st: ExecState, config: MakerConfig, marketId: string, isAllMarkets: bool, isSnapshot: bool,
                    userOrders: seq<LobOrder>, restOrders: string -> Option<seq<LobOrder>>): (r: Outcome)
    requires config.Valid() && st.active.Keys == st.pending.Keys
    ensures config.GetSymbolByContract(marketId).None? ==> r == Abort(st)
    ensures r.st.active.Keys == st.active.Keys && r.st.pending.Keys == st.pending.Keys
    ensures r.Continue? ==>
      && config.GetSymbolByContract(marketId).Some?
      && ConvertAll(MarketOrders(userOrders, marketId), config.GetSymbolByContract(marketId).value.symbol).Ok?
      && |r.st.events| > |st.events|
      && r.st.events[|r.st.events| - 1] ==
           OrdersChanged(ConvertAll(MarketOrders(userOrders, marketId), config.GetSymbolByContract(marketId).value.symbol).value)
    ensures r.Continue? && isSnapshot ==>
      && r.st.snapshots == st.snapshots[marketId := true]
      && r.st.isAvailable == (isAllMarkets || AllReceived(r.st.snapshots))
    ensures !isSnapshot ==> r.st.snapshots == st.snapshots && r.st.isAvailable == st.isAvailable
    ensures r.Continue? ==>
      var symbol := config.GetSymbolByContract(marketId).value.symbol;
      var saved := AllSaved(st, ConvertAll(MarketOrders(userOrders, marketId), symbol).value);
      && saved.Continue?
      && (!isSnapshot ==> r.st.active == saved.st.active && r.st.pending == saved.st.pending)
      && (isSnapshot ==>
            && restOrders(marketId).Some?
            && var rest := RestSaved(saved.st, restOrders(marketId).value, symbol);
            rest.Continue? && r.st.active == rest.st.active && r.st.pending == rest.st.pending)
    ensures WellKeyed(st) ==> WellKeyed(r.st)
  {
    match config.GetSymbolByContract(marketId)
    case None => Abort(st)
    case Some(symbolConfig) =>
      match ConvertAll(MarketOrders(userOrders, marketId), symbolConfig.symbol)
      case Err(_) => Abort(st)
      case Ok(orders) =>
        assert symbolConfig == config.GetSymbolByContract(marketId).value;
        assert orders == ConvertAll(MarketOrders(userOrders, marketId), symbolConfig.symbol).value;
        match AllSaved(st, orders)
        case Abort(s) => Abort(s)
        case Continue(s1) =>
          var r := FinishMarket(s1, marketId, isAllMarkets, isSnapshot, orders, symbolConfig.symbol, restOrders);
          assert AllSaved(st, orders).st == s1;
          r
  }

  /** The loop over the selected market ids; an abort ends it. */
  function ProcessMarkets(st: ExecState, config: MakerConfig, ids: seq<string>, isAllMarkets: bool, isSnapshot: bool,
                          userOrders: seq<LobOrder>, restOrders: string -> Option<seq<LobOrder>>): (r: ExecState)
    requires config.Valid() && st.active.Keys == st.pending.Keys
    ensures r.active.Keys == st.active.Keys && r.pending.Keys == st.pending.Keys
    ensures WellKeyed(st) ==> WellKeyed(r)
    ensures ids == [] ==> r == st
    decreases |ids|
  {
    if ids == [] then st
    else
      match OnMarket(st, config, ids[0], isAllMarkets, isSnapshot, userOrders, restOrders)
      case Abort(s) => s
      case Continue(s) => ProcessMarkets(s, config, ids[1..], isAllMarkets, isSnapshot, userOrders, restOrders)
  }

  /** JavaScript's `indexOf`: the first position of `x`, or -1. */
  function IndexOf(s: seq<string>, x: string): (i: int)
    ensures -1 <= i < |s|
    ensures i >= 0 ==> s[i] == x && forall j :: 0 <= j < i ==> s[j] != x
    ensures i == -1 ==> x !in s
    decreases |s|
  {
    if s == [] then -1
    else if s[0] == x then 0
    else
      var i := IndexOf(s[1..], x);
      if i == -1 then -1 else i + 1
  }

  /** `filter((v, i, a) => a.indexOf(v) === i)` from position `k` on. */
  function FirstOccurrencesFrom(s: seq<string>, k: nat): seq<string>
    requires k <= |s|
    decreases |s| - k
  {
    if k == |s| then []
    else (if IndexOf(s, s[k]) == k then [s[k]] else []) + FirstOccurrencesFrom(s, k + 1)
  }

  /** The first occurrences, in order, of the elements from position `k`
      on: no repeats, and exactly the elements of `s[k..]` whose first
      occurrence is at or after `k`. */
  lemma {:induction false} FirstOccurrencesFromShape(s: seq<string>, k: nat)
    requires k <= |s|
    ensures var r := FirstOccurrencesFrom(s, k);
      (forall x :: x in r <==> x in s[k..] && IndexOf(s, x) >= k) &&
      NoDuplicates(r) &&
      (forall i, j :: 0 <= i < j < |r| ==> IndexOf(s, r[i]) < IndexOf(s, r[j]))
    decreases |s| - k
  {
    if k < |s| {
      FirstOccurrencesFromShape(s, k + 1);
      var rest := FirstOccurrencesFrom(s, k + 1);
      var head := if IndexOf(s, s[k]) == k then [s[k]] else [];
      var r := FirstOccurrencesFrom(s, k);
      assert r == head + rest;
      assert s[k..] == [s[k]] + s[k + 1..];
      forall x | x in rest
        ensures IndexOf(s, x) > k
      {
      }
      forall x
        ensures x in r <==> x in s[k..] && IndexOf(s, x) >= k
      {
        assert x in r <==> x in head || x in rest;
      }
      OrderedPrepend(s, head, rest, k);
    }
  }

  /** Putting an element whose first occurrence is at `k` before a list,
      ordered by first occurrence, of elements first occurring after `k`
      keeps it ordered and free of repeats. */
  lemma OrderedPrepend(s: seq<string>, head: seq<string>, rest: seq<string>, k: int)
    requires head == [] || (|head| == 1 && IndexOf(s, head[0]) == k)
    requires forall x :: x in rest ==> IndexOf(s, x) > k
    requires NoDuplicates(rest)
    requires forall i, j :: 0 <= i < j < |rest| ==> IndexOf(s, rest[i]) < IndexOf(s, rest[j])
    ensures NoDuplicates(head + rest)
    ensures forall i, j :: 0 <= i < j < |head + rest| ==> IndexOf(s, (head + rest)[i]) < IndexOf(s, (head + rest)[j])
  {
    var r := head + rest;
    forall i, j | 0 <= i < j < |r|
      ensures r[i] != r[j] && IndexOf(s, r[i]) < IndexOf(s, r[j])
    {
      if head != [] && i == 0 {
        assert r[j] == rest[j - 1];
        assert r[j] in rest;
      } else {
        assert r[i] == rest[i - |head|];
        assert r[j] == rest[j - |head|];
      }
    }
  }

  /** The distinct elements of `s` in order of first appearance. */
  function Distinct(s: seq<string>): (r: seq<string>)
    ensures NoDuplicates(r)
    ensures forall x :: x in r <==> x in s
    ensures forall i, j :: 0 <= i < j < |r| ==> IndexOf(s, r[i]) < IndexOf(s, r[j])
  {
    FirstOccurrencesFromShape(s, 0);
    assert s[0..] == s;
    FirstOccurrencesFrom(s, 0)
  }

  function MarketIdsOfOrders(userOrders: seq<LobOrder>): (r: seq<string>)
    ensures |r| == |userOrders| && forall i :: 0 <= i < |r| ==> r[i] == userOrders[i].marketId
  {
    seq(|userOrders|, i requires 0 <= i < |userOrders| => userOrders[i].marketId)
  }

  /** The market ids an update is processed for: the given one; for
      "allMarkets", every configured market on a snapshot and otherwise the
      distinct markets of the orders in order of first appearance. */
  function SelectMarkets(marketId: string, isSnapshot: bool, userOrders: seq<LobOrder>, marketIds: seq<string>): (r: seq<string>)
    ensures marketId != ALL_MARKETS ==> r == [marketId]
    ensures marketId == ALL_MARKETS && isSnapshot ==> r == marketIds
    ensures marketId == ALL_MARKETS && !isSnapshot ==>
      NoDuplicates(r) && forall m :: m in r <==> exists i :: 0 <= i < |userOrders| && userOrders[i].marketId == m
    ensures marketId == ALL_MARKETS && !isSnapshot ==>
      forall i, j :: 0 <= i < j < |r| ==> IndexOf(MarketIdsOfOrders(userOrders), r[i]) < IndexOf(MarketIdsOfOrders(userOrders), r[j])
  {
    if marketId == ALL_MARKETS then
      if isSnapshot then marketIds else Distinct(MarketIdsOfOrders(userOrders))
    else [marketId]
  }

  /** `UserOrdersHandler` on the state as a value. */
  function HandleUpdate(st: ExecState, config: MakerConfig, marketIds: seq<string>, marketId: string, isSnapshot: bool,
                        userOrders: seq<LobOrder>, restOrders: string -> Option<seq<LobOrder>>): (r: ExecState)
    requires config.Valid() && st.active.Keys == st.pending.Keys
    ensures r.active.Keys == st.active.Keys && r.pending.Keys == st.pending.Keys
    ensures WellKeyed(st) ==> WellKeyed(r)
  {
    ProcessMarkets(st, config, SelectMarkets(marketId, isSnapshot, userOrders, marketIds),
                   marketId == ALL_MARKETS, isSnapshot, userOrders, restOrders)
  }

  /** An update for one market (not "allMarkets") is that market's
      handler body alone, whatever it returns. */
  lemma SingleMarketUpdate(st: ExecState, config: MakerConfig, marketIds: seq<string>, marketId: string, isSnapshot: bool,
                           userOrders: seq<LobOrder>, restOrders: string -> Option<seq<LobOrder>>)
    requires config.Valid() && st.active.Keys == st.pending.Keys
    requires marketId != ALL_MARKETS
    ensures HandleUpdate(st, config, marketIds, marketId, isSnapshot, userOrders, restOrders) ==
            OnMarket(st, config, marketId, false, isSnapshot, userOrders, restOrders).st
  {
    var o := OnMarket(st, config, marketId, false, isSnapshot, userOrders, restOrders);
    assert [marketId][1..] == [];
    if o.Continue? {
      assert ProcessMarkets(o.st, config, [], false, isSnapshot, userOrders, restOrders) == o.st;
    }
  }

  /** A market id that does not resolve to a symbol ends the handler: the
      markets after it are not processed at all. */
  lemma {:induction false} UnknownMarketStopsHandler(st: ExecState, config: MakerConfig, ids: seq<string>, k: nat,
                                                    isAllMarkets: bool, isSnapshot: bool,
                                                    userOrders: seq<LobOrder>, restOrders: string -> Option<seq<LobOrder>>)
    requires config.Valid() && st.active.Keys == st.pending.Keys
    requires k < |ids| && config.GetSymbolByContract(ids[k]).None?
    ensures ProcessMarkets(st, config, ids, isAllMarkets, isSnapshot, userOrders, restOrders) ==
            ProcessMarkets(st, config, ids[..k], isAllMarkets, isSnapshot, userOrders, restOrders)
    decreases k
  {
    if k == 0 {
      assert ids[..0] == [];
    } else {
      var prefix := ids[..k];
      assert prefix != [] && prefix[0] == ids[0];
      assert prefix[1..] == ids[1..][..k - 1];
      var o := OnMarket(st, config, ids[0], isAllMarkets, isSnapshot, userOrders, restOrders);
      if o.Continue? {
        UnknownMarketStopsHandler(o.st, config, ids[1..], k - 1, isAllMarkets, isSnapshot, userOrders, restOrders);
      }
    }
  }

  /** Every converted order of a market is the conversion of one of that
      market's stream orders and carries the market's symbol. */
  lemma ConvertedOrdersComeFromMarket(userOrders: seq<LobOrder>, marketId: string, symbol: string)
    requires ConvertAll(MarketOrders(userOrders, marketId), symbol).Ok?
    ensures forall o :: o in ConvertAll(MarketOrders(userOrders, marketId), symbol).value ==>
      o.symbol == symbol && exists lob :: lob in userOrders && lob.marketId == marketId && FromLobOrder(lob, symbol) == Ok(o)
  {
    var lobs := MarketOrders(userOrders, marketId);
    var orders := ConvertAll(lobs, symbol).value;
    forall o | o in orders
      ensures o.symbol == symbol
      ensures exists lob :: lob in userOrders && lob.marketId == marketId && FromLobOrder(lob, symbol) == Ok(o)
    {
      var i :| 0 <= i < |orders| && orders[i] == o;
      assert FromLobOrder(lobs[i], symbol) == Ok(o);
      assert lobs[i] in lobs;
    }
  }

  /** For a single market (not "allMarkets"), a snapshot makes the executor
      available exactly when every other known market has had its
      snapshot too. */
  lemma SnapshotAvailability(st: ExecState, config: MakerConfig, marketId: string,
                             userOrders: seq<LobOrder>, restOrders: string -> Option<seq<LobOrder>>)
    requires config.Valid() && st.active.Keys == st.pending.Keys
    requires OnMarket(st, config, marketId, false, true, userOrders, restOrders).Continue?
    ensures OnMarket(st, config, marketId, false, true, userOrders, restOrders).st.isAvailable <==>
      forall m :: m in st.snapshots && m != marketId ==> st.snapshots[m]
  {
    var r := OnMarket(st, config, marketId, false, true, userOrders, restOrders).st;
    assert r.snapshots == st.snapshots[marketId := true];
    if forall m :: m in st.snapshots && m != marketId ==> st.snapshots[m] {
      assert AllReceived(r.snapshots);
    } else {
      var m :| m in st.snapshots && m != marketId && !st.snapshots[m];
      assert r.snapshots[m] == false;
    }
  }

  /** No order after position `i` has this symbol and id. */
  predicate LastIndexOf(orders: seq<Order>, symbol: string, id: string, i: int)
  {
    forall j :: 0 <= j < |orders| && i < j ==> orders[j].symbol != symbol || orders[j].orderId != id
  }

  /** The order among `orders` that was saved last under `symbol` and
      `id`. */
  function LastSaved(orders: seq<Order>, symbol: string, id: string): (r: Option<Order>)
    ensures r.Some? ==> r.value in orders && r.value.symbol == symbol && r.value.orderId == id
    ensures r.Some? ==> exists i :: 0 <= i < |orders| && orders[i] == r.value && LastIndexOf(orders, symbol, id, i)
    ensures r.None? ==> forall i :: 0 <= i < |orders| ==> orders[i].symbol != symbol || orders[i].orderId != id
    decreases |orders|
  {
    if orders == [] then None
    else
      match LastSaved(orders[1..], symbol, id)
      case Some(o) =>
        var i :| 0 <= i < |orders[1..]| && orders[1..][i] == o && LastIndexOf(orders[1..], symbol, id, i);
        assert orders[i + 1] == o;
        assert forall j :: i + 1 < j < |orders| ==> orders[j] == orders[1..][j - 1];
        Some(o)
      case None =>
        assert forall j :: 0 < j < |orders| ==> orders[j] == orders[1..][j - 1];
        if orders[0].symbol == symbol && orders[0].orderId == id then Some(orders[0]) else None
  }

  /** Some order in `orders` has this symbol and transaction hash. */
  predicate Mentions(orders: seq<Order>, symbol: string, tx: string)
  {
    exists i :: 0 <= i < |orders| && orders[i].symbol == symbol && orders[i].txnHash == tx
  }

  lemma MentionsCons(orders: seq<Order>, symbol: string, tx: string)
    requires orders != []
    ensures Mentions(orders, symbol, tx) <==>
      (orders[0].symbol == symbol && orders[0].txnHash == tx) || Mentions(orders[1..], symbol, tx)
  {
    if Mentions(orders[1..], symbol, tx) {
      var i :| 0 <= i < |orders[1..]| && orders[1..][i].symbol == symbol && orders[1..][i].txnHash == tx;
      assert orders[i + 1] == orders[1..][i];
    }
    if Mentions(orders, symbol, tx) && !(orders[0].symbol == symbol && orders[0].txnHash == tx) {
      var i :| 0 <= i < |orders| && orders[i].symbol == symbol && orders[i].txnHash == tx;
      assert orders[1..][i - 1] == orders[i];
    }
  }

  /** What a complete `AllSaved` leaves in the active map: the entry of
      each id is the last order saved for it when that one is active, is
      gone when that one is not, and is unchanged for ids not saved. */
  lemma {:induction false} AllSavedActiveEffect(st: ExecState, orders: seq<Order>, s: string, k: string)
    requires st.active.Keys == st.pending.Keys
    requires AllSaved(st, orders).Continue?
    ensures Lookup(AllSaved(st, orders).st.active, s, k) ==
      match LastSaved(orders, s, k)
      case None => Lookup(st.active, s, k)
      case Some(o) => if o.IsActive() then Some(o) else None
    decreases |orders|
  {
    if orders != [] {
      var st' := Saved(st, orders[0]).value;
      AllSavedActiveEffect(st', orders[1..], s, k);
    }
  }

  /** What a complete `AllSaved` leaves in the pending map: the entries of
      saved transaction hashes are gone and the rest unchanged. */
  lemma {:induction false} AllSavedPendingEffect(st: ExecState, orders: seq<Order>, s: string, k: string)
    requires st.active.Keys == st.pending.Keys
    requires AllSaved(st, orders).Continue?
    ensures Lookup(AllSaved(st, orders).st.pending, s, k) ==
      if Mentions(orders, s, k) then None else Lookup(st.pending, s, k)
    decreases |orders|
  {
    if orders != [] {
      var st' := Saved(st, orders[0]).value;
      AllSavedPendingEffect(st', orders[1..], s, k);
      MentionsCons(orders, s, k);
    }
  }

  /** The saves found no pending entry to remove: no pending entry and no
      event changes. */
  lemma {:induction false} AllSavedNoPendingLeft(st: ExecState, orders: seq<Order>)
    requires st.active.Keys == st.pending.Keys
    requires forall i :: 0 <= i < |orders| ==> Lookup(st.pending, orders[i].symbol, orders[i].txnHash) == None
    ensures AllSaved(st, orders).st.pending == st.pending
    ensures AllSaved(st, orders).st.events == st.events
    decreases |orders|
  {
    if orders != [] {
      match Saved(st, orders[0])
      case None =>
      case Some(st') =>
        assert st'.pending == st.pending by {
          forall s | s in st.pending
            ensures st'.pending[s] == st.pending[s]
          {
            forall tx ensures (tx in st'.pending[s] <==> tx in st.pending[s]) {
              assert Lookup(st'.pending, s, tx) == Lookup(st.pending, s, tx);
            }
          }
        }
        assert st'.events == st.events;
        forall i | 0 <= i < |orders[1..]|
          ensures Lookup(st'.pending, orders[1..][i].symbol, orders[1..][i].txnHash) == None
        {
          assert orders[1..][i] == orders[i + 1];
        }
        AllSavedNoPendingLeft(st', orders[1..]);
    }
  }

  /** Two per-symbol order maps with the same symbols that agree on every
      lookup are equal. */
  lemma LookupExtensional(a: map<string, OrderMap>, b: map<string, OrderMap>)
    requires a.Keys == b.Keys
    requires forall s, k :: Lookup(a, s, k) == Lookup(b, s, k)
    ensures a == b
  {
    forall s | s in a
      ensures a[s] == b[s]
    {
      forall k ensures (k in a[s] <==> k in b[s]) && (k in a[s] ==> a[s][k] == b[s][k]) {
        assert Lookup(a, s, k) == Lookup(b, s, k);
      }
    }
  }

  /** Saving the same orders a second time changes neither map and emits
      no pending-removal notification. */
  lemma AllSavedIdempotent(st: ExecState, orders: seq<Order>)
    requires st.active.Keys == st.pending.Keys
    requires AllSaved(st, orders).Continue?
    ensures var once := AllSaved(st, orders).st;
      var twice := AllSaved(once, orders);
      twice.Continue? && twice.st.active == once.active && twice.st.pending == once.pending &&
      twice.st.events == once.events
  {
    var once := AllSaved(st, orders).st;
    var twice := AllSaved(once, orders);
    forall i | 0 <= i < |orders|
      ensures Lookup(once.pending, orders[i].symbol, orders[i].txnHash) == None
    {
      AllSavedPendingEffect(st, orders, orders[i].symbol, orders[i].txnHash);
    }
    AllSavedNoPendingLeft(once, orders);
    forall i | 0 <= i < |orders|
      ensures orders[i].symbol in once.active
    {
      if orders[i].symbol !in st.active {
        AllSavedStopsAtUnknown(st, orders, i);
      }
    }
    AllSavedCompletes(once, orders);
    forall s, k
      ensures Lookup(twice.st.active, s, k) == Lookup(once.active, s, k)
    {
      AllSavedActiveEffect(st, orders, s, k);
      AllSavedActiveEffect(once, orders, s, k);
    }
    LookupExtensional(twice.st.active, once.active);
  }

  /** What one `orderCancelAsync` call does to a symbol's cancelling map,
      plus whether it takes a nonce, sends a claim and starts tracking. */
  datatype CancelEffect = CancelEffect(cancelling: map<string, string>, nonceTaken: bool, claimSent: bool, txId: Option<string>)

  /** The part of `orderCancelAsync` after its guard let the call through
      (`proceed`): the order id is marked, a nonce taken, the claim sent when
      the symbol is configured, and on success the claim's hash mapped to the
      order id. */
  function CancelFrom(c: map<string, string>, orderId: string, proceed: bool, configured: bool,
                      claimResult: Option<string>): (r: CancelEffect)
    ensures !proceed ==> r == CancelEffect(c, false, false, None)
    ensures proceed ==> r.nonceTaken && orderId in r.cancelling
    ensures r.claimSent <==> proceed && configured
    ensures r.txId.Some? <==> r.claimSent && claimResult.Some?
    ensures r.txId.Some? ==> r.txId == claimResult && r.txId.value in r.cancelling && r.cancelling[r.txId.value] == orderId
  {
    if !proceed then CancelEffect(c, false, false, None)
    else
      var marked := c[orderId := orderId];
      if !configured then CancelEffect(marked, true, false, None)
      else
        match claimResult
        case None => CancelEffect(marked, true, true, None)
        case Some(txId) => CancelEffect(marked[txId := orderId], true, true, Some(txId))
  }

  /** A cancel only ever adds keys to the cancelling map, and only the
      order id and the claim's hash; existing keys keep their values unless
      they are one of those two. */
  lemma CancelFromFootprint(c: map<string, string>, orderId: string, proceed: bool, configured: bool,
                            claimResult: Option<string>, k: string)
    ensures var r := CancelFrom(c, orderId, proceed, configured, claimResult);
      && (k in r.cancelling ==> k in c || k == orderId || Some(k) == r.txId)
      && (k in c ==> k in r.cancelling)
      && (k in c && k != orderId && Some(k) != r.txId ==> r.cancelling[k] == c[k])
  {
  }

  /** `orderCancelAsync` as written: the guard `if (!has(orderId)) return`
      lets the call through only for an order id that is already being
      cancelled. */
  function CancelAsWritten(c: map<string, string>, orderId: string, hasProvider: bool, configured: bool,
                           claimResult: Option<string>): (r: CancelEffect)
    ensures orderId !in c ==> r == CancelEffect(c, false, false, None)
  {
    CancelFrom(c, orderId, orderId in c && hasProvider, configured, claimResult)
  }

  /** `orderCancelAsync` with the guard its comment describes: an order id
      already being cancelled is skipped, any other goes through. */
  function CancelFixed(c: map<string, string>, orderId: string, hasProvider: bool, configured: bool,
                       claimResult: Option<string>): (r: CancelEffect)
    ensures orderId in c ==> r == CancelEffect(c, false, false, None)
    ensures orderId !in c && hasProvider ==> r.nonceTaken && orderId in r.cancelling
    ensures orderId !in c && hasProvider && configured ==> r.claimSent
  {
    CancelFrom(c, orderId, orderId !in c && hasProvider, configured, claimResult)
  }

  /** As written, starting from an empty cancelling map a cancel never
      gets past its guard: no nonce, no claim, and the map stays empty, so
      no order is ever cancelled. */
  lemma CancelAsWrittenNeverCancels(orderId: string, hasProvider: bool, configured: bool, claimResult: Option<string>)
    ensures CancelAsWritten(map[], orderId, hasProvider, configured, claimResult) == CancelEffect(map[], false, false, None)
  {
  }

  /** With the guard as intended, cancelling a resting order from an empty
      map sends its claim, and cancelling it again while it is in flight
      sends nothing more. */
  lemma CancelFixedSendsOnce(orderId: string, configured: bool, claimResult: Option<string>, again: Option<string>)
    requires configured
    ensures var first := CancelFixed(map[], orderId, true, configured, claimResult);
      first.claimSent && orderId in first.cancelling &&
      CancelFixed(first.cancelling, orderId, true, configured, again) == CancelEffect(first.cancelling, false, false, None)
  {
  }

  /** The cancelling-map cleanup of the three tracker handlers: when the
      failed hash maps to a (non-empty) order id, both the hash and that
      order id are removed; otherwise nothing changes. */
  function CancellingCleaned(c: map<string, string>, txId: string): (r: map<string, string>)
    ensures txId in c && c[txId] != "" ==> forall k :: k in r <==> k in c && k != txId && k != c[txId]
    ensures !(txId in c && c[txId] != "") ==> r == c
    ensures forall k :: k in r ==> k in c && r[k] == c[k]
  {
    if txId in c && c[txId] != "" then c - {txId} - {c[txId]} else c
  }

  /** The stream ids of the listed symbols: `None` when one is not
      configured or has no contract address (the constructor throws). */
  function MarketIdsOf(config: MakerConfig, symbols: seq<string>): (r: Option<seq<string>>)
    ensures r.Some? <==> forall i :: 0 <= i < |symbols| ==>
      config.GetSymbol(symbols[i]).Some? && config.GetSymbol(symbols[i]).value.contractAddress != ""
    ensures r.Some? ==> |r.value| == |symbols|
    ensures r.Some? ==> forall i :: 0 <= i < |symbols| ==> r.value[i] == config.symbols[symbols[i]].contractAddress
    decreases |symbols|
  {
    if symbols == [] then Some([])
    else
      match config.GetSymbol(symbols[0])
      case None => None
      case Some(symbolConfig) =>
        if symbolConfig.contractAddress == "" then None
        else
          match MarketIdsOf(config, symbols[1..])
          case None =>
            assert exists i :: 1 <= i < |symbols| && !(config.GetSymbol(symbols[i]).Some? && config.GetSymbol(symbols[i]).value.contractAddress != "") by {
              var j :| 0 <= j < |symbols[1..]| &&
                !(config.GetSymbol(symbols[1..][j]).Some? && config.GetSymbol(symbols[1..][j]).value.contractAddress != "");
              assert symbols[1..][j] == symbols[j + 1];
            }
            None
          case Some(rest) =>
            assert forall i :: 1 <= i < |symbols| ==> symbols[i] == symbols[1..][i - 1];
            Some([symbolConfig.contractAddress] + rest)
  }

  /** `Array.from(map.values())`: every value once, in an unspecified
      order; `keys` is the matching order of keys. */
  method ValuesOf<V>(m: map<string, V>) returns (vs: seq<V>, ghost keys: seq<string>)
    ensures |vs| == |keys| && NoDuplicates(keys)
    ensures forall k :: k in m <==> k in keys
    ensures forall i :: 0 <= i < |keys| ==> keys[i] in m && vs[i] == m[keys[i]]
  {
    var rest := m.Keys;
    vs := [];
    keys := [];
    while rest != {}
      invariant rest <= m.Keys
      invariant |vs| == |keys| && NoDuplicates(keys)
      invariant forall k :: k in keys ==> k in m && k !in rest
      invariant forall k :: k in m ==> k in keys || k in rest
      invariant forall i :: 0 <= i < |keys| ==> vs[i] == m[keys[i]]
      decreases |rest|
    {
      var k :| k in rest;
      vs := vs + [m[k]];
      keys := keys + [k];
      rest := rest - {k};
    }
  }

  /** Two updates of the same key: the second wins. */
  lemma UpdateTwice<K, V>(m: map<K, V>, k: K, a: V, b: V)
    ensures m[k := a][k := b] == m[k := b]
  {
  }

  class Executor {
    const config: MakerConfig
    /** The symbols this executor trades. */
    const symbols: seq<string>
    /** Their contract addresses, in the same order. */
    const marketIds: seq<string>
    const signerAddress: string
    /** Whether the signer has an RPC provider. */
    const hasProvider: bool
    /** The process-wide nonce allocator. */
    const nonces: NonceManager

    var activeOrders: map<string, OrderMap>
    var pendingOrders: map<string, OrderMap>
    /** Per symbol: order id or claim hash to order id. */
    var cancellingOrders: map<string, map<string, string>>
    var marketSnapshotsReceived: map<string, bool>
    var isAvailable: bool
    var events: seq<Event>
    var submissions: seq<Submission>
    /** `trackTransactionAsync` calls: symbol and transaction hash. */
    var tracked: seq<(string, string)>

    ghost function State(): ExecState
      reads this
    {
      ExecState(activeOrders, pendingOrders, marketSnapshotsReceived, isAvailable, events)
    }

    ghost predicate Valid()
      reads this
    {
      && config.Valid()
      && WellKeyedMaps(activeOrders, pendingOrders)
      && cancellingOrders.Keys == activeOrders.Keys
    }

    /** No cancellation is in flight for any symbol. */
    ghost predicate CancellingEmpty()
      reads this
    {
      forall s :: s in cancellingOrders ==> cancellingOrders[s] == map[]
    }

    constructor (config: MakerConfig, symbols: seq<string>, marketIds: seq<string>, signerAddress: string,
                 hasProvider: bool, nonces: NonceManager,
                 orders: map<string, OrderMap>, cancelling: map<string, map<string, string>>)
      ensures this.config == config && this.symbols == symbols && this.marketIds == marketIds
      ensures this.signerAddress == signerAddress && this.hasProvider == hasProvider && this.nonces == nonces
      ensures activeOrders == orders && pendingOrders == orders && cancellingOrders == cancelling
      ensures marketSnapshotsReceived == map m | m in marketIds :: false
      ensures !isAvailable && events == [] && submissions == [] && tracked == []
    {
      this.config := config;
      this.symbols := symbols;
      this.marketIds := marketIds;
      this.signerAddress := signerAddress;
      this.hasProvider := hasProvider;
      this.nonces := nonces;
      activeOrders := orders;
      pendingOrders := orders;
      cancellingOrders := cancelling;
      marketSnapshotsReceived := map m | m in marketIds :: false;
      isAvailable := false;
      events := [];
      submissions := [];
      tracked := [];
    }

    /** The constructor's loop: an empty order map and an empty cancelling
        map for every symbol. */
    static method EmptyMaps(symbols: seq<string>) returns (orders: map<string, OrderMap>, cancelling: map<string, map<string, string>>)
      ensures forall s :: s in orders <==> s in symbols
      ensures forall s :: s in orders ==> orders[s] == map[]
      ensures cancelling.Keys == orders.Keys
      ensures forall s :: s in cancelling ==> cancelling[s] == map[]
    {
      orders := map[];
      cancelling := map[];
      for i := 0 to |symbols|
        invariant forall s :: s in orders <==> s in symbols[..i]
        invariant forall s :: s in orders ==> orders[s] == map[]
        invariant cancelling.Keys == orders.Keys
        invariant forall s :: s in cancelling ==> cancelling[s] == map[]
      {
        orders := orders[symbols[i] := map[]];
        cancelling := cancelling[symbols[i] := map[]];
      }
      assert symbols[..|symbols|] == symbols;
    }

    /** `new Executor(...)`: empty maps for every symbol, one market id per
        symbol from the configuration (a missing one throws: `null`), every
        snapshot flag false and the executor unavailable. */
    static method Create(config: MakerConfig, symbols: seq<string>, signerAddress: string, hasProvider: bool,
                         nonces: NonceManager) returns (e: Executor?)
      requires config.Valid()
      ensures e == null <==> MarketIdsOf(config, symbols).None?
      ensures e != null ==>
        && fresh(e) && e.Valid() && e.CancellingEmpty()
        && e.config == config && e.symbols == symbols && e.marketIds == MarketIdsOf(config, symbols).value
        && e.signerAddress == signerAddress && e.hasProvider == hasProvider && e.nonces == nonces
        && (forall s :: s in e.activeOrders <==> s in symbols)
        && (forall s :: s in e.activeOrders ==> e.activeOrders[s] == map[] && e.pendingOrders[s] == map[])
        && (forall m :: m in e.marketSnapshotsReceived <==> m in e.marketIds)
        && (forall m :: m in e.marketSnapshotsReceived ==> !e.marketSnapshotsReceived[m])
        && !e.isAvailable && e.events == [] && e.submissions == [] && e.tracked == []
    {
      var orders, cancelling := EmptyMaps(symbols);
      var ids := MarketIdsOf(config, symbols);
      if ids.None? {
        return null;
      }
      e := new Executor(config, symbols, ids.value, signerAddress, hasProvider, nonces, orders, cancelling);
    }

    /** `isOrderCanceled`: the order id is marked as being cancelled. */
    function IsOrderCanceled(symbol: string, orderId: string): (r: bool)
      reads this
      requires symbol in cancellingOrders
      ensures r <==> orderId in cancellingOrders[symbol]
      ensures CancellingEmpty() ==> !r
    {
      orderId in cancellingOrders[symbol]
    }

    /** `getActiveOrders`: each active order of the symbol once. */
    method GetActiveOrders(symbol: string) returns (orders: seq<Order>)
      requires Valid() && symbol in activeOrders
      ensures forall o :: o in orders <==> o in activeOrders[symbol].Values
      ensures forall o :: o in orders ==> o.IsActive() && o.symbol == symbol
      ensures forall i, j :: 0 <= i < j < |orders| ==> orders[i].orderId != orders[j].orderId
    {
      ghost var keys;
      orders, keys := ValuesOf(activeOrders[symbol]);
      forall o | o in activeOrders[symbol].Values
        ensures o in orders
      {
        var k :| k in activeOrders[symbol] && activeOrders[symbol][k] == o;
        var i :| 0 <= i < |keys| && keys[i] == k;
      }
    }

    /** `getPendingOrders`: each pending order of the symbol once. */
    method GetPendingOrders(symbol: string) returns (orders: seq<Order>)
      requires Valid() && symbol in pendingOrders
      ensures forall o :: o in orders <==> o in pendingOrders[symbol].Values
      ensures forall o :: o in orders ==> o.status == Pending && o.symbol == symbol && o.orderId == o.txnHash
      ensures forall i, j :: 0 <= i < j < |orders| ==> orders[i].txnHash != orders[j].txnHash
    {
      ghost var keys;
      orders, keys := ValuesOf(pendingOrders[symbol]);
      forall o | o in pendingOrders[symbol].Values
        ensures o in orders
      {
        var k :| k in pendingOrders[symbol] && pendingOrders[symbol][k] == o;
        var i :| 0 <= i < |keys| && keys[i] == k;
      }
    }

    /** The private `isAvailable` setter. */
    method SetIsAvailable(value: bool)
      modifies this
      ensures State() == WithAvailability(old(State()), value)
      ensures cancellingOrders == old(cancellingOrders) && submissions == old(submissions) && tracked == old(tracked)
    {
      if isAvailable != value {
        isAvailable := value;
        events := events + [AvailabilityChanged(isAvailable)];
      }
    }

    method TryRemovePendingOrder(symbol: string, txId: string)
      requires symbol in pendingOrders
      modifies this
      ensures State() == PendingRemoved(old(State()), symbol, txId)
      ensures cancellingOrders == old(cancellingOrders) && submissions == old(submissions) && tracked == old(tracked)
    {
      var symbolPendingOrders := pendingOrders[symbol];
      if txId !in symbolPendingOrders {
        return;
      }
      var order := symbolPendingOrders[txId];
      pendingOrders := pendingOrders[symbol := symbolPendingOrders - {txId}];
      events := events + [OrdersChanged([order])];
    }

    /** `saveOrder`; `ok` is false when it throws for an unknown symbol,
        which then changes nothing. */
    method SaveOrder(order: Order) returns (ok: bool)
      requires activeOrders.Keys == pendingOrders.Keys
      modifies this
      ensures ok == Saved(old(State()), order).Some?
      ensures State() == (if ok then Saved(old(State()), order).value else old(State()))
      ensures cancellingOrders == old(cancellingOrders) && submissions == old(submissions) && tracked == old(tracked)
    {
      if order.symbol !in activeOrders {
        return false;
      }
      if order.IsActive() {
        activeOrders := activeOrders[order.symbol := activeOrders[order.symbol][order.orderId := order]];
      } else {
        activeOrders := activeOrders[order.symbol := activeOrders[order.symbol] - {order.orderId}];
      }
      TryRemovePendingOrder(order.symbol, order.txnHash);
      return true;
    }

    /** The stream orders' save loop; `ok` is false when a save threw. */
    method SaveOrders(orders: seq<Order>) returns (ok: bool)
      requires activeOrders.Keys == pendingOrders.Keys
      modifies this
      ensures ok == AllSaved(old(State()), orders).Continue? && State() == AllSaved(old(State()), orders).st
      ensures cancellingOrders == old(cancellingOrders) && submissions == old(submissions) && tracked == old(tracked)
    {
      ghost var st0 := State();
      for j := 0 to |orders|
        invariant activeOrders.Keys == pendingOrders.Keys
        invariant AllSaved(State(), orders[j..]) == AllSaved(st0, orders)
        invariant cancellingOrders == old(cancellingOrders) && submissions == old(submissions) && tracked == old(tracked)
      {
        assert orders[j..][0] == orders[j] && orders[j..][1..] == orders[j + 1..];
        var saved := SaveOrder(orders[j]);
        if !saved {
          return false;
        }
      }
      assert orders[|orders|..] == [];
      return true;
    }

    /** The REST open orders' loop: convert, then save, one at a time; `ok`
        is false when a conversion or a save threw. */
    method SaveRestOrders(lobs: seq<LobOrder>, symbol: string) returns (ok: bool)
      requires activeOrders.Keys == pendingOrders.Keys
      modifies this
      ensures ok == RestSaved(old(State()), lobs, symbol).Continue? && State() == RestSaved(old(State()), lobs, symbol).st
      ensures cancellingOrders == old(cancellingOrders) && submissions == old(submissions) && tracked == old(tracked)
    {
      ghost var st0 := State();
      for j := 0 to |lobs|
        invariant activeOrders.Keys == pendingOrders.Keys
        invariant RestSaved(State(), lobs[j..], symbol) == RestSaved(st0, lobs, symbol)
        invariant cancellingOrders == old(cancellingOrders) && submissions == old(submissions) && tracked == old(tracked)
      {
        assert lobs[j..][0] == lobs[j] && lobs[j..][1..] == lobs[j + 1..];
        var order := FromLobOrder(lobs[j], symbol);
        if order.Err? {
          return false;
        }
        var saved := SaveOrder(order.value);
        if !saved {
          return false;
        }
      }
      assert lobs[|lobs|..] == [];
      return true;
    }

    /** The handler's body for one market after its stream orders were
        saved; `aborted` when it left the handler. */
    method FinishMarketOrders(marketId: string, isAllMarkets: bool, isSnapshot: bool, orders: seq<Order>,
                              symbol: string, restOrders: string -> Option<seq<LobOrder>>) returns (aborted: bool)
      requires activeOrders.Keys == pendingOrders.Keys
      modifies this
      ensures aborted == FinishMarket(old(State()), marketId, isAllMarkets, isSnapshot, orders, symbol, restOrders).Abort?
      ensures State() == FinishMarket(old(State()), marketId, isAllMarkets, isSnapshot, orders, symbol, restOrders).st
      ensures cancellingOrders == old(cancellingOrders) && submissions == old(submissions) && tracked == old(tracked)
    {
      if isSnapshot {
        var activeOrders := restOrders(marketId);
        if activeOrders.None? {
          return true;
        }
        var saved := SaveRestOrders(activeOrders.value, symbol);
        if !saved {
          return true;
        }
        marketSnapshotsReceived := marketSnapshotsReceived[marketId := true];
        var isAllSnapshotsReceived := isAllMarkets || AllReceived(marketSnapshotsReceived);
        SetIsAvailable(isAllSnapshotsReceived);
      }
      events := events + [OrdersChanged(orders)];
      return false;
    }

    /** One iteration of the handler's market loop; `aborted` when it left
        the handler. */
    method HandleMarket(marketId: string, isAllMarkets: bool, isSnapshot: bool,
                        userOrders: seq<LobOrder>, restOrders: string -> Option<seq<LobOrder>>) returns (aborted: bool)
      requires config.Valid() && activeOrders.Keys == pendingOrders.Keys
      modifies this
      ensures aborted == OnMarket(old(State()), config, marketId, isAllMarkets, isSnapshot, userOrders, restOrders).Abort?
      ensures State() == OnMarket(old(State()), config, marketId, isAllMarkets, isSnapshot, userOrders, restOrders).st
      ensures cancellingOrders == old(cancellingOrders) && submissions == old(submissions) && tracked == old(tracked)
    {
      var symbolConfig := config.GetSymbolByContract(marketId);
      if symbolConfig.None? {
        return true;
      }
      var converted := ConvertAll(MarketOrders(userOrders, marketId), symbolConfig.value.symbol);
      if converted.Err? {
        return true;
      }
      var saved := SaveOrders(converted.value);
      if !saved {
        return true;
      }
      aborted := FinishMarketOrders(marketId, isAllMarkets, isSnapshot, converted.value, symbolConfig.value.symbol, restOrders);
    }

    /** `UserOrdersHandler(marketId, isSnapshot, userOrders)`, with
        `restOrders` giving the REST open-order list of a market. */
    method UserOrdersHandler(marketId: string, isSnapshot: bool, userOrders: seq<LobOrder>,
                             restOrders: string -> Option<seq<LobOrder>>)
      requires Valid()
      modifies this
      ensures State() == HandleUpdate(old(State()), config, marketIds, marketId, isSnapshot, userOrders, restOrders)
      ensures Valid()
      ensures cancellingOrders == old(cancellingOrders) && submissions == old(submissions) && tracked == old(tracked)
    {
      var isAllMarkets := marketId == ALL_MARKETS;
      var ids := SelectMarkets(marketId, isSnapshot, userOrders, marketIds);
      ghost var st0 := State();
      for i := 0 to |ids|
        invariant activeOrders.Keys == pendingOrders.Keys && WellKeyed(State())
        invariant ProcessMarkets(State(), config, ids[i..], isAllMarkets, isSnapshot, userOrders, restOrders) ==
                  ProcessMarkets(st0, config, ids, isAllMarkets, isSnapshot, userOrders, restOrders)
        invariant cancellingOrders == old(cancellingOrders) && submissions == old(submissions) && tracked == old(tracked)
      {
        assert ids[i..][0] == ids[i] && ids[i..][1..] == ids[i + 1..];
        var aborted := HandleMarket(ids[i], isAllMarkets, isSnapshot, userOrders, restOrders);
        if aborted {
          return;
        }
      }
      assert ids[|ids|..] == [];
    }

    /** `orderSendAsync` after `getAddress`: without a provider nothing
        happens; otherwise a nonce is taken, the placement is sent when the
        symbol is configured, and a returned hash records one pending order
        and, unless fire-and-forget, starts tracking it. */
    method OrderSend(symbol: string, price: real, qty: int, side: Side, marketOnly: bool, fireAndForget: bool,
                     observedNonce: int, now: int, placeResult: Option<string>)
      requires Valid() && symbol in pendingOrders
      modifies this, nonces
      ensures Valid()
      ensures activeOrders == old(activeOrders) && cancellingOrders == old(cancellingOrders)
      ensures marketSnapshotsReceived == old(marketSnapshotsReceived) && isAvailable == old(isAvailable) && events == old(events)
      ensures !hasProvider ==> nonces.Tables() == old(nonces.Tables()) && submissions == old(submissions)
      ensures hasProvider ==>
        var step := Step(old(nonces.Tables()), signerAddress, observedNonce, now);
        && nonces.Tables() == step.0
        && submissions == old(submissions) +
             (if config.GetSymbol(symbol).Some?
              then [PlaceOrder(config.GetSymbol(symbol).value.contractAddress, if marketOnly then Ioc else Limit, side, qty, price, step.1)]
              else [])
      ensures var placed := hasProvider && config.GetSymbol(symbol).Some? && placeResult.Some?;
        && (placed ==> pendingOrders == old(pendingOrders)[symbol := old(pendingOrders)[symbol][placeResult.value :=
                                          NewPendingOrder(symbol, side, price, qty, placeResult.value, now)]])
        && (!placed ==> pendingOrders == old(pendingOrders))
        && tracked == old(tracked) + (if placed && !fireAndForget then [(symbol, placeResult.value)] else [])
      ensures old(CancellingEmpty()) ==> CancellingEmpty()
    {
      if !hasProvider {
        return;
      }
      var nonce := nonces.GetNonce(signerAddress, observedNonce, now);
      SubmitPlacement(symbol, price, qty, side, marketOnly, fireAndForget, nonce, now, placeResult);
    }

    /** `orderSendAsync` once the nonce is known: `placeOrder` is sent when
        the symbol is configured, and its hash recorded. */
    method SubmitPlacement(symbol: string, price: real, qty: int, side: Side, marketOnly: bool, fireAndForget: bool,
                           nonce: int, now: int, placeResult: Option<string>)
      requires Valid() && symbol in pendingOrders
      modifies this
      ensures Valid()
      ensures activeOrders == old(activeOrders) && cancellingOrders == old(cancellingOrders)
      ensures marketSnapshotsReceived == old(marketSnapshotsReceived) && isAvailable == old(isAvailable) && events == old(events)
      ensures submissions == old(submissions) +
             (if config.GetSymbol(symbol).Some?
              then [PlaceOrder(config.GetSymbol(symbol).value.contractAddress, if marketOnly then Ioc else Limit, side, qty, price, nonce)]
              else [])
      ensures var placed := config.GetSymbol(symbol).Some? && placeResult.Some?;
        && (placed ==> pendingOrders == old(pendingOrders)[symbol := old(pendingOrders)[symbol][placeResult.value :=
                                          NewPendingOrder(symbol, side, price, qty, placeResult.value, now)]])
        && (!placed ==> pendingOrders == old(pendingOrders))
        && tracked == old(tracked) + (if placed && !fireAndForget then [(symbol, placeResult.value)] else [])
    {
      var symbolConfig := config.GetSymbol(symbol);
      if symbolConfig.None? {
        // reading the missing configuration's address throws inside the try
        return;
      }
      submissions := submissions + [PlaceOrder(symbolConfig.value.contractAddress, if marketOnly then Ioc else Limit, side, qty, price, nonce)];
      if placeResult.None? {
        return;
      }
      RecordPlacement(symbol, NewPendingOrder(symbol, side, price, qty, placeResult.value, now), fireAndForget);
    }

    /** A placement that returned a hash: the pending order is stored under
        it and, unless fire-and-forget, the hash is tracked. */
    method RecordPlacement(symbol: string, pendingOrder: Order, fireAndForget: bool)
      requires Valid() && symbol in pendingOrders
      requires pendingOrder.status == Pending && pendingOrder.symbol == symbol && pendingOrder.orderId == pendingOrder.txnHash
      modifies this
      ensures Valid()
      ensures pendingOrders == old(pendingOrders)[symbol := old(pendingOrders)[symbol][pendingOrder.txnHash := pendingOrder]]
      ensures tracked == old(tracked) + (if fireAndForget then [] else [(symbol, pendingOrder.txnHash)])
      ensures activeOrders == old(activeOrders) && cancellingOrders == old(cancellingOrders) && submissions == old(submissions)
      ensures marketSnapshotsReceived == old(marketSnapshotsReceived) && isAvailable == old(isAvailable) && events == old(events)
    {
      var txId := pendingOrder.txnHash;
      AddPendingKeepsWellKeyed(activeOrders, pendingOrders, pendingOrder);
      pendingOrders := pendingOrders[symbol := pendingOrders[symbol][txId := pendingOrder]];
      if !fireAndForget {
        tracked := tracked + [(symbol, txId)];
      }
    }

    /** The part of `orderCancelAsync` after its guard. */
    method CancelAfterGuard(orderId: string, symbol: string, proceed: bool, observedNonce: int, now: int,
                            claimResult: Option<string>)
      requires Valid() && symbol in cancellingOrders
      modifies this, nonces
      ensures Valid() && State() == old(State())
      ensures var effect := CancelFrom(old(cancellingOrders)[symbol], orderId, proceed, config.GetSymbol(symbol).Some?, claimResult);
        var step := Step(old(nonces.Tables()), signerAddress, observedNonce, now);
        && cancellingOrders == old(cancellingOrders)[symbol := effect.cancelling]
        && nonces.Tables() == (if effect.nonceTaken then step.0 else old(nonces.Tables()))
        && submissions == old(submissions) +
             (if effect.claimSent then [ClaimOrder(config.GetSymbol(symbol).value.contractAddress, orderId, step.1)] else [])
        && tracked == old(tracked) + (if effect.txId.Some? then [(symbol, effect.txId.value)] else [])
    {
      if !proceed {
        return;
      }
      ghost var m0 := cancellingOrders;
      MarkCancelling(symbol, orderId);
      ghost var m1 := cancellingOrders;
      var nonce := nonces.GetNonce(signerAddress, observedNonce, now);
      SubmitClaim(orderId, symbol, nonce, claimResult);
      UpdateTwice(m0, symbol, m1[symbol], cancellingOrders[symbol]);
    }

    /** `symbolCancellingOrders.set(orderId, orderId)`. */
    method MarkCancelling(symbol: string, orderId: string)
      requires Valid() && symbol in cancellingOrders
      modifies this
      ensures Valid() && State() == old(State())
      ensures cancellingOrders == old(cancellingOrders)[symbol := old(cancellingOrders)[symbol][orderId := orderId]]
      ensures submissions == old(submissions) && tracked == old(tracked)
    {
      cancellingOrders := cancellingOrders[symbol := cancellingOrders[symbol][orderId := orderId]];
    }

    /** `orderCancelAsync` once the order is marked and the nonce known:
        `claimOrder` is sent when the symbol is configured, and its hash is
        mapped to the order id and tracked. */
    method SubmitClaim(orderId: string, symbol: string, nonce: int, claimResult: Option<string>)
      requires Valid() && symbol in cancellingOrders
      modifies this
      ensures Valid() && State() == old(State())
      ensures var sent := config.GetSymbol(symbol).Some?;
        && submissions == old(submissions) + (if sent then [ClaimOrder(config.GetSymbol(symbol).value.contractAddress, orderId, nonce)] else [])
        && (sent && claimResult.Some? ==>
              && cancellingOrders == old(cancellingOrders)[symbol := old(cancellingOrders)[symbol][claimResult.value := orderId]]
              && tracked == old(tracked) + [(symbol, claimResult.value)])
        && (!(sent && claimResult.Some?) ==> cancellingOrders == old(cancellingOrders) && tracked == old(tracked))
    {
      var symbolConfig := config.GetSymbol(symbol);
      if symbolConfig.None? {
        // reading the missing configuration's address throws inside the try
        return;
      }
      submissions := submissions + [ClaimOrder(symbolConfig.value.contractAddress, orderId, nonce)];
      if claimResult.None? {
        return;
      }
      var txId := claimResult.value;
      cancellingOrders := cancellingOrders[symbol := cancellingOrders[symbol][txId := orderId]];
      tracked := tracked + [(symbol, txId)];
    }

    /** `orderCancelAsync` as written (inverted guard, then the provider
        check). From construction on no cancel gets through, so the
        cancelling maps stay empty. */
    method OrderCancel(orderId: string, symbol: string, observedNonce: int, now: int, claimResult: Option<string>)
      requires Valid() && symbol in cancellingOrders
      modifies this, nonces
      ensures Valid() && State() == old(State())
      ensures var effect := CancelAsWritten(old(cancellingOrders)[symbol], orderId, hasProvider,
                                            config.GetSymbol(symbol).Some?, claimResult);
        && cancellingOrders == old(cancellingOrders)[symbol := effect.cancelling]
        && (effect.nonceTaken ==> nonces.Tables() == Step(old(nonces.Tables()), signerAddress, observedNonce, now).0)
        && (!effect.nonceTaken ==> nonces.Tables() == old(nonces.Tables()))
        && (effect.claimSent <==> |submissions| == |old(submissions)| + 1)
        && (!effect.claimSent ==> submissions == old(submissions))
      ensures old(CancellingEmpty()) ==>
        CancellingEmpty() && cancellingOrders == old(cancellingOrders) && submissions == old(submissions) && tracked == old(tracked)
    {
      var symbolCancellingOrders := cancellingOrders[symbol];
      CancelAfterGuard(orderId, symbol, orderId in symbolCancellingOrders && hasProvider, observedNonce, now, claimResult);
      if old(CancellingEmpty()) {
        assert old(cancellingOrders)[symbol] == map[];
        CancelAsWrittenNeverCancels(orderId, hasProvider, config.GetSymbol(symbol).Some?, claimResult);
        assert cancellingOrders == old(cancellingOrders);
      }
    }

    /** `orderCancelAsync` with the guard as its comment intends: an order
        already being cancelled is skipped, any other is claimed. */
    method OrderCancelFixed(orderId: string, symbol: string, observedNonce: int, now: int, claimResult: Option<string>)
      requires Valid() && symbol in cancellingOrders
      modifies this, nonces
      ensures Valid() && State() == old(State())
      ensures var effect := CancelFixed(old(cancellingOrders)[symbol], orderId, hasProvider,
                                        config.GetSymbol(symbol).Some?, claimResult);
        var step := Step(old(nonces.Tables()), signerAddress, observedNonce, now);
        && cancellingOrders == old(cancellingOrders)[symbol := effect.cancelling]
        && nonces.Tables() == (if effect.nonceTaken then step.0 else old(nonces.Tables()))
        && submissions == old(submissions) +
             (if effect.claimSent then [ClaimOrder(config.GetSymbol(symbol).value.contractAddress, orderId, step.1)] else [])
        && tracked == old(tracked) + (if effect.txId.Some? then [(symbol, effect.txId.value)] else [])
      ensures hasProvider && orderId !in old(cancellingOrders)[symbol] ==> IsOrderCanceled(symbol, orderId)
    {
      var symbolCancellingOrders := cancellingOrders[symbol];
      CancelAfterGuard(orderId, symbol, orderId !in symbolCancellingOrders && hasProvider, observedNonce, now, claimResult);
    }

    /** The cleanup shared by the three tracker handlers for a failed
        transaction `txId`. */
    method CleanupFailedTransaction(symbol: string, txId: string)
      requires Valid() && symbol in cancellingOrders
      modifies this
      ensures Valid()
      ensures State() == PendingRemoved(old(State()), symbol, txId)
      ensures cancellingOrders == old(cancellingOrders)[symbol := CancellingCleaned(old(cancellingOrders)[symbol], txId)]
      ensures submissions == old(submissions) && tracked == old(tracked)
      ensures old(CancellingEmpty()) ==> CancellingEmpty()
    {
      var symbolCancellingOrders := cancellingOrders[symbol];
      TryRemovePendingOrder(symbol, txId);
      if txId in symbolCancellingOrders && symbolCancellingOrders[txId] != "" {
        var orderId := symbolCancellingOrders[txId];
        symbolCancellingOrders := symbolCancellingOrders - {txId};
        symbolCancellingOrders := symbolCancellingOrders - {orderId};
        cancellingOrders := cancellingOrders[symbol := symbolCancellingOrders];
      }
    }

    /** `trackerErrorReceived`: the transaction is treated as failed. */
    method TrackerErrorReceived(symbol: string, txId: string)
      requires Valid() && symbol in cancellingOrders
      modifies this
      ensures Valid()
      ensures State() == PendingRemoved(old(State()), symbol, txId)
      ensures cancellingOrders == old(cancellingOrders)[symbol := CancellingCleaned(old(cancellingOrders)[symbol], txId)]
      ensures submissions == old(submissions) && tracked == old(tracked)
    {
      CleanupFailedTransaction(symbol, txId);
    }

    /** `trackerReceiptReceived`: a receipt whose status is not 1 (or is
        missing) means the transaction failed; a successful one changes
        nothing. */
    method TrackerReceiptReceived(symbol: string, receiptHash: string, receiptStatus: Option<int>)
      requires Valid() && symbol in cancellingOrders
      modifies this
      ensures Valid()
      ensures receiptStatus == Some(RECEIPT_SUCCESS) ==>
        State() == old(State()) && cancellingOrders == old(cancellingOrders)
      ensures receiptStatus != Some(RECEIPT_SUCCESS) ==>
        && State() == PendingRemoved(old(State()), symbol, receiptHash)
        && cancellingOrders == old(cancellingOrders)[symbol := CancellingCleaned(old(cancellingOrders)[symbol], receiptHash)]
      ensures submissions == old(submissions) && tracked == old(tracked)
    {
      if receiptStatus != Some(RECEIPT_SUCCESS) {
        CleanupFailedTransaction(symbol, receiptHash);
      }
    }

    /** `trackerCanceled`: only a tracker that timed out counts as a failed
        transaction. */
    method TrackerCanceled(symbol: string, txId: string, errorName: string)
      requires Valid() && symbol in cancellingOrders
      modifies this
      ensures Valid()
      ensures errorName != TIMEOUT_REACHED_ERROR ==>
        State() == old(State()) && cancellingOrders == old(cancellingOrders)
      ensures errorName == TIMEOUT_REACHED_ERROR ==>
        && State() == PendingRemoved(old(State()), symbol, txId)
        && cancellingOrders == old(cancellingOrders)[symbol := CancellingCleaned(old(cancellingOrders)[symbol], txId)]
      ensures submissions == old(submissions) && tracked == old(tracked)
    {
      if errorName == TIMEOUT_REACHED_ERROR {
        CleanupFailedTransaction(symbol, txId);
      }
    }
  }
}

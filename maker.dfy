/** The quoting loop of one symbol (src/maker/Maker.ts, with the action
    shapes of src/maker/common/MakerAction.ts and the executor interface of
    src/core/execution/abstract/IExecutor.ts).

    A tick is specified by pure functions: for each side the cancel
    decisions, the retained orders, the best-order rule and the ladder make
    a plan of actions, and the dispatch turns the plan into executor calls.
    The `Maker` class holds the handlers' state and runs the tick with the
    loops of the source, proved to produce the calls the functions describe. */
module Makers {
  import opened Common
  import opened Orders
  import opened Quotes
  import opened OrderBooks
  import opened MakerConfigs

  /** `MakerCancelAction` and `MakerPlaceAction`. */
  datatype MakerAction =
    | CancelAction(orderId: string, symbol: string, price: real)
    | PlaceAction(symbol: string, side: Side, price: real, qty: int)

  /** A call the tick makes on the executor: `orderCancelAsync(orderId,
      symbol)` or `orderSendAsync(symbol, price, qty, side)`. */
  datatype ExecutorCall =
    | CancelCall(orderId: string, symbol: string)
    | SendCall(symbol: string, price: real, qty: int, side: Side)

  /** The four messages of `getOrderCancellationReason`. */
  datatype CancelReason = OrderTooClose | OrderTooFar | SideIsDisabled | PriceSourceUnavailable

  /** The notice logged for a cancel decision: order id and reason. */
  type CancelNotice = (string, CancelReason)

  /** `getOrderCancellationReason`: the first flag that holds, in the order
      too close, too far, side disabled, names the reason; with none, the
      price source is blamed. */
  function GetOrderCancellationReason(isOrderTooClose: bool, isOrderTooFar: bool, isSideDisabled: bool): (r: CancelReason)
    ensures r == OrderTooClose <==> isOrderTooClose
    ensures r == OrderTooFar <==> !isOrderTooClose && isOrderTooFar
    ensures r == SideIsDisabled <==> !isOrderTooClose && !isOrderTooFar && isSideDisabled
    ensures r == PriceSourceUnavailable <==> !isOrderTooClose && !isOrderTooFar && !isSideDisabled
  {
    if isOrderTooClose then OrderTooClose
    else if isOrderTooFar then OrderTooFar
    else if isSideDisabled then SideIsDisabled
    else PriceSourceUnavailable
  }

  // ---------------------------------------------------------------------
  // Distances

  /** A JavaScript number as a division produces it: finite, or an
      infinity or NaN when the divisor is zero. */
  datatype Extended = Finite(value: real) | PosInfinity | NegInfinity | NaN

  /** `x <= c` on JavaScript numbers (false for NaN). */
  predicate AtMost(x: Extended, c: real)
  {
    match x
    case Finite(v) => v <= c
    case NegInfinity => true
    case _ => false
  }

  /** `x >= c` on JavaScript numbers (false for NaN). */
  predicate AtLeast(x: Extended, c: real)
  {
    match x
    case Finite(v) => v >= c
    case PosInfinity => true
    case _ => false
  }

  /** How far `price` lies from `middle` on the outside of the book, in
      percent of `middle`: `((middle - price) / middle) * 100` for a bid and
      `((price - middle) / middle) * 100` for an ask; a zero middle price
      gives an infinity of the gap's sign, or NaN for a zero gap. */
  function DistanceInPercents(side: Side, middle: real, price: real): Extended
  {
    var gap := if side == Bid then middle - price else price - middle;
    if middle != 0.0 then Finite(gap / middle * 100.0)
    else if gap > 0.0 then PosInfinity
    else if gap < 0.0 then NegInfinity
    else NaN
  }

  /** For a positive middle price the distance compares with a percentage
      as the price compares with the level that percentage away from the
      middle, on the outside of the book. */
  lemma DistanceBounds(side: Side, middle: real, price: real, c: real)
    requires middle > 0.0
    ensures AtMost(DistanceInPercents(side, middle, price), c) <==>
      (if side == Bid then price >= middle - middle * c / 100.0 else price <= middle + middle * c / 100.0)
    ensures AtLeast(DistanceInPercents(side, middle, price), c) <==>
      (if side == Bid then price <= middle - middle * c / 100.0 else price >= middle + middle * c / 100.0)
  {
    var gap := if side == Bid then middle - price else price - middle;
    var q := gap / middle;
    assert q * middle == gap;
    assert q * 100.0 <= c <==> q * middle <= c * middle / 100.0;
    assert q * 100.0 >= c <==> q * middle >= c * middle / 100.0;
  }

  function MaxDistanceInPercents(params: SideConfig): real
  {
    params.spreadInPercents + params.limitDistanceInPercents / 2.0
      + (params.limitCount - 1) as real * params.limitDistanceInPercents
  }

  predicate IsTooClose(cfg: SymbolConfig, middle: real, o: Order)
  {
    AtMost(DistanceInPercents(o.side, middle, o.price), cfg.modifySpreadInPercents)
  }

  predicate IsTooFar(params: SideConfig, middle: real, o: Order)
  {
    AtLeast(DistanceInPercents(o.side, middle, o.price), MaxDistanceInPercents(params))
  }

  /** The cancel test of an active order on `side`. */
  predicate NeedsCancel(cfg: SymbolConfig, side: Side, middle: real, sourceAvailable: bool, o: Order)
  {
    var params := cfg.SideOf(side);
    IsTooClose(cfg, middle, o) || IsTooFar(params, middle, o) || !params.enabled || !sourceAvailable
  }

  /** The reason the tick logs: the side's `enabled` setting is passed where
      `getOrderCancellationReason` expects "side is disabled". */
  function LoggedReason(cfg: SymbolConfig, side: Side, middle: real, o: Order): CancelReason
  {
    var params := cfg.SideOf(side);
    GetOrderCancellationReason(IsTooClose(cfg, middle, o), IsTooFar(params, middle, o), params.enabled)
  }

  /** The reason with the flag passed the way round its name says. */
  function IntendedReason(cfg: SymbolConfig, side: Side, middle: real, o: Order): CancelReason
  {
    var params := cfg.SideOf(side);
    GetOrderCancellationReason(IsTooClose(cfg, middle, o), IsTooFar(params, middle, o), !params.enabled)
  }

  /** The logged reason is a condition that actually holds. */
  predicate ReasonHolds(cfg: SymbolConfig, side: Side, middle: real, sourceAvailable: bool, o: Order, reason: CancelReason)
  {
    match reason
    case OrderTooClose => IsTooClose(cfg, middle, o)
    case OrderTooFar => IsTooFar(cfg.SideOf(side), middle, o)
    case SideIsDisabled => !cfg.SideOf(side).enabled
    case PriceSourceUnavailable => !sourceAvailable
  }

  /** As written, an in-range order on an enabled side that is cancelled
      because the price source went away is logged as "side is disabled". */
  lemma LoggedReasonMislabels(cfg: SymbolConfig, side: Side, middle: real, o: Order)
    requires cfg.SideOf(side).enabled
    requires !IsTooClose(cfg, middle, o) && !IsTooFar(cfg.SideOf(side), middle, o)
    ensures NeedsCancel(cfg, side, middle, false, o)
    ensures LoggedReason(cfg, side, middle, o) == SideIsDisabled
    ensures !ReasonHolds(cfg, side, middle, false, o, LoggedReason(cfg, side, middle, o))
  {
  }

  /** With the flag the right way round, every cancelled order is logged
      with a reason that holds. */
  lemma IntendedReasonHolds(cfg: SymbolConfig, side: Side, middle: real, sourceAvailable: bool, o: Order)
    requires NeedsCancel(cfg, side, middle, sourceAvailable, o)
    ensures ReasonHolds(cfg, side, middle, sourceAvailable, o, IntendedReason(cfg, side, middle, o))
  {
  }

  /** With a middle price of 0 (no valid quote side) every positive bid is
      too close and not too far, and every positive ask too far and not
      too close. */
  lemma ZeroMiddleDistance(cfg: SymbolConfig, side: Side, o: Order)
    requires o.price > 0.0 && o.side == side
    ensures side == Bid ==> IsTooClose(cfg, 0.0, o) && !IsTooFar(cfg.SideOf(side), 0.0, o)
    ensures side == Bid ==> LoggedReason(cfg, side, 0.0, o) == OrderTooClose
    ensures side == Ask ==> IsTooFar(cfg.SideOf(side), 0.0, o) && !IsTooClose(cfg, 0.0, o)
    ensures side == Ask ==> LoggedReason(cfg, side, 0.0, o) == OrderTooFar
  {
  }

  // ---------------------------------------------------------------------
  // Filtering and sorting

  /** `Array.prototype.filter`. */
  function Filter<T(==,!new)>(s: seq<T>, p: T -> bool): (r: seq<T>)
    ensures forall x :: x in r <==> x in s && p(x)
    ensures |r| <= |s|
    decreases |s|
  {
    if s == [] then []
    else
      assert s == [s[0]] + s[1..];
      (if p(s[0]) then [s[0]] else []) + Filter(s[1..], p)
  }

  /** `orders.filter((o) => o.side == side)`. */
  function OfSide(orders: seq<Order>, side: Side): (r: seq<Order>)
    ensures forall o :: o in r <==> o in orders && o.side == side
  {
    Filter(orders, (o: Order) => o.side == side)
  }

  /** `ao.txnHash == o.txnHash` for some active order `ao`. */
  predicate SharesHash(o: Order, active: seq<Order>)
  {
    exists ao :: ao in active && ao.txnHash == o.txnHash
  }

  /** The pending orders that the executor has not yet seen on chain: none
      shares its transaction hash with an active order. */
  function WithoutActiveHashes(pending: seq<Order>, active: seq<Order>): (r: seq<Order>)
    ensures forall o :: o in r <==> o in pending && !SharesHash(o, active)
  {
    Filter(pending, (o: Order) => !SharesHash(o, active))
  }

  /** Some cancel action in `actions` names `o`'s order id. */
  predicate IsCancelledBy(o: Order, actions: seq<MakerAction>)
  {
    exists a :: a in actions && a.CancelAction? && a.orderId == o.orderId
  }

  function NotCancelled(orders: seq<Order>, actions: seq<MakerAction>): (r: seq<Order>)
    ensures forall o :: o in r <==> o in orders && !IsCancelledBy(o, actions)
  {
    Filter(orders, (o: Order) => !IsCancelledBy(o, actions))
  }

  predicate SortedBy(s: seq<Order>, key: Order -> real)
  {
    forall i, j :: 0 <= i < j < |s| ==> key(s[i]) <= key(s[j])
  }

  /** `o` placed before the first element whose key is not smaller. */
  function InsertBy(o: Order, s: seq<Order>, key: Order -> real): seq<Order>
    decreases |s|
  {
    if s == [] || key(o) <= key(s[0]) then [o] + s
    else [s[0]] + InsertBy(o, s[1..], key)
  }

  /** Inserting adds exactly `o`. */
  lemma {:induction false} InsertByPerm(o: Order, s: seq<Order>, key: Order -> real)
    ensures multiset(InsertBy(o, s, key)) == multiset(s) + multiset{o}
    decreases |s|
  {
    if s != [] && key(o) > key(s[0]) {
      InsertByPerm(o, s[1..], key);
      assert s == [s[0]] + s[1..];
    }
  }

  /** Inserting into an ordered list keeps it ordered. */
  lemma {:induction false} InsertBySorted(o: Order, s: seq<Order>, key: Order -> real)
    requires SortedBy(s, key)
    ensures SortedBy(InsertBy(o, s, key), key)
    decreases |s|
  {
    if s != [] && key(o) > key(s[0]) {
      SortedTail(s, key);
      InsertBySorted(o, s[1..], key);
      InsertByBound(o, s[1..], key, key(s[0]));
      SortedCons(s[0], InsertBy(o, s[1..], key), key);
    }
  }

  /** The tail of an ordered list is ordered, and no key in it is below
      the head's. */
  lemma SortedTail(s: seq<Order>, key: Order -> real)
    requires SortedBy(s, key) && s != []
    ensures SortedBy(s[1..], key)
    ensures forall k :: 0 <= k < |s[1..]| ==> key(s[0]) <= key(s[1..][k])
  {
    var tail := s[1..];
    forall i, j | 0 <= i < j < |tail|
      ensures key(tail[i]) <= key(tail[j])
    {
      assert tail[i] == s[i + 1] && tail[j] == s[j + 1];
    }
    forall k | 0 <= k < |tail|
      ensures key(s[0]) <= key(tail[k])
    {
      assert tail[k] == s[k + 1];
    }
  }

  /** A lower bound on every key, and on the inserted one, bounds every key
      after insertion. */
  lemma {:induction false} InsertByBound(o: Order, s: seq<Order>, key: Order -> real, lo: real)
    requires lo <= key(o)
    requires forall k :: 0 <= k < |s| ==> lo <= key(s[k])
    ensures forall k :: 0 <= k < |InsertBy(o, s, key)| ==> lo <= key(InsertBy(o, s, key)[k])
    decreases |s|
  {
    if s != [] && key(o) > key(s[0]) {
      var tail := s[1..];
      forall k | 0 <= k < |tail|
        ensures lo <= key(tail[k])
      {
        assert tail[k] == s[k + 1];
      }
      InsertByBound(o, tail, key, lo);
      var r := InsertBy(o, s, key);
      var t := InsertBy(o, tail, key);
      assert r == [s[0]] + t;
      forall k | 0 <= k < |r|
        ensures lo <= key(r[k])
      {
        if k > 0 {
          assert r[k] == t[k - 1];
        }
      }
    }
  }

  /** An element no greater than every key of an ordered list can go in
      front of it. */
  lemma SortedCons(x: Order, t: seq<Order>, key: Order -> real)
    requires SortedBy(t, key)
    requires forall k :: 0 <= k < |t| ==> key(x) <= key(t[k])
    ensures SortedBy([x] + t, key)
  {
    var r := [x] + t;
    forall i, j | 0 <= i < j < |r|
      ensures key(r[i]) <= key(r[j])
    {
      assert r[j] == t[j - 1];
      if i > 0 {
        assert r[i] == t[i - 1];
      }
    }
  }

  /** `Array.prototype.sort` with a comparator that subtracts keys, as an
      insertion sort: equal keys keep their input order. */
  function SortBy(s: seq<Order>, key: Order -> real): seq<Order>
    decreases |s|
  {
    if s == [] then [] else InsertBy(s[0], SortBy(s[1..], key), key)
  }

  /** The sorted list is ordered by key and holds the same orders. */
  lemma {:induction false} SortByFacts(s: seq<Order>, key: Order -> real)
    ensures SortedBy(SortBy(s, key), key)
    ensures multiset(SortBy(s, key)) == multiset(s)
    decreases |s|
  {
    if s != [] {
      var t := SortBy(s[1..], key);
      SortByFacts(s[1..], key);
      InsertBySorted(s[0], t, key);
      InsertByPerm(s[0], t, key);
      HeadTailMultiset(s);
    }
  }

  lemma HeadTailMultiset(s: seq<Order>)
    requires s != []
    ensures multiset(s) == multiset(s[1..]) + multiset{s[0]}
  {
    assert s == [s[0]] + s[1..];
  }

  function PriceKey(o: Order): real
  {
    o.price
  }

  /** Bids descending, asks ascending. */
  function BestFirstKey(side: Side): Order -> real
  {
    if side == Bid then (o: Order) => -o.price else (o: Order) => o.price
  }

  /** The side's active orders, ascending by price. */
  function SideActive(active: seq<Order>, side: Side): seq<Order>
  {
    SortBy(OfSide(active, side), PriceKey)
  }

  /** The side's active orders are exactly the active orders on that side,
      ascending by price. */
  lemma SideActiveMembers(active: seq<Order>, side: Side)
    ensures forall o :: o in SideActive(active, side) <==> o in active && o.side == side
    ensures SortedBy(SideActive(active, side), PriceKey)
  {
    var sa := SideActive(active, side);
    var os := OfSide(active, side);
    SortByFacts(os, PriceKey);
    forall o
      ensures o in sa <==> o in os
    {
      assert o in sa <==> o in multiset(sa);
      assert o in os <==> o in multiset(os);
    }
  }

  /** The retained orders of a side: the active ones not queued for cancel
      and the pending ones, best first. */
  function SideOrders(side: Side, sideActive: seq<Order>, cancels: seq<MakerAction>, sidePending: seq<Order>): seq<Order>
  {
    SortBy(NotCancelled(sideActive, cancels) + sidePending, BestFirstKey(side))
  }

  /** The retained list holds exactly the active orders not queued for
      cancel and the pending orders, and its first order has the highest bid
      or the lowest ask among them. */
  lemma SideOrdersBestFirst(side: Side, sideActive: seq<Order>, cancels: seq<MakerAction>, sidePending: seq<Order>)
    ensures var so := SideOrders(side, sideActive, cancels, sidePending);
      forall o :: o in so <==> (o in sideActive && !IsCancelledBy(o, cancels)) || o in sidePending
    ensures var so := SideOrders(side, sideActive, cancels, sidePending);
      so != [] ==> forall o :: o in so ==> if side == Bid then o.price <= so[0].price else so[0].price <= o.price
  {
    var all := NotCancelled(sideActive, cancels) + sidePending;
    var so := SideOrders(side, sideActive, cancels, sidePending);
    SortByFacts(all, BestFirstKey(side));
    forall o
      ensures o in so <==> o in all
    {
      assert o in so <==> o in multiset(so);
      assert o in all <==> o in multiset(all);
    }
    if so != [] {
      forall o | o in so
        ensures if side == Bid then o.price <= so[0].price else so[0].price <= o.price
      {
        var j :| 0 <= j < |so| && so[j] == o;
        if j > 0 {
          assert BestFirstKey(side)(so[0]) <= BestFirstKey(side)(so[j]);
        }
      }
    }
  }

  // ---------------------------------------------------------------------
  // The plan of one side

  function TargetBestPrice(side: Side, middle: real, spreadInPercents: real): real
  {
    if side == Bid then middle - middle * spreadInPercents / 100.0
    else middle + middle * spreadInPercents / 100.0
  }

  /** The target lies exactly `spreadInPercents` from the middle, on the
      outside of the book. */
  lemma TargetDistance(side: Side, middle: real, spreadInPercents: real)
    requires middle != 0.0
    ensures DistanceInPercents(side, middle, TargetBestPrice(side, middle, spreadInPercents)) == Finite(spreadInPercents)
  {
    var gap := middle * spreadInPercents / 100.0;
    assert gap / middle * 100.0 == spreadInPercents;
  }

  /** The cancel actions for a side's active orders, in their order. */
  function CancelActions(cfg: SymbolConfig, side: Side, middle: real, sourceAvailable: bool, orders: seq<Order>): seq<MakerAction>
    decreases |orders|
  {
    if orders == [] then []
    else CancelFor(cfg, side, middle, sourceAvailable, orders[0]) + CancelActions(cfg, side, middle, sourceAvailable, orders[1..])
  }

  /** The cancel action for one order, if it needs one. */
  function CancelFor(cfg: SymbolConfig, side: Side, middle: real, sourceAvailable: bool, o: Order): seq<MakerAction>
  {
    if NeedsCancel(cfg, side, middle, sourceAvailable, o) then [CancelAction(o.orderId, cfg.symbol, o.price)] else []
  }

  /** The notice for one order, if it needs a cancel. */
  function NoticeFor(cfg: SymbolConfig, side: Side, middle: real, sourceAvailable: bool, o: Order): seq<CancelNotice>
  {
    if NeedsCancel(cfg, side, middle, sourceAvailable, o) then [(o.orderId, LoggedReason(cfg, side, middle, o))] else []
  }

  /** The cancel actions are exactly one per order that passes the cancel
      test, under the configured symbol, at the order's price. */
  lemma {:induction false} CancelActionsMembers(cfg: SymbolConfig, side: Side, middle: real, sourceAvailable: bool, orders: seq<Order>)
    ensures var r := CancelActions(cfg, side, middle, sourceAvailable, orders);
      forall a :: a in r ==> a.CancelAction? && a.symbol == cfg.symbol
    ensures var r := CancelActions(cfg, side, middle, sourceAvailable, orders);
      forall o :: o in orders && NeedsCancel(cfg, side, middle, sourceAvailable, o) ==> CancelAction(o.orderId, cfg.symbol, o.price) in r
    ensures var r := CancelActions(cfg, side, middle, sourceAvailable, orders);
      forall a :: a in r ==>
        exists o :: o in orders && NeedsCancel(cfg, side, middle, sourceAvailable, o) && a == CancelAction(o.orderId, cfg.symbol, o.price)
    decreases |orders|
  {
    if orders != [] {
      var r := CancelActions(cfg, side, middle, sourceAvailable, orders);
      var head := CancelFor(cfg, side, middle, sourceAvailable, orders[0]);
      var rest := CancelActions(cfg, side, middle, sourceAvailable, orders[1..]);
      assert orders == [orders[0]] + orders[1..];
      CancelActionsMembers(cfg, side, middle, sourceAvailable, orders[1..]);
      assert r == head + rest;
      forall a | a in r
        ensures exists o :: o in orders && NeedsCancel(cfg, side, middle, sourceAvailable, o) && a == CancelAction(o.orderId, cfg.symbol, o.price)
      {
        if a in head {
          assert orders[0] in orders;
        } else {
          var o :| o in orders[1..] && NeedsCancel(cfg, side, middle, sourceAvailable, o) && a == CancelAction(o.orderId, cfg.symbol, o.price);
          assert o in orders;
        }
      }
      forall o | o in orders && NeedsCancel(cfg, side, middle, sourceAvailable, o)
        ensures CancelAction(o.orderId, cfg.symbol, o.price) in r
      {
        if o != orders[0] {
          assert o in orders[1..];
        }
      }
    }
  }

  /** The notices logged with the cancel actions, one per action. */
  function CancelNotices(cfg: SymbolConfig, side: Side, middle: real, sourceAvailable: bool, orders: seq<Order>): seq<CancelNotice>
    decreases |orders|
  {
    if orders == [] then []
    else NoticeFor(cfg, side, middle, sourceAvailable, orders[0]) + CancelNotices(cfg, side, middle, sourceAvailable, orders[1..])
  }

  /** One notice per cancel action: each order that needs a cancel is
      logged with the reason the tick computes for it, and nothing else is. */
  lemma {:induction false} CancelNoticesMatch(cfg: SymbolConfig, side: Side, middle: real, sourceAvailable: bool, orders: seq<Order>)
    ensures |CancelNotices(cfg, side, middle, sourceAvailable, orders)| == |CancelActions(cfg, side, middle, sourceAvailable, orders)|
    ensures var ns := CancelNotices(cfg, side, middle, sourceAvailable, orders);
      forall o :: o in orders && NeedsCancel(cfg, side, middle, sourceAvailable, o) ==> (o.orderId, LoggedReason(cfg, side, middle, o)) in ns
    ensures var ns := CancelNotices(cfg, side, middle, sourceAvailable, orders);
      forall n :: n in ns ==>
        exists o :: o in orders && NeedsCancel(cfg, side, middle, sourceAvailable, o) && n == (o.orderId, LoggedReason(cfg, side, middle, o))
    decreases |orders|
  {
    if orders != [] {
      assert orders == [orders[0]] + orders[1..];
      CancelNoticesMatch(cfg, side, middle, sourceAvailable, orders[1..]);
    }
  }

  /** What the best-order rule adds: the actions, the price the ladder
      starts from, and the side's best price for cross-trade control. */
  datatype BestStep = BestStep(actions: seq<MakerAction>, target: real, best: Option<real>)

  function BestOrderStep(cfg: SymbolConfig, side: Side, middle: real, sideOrders: seq<Order>,
                         truncate: (real, nat) -> real): BestStep
  {
    var params := cfg.SideOf(side);
    var target := TargetBestPrice(side, middle, params.spreadInPercents);
    var atTarget := PlaceAction(cfg.symbol, side, truncate(target, cfg.pricePrecision), params.qty);
    if |sideOrders| > 0 then
      var bestOrder := sideOrders[0];
      if AtLeast(DistanceInPercents(bestOrder.side, middle, bestOrder.price),
                 params.spreadInPercents * 2.0 - cfg.modifySpreadInPercents)
      then BestStep([atTarget], target, Some(bestOrder.price))
      else BestStep([], bestOrder.price, Some(bestOrder.price))
    else BestStep([atTarget], target, None)
  }

  function Sign(side: Side): real
  {
    if side == Bid then -1.0 else 1.0
  }

  /** One ladder step away from the middle: down for bids, up for asks. */
  function Outward(side: Side, price: real, step: real): real
  {
    if side == Bid then price - step else price + step
  }

  function Max(a: real, b: real): real
  {
    if a >= b then a else b
  }

  function Abs(x: real): real
  {
    if x >= 0.0 then x else -x
  }

  /** The ladder step: the limit distance as a price, truncated, and never
      below one unit of the last price digit. */
  function LadderIncrement(cfg: SymbolConfig, side: Side, middle: real, truncate: (real, nat) -> real): (r: real)
    ensures r >= 1.0 / Pow10(cfg.pricePrecision) > 0.0
  {
    var priceIncrement := middle * cfg.SideOf(side).limitDistanceInPercents / 100.0;
    Max(truncate(priceIncrement, cfg.pricePrecision), 1.0 / Pow10(cfg.pricePrecision))
  }

  /** The farthest price the ladder may reach. */
  function MaxPrice(side: Side, middle: real, params: SideConfig): real
  {
    var maxDistance := middle * MaxDistanceInPercents(params) / 100.0;
    if side == Bid then middle - maxDistance else middle + maxDistance
  }

  /** The ladder's limit lies exactly the maximum distance from the
      middle, on the outside of the book. */
  lemma MaxPriceDistance(side: Side, middle: real, params: SideConfig)
    requires middle != 0.0
    ensures DistanceInPercents(side, middle, MaxPrice(side, middle, params)) == Finite(MaxDistanceInPercents(params))
  {
    var gap := middle * MaxDistanceInPercents(params) / 100.0;
    assert gap / middle * 100.0 == MaxDistanceInPercents(params);
  }

  /** The ladder loop's condition. */
  predicate InLadderRange(side: Side, price: real, maxPrice: real)
  {
    if side == Bid then price > maxPrice else price < maxPrice
  }

  function LadderGap(side: Side, price: real, maxPrice: real): real
  {
    if side == Bid then price - maxPrice else maxPrice - price
  }

  /** How many steps, plus one, the ladder has left: it drops by at least
      one on every step, which is why the loop ends. */
  function LadderMeasure(side: Side, price: real, maxPrice: real, step: real): real
    requires step > 0.0
  {
    if InLadderRange(side, price, maxPrice) then LadderGap(side, price, maxPrice) / step + 1.0 else 0.0
  }

  lemma LadderStepDecreases(side: Side, price: real, maxPrice: real, step: real)
    requires step > 0.0 && InLadderRange(side, price, maxPrice)
    ensures 0.0 <= LadderMeasure(side, price, maxPrice, step)
    ensures LadderMeasure(side, Outward(side, price, step), maxPrice, step) <= LadderMeasure(side, price, maxPrice, step) - 1.0
  {
    var gap := LadderGap(side, price, maxPrice);
    assert gap / step > 0.0;
    var q := gap / step;
    assert q * step == gap;
    var r := (gap - step) / step;
    assert r * step == gap - step;
    assert (r - (q - 1.0)) * step == 0.0;
    ZeroFactor(r - (q - 1.0), step);
    assert LadderGap(side, Outward(side, price, step), maxPrice) == gap - step;
  }

  lemma MulNonNegative(a: real, b: real)
    requires a >= 0.0 && b >= 0.0
    ensures a * b >= 0.0
  {
  }

  lemma ZeroFactor(d: real, step: real)
    requires step > 0.0 && d * step == 0.0
    ensures d == 0.0
  {
  }

  /** `sideOrders.find(...) != null`: a retained order lies within `half`
      of `price`. */
  predicate HasOrderNear(sideOrders: seq<Order>, price: real, half: real)
  {
    exists i :: 0 <= i < |sideOrders| && Abs(sideOrders[i].price - price) <= half
  }

  function HalfLimitDistance(middle: real, params: SideConfig): real
  {
    middle * params.limitDistanceInPercents / 100.0 / 2.0
  }

  /** A ladder level where the loop places an order: inside the range and
      with no retained order near it. */
  predicate OpenLevel(cfg: SymbolConfig, side: Side, middle: real, sideOrders: seq<Order>, maxPrice: real, p: real)
  {
    InLadderRange(side, p, maxPrice) && !HasOrderNear(sideOrders, p, HalfLimitDistance(middle, cfg.SideOf(side)))
  }

  /** The ladder from `price` outwards in steps of `step`: each level
      inside the range with no retained order near it gets a place of the
      side's quantity at the truncated level price. */
  function Ladder(cfg: SymbolConfig, side: Side, middle: real, sideOrders: seq<Order>, price: real, step: real,
                  maxPrice: real, truncate: (real, nat) -> real): seq<MakerAction>
    requires step > 0.0
    decreases LadderMeasure(side, price, maxPrice, step)
  {
    if !InLadderRange(side, price, maxPrice) then []
    else
      LadderStepDecreases(side, price, maxPrice, step);
      LevelFor(cfg, side, middle, sideOrders, price, truncate)
        + Ladder(cfg, side, middle, sideOrders, Outward(side, price, step), step, maxPrice, truncate)
  }

  /** The place for one ladder level, unless a retained order is near it. */
  function LevelFor(cfg: SymbolConfig, side: Side, middle: real, sideOrders: seq<Order>, price: real,
                    truncate: (real, nat) -> real): seq<MakerAction>
  {
    var params := cfg.SideOf(side);
    if HasOrderNear(sideOrders, price, HalfLimitDistance(middle, params)) then []
    else [PlaceAction(cfg.symbol, side, truncate(price, cfg.pricePrecision), params.qty)]
  }

  /** One ladder level followed by the rest of the ladder is the ladder. */
  lemma LadderUnfold(acc: seq<MakerAction>, cfg: SymbolConfig, side: Side, middle: real, sideOrders: seq<Order>, price: real,
                     step: real, maxPrice: real, truncate: (real, nat) -> real)
    requires step > 0.0 && InLadderRange(side, price, maxPrice)
    ensures (acc + LevelFor(cfg, side, middle, sideOrders, price, truncate))
              + Ladder(cfg, side, middle, sideOrders, Outward(side, price, step), step, maxPrice, truncate)
            == acc + Ladder(cfg, side, middle, sideOrders, price, step, maxPrice, truncate)
  {
    AppendAssoc(acc, LevelFor(cfg, side, middle, sideOrders, price, truncate),
                Ladder(cfg, side, middle, sideOrders, Outward(side, price, step), step, maxPrice, truncate));
  }

  /** Every ladder action is a place of the side's quantity under the
      configured symbol, at the truncated price of an open level of the
      ladder's grid, `k` steps outwards from the start. */
  lemma {:induction false} LadderPlaces(cfg: SymbolConfig, side: Side, middle: real, sideOrders: seq<Order>, price: real,
                                        step: real, maxPrice: real, truncate: (real, nat) -> real)
    requires step > 0.0
    ensures var r := Ladder(cfg, side, middle, sideOrders, price, step, maxPrice, truncate);
      forall a :: a in r ==> a.PlaceAction? && a.symbol == cfg.symbol && a.side == side && a.qty == cfg.SideOf(side).qty
    ensures var r := Ladder(cfg, side, middle, sideOrders, price, step, maxPrice, truncate);
      forall a :: a in r ==>
        exists k: nat :: OpenLevel(cfg, side, middle, sideOrders, maxPrice, LadderLevel(side, price, step, k)) &&
                         a.price == truncate(LadderLevel(side, price, step, k), cfg.pricePrecision)
    decreases LadderMeasure(side, price, maxPrice, step)
  {
    if InLadderRange(side, price, maxPrice) {
      LadderStepDecreases(side, price, maxPrice, step);
      var next := Outward(side, price, step);
      LadderPlaces(cfg, side, middle, sideOrders, next, step, maxPrice, truncate);
      LadderLevelShift(side, price, step);
      assert LadderLevel(side, price, step, 0) == price;
      var r := Ladder(cfg, side, middle, sideOrders, price, step, maxPrice, truncate);
      var rest := Ladder(cfg, side, middle, sideOrders, next, step, maxPrice, truncate);
      var level := LevelFor(cfg, side, middle, sideOrders, price, truncate);
      assert r == level + rest;
      forall a | a in r
        ensures exists k: nat :: OpenLevel(cfg, side, middle, sideOrders, maxPrice, LadderLevel(side, price, step, k)) &&
                                 a.price == truncate(LadderLevel(side, price, step, k), cfg.pricePrecision)
      {
        if a in level {
          assert OpenLevel(cfg, side, middle, sideOrders, maxPrice, LadderLevel(side, price, step, 0));
        } else {
          assert a in rest;
          var k: nat :| OpenLevel(cfg, side, middle, sideOrders, maxPrice, LadderLevel(side, next, step, k)) &&
                        a.price == truncate(LadderLevel(side, next, step, k), cfg.pricePrecision);
          assert LadderLevel(side, next, step, k) == LadderLevel(side, price, step, k + 1);
        }
      }
    }
  }

  /** Conversely, every open level of the ladder's grid gets a place of the
      side's quantity at its truncated price. */
  lemma {:induction false} LadderOpenLevelsPlaced(cfg: SymbolConfig, side: Side, middle: real, sideOrders: seq<Order>,
                                                  price: real, step: real, maxPrice: real, truncate: (real, nat) -> real)
    requires step > 0.0
    ensures var r := Ladder(cfg, side, middle, sideOrders, price, step, maxPrice, truncate);
      forall k: nat :: OpenLevel(cfg, side, middle, sideOrders, maxPrice, LadderLevel(side, price, step, k)) ==>
        PlaceAction(cfg.symbol, side, truncate(LadderLevel(side, price, step, k), cfg.pricePrecision), cfg.SideOf(side).qty) in r
    decreases LadderMeasure(side, price, maxPrice, step)
  {
    var r := Ladder(cfg, side, middle, sideOrders, price, step, maxPrice, truncate);
    if !InLadderRange(side, price, maxPrice) {
      forall k: nat
        ensures !InLadderRange(side, LadderLevel(side, price, step, k), maxPrice)
      {
        MulNonNegative(k as real, step);
      }
    } else {
      LadderStepDecreases(side, price, maxPrice, step);
      var next := Outward(side, price, step);
      LadderOpenLevelsPlaced(cfg, side, middle, sideOrders, next, step, maxPrice, truncate);
      LadderLevelShift(side, price, step);
      var rest := Ladder(cfg, side, middle, sideOrders, next, step, maxPrice, truncate);
      var level := LevelFor(cfg, side, middle, sideOrders, price, truncate);
      assert r == level + rest;
      forall k: nat | OpenLevel(cfg, side, middle, sideOrders, maxPrice, LadderLevel(side, price, step, k))
        ensures PlaceAction(cfg.symbol, side, truncate(LadderLevel(side, price, step, k), cfg.pricePrecision),
                            cfg.SideOf(side).qty) in r
      {
        if k == 0 {
          assert LadderLevel(side, price, step, 0) == price;
          assert level == [PlaceAction(cfg.symbol, side, truncate(price, cfg.pricePrecision), cfg.SideOf(side).qty)];
        } else {
          assert LadderLevel(side, price, step, k) == LadderLevel(side, next, step, k - 1);
        }
      }
    }
  }

  /** One step outwards shifts the ladder's grid by one level. */
  lemma LadderLevelShift(side: Side, price: real, step: real)
    ensures forall k: nat :: LadderLevel(side, Outward(side, price, step), step, k) == LadderLevel(side, price, step, k + 1)
  {
    forall k: nat
      ensures LadderLevel(side, Outward(side, price, step), step, k) == LadderLevel(side, price, step, k + 1)
    {
      assert (k + 1) as real * step == k as real * step + step;
    }
  }

  /** The `k`-th level of a ladder that starts at `price`. */
  function LadderLevel(side: Side, price: real, step: real, k: nat): real
  {
    if side == Bid then price - k as real * step else price + k as real * step
  }

  /** Every level of the ladder inside the range already has a retained
      order within half the limit distance. */
  ghost predicate LadderCovered(cfg: SymbolConfig, side: Side, middle: real, sideOrders: seq<Order>, price: real, step: real,
                          maxPrice: real)
  {
    forall k: nat :: InLadderRange(side, LadderLevel(side, price, step, k), maxPrice) ==>
      HasOrderNear(sideOrders, LadderLevel(side, price, step, k), HalfLimitDistance(middle, cfg.SideOf(side)))
  }

  /** The ladder queues nothing exactly when every one of its levels inside
      the range is already covered by a retained order. */
  lemma {:induction false} LadderEmptyIffCovered(cfg: SymbolConfig, side: Side, middle: real, sideOrders: seq<Order>,
                                                 price: real, step: real, maxPrice: real, truncate: (real, nat) -> real)
    requires step > 0.0
    ensures Ladder(cfg, side, middle, sideOrders, price, step, maxPrice, truncate) == [] <==>
            LadderCovered(cfg, side, middle, sideOrders, price, step, maxPrice)
    decreases LadderMeasure(side, price, maxPrice, step)
  {
    var half := HalfLimitDistance(middle, cfg.SideOf(side));
    if !InLadderRange(side, price, maxPrice) {
      forall k: nat
        ensures !InLadderRange(side, LadderLevel(side, price, step, k), maxPrice)
      {
        MulNonNegative(k as real, step);
      }
    } else {
      LadderStepDecreases(side, price, maxPrice, step);
      var next := Outward(side, price, step);
      LadderEmptyIffCovered(cfg, side, middle, sideOrders, next, step, maxPrice, truncate);
      forall k: nat
        ensures LadderLevel(side, next, step, k) == LadderLevel(side, price, step, k + 1)
      {
        assert (k + 1) as real * step == k as real * step + step;
      }
      assert LadderLevel(side, price, step, 0) == price;
      var covered := LadderCovered(cfg, side, middle, sideOrders, price, step, maxPrice);
      var nextCovered := LadderCovered(cfg, side, middle, sideOrders, next, step, maxPrice);
      if covered {
        assert HasOrderNear(sideOrders, LadderLevel(side, price, step, 0), half);
        forall k: nat | InLadderRange(side, LadderLevel(side, next, step, k), maxPrice)
          ensures HasOrderNear(sideOrders, LadderLevel(side, next, step, k), half)
        {
          assert LadderLevel(side, next, step, k) == LadderLevel(side, price, step, k + 1);
        }
      }
      if HasOrderNear(sideOrders, price, half) && nextCovered {
        forall k: nat | InLadderRange(side, LadderLevel(side, price, step, k), maxPrice)
          ensures HasOrderNear(sideOrders, LadderLevel(side, price, step, k), half)
        {
          if k > 0 {
            assert LadderLevel(side, price, step, k) == LadderLevel(side, next, step, k - 1);
          }
        }
      }
    }
  }

  /** With no retained orders, a ladder whose start lies between `n - 1`
      and `n` steps inside the range queues exactly `n` places. */
  lemma {:induction false} LadderLength(cfg: SymbolConfig, side: Side, middle: real, price: real, step: real,
                                        maxPrice: real, truncate: (real, nat) -> real, n: nat)
    requires step > 0.0
    requires (n as real - 1.0) * step < LadderGap(side, price, maxPrice) <= n as real * step
    ensures |Ladder(cfg, side, middle, [], price, step, maxPrice, truncate)| == n
    decreases n
  {
    LadderCount(side, price, maxPrice, step, n);
    if n > 0 {
      var next := Outward(side, price, step);
      LadderLength(cfg, side, middle, next, step, maxPrice, truncate, n - 1);
      LadderUnfold([], cfg, side, middle, [], price, step, maxPrice, truncate);
      assert |LevelFor(cfg, side, middle, [], price, truncate)| == 1;
    }
  }

  /** The arithmetic of one ladder step: a start between `n - 1` and `n`
      steps inside the range is inside it exactly when `n > 0`, and the
      next level lies between `n - 2` and `n - 1` steps inside. */
  lemma LadderCount(side: Side, price: real, maxPrice: real, step: real, n: nat)
    requires step > 0.0
    requires (n as real - 1.0) * step < LadderGap(side, price, maxPrice) <= n as real * step
    ensures InLadderRange(side, price, maxPrice) <==> n > 0
    ensures n > 0 ==>
      var next := LadderGap(side, Outward(side, price, step), maxPrice);
      ((n - 1) as real - 1.0) * step < next <= (n - 1) as real * step
  {
    if n > 0 {
      MulNonNegative(n as real - 1.0, step);
      assert LadderGap(side, Outward(side, price, step), maxPrice) == LadderGap(side, price, maxPrice) - step;
      assert ((n - 1) as real - 1.0) * step == (n as real - 1.0) * step - step;
      assert (n - 1) as real * step == n as real * step - step;
    }
  }

  /** What an enabled side queues after its cancels: the best-order place,
      if any, and then the ladder from the start price outwards. */
  function PlacingActions(cfg: SymbolConfig, side: Side, middle: real, sideOrders: seq<Order>,
                          truncate: (real, nat) -> real): seq<MakerAction>
  {
    var b := BestOrderStep(cfg, side, middle, sideOrders, truncate);
    var step := LadderIncrement(cfg, side, middle, truncate);
    b.actions + Ladder(cfg, side, middle, sideOrders, Outward(side, b.target, step), step,
                       MaxPrice(side, middle, cfg.SideOf(side)), truncate)
  }

  /** Everything an enabled side queues after its cancels is a place of
      the side's quantity under the configured symbol. */
  lemma PlacingActionsShape(cfg: SymbolConfig, side: Side, middle: real, sideOrders: seq<Order>,
                            truncate: (real, nat) -> real)
    ensures forall a :: a in PlacingActions(cfg, side, middle, sideOrders, truncate) ==>
      a.PlaceAction? && a.symbol == cfg.symbol && a.side == side && a.qty == cfg.SideOf(side).qty
  {
    var b := BestOrderStep(cfg, side, middle, sideOrders, truncate);
    var step := LadderIncrement(cfg, side, middle, truncate);
    LadderPlaces(cfg, side, middle, sideOrders, Outward(side, b.target, step), step, MaxPrice(side, middle, cfg.SideOf(side)), truncate);
  }

  /** The plan of one side: its actions, its cancel notices, its best price,
      and whether it went on past the cancels (the side is enabled and the
      source available). */
  datatype SidePlan = SidePlan(actions: seq<MakerAction>, notices: seq<CancelNotice>, best: Option<real>, placing: bool)

  function PlanSide(cfg: SymbolConfig, side: Side, middle: real, sourceAvailable: bool,
                    active: seq<Order>, pending: seq<Order>, truncate: (real, nat) -> real): SidePlan
  {
    var sideActive := SideActive(active, side);
    var cancels := CancelActions(cfg, side, middle, sourceAvailable, sideActive);
    var notices := CancelNotices(cfg, side, middle, sourceAvailable, sideActive);
    if !cfg.SideOf(side).enabled || !sourceAvailable then SidePlan(cancels, notices, None, false)
    else
      var sideOrders := SideOrders(side, sideActive, cancels, OfSide(pending, side));
      SidePlan(cancels + PlacingActions(cfg, side, middle, sideOrders, truncate), notices,
               BestOrderStep(cfg, side, middle, sideOrders, truncate).best, true)
  }

  /** A side places only when it is enabled and the source available;
      otherwise it has cancels only and no best price. Every action is under
      the configured symbol, every place is on the side with the side's
      quantity, and the cancels are those of the cancel loop. */
  lemma PlanShape(cfg: SymbolConfig, side: Side, middle: real, sourceAvailable: bool,
                  active: seq<Order>, pending: seq<Order>, truncate: (real, nat) -> real)
    ensures var r := PlanSide(cfg, side, middle, sourceAvailable, active, pending, truncate);
      && (r.placing <==> cfg.SideOf(side).enabled && sourceAvailable)
      && (!r.placing ==> r.best.None? && forall a :: a in r.actions ==> a.CancelAction?)
      && (forall a :: a in r.actions ==> a.symbol == cfg.symbol)
      && (forall a :: a in r.actions && a.PlaceAction? ==> a.side == side && a.qty == cfg.SideOf(side).qty)
      && (forall a :: a in r.actions && a.CancelAction? ==>
            a in CancelActions(cfg, side, middle, sourceAvailable, SideActive(active, side)))
  {
    var sideActive := SideActive(active, side);
    var cancels := CancelActions(cfg, side, middle, sourceAvailable, sideActive);
    CancelActionsMembers(cfg, side, middle, sourceAvailable, sideActive);
    if cfg.SideOf(side).enabled && sourceAvailable {
      var sideOrders := SideOrders(side, sideActive, cancels, OfSide(pending, side));
      PlacingActionsShape(cfg, side, middle, sideOrders, truncate);
    }
  }

  /** The actions of a plan split into its cancels and what it places. */
  lemma PlanActions(cfg: SymbolConfig, side: Side, middle: real, sourceAvailable: bool,
                    active: seq<Order>, pending: seq<Order>, truncate: (real, nat) -> real)
    ensures var r := PlanSide(cfg, side, middle, sourceAvailable, active, pending, truncate);
      var cancels := CancelActions(cfg, side, middle, sourceAvailable, SideActive(active, side));
      && (forall a :: a in cancels ==> a in r.actions)
      && (forall a :: a in r.actions && a.CancelAction? ==> a in cancels)
  {
    PlanShape(cfg, side, middle, sourceAvailable, active, pending, truncate);
  }

  /** An active order of the side is queued for cancel exactly when it
      passes the cancel test (order ids being distinct, as the executor's
      active orders are). */
  lemma PlanCancelsIff(cfg: SymbolConfig, side: Side, middle: real, sourceAvailable: bool,
                       active: seq<Order>, pending: seq<Order>, truncate: (real, nat) -> real, o: Order)
    requires forall x, y :: x in active && y in active && x.orderId == y.orderId ==> x == y
    requires o in active && o.side == side
    ensures IsCancelledBy(o, PlanSide(cfg, side, middle, sourceAvailable, active, pending, truncate).actions) <==>
      NeedsCancel(cfg, side, middle, sourceAvailable, o)
  {
    var sideActive := SideActive(active, side);
    var cancels := CancelActions(cfg, side, middle, sourceAvailable, sideActive);
    var actions := PlanSide(cfg, side, middle, sourceAvailable, active, pending, truncate).actions;
    PlanActions(cfg, side, middle, sourceAvailable, active, pending, truncate);
    CancelActionsMembers(cfg, side, middle, sourceAvailable, sideActive);
    SideActiveMembers(active, side);
    if NeedsCancel(cfg, side, middle, sourceAvailable, o) {
      assert CancelAction(o.orderId, cfg.symbol, o.price) in cancels;
      assert CancelAction(o.orderId, cfg.symbol, o.price) in actions;
    }
    if IsCancelledBy(o, actions) {
      var a :| a in actions && a.CancelAction? && a.orderId == o.orderId;
      assert a in cancels;
      var x :| x in sideActive && NeedsCancel(cfg, side, middle, sourceAvailable, x) &&
               a == CancelAction(x.orderId, cfg.symbol, x.price);
      assert x == o;
    }
  }

  /** The best-order rule on the retained list: with no retained order a
      place at the truncated target is queued and there is no best price;
      otherwise the best price is the first retained order's (the highest
      bid or lowest ask), and a place at the truncated target is queued
      when that order is at least `2 * spread - modifySpread` from the
      middle. */
  lemma BestOrderRule(cfg: SymbolConfig, side: Side, middle: real, sourceAvailable: bool,
                      active: seq<Order>, pending: seq<Order>, truncate: (real, nat) -> real)
    requires cfg.SideOf(side).enabled && sourceAvailable
    ensures var plan := PlanSide(cfg, side, middle, sourceAvailable, active, pending, truncate);
      var sideActive := SideActive(active, side);
      var so := SideOrders(side, sideActive, CancelActions(cfg, side, middle, sourceAvailable, sideActive), OfSide(pending, side));
      var params := cfg.SideOf(side);
      var atTarget := PlaceAction(cfg.symbol, side, truncate(TargetBestPrice(side, middle, params.spreadInPercents), cfg.pricePrecision), params.qty);
      && (so == [] ==> plan.best.None? && atTarget in plan.actions)
      && (so != [] ==> plan.best == Some(so[0].price))
      && (so != [] ==> forall o :: o in so ==> if side == Bid then o.price <= so[0].price else so[0].price <= o.price)
      && (so != [] && AtLeast(DistanceInPercents(so[0].side, middle, so[0].price), params.spreadInPercents * 2.0 - cfg.modifySpreadInPercents)
          ==> atTarget in plan.actions)
      && (so != [] && !AtLeast(DistanceInPercents(so[0].side, middle, so[0].price), params.spreadInPercents * 2.0 - cfg.modifySpreadInPercents)
          ==> BestOrderStep(cfg, side, middle, so, truncate) == BestStep([], so[0].price, Some(so[0].price)))
  {
    var sideActive := SideActive(active, side);
    SideOrdersBestFirst(side, sideActive, CancelActions(cfg, side, middle, sourceAvailable, sideActive), OfSide(pending, side));
  }

  /** A side whose best retained order is near enough to keep queues
      nothing at all exactly when every level of the ladder from that order
      outwards already has a retained order near it (bids resting at every
      ladder price, active or pending, leave the side with no place). */
  lemma KeptBestCoveredQueuesNothing(cfg: SymbolConfig, side: Side, middle: real, sideOrders: seq<Order>,
                                     truncate: (real, nat) -> real)
    requires sideOrders != []
    requires !AtLeast(DistanceInPercents(sideOrders[0].side, middle, sideOrders[0].price),
                      cfg.SideOf(side).spreadInPercents * 2.0 - cfg.modifySpreadInPercents)
    ensures var step := LadderIncrement(cfg, side, middle, truncate);
      PlacingActions(cfg, side, middle, sideOrders, truncate) == [] <==>
      LadderCovered(cfg, side, middle, sideOrders, Outward(side, sideOrders[0].price, step), step,
                    MaxPrice(side, middle, cfg.SideOf(side)))
  {
    var step := LadderIncrement(cfg, side, middle, truncate);
    assert BestOrderStep(cfg, side, middle, sideOrders, truncate).actions == [];
    assert BestOrderStep(cfg, side, middle, sideOrders, truncate).target == sideOrders[0].price;
    LadderEmptyIffCovered(cfg, side, middle, sideOrders, Outward(side, sideOrders[0].price, step), step,
                          MaxPrice(side, middle, cfg.SideOf(side)), truncate);
  }

  // ---------------------------------------------------------------------
  // Dispatch

  /** The tick's `bestPrices` record. */
  datatype BestPrices = BestPrices(bid: Option<real>, ask: Option<real>)
  {
    function Get(side: Side): Option<real>
    {
      if side == Bid then bid else ask
    }

    function With(side: Side, price: real): (r: BestPrices)
      ensures r.Get(side) == Some(price) && r.Get(Opposite(side)) == Get(Opposite(side))
    {
      if side == Bid then BestPrices(Some(price), ask) else BestPrices(bid, Some(price))
    }
  }

  /** A place that would trade against the other side's best order. */
  predicate Crosses(a: MakerAction, bests: BestPrices)
    requires a.PlaceAction?
  {
    var opposite := bests.Get(Opposite(a.side));
    opposite.Some? && (if a.side == Bid then a.price >= opposite.value else a.price <= opposite.value)
  }

  /** The calls for one action. */
  function CallsFor(a: MakerAction, bests: BestPrices, isOrderCanceled: (string, string) -> bool): seq<ExecutorCall>
  {
    match a
    case CancelAction(orderId, symbol, _) =>
      if isOrderCanceled(symbol, orderId) then [] else [CancelCall(orderId, symbol)]
    case PlaceAction(symbol, side, price, qty) =>
      if Crosses(a, bests) then [] else [SendCall(symbol, price, qty, side)]
  }

  /** The dispatch loop over a side's actions, in order. */
  function Dispatch(actions: seq<MakerAction>, bests: BestPrices, isOrderCanceled: (string, string) -> bool): seq<ExecutorCall>
    decreases |actions|
  {
    if actions == [] then [] else CallsFor(actions[0], bests, isOrderCanceled) + Dispatch(actions[1..], bests, isOrderCanceled)
  }

  /** The dispatch sends a cancel for every cancel action whose order is not
      already being cancelled and a place for every place action that does
      not cross the other side's best, and makes no other call. */
  lemma {:induction false} DispatchCalls(actions: seq<MakerAction>, bests: BestPrices, isOrderCanceled: (string, string) -> bool)
    ensures var r := Dispatch(actions, bests, isOrderCanceled);
      forall a :: a in actions && a.CancelAction? && !isOrderCanceled(a.symbol, a.orderId) ==> CancelCall(a.orderId, a.symbol) in r
    ensures var r := Dispatch(actions, bests, isOrderCanceled);
      forall a :: a in actions && a.PlaceAction? && !Crosses(a, bests) ==> SendCall(a.symbol, a.price, a.qty, a.side) in r
    ensures var r := Dispatch(actions, bests, isOrderCanceled);
      forall c :: c in r && c.SendCall? ==>
        PlaceAction(c.symbol, c.side, c.price, c.qty) in actions && !Crosses(PlaceAction(c.symbol, c.side, c.price, c.qty), bests)
    ensures var r := Dispatch(actions, bests, isOrderCanceled);
      forall c :: c in r && c.CancelCall? ==>
        !isOrderCanceled(c.symbol, c.orderId) && exists a :: a in actions && a.CancelAction? && a.orderId == c.orderId && a.symbol == c.symbol
    ensures |Dispatch(actions, bests, isOrderCanceled)| <= |actions|
    decreases |actions|
  {
    if actions != [] {
      DispatchCalls(actions[1..], bests, isOrderCanceled);
      assert actions == [actions[0]] + actions[1..];
    }
  }

  /** When no action is a cancel and no place can cross, every action
      becomes one send, in the order of the actions. */
  lemma {:induction false} DispatchSendsAll(actions: seq<MakerAction>, bests: BestPrices, isOrderCanceled: (string, string) -> bool)
    requires forall a :: a in actions ==> a.PlaceAction? && bests.Get(Opposite(a.side)).None?
    ensures |Dispatch(actions, bests, isOrderCanceled)| == |actions|
    ensures forall i :: 0 <= i < |actions| ==>
      Dispatch(actions, bests, isOrderCanceled)[i] == SendCall(actions[i].symbol, actions[i].price, actions[i].qty, actions[i].side)
    decreases |actions|
  {
    if actions != [] {
      assert actions[0] in actions;
      assert forall a :: a in actions[1..] ==> a in actions;
      DispatchSendsAll(actions[1..], bests, isOrderCanceled);
      var r := Dispatch(actions, bests, isOrderCanceled);
      assert r == [SendCall(actions[0].symbol, actions[0].price, actions[0].qty, actions[0].side)]
                  + Dispatch(actions[1..], bests, isOrderCanceled);
      forall i | 0 < i < |actions|
        ensures r[i] == SendCall(actions[i].symbol, actions[i].price, actions[i].qty, actions[i].side)
      {
        assert actions[i] == actions[1..][i - 1];
      }
    }
  }

  // ---------------------------------------------------------------------
  // The tick

  /** What one side contributes: its calls, its notices and the best
      prices after it. */
  datatype SideOutcome = SideOutcome(calls: seq<ExecutorCall>, notices: seq<CancelNotice>, bests: BestPrices)

  /** One pass of the loop over the sides. The side's best price is
      recorded before its dispatch. With `sendSkippedCancels` false, as the
      source is written, a side that does not place skips its dispatch
      too; with it true the queued cancels of such a side are dispatched. */
  function SideStep(cfg: SymbolConfig, side: Side, middle: real, sourceAvailable: bool, active: seq<Order>,
                    pending: seq<Order>, bests: BestPrices, isOrderCanceled: (string, string) -> bool,
                    truncate: (real, nat) -> real, sendSkippedCancels: bool): SideOutcome
  {
    var plan := PlanSide(cfg, side, middle, sourceAvailable, active, pending, truncate);
    if !plan.placing then
      SideOutcome(if sendSkippedCancels then Dispatch(plan.actions, bests, isOrderCanceled) else [], plan.notices, bests)
    else
      var b := if plan.best.Some? then bests.With(side, plan.best.value) else bests;
      SideOutcome(Dispatch(plan.actions, b, isOrderCanceled), plan.notices, b)
  }

  /** What a tick produces: the executor calls and the cancel notices. */
  datatype TickOutput = TickOutput(calls: seq<ExecutorCall>, notices: seq<CancelNotice>)

  /** `onTick` on the executor's active and pending orders of the symbol:
      nothing unless the executor is available and a top of book has been
      seen; otherwise the bid side and then the ask side, from the middle
      price of the last top of book and the pending orders not yet seen
      active. */
  function Tick(cfg: SymbolConfig, executorAvailable: bool, lastTopOfBook: Option<Quote>, sourceAvailable: bool,
                active: seq<Order>, pending: seq<Order>, isOrderCanceled: (string, string) -> bool,
                truncate: (real, nat) -> real, sendSkippedCancels: bool): (r: TickOutput)
    ensures !executorAvailable || lastTopOfBook.None? ==> r.calls == [] && r.notices == []
  {
    if !executorAvailable || lastTopOfBook.None? then TickOutput([], [])
    else
      var middle := lastTopOfBook.value.MiddlePrice();
      var pend := WithoutActiveHashes(pending, active);
      var bidOut := SideStep(cfg, Bid, middle, sourceAvailable, active, pend, BestPrices(None, None), isOrderCanceled, truncate, sendSkippedCancels);
      var askOut := SideStep(cfg, Ask, middle, sourceAvailable, active, pend, bidOut.bests, isOrderCanceled, truncate, sendSkippedCancels);
      TickOutput(bidOut.calls + askOut.calls, bidOut.notices + askOut.notices)
  }

  /** The bid side is dispatched before the ask side has a best price, so
      no bid place is ever held back as a cross trade. */
  lemma BidPlacesNeverSuppressed(cfg: SymbolConfig, lastTopOfBook: Option<Quote>, sourceAvailable: bool,
                                 active: seq<Order>, pending: seq<Order>, isOrderCanceled: (string, string) -> bool,
                                 truncate: (real, nat) -> real, sendSkippedCancels: bool, a: MakerAction)
    requires lastTopOfBook.Some?
    requires a in PlanSide(cfg, Bid, lastTopOfBook.value.MiddlePrice(), sourceAvailable, active,
                           WithoutActiveHashes(pending, active), truncate).actions
    requires a.PlaceAction?
    ensures SendCall(a.symbol, a.price, a.qty, Bid) in
      Tick(cfg, true, lastTopOfBook, sourceAvailable, active, pending, isOrderCanceled, truncate, sendSkippedCancels).calls
  {
    var middle := lastTopOfBook.value.MiddlePrice();
    var pend := WithoutActiveHashes(pending, active);
    var plan := PlanSide(cfg, Bid, middle, sourceAvailable, active, pend, truncate);
    PlanShape(cfg, Bid, middle, sourceAvailable, active, pend, truncate);
    assert plan.placing && a.side == Bid;
    var b := if plan.best.Some? then BestPrices(None, None).With(Bid, plan.best.value) else BestPrices(None, None);
    assert b.Get(Ask).None?;
    assert !Crosses(a, b);
    DispatchCalls(plan.actions, b, isOrderCanceled);
    var bidOut := SideStep(cfg, Bid, middle, sourceAvailable, active, pend, BestPrices(None, None), isOrderCanceled, truncate, sendSkippedCancels);
    assert bidOut.calls == Dispatch(plan.actions, b, isOrderCanceled);
    assert SendCall(a.symbol, a.price, a.qty, Bid) in bidOut.calls;
  }

  /** No ask is sent at or below the best bid the bid side recorded. */
  lemma AsksNeverCrossBestBid(cfg: SymbolConfig, lastTopOfBook: Option<Quote>, sourceAvailable: bool,
                              active: seq<Order>, pending: seq<Order>, isOrderCanceled: (string, string) -> bool,
                              truncate: (real, nat) -> real, sendSkippedCancels: bool, c: ExecutorCall)
    requires lastTopOfBook.Some?
    requires c in Tick(cfg, true, lastTopOfBook, sourceAvailable, active, pending, isOrderCanceled, truncate, sendSkippedCancels).calls
    requires c.SendCall? && c.side == Ask
    ensures var bidPlan := PlanSide(cfg, Bid, lastTopOfBook.value.MiddlePrice(), sourceAvailable, active,
                                    WithoutActiveHashes(pending, active), truncate);
      bidPlan.placing && bidPlan.best.Some? ==> c.price > bidPlan.best.value
  {
    var middle := lastTopOfBook.value.MiddlePrice();
    var pend := WithoutActiveHashes(pending, active);
    var bidPlan := PlanSide(cfg, Bid, middle, sourceAvailable, active, pend, truncate);
    var bidOut := SideStep(cfg, Bid, middle, sourceAvailable, active, pend, BestPrices(None, None), isOrderCanceled, truncate, sendSkippedCancels);
    var askPlan := PlanSide(cfg, Ask, middle, sourceAvailable, active, pend, truncate);
    var askOut := SideStep(cfg, Ask, middle, sourceAvailable, active, pend, bidOut.bests, isOrderCanceled, truncate, sendSkippedCancels);
    var bidBests := if bidPlan.best.Some? then BestPrices(None, None).With(Bid, bidPlan.best.value) else BestPrices(None, None);
    PlanShape(cfg, Bid, middle, sourceAvailable, active, pend, truncate);
    DispatchCalls(bidPlan.actions, bidBests, isOrderCanceled);
    if c in bidOut.calls {
      assert c.side == Bid;
    } else {
      assert c in askOut.calls;
      var askBests := if askPlan.best.Some? then bidOut.bests.With(Ask, askPlan.best.value) else bidOut.bests;
      DispatchCalls(askPlan.actions, askBests, isOrderCanceled);
      DispatchCalls(askPlan.actions, bidOut.bests, isOrderCanceled);
    }
  }

  /** As written: while the price source is unavailable a tick sends
      nothing, although every active order is queued for cancel and logged. */
  lemma SourceDownSendsNothing(cfg: SymbolConfig, lastTopOfBook: Option<Quote>, active: seq<Order>, pending: seq<Order>,
                               isOrderCanceled: (string, string) -> bool, truncate: (real, nat) -> real, o: Order)
    requires lastTopOfBook.Some? && o in active
    ensures var out := Tick(cfg, true, lastTopOfBook, false, active, pending, isOrderCanceled, truncate, false);
      out.calls == [] && (o.orderId, LoggedReason(cfg, o.side, lastTopOfBook.value.MiddlePrice(), o)) in out.notices
  {
    var middle := lastTopOfBook.value.MiddlePrice();
    var sideActive := SideActive(active, o.side);
    SideActiveMembers(active, o.side);
    CancelNoticesMatch(cfg, o.side, middle, false, sideActive);
  }

  /** Corrected: while the price source is unavailable a tick sends a
      cancel for every active order not already being cancelled, and
      places nothing. */
  lemma SourceDownCancelsAll(cfg: SymbolConfig, lastTopOfBook: Option<Quote>, active: seq<Order>, pending: seq<Order>,
                             isOrderCanceled: (string, string) -> bool, truncate: (real, nat) -> real)
    requires lastTopOfBook.Some?
    ensures var out := Tick(cfg, true, lastTopOfBook, false, active, pending, isOrderCanceled, truncate, true);
      && (forall o :: o in active && !isOrderCanceled(cfg.symbol, o.orderId) ==> CancelCall(o.orderId, cfg.symbol) in out.calls)
      && (forall c :: c in out.calls ==> c.CancelCall?)
  {
    var middle := lastTopOfBook.value.MiddlePrice();
    var pend := WithoutActiveHashes(pending, active);
    var none := BestPrices(None, None);
    SourceDownSide(cfg, Bid, middle, active, pend, none, isOrderCanceled, truncate);
    SourceDownSide(cfg, Ask, middle, active, pend, none, isOrderCanceled, truncate);
  }

  /** One side of the corrected tick while the price source is unavailable:
      a cancel for each of the side's active orders not already being
      cancelled, nothing else, and the best prices left as they were. */
  lemma SourceDownSide(cfg: SymbolConfig, side: Side, middle: real, active: seq<Order>, pending: seq<Order>,
                       bests: BestPrices, isOrderCanceled: (string, string) -> bool, truncate: (real, nat) -> real)
    ensures var out := SideStep(cfg, side, middle, false, active, pending, bests, isOrderCanceled, truncate, true);
      && out.bests == bests
      && (forall c :: c in out.calls ==> c.CancelCall?)
      && (forall o :: o in active && o.side == side && !isOrderCanceled(cfg.symbol, o.orderId) ==>
            CancelCall(o.orderId, cfg.symbol) in out.calls)
  {
    var plan := PlanSide(cfg, side, middle, false, active, pending, truncate);
    var sideActive := SideActive(active, side);
    PlanShape(cfg, side, middle, false, active, pending, truncate);
    PlanActions(cfg, side, middle, false, active, pending, truncate);
    DispatchCalls(plan.actions, bests, isOrderCanceled);
    CancelActionsMembers(cfg, side, middle, false, sideActive);
    SideActiveMembers(active, side);
    forall o | o in active && o.side == side && !isOrderCanceled(cfg.symbol, o.orderId)
      ensures CancelCall(o.orderId, cfg.symbol) in Dispatch(plan.actions, bests, isOrderCanceled)
    {
      assert CancelAction(o.orderId, cfg.symbol, o.price) in plan.actions;
    }
  }

  /** The ladder's start, one step `inc` beyond the untruncated target,
      lies `limitCount - 0.5` limit distances minus that step inside the
      limit price. */
  lemma EmptyLadderGap(side: Side, middle: real, params: SideConfig, inc: real)
    ensures var s := middle * params.limitDistanceInPercents / 100.0;
      LadderGap(side, Outward(side, TargetBestPrice(side, middle, params.spreadInPercents), inc),
                MaxPrice(side, middle, params)) == s * (params.limitCount as real - 0.5) - inc
  {
    var s := middle * params.limitDistanceInPercents / 100.0;
    var c := params.limitCount as real;
    assert middle * ((c - 1.0) * params.limitDistanceInPercents) / 100.0 == (c - 1.0) * s;
    assert middle * MaxDistanceInPercents(params) / 100.0
        == middle * params.spreadInPercents / 100.0 + s / 2.0 + (c - 1.0) * s;
  }

  /** Conditions under which one side of a tick with no orders places its
      full ladder: the side is enabled with at least one level and a
      positive limit distance, and the ladder step (the truncated distance,
      or one price unit) is within `1 / (2 * limitCount)` of the exact
      distance, which any rounding to a unit well below the distance meets. */
  predicate LadderWithinRounding(cfg: SymbolConfig, side: Side, middle: real, truncate: (real, nat) -> real)
  {
    var params := cfg.SideOf(side);
    var s := middle * params.limitDistanceInPercents / 100.0;
    && params.enabled && params.limitCount >= 1 && s > 0.0
    && Abs(LadderIncrement(cfg, side, middle, truncate) - s) * (2.0 * params.limitCount as real) < s
  }

  /** With no orders at all and a ladder within rounding, a side plans
      `limitCount` places and no best price. */
  lemma EmptySidePlan(cfg: SymbolConfig, side: Side, middle: real, truncate: (real, nat) -> real)
    requires LadderWithinRounding(cfg, side, middle, truncate)
    ensures var plan := PlanSide(cfg, side, middle, true, [], [], truncate);
      |plan.actions| == cfg.SideOf(side).limitCount && plan.best.None? &&
      forall a :: a in plan.actions ==>
        a.PlaceAction? && a.symbol == cfg.symbol && a.side == side && a.qty == cfg.SideOf(side).qty
  {
    assert SideActive([], side) == [];
    assert CancelActions(cfg, side, middle, true, []) == [];
    assert OfSide([], side) == [];
    assert NotCancelled([], []) == [];
    assert SideOrders(side, [], [], []) == [];
    EmptyPlacing(cfg, side, middle, truncate);
    PlacingActionsShape(cfg, side, middle, [], truncate);
  }

  /** With no retained orders and a ladder within rounding, a side queues
      the place at its target and `limitCount - 1` ladder places. */
  lemma EmptyPlacing(cfg: SymbolConfig, side: Side, middle: real, truncate: (real, nat) -> real)
    requires LadderWithinRounding(cfg, side, middle, truncate)
    ensures |PlacingActions(cfg, side, middle, [], truncate)| == cfg.SideOf(side).limitCount
    ensures BestOrderStep(cfg, side, middle, [], truncate).best.None?
  {
    EmptyBestStep(cfg, side, middle, truncate);
    PlacingLength(cfg, side, middle, [], truncate);
    EmptyLadder(cfg, side, middle, truncate);
  }

  /** With no retained orders and a ladder within rounding, the ladder from
      one step beyond the target has `limitCount - 1` levels. */
  lemma EmptyLadder(cfg: SymbolConfig, side: Side, middle: real, truncate: (real, nat) -> real)
    requires LadderWithinRounding(cfg, side, middle, truncate)
    ensures var params := cfg.SideOf(side);
      var step := LadderIncrement(cfg, side, middle, truncate);
      |Ladder(cfg, side, middle, [], Outward(side, TargetBestPrice(side, middle, params.spreadInPercents), step), step,
              MaxPrice(side, middle, params), truncate)| == params.limitCount - 1
  {
    var params := cfg.SideOf(side);
    var s := middle * params.limitDistanceInPercents / 100.0;
    var step := LadderIncrement(cfg, side, middle, truncate);
    var start := Outward(side, TargetBestPrice(side, middle, params.spreadInPercents), step);
    EmptyLadderGap(side, middle, params, step);
    EmptyLadderLength(cfg, side, middle, start, step, s, MaxPrice(side, middle, params), truncate, params.limitCount);
  }

  /** With no retained orders the best-order rule queues one place at the
      target and records no best price. */
  lemma EmptyBestStep(cfg: SymbolConfig, side: Side, middle: real, truncate: (real, nat) -> real)
    ensures var b := BestOrderStep(cfg, side, middle, [], truncate);
      |b.actions| == 1 && b.best.None? && b.target == TargetBestPrice(side, middle, cfg.SideOf(side).spreadInPercents)
  {
  }

  /** An enabled side's places are the best-order place, if any, and the
      ladder from the start price. */
  lemma PlacingLength(cfg: SymbolConfig, side: Side, middle: real, sideOrders: seq<Order>, truncate: (real, nat) -> real)
    ensures var b := BestOrderStep(cfg, side, middle, sideOrders, truncate);
      var step := LadderIncrement(cfg, side, middle, truncate);
      |PlacingActions(cfg, side, middle, sideOrders, truncate)|
        == |b.actions| + |Ladder(cfg, side, middle, sideOrders, Outward(side, b.target, step), step,
                                 MaxPrice(side, middle, cfg.SideOf(side)), truncate)|
  {
  }

  /** With no retained orders, a ladder of step `step`, within
      `1 / (2 * c)` of the distance `s`, that starts `c - 0.5` distances
      minus one step inside the range has `c - 1` levels. */
  lemma EmptyLadderLength(cfg: SymbolConfig, side: Side, middle: real, start: real, step: real, s: real, maxPrice: real,
                          truncate: (real, nat) -> real, c: int)
    requires step > 0.0 && s > 0.0 && c >= 1
    requires Abs(step - s) * (2.0 * c as real) < s
    requires LadderGap(side, start, maxPrice) == s * (c as real - 0.5) - step
    ensures |Ladder(cfg, side, middle, [], start, step, maxPrice, truncate)| == c - 1
  {
    StepsWithinRounding(s, step, c as real);
    assert (c - 1) as real - 1.0 == c as real - 2.0;
    assert (c - 1) as real == c as real - 1.0;
    LadderLength(cfg, side, middle, start, step, maxPrice, truncate, c - 1);
  }

  /** The arithmetic behind `EmptyLadderLength`: a step within
      `1 / (2 * c)` of `s` puts `s * (c - 0.5) - step` strictly above
      `c - 2` steps and at most `c - 1` steps. */
  lemma StepsWithinRounding(s: real, step: real, c: real)
    requires s > 0.0 && c >= 1.0
    requires Abs(step - s) * (2.0 * c) < s
    ensures (c - 2.0) * step < s * (c - 0.5) - step <= (c - 1.0) * step
  {
    var e := step - s;
    assert (c - 2.0) * step + step == (c - 1.0) * s + (c - 1.0) * e;
    assert (c - 1.0) * step + step == c * s + c * e;
    assert s * (c - 0.5) == c * s - s / 2.0;
    MulNonNegative(c - 1.0, Abs(e) - e);
    MulNonNegative(c - 1.0, Abs(e));
    MulNonNegative(c, Abs(e) + e);
    assert (c - 1.0) * e <= (c - 1.0) * Abs(e) <= c * Abs(e);
    assert -(c * e) <= c * Abs(e);
    assert c * Abs(e) < s / 2.0;
  }

  /** A tick with no orders sends `limitCount` places for each side (three
      and three for a three-level ladder on both sides), the bid side's
      first, each with its side's quantity, and no cancel. */
  lemma EmptyBookTick(cfg: SymbolConfig, lastTopOfBook: Option<Quote>, isOrderCanceled: (string, string) -> bool,
                      truncate: (real, nat) -> real, sendSkippedCancels: bool)
    requires lastTopOfBook.Some?
    requires LadderWithinRounding(cfg, Bid, lastTopOfBook.value.MiddlePrice(), truncate)
    requires LadderWithinRounding(cfg, Ask, lastTopOfBook.value.MiddlePrice(), truncate)
    ensures var out := Tick(cfg, true, lastTopOfBook, true, [], [], isOrderCanceled, truncate, sendSkippedCancels);
      |out.calls| == cfg.bids.limitCount + cfg.asks.limitCount && out.notices == []
    ensures var out := Tick(cfg, true, lastTopOfBook, true, [], [], isOrderCanceled, truncate, sendSkippedCancels);
      forall c :: c in out.calls ==> c.SendCall? && c.symbol == cfg.symbol
    ensures var out := Tick(cfg, true, lastTopOfBook, true, [], [], isOrderCanceled, truncate, sendSkippedCancels);
      forall i :: 0 <= i < |out.calls| ==>
        if i < cfg.bids.limitCount then out.calls[i].side == Bid && out.calls[i].qty == cfg.bids.qty
        else out.calls[i].side == Ask && out.calls[i].qty == cfg.asks.qty
  {
    var middle := lastTopOfBook.value.MiddlePrice();
    assert WithoutActiveHashes([], []) == [];
    EmptySidePlan(cfg, Bid, middle, truncate);
    EmptySidePlan(cfg, Ask, middle, truncate);
    var bidPlan := PlanSide(cfg, Bid, middle, true, [], [], truncate);
    var askPlan := PlanSide(cfg, Ask, middle, true, [], [], truncate);
    SideSends(cfg, Bid, middle, isOrderCanceled, truncate);
    SideSends(cfg, Ask, middle, isOrderCanceled, truncate);
    assert SideActive([], Bid) == [] && SideActive([], Ask) == [];
    assert CancelNotices(cfg, Bid, middle, true, []) == [] && CancelNotices(cfg, Ask, middle, true, []) == [];
    var bidCalls := Dispatch(bidPlan.actions, BestPrices(None, None), isOrderCanceled);
    var askCalls := Dispatch(askPlan.actions, BestPrices(None, None), isOrderCanceled);
    var out := Tick(cfg, true, lastTopOfBook, true, [], [], isOrderCanceled, truncate, sendSkippedCancels);
    assert out.calls == bidCalls + askCalls;
    forall i | 0 <= i < |out.calls|
      ensures out.calls[i].SendCall? && out.calls[i].symbol == cfg.symbol
      ensures if i < cfg.bids.limitCount then out.calls[i].side == Bid && out.calls[i].qty == cfg.bids.qty
              else out.calls[i].side == Ask && out.calls[i].qty == cfg.asks.qty
    {
      if i < |bidCalls| {
        assert out.calls[i] == bidCalls[i] && bidCalls[i] in bidCalls;
      } else {
        assert out.calls[i] == askCalls[i - |bidCalls|] && askCalls[i - |bidCalls|] in askCalls;
      }
    }
  }

  /** With no orders and a ladder within rounding, a side's dispatch,
      facing no best price on the other side, is one send per level, each
      of the side's quantity under the configured symbol. */
  lemma SideSends(cfg: SymbolConfig, side: Side, middle: real, isOrderCanceled: (string, string) -> bool,
                  truncate: (real, nat) -> real)
    requires LadderWithinRounding(cfg, side, middle, truncate)
    ensures var calls := Dispatch(PlanSide(cfg, side, middle, true, [], [], truncate).actions, BestPrices(None, None), isOrderCanceled);
      && |calls| == cfg.SideOf(side).limitCount
      && forall c :: c in calls ==> c.SendCall? && c.symbol == cfg.symbol && c.side == side && c.qty == cfg.SideOf(side).qty
  {
    var actions := PlanSide(cfg, side, middle, true, [], [], truncate).actions;
    EmptySidePlan(cfg, side, middle, truncate);
    DispatchSendsAll(actions, BestPrices(None, None), isOrderCanceled);
    var calls := Dispatch(actions, BestPrices(None, None), isOrderCanceled);
    forall c | c in calls
      ensures c.SendCall? && c.symbol == cfg.symbol && c.side == side && c.qty == cfg.SideOf(side).qty
    {
      var i :| 0 <= i < |calls| && calls[i] == c;
      assert actions[i] in actions;
    }
  }

  /** The configuration of the tick test on an empty book. */
  function TestSymbolConfig(): SymbolConfig
  {
    var side := SideConfig(true, 0.1, 3, 0.2, 200000);
    SymbolConfig("TOKX/TOKY", "TOKXT/TOKYT", side, side, 0.0,
                 "0xa86f0ad9b353bf0de47dc6f367fdec669d92f6fb", "Etherlink", 4)
  }

  /** The tick test: its book's top of book, the lowest buy 102903.13 and
      the highest sell 102906.05, gives the middle 102904.59 and the step
      205.80918; when truncation to four digits moves it by less than one
      unit, six places of 200000 are sent, three bids and then three asks,
      and no cancel is sent or logged. */
  lemma TestEmptyBookTick(isOrderCanceled: (string, string) -> bool, truncate: (real, nat) -> real)
    requires Abs(truncate(205.80918, 4) - 205.80918) < 0.0001
    ensures var out := Tick(TestSymbolConfig(), true, Some(Quote("TOKXT/TOKYT", 0, 102903.13, 102906.05)), true,
                            [], [], isOrderCanceled, truncate, false);
      && |out.calls| == 6 && out.notices == []
      && (forall c :: c in out.calls ==> c.SendCall? && c.qty == 200000)
      && (forall i :: 0 <= i < 3 ==> out.calls[i].side == Bid)
      && (forall i :: 3 <= i < 6 ==> out.calls[i].side == Ask)
  {
    var cfg := TestSymbolConfig();
    var q := Quote("TOKXT/TOKYT", 0, 102903.13, 102906.05);
    assert q.MiddlePrice() == 102904.59;
    assert Pow10(4) == 10000.0;
    assert LadderWithinRounding(cfg, Bid, q.MiddlePrice(), truncate);
    assert LadderWithinRounding(cfg, Ask, q.MiddlePrice(), truncate);
    EmptyBookTick(cfg, Some(q), isOrderCanceled, truncate, false);
  }

  // ---------------------------------------------------------------------
  // The maker object

  lemma AppendAssoc<T>(a: seq<T>, b: seq<T>, c: seq<T>)
    ensures (a + b) + c == a + (b + c)
  {
  }

  class Maker {
    const config: SymbolConfig
    var lastTopOfBook: Option<Quote>
    var isExecutorAvailable: bool
    var isSourceAvailable: bool
    /** The tick mutex is held. */
    var tickRunning: bool
    /** The executor calls made so far, oldest first. */
    var calls: seq<ExecutorCall>
    /** The cancel notices logged so far, oldest first. */
    var notices: seq<CancelNotice>

    ghost function Flags(): (Option<Quote>, bool, bool, bool)
      reads this
    {
      (lastTopOfBook, isExecutorAvailable, isSourceAvailable, tickRunning)
    }

    constructor (config: SymbolConfig)
      ensures this.config == config && lastTopOfBook.None?
      ensures !isExecutorAvailable && !isSourceAvailable && !tickRunning
      ensures calls == [] && notices == []
    {
      this.config := config;
      lastTopOfBook := None;
      isExecutorAvailable := false;
      isSourceAvailable := false;
      tickRunning := false;
      calls := [];
      notices := [];
    }

    /** `ordersChanged`: a tick starts unless one is running; the trigger is
        dropped otherwise. */
    method OrdersChanged() returns (tickStarted: bool)
      modifies this
      ensures tickStarted <==> !old(tickRunning)
      ensures tickRunning
      ensures lastTopOfBook == old(lastTopOfBook) && isExecutorAvailable == old(isExecutorAvailable)
      ensures isSourceAvailable == old(isSourceAvailable) && calls == old(calls) && notices == old(notices)
    {
      if tickRunning {
        return false;
      }
      tickRunning := true;
      return true;
    }

    /** `sourceAvailabilityChanged`: the flag is stored; a tick starts only
        when the source became available and no tick is running. */
    method SourceAvailabilityChanged(isAvailable: bool) returns (tickStarted: bool)
      modifies this
      ensures isSourceAvailable == isAvailable
      ensures tickStarted <==> isAvailable && !old(tickRunning)
      ensures tickRunning == (old(tickRunning) || tickStarted)
      ensures lastTopOfBook == old(lastTopOfBook) && isExecutorAvailable == old(isExecutorAvailable)
      ensures calls == old(calls) && notices == old(notices)
    {
      isSourceAvailable := isAvailable;
      if !isSourceAvailable || tickRunning {
        return false;
      }
      tickRunning := true;
      return true;
    }

    /** `sourceOrderBookUpdated`: a book of another symbol, or one whose
        top of book has the bid and ask last seen, is ignored; otherwise
        its top of book (at `now`) is stored and a tick starts unless one
        is running. */
    method SourceOrderBookUpdated(book: OrderBook, now: int) returns (tickStarted: bool)
      modifies this
      ensures var top := book.TopOfBook(now);
        var ignored := book.symbol != config.sourceSymbol ||
                       (old(lastTopOfBook).Some? && old(lastTopOfBook).value.ask == top.ask && old(lastTopOfBook).value.bid == top.bid);
        && (ignored ==> lastTopOfBook == old(lastTopOfBook) && !tickStarted && tickRunning == old(tickRunning))
        && (!ignored ==> lastTopOfBook == Some(top) && (tickStarted <==> !old(tickRunning)) && tickRunning)
      ensures isExecutorAvailable == old(isExecutorAvailable) && isSourceAvailable == old(isSourceAvailable)
      ensures calls == old(calls) && notices == old(notices)
    {
      if book.symbol != config.sourceSymbol {
        return false;
      }
      var topOfBook := book.TopOfBook(now);
      if lastTopOfBook.Some? && lastTopOfBook.value.ask == topOfBook.ask && lastTopOfBook.value.bid == topOfBook.bid {
        return false;
      }
      lastTopOfBook := Some(topOfBook);
      if tickRunning {
        return false;
      }
      tickRunning := true;
      return true;
    }

    /** `executorAvailabilityChanged`: the flag is stored and nothing else
        happens; in particular no tick starts. */
    method ExecutorAvailabilityChanged(isAvailable: bool)
      modifies this
      ensures isExecutorAvailable == isAvailable
      ensures lastTopOfBook == old(lastTopOfBook) && isSourceAvailable == old(isSourceAvailable)
      ensures tickRunning == old(tickRunning) && calls == old(calls) && notices == old(notices)
    {
      isExecutorAvailable := isAvailable;
    }

    /** The started tick runs to its end and releases the mutex. */
    method RunTick(activeOrders: seq<Order>, pendingOrders: seq<Order>,
                   isOrderCanceled: (string, string) -> bool, truncatePrice: (real, nat) -> real)
      requires tickRunning
      modifies this
      ensures !tickRunning
      ensures var out := Tick(config, isExecutorAvailable, lastTopOfBook, isSourceAvailable, activeOrders, pendingOrders,
                              isOrderCanceled, truncatePrice, false);
        calls == old(calls) + out.calls && notices == old(notices) + out.notices
      ensures lastTopOfBook == old(lastTopOfBook) && isExecutorAvailable == old(isExecutorAvailable)
      ensures isSourceAvailable == old(isSourceAvailable)
    {
      OnTick(activeOrders, pendingOrders, isOrderCanceled, truncatePrice);
      tickRunning := false;
    }

    /** `onTick`, given the executor's active and pending orders of the
        symbol and its `isOrderCanceled`, with `truncatePrice` standing for
        `BigNumber(x.toFixed(precision))`. */
    method OnTick(activeOrders: seq<Order>, pendingOrders: seq<Order>,
                  isOrderCanceled: (string, string) -> bool, truncatePrice: (real, nat) -> real)
      modifies this
      ensures Flags() == old(Flags())
      ensures var out := Tick(config, isExecutorAvailable, lastTopOfBook, isSourceAvailable, activeOrders, pendingOrders,
                              isOrderCanceled, truncatePrice, false);
        calls == old(calls) + out.calls && notices == old(notices) + out.notices
    {
      if !isExecutorAvailable || lastTopOfBook.None? {
        return;
      }
      var middlePrice := lastTopOfBook.value.MiddlePrice();
      var pending := WithoutActiveHashes(pendingOrders, activeOrders);
      ghost var calls0, notices0 := calls, notices;
      var bestPrices := BestPrices(None, None);
      bestPrices := TickSide(Bid, middlePrice, activeOrders, pending, bestPrices, isOrderCanceled, truncatePrice);
      ghost var calls1, notices1 := calls, notices;
      bestPrices := TickSide(Ask, middlePrice, activeOrders, pending, bestPrices, isOrderCanceled, truncatePrice);
      AppendAssoc(calls0, calls1[|calls0|..], calls[|calls1|..]);
      AppendAssoc(notices0, notices1[|notices0|..], notices[|notices1|..]);
    }

    /** One pass of the loop over the sides, bid first and then ask. */
    method TickSide(side: Side, middlePrice: real, activeOrders: seq<Order>, pendingOrders: seq<Order>,
                    bestPrices: BestPrices, isOrderCanceled: (string, string) -> bool,
                    truncatePrice: (real, nat) -> real) returns (newBest: BestPrices)
      modifies this
      ensures Flags() == old(Flags())
      ensures var o := SideStep(config, side, middlePrice, isSourceAvailable, activeOrders, pendingOrders, bestPrices,
                                isOrderCanceled, truncatePrice, false);
        calls == old(calls) + o.calls && notices == old(notices) + o.notices && newBest == o.bests
    {
      var params := config.SideOf(side);
      var sidePendingOrders := OfSide(pendingOrders, side);
      var sideActiveOrders := SideActive(activeOrders, side);
      var actions := QueueCancels(side, middlePrice, sideActiveOrders);
      if !params.enabled || !isSourceAvailable {
        return bestPrices;
      }
      var sideOrders := SideOrders(side, sideActiveOrders, actions, sidePendingOrders);
      var places: seq<MakerAction>;
      places, newBest := PlaceSide(side, middlePrice, sideOrders, bestPrices, truncatePrice);
      DispatchActions(actions + places, newBest, isOrderCanceled);
    }

    /** The part of a side's pass after its cancels: the best-order rule,
        which records the side's best price, and the ladder. */
    method PlaceSide(side: Side, middlePrice: real, sideOrders: seq<Order>, bestPrices: BestPrices,
                     truncatePrice: (real, nat) -> real) returns (actions: seq<MakerAction>, newBest: BestPrices)
      ensures actions == PlacingActions(config, side, middlePrice, sideOrders, truncatePrice)
      ensures var best := BestOrderStep(config, side, middlePrice, sideOrders, truncatePrice).best;
        newBest == if best.Some? then bestPrices.With(side, best.value) else bestPrices
    {
      var params := config.SideOf(side);
      var targetBestPrice: real;
      actions, targetBestPrice, newBest := BestOrder(side, middlePrice, sideOrders, bestPrices, truncatePrice);
      var sign := Sign(side);
      var priceIncrement := LadderIncrement(config, side, middlePrice, truncatePrice);
      var signedPriceIncrement := sign * priceIncrement;
      var startPrice := targetBestPrice + signedPriceIncrement;
      assert startPrice == Outward(side, targetBestPrice, priceIncrement);
      var maxPrice := MaxPrice(side, middlePrice, params);
      var ladder := PlaceLadder(side, middlePrice, sideOrders, startPrice, priceIncrement, maxPrice, truncatePrice);
      actions := actions + ladder;
    }

    /** The best-order rule: a place at the truncated target unless the
        best retained order is close enough to the target, in which case
        the ladder starts from that order's price; the side's best price is
        recorded. */
    method BestOrder(side: Side, middlePrice: real, sideOrders: seq<Order>, bestPrices: BestPrices,
                     truncatePrice: (real, nat) -> real)
      returns (actions: seq<MakerAction>, targetBestPrice: real, newBest: BestPrices)
      ensures var b := BestOrderStep(config, side, middlePrice, sideOrders, truncatePrice);
        && actions == b.actions && targetBestPrice == b.target
        && newBest == if b.best.Some? then bestPrices.With(side, b.best.value) else bestPrices
    {
      var params := config.SideOf(side);
      targetBestPrice := TargetBestPrice(side, middlePrice, params.spreadInPercents);
      var targetBestPriceBN := truncatePrice(targetBestPrice, config.pricePrecision);
      actions := [];
      newBest := bestPrices;
      if |sideOrders| > 0 {
        var bestOrder := sideOrders[0];
        var distanceInPercents := DistanceInPercents(bestOrder.side, middlePrice, bestOrder.price);
        newBest := newBest.With(side, bestOrder.price);
        if AtLeast(distanceInPercents, params.spreadInPercents * 2.0 - config.modifySpreadInPercents) {
          actions := actions + [PlaceAction(config.symbol, side, targetBestPriceBN, params.qty)];
        } else {
          targetBestPrice := bestOrder.price;
        }
      } else {
        actions := actions + [PlaceAction(config.symbol, side, targetBestPriceBN, params.qty)];
      }
    }

    /** The cancel loop over the side's active orders, which logs a notice
        for each cancel it queues. */
    method QueueCancels(side: Side, middlePrice: real, sideActiveOrders: seq<Order>) returns (actions: seq<MakerAction>)
      modifies this
      ensures Flags() == old(Flags()) && calls == old(calls)
      ensures actions == CancelActions(config, side, middlePrice, isSourceAvailable, sideActiveOrders)
      ensures notices == old(notices) + CancelNotices(config, side, middlePrice, isSourceAvailable, sideActiveOrders)
    {
      var params := config.SideOf(side);
      var maxDistanceInPercents := MaxDistanceInPercents(params);
      actions := [];
      for i := 0 to |sideActiveOrders|
        invariant Flags() == old(Flags()) && calls == old(calls)
        invariant actions + CancelActions(config, side, middlePrice, isSourceAvailable, sideActiveOrders[i..])
          == CancelActions(config, side, middlePrice, isSourceAvailable, sideActiveOrders)
        invariant notices + CancelNotices(config, side, middlePrice, isSourceAvailable, sideActiveOrders[i..])
          == old(notices) + CancelNotices(config, side, middlePrice, isSourceAvailable, sideActiveOrders)
      {
        assert sideActiveOrders[i..][0] == sideActiveOrders[i] && sideActiveOrders[i..][1..] == sideActiveOrders[i + 1..];
        ghost var actions0, notices0 := actions, notices;
        actions := QueueCancel(side, middlePrice, maxDistanceInPercents, sideActiveOrders[i], actions);
        AppendAssoc(actions0, CancelFor(config, side, middlePrice, isSourceAvailable, sideActiveOrders[i]),
                    CancelActions(config, side, middlePrice, isSourceAvailable, sideActiveOrders[i + 1..]));
        AppendAssoc(notices0, NoticeFor(config, side, middlePrice, isSourceAvailable, sideActiveOrders[i]),
                    CancelNotices(config, side, middlePrice, isSourceAvailable, sideActiveOrders[i + 1..]));
      }
      assert sideActiveOrders[|sideActiveOrders|..] == [];
    }

    /** One pass of the cancel loop. */
    method QueueCancel(side: Side, middlePrice: real, maxDistanceInPercents: real, order: Order, actions: seq<MakerAction>)
      returns (queued: seq<MakerAction>)
      requires maxDistanceInPercents == MaxDistanceInPercents(config.SideOf(side))
      modifies this
      ensures Flags() == old(Flags()) && calls == old(calls)
      ensures queued == actions + CancelFor(config, side, middlePrice, isSourceAvailable, order)
      ensures notices == old(notices) + NoticeFor(config, side, middlePrice, isSourceAvailable, order)
    {
      var params := config.SideOf(side);
      queued := actions;
      var distanceInPercents := DistanceInPercents(order.side, middlePrice, order.price);
      var isOrderTooClose := AtMost(distanceInPercents, config.modifySpreadInPercents);
      var isOrderTooFar := AtLeast(distanceInPercents, maxDistanceInPercents);
      if isOrderTooClose || isOrderTooFar || !params.enabled || !isSourceAvailable {
        var reason := GetOrderCancellationReason(isOrderTooClose, isOrderTooFar, params.enabled);
        notices := notices + [(order.orderId, reason)];
        queued := queued + [CancelAction(order.orderId, config.symbol, order.price)];
      }
    }

    /** The ladder loop, from `startPrice` outwards in steps of
        `priceIncrement` while inside `maxPrice`. */
    method PlaceLadder(side: Side, middlePrice: real, sideOrders: seq<Order>, startPrice: real, priceIncrement: real,
                       maxPrice: real, truncatePrice: (real, nat) -> real) returns (places: seq<MakerAction>)
      requires priceIncrement > 0.0
      ensures places == Ladder(config, side, middlePrice, sideOrders, startPrice, priceIncrement, maxPrice, truncatePrice)
    {
      var params := config.SideOf(side);
      var signedPriceIncrement := Sign(side) * priceIncrement;
      var price := startPrice;
      places := [];
      while InLadderRange(side, price, maxPrice)
        invariant places + Ladder(config, side, middlePrice, sideOrders, price, priceIncrement, maxPrice, truncatePrice)
          == Ladder(config, side, middlePrice, sideOrders, startPrice, priceIncrement, maxPrice, truncatePrice)
        decreases LadderMeasure(side, price, maxPrice, priceIncrement)
      {
        LadderStepDecreases(side, price, maxPrice, priceIncrement);
        LadderUnfold(places, config, side, middlePrice, sideOrders, price, priceIncrement, maxPrice, truncatePrice);
        places := PlaceLevel(side, middlePrice, sideOrders, price, truncatePrice, places);
        assert price + signedPriceIncrement == Outward(side, price, priceIncrement);
        price := price + signedPriceIncrement;
      }
    }

    /** One pass of the ladder loop. */
    method PlaceLevel(side: Side, middlePrice: real, sideOrders: seq<Order>, price: real,
                      truncatePrice: (real, nat) -> real, places: seq<MakerAction>) returns (placed: seq<MakerAction>)
      ensures placed == places + LevelFor(config, side, middlePrice, sideOrders, price, truncatePrice)
    {
      var params := config.SideOf(side);
      placed := places;
      var halfLimitDistance := middlePrice * params.limitDistanceInPercents / 100.0 / 2.0;
      if !HasOrderNear(sideOrders, price, halfLimitDistance) {
        placed := placed + [PlaceAction(config.symbol, side, truncatePrice(price, config.pricePrecision), params.qty)];
      }
    }

    /** The dispatch loop over a side's actions. */
    method DispatchActions(actions: seq<MakerAction>, bestPrices: BestPrices, isOrderCanceled: (string, string) -> bool)
      modifies this
      ensures Flags() == old(Flags()) && notices == old(notices)
      ensures calls == old(calls) + Dispatch(actions, bestPrices, isOrderCanceled)
    {
      for i := 0 to |actions|
        invariant Flags() == old(Flags()) && notices == old(notices)
        invariant calls + Dispatch(actions[i..], bestPrices, isOrderCanceled) == old(calls) + Dispatch(actions, bestPrices, isOrderCanceled)
      {
        assert actions[i..][0] == actions[i] && actions[i..][1..] == actions[i + 1..];
        ghost var calls0 := calls;
        DispatchAction(actions[i], bestPrices, isOrderCanceled);
        AppendAssoc(calls0, CallsFor(actions[i], bestPrices, isOrderCanceled), Dispatch(actions[i + 1..], bestPrices, isOrderCanceled));
      }
      assert actions[|actions|..] == [];
    }

    /** One pass of the dispatch loop. */
    method DispatchAction(action: MakerAction, bestPrices: BestPrices, isOrderCanceled: (string, string) -> bool)
      modifies this
      ensures Flags() == old(Flags()) && notices == old(notices)
      ensures calls == old(calls) + CallsFor(action, bestPrices, isOrderCanceled)
    {
      match action {
        case CancelAction(orderId, symbol, _) =>
          if isOrderCanceled(symbol, orderId) {
            return;
          }
          calls := calls + [CancelCall(orderId, symbol)];
        case PlaceAction(symbol, side, price, qty) =>
          var oppositeBestPrice := bestPrices.Get(Opposite(side));
          if oppositeBestPrice.Some? &&
             ((side == Bid && price >= oppositeBestPrice.value) || (side == Ask && price <= oppositeBestPrice.value)) {
            return;
          }
          calls := calls + [SendCall(symbol, price, qty, side)];
      }
    }
  }
}

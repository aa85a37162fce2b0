/** The order record kept by the executor and the derivation of its status
    from the exchange's raw order (src/core/execution/Order.ts). */
module Orders {
  import opened Common

  datatype OrderStatus =
    | Pending
    | Placed
    | PartiallyFilled
    | PartiallyFilledAndClaimed
    | Filled
    | FilledAndClaimed
    | Canceled
    | CanceledAndClaimed
    | Failed

  datatype OrderType = Return | FillOrKill | ImmediateOrCancel

  /** One order as the market maker sees it. Quantities are integer base
      units (`bigint`), the price an exact decimal, timestamps milliseconds. */
  datatype Order = Order(
    orderId: string,
    price: real,
    qty: int,
    leaveQty: int,
    claimedQty: int,
    side: Side,
    symbol: string,
    status: OrderStatus,
    orderType: OrderType,
    created: int,
    lastChanged: int,
    txnHash: string)
  {
    /** A resting order: placed and not yet completely filled. */
    predicate IsActive()
    {
      status == Placed || status == PartiallyFilled
    }

    /** Some executed quantity has not been claimed yet. */
    predicate IsUnclaimed()
    {
      claimedQty < qty - leaveQty && status != Failed
    }
  }

  /** The exchange SDK's order: raw sizes, a lifecycle tag and the market
      (contract address) it belongs to. */
  datatype LobOrder = LobOrder(
    orderId: string,
    marketId: string,
    price: real,
    rawOrigSize: int,
    rawSize: int,
    rawClaimed: int,
    side: Side,
    status: string,
    createdAt: int,
    lastTouched: int,
    txnHash: string)

  /** The `Error("Unknown order status")` thrown for an unknown tag. */
  datatype StatusError = UnknownOrderStatus

  datatype Result<T> = Ok(value: T) | Err(error: StatusError)

  /** The four lifecycle tags the exchange reports, after lower-casing. */
  predicate IsKnownTag(tag: string)
  {
    tag == "open" || tag == "filled" || tag == "cancelled" || tag == "claimed"
  }

  /** The `switch` of `fromOnchainLobOrder`: the status for a tag and the
      original, remaining and claimed sizes. */
  function DeriveStatus(tag: string, qty: int, leaveQty: int, claimedQty: int): (r: Result<OrderStatus>)
    ensures r.Ok? <==> IsKnownTag(ToLower(tag))
    ensures r.Ok? ==> r.value != Pending && r.value != Failed
  {
    var executedQty := qty - leaveQty;
    var isUnclaimed := claimedQty < executedQty;
    match ToLower(tag)
    case "open" => Ok(if leaveQty == qty then Placed else PartiallyFilled)
    case "filled" => Ok(Filled)
    case "cancelled" => Ok(if isUnclaimed then Canceled else CanceledAndClaimed)
    case "claimed" => Ok(if claimedQty < qty then PartiallyFilledAndClaimed else FilledAndClaimed)
    case _ => Err(UnknownOrderStatus)
  }

  /** `Order.fromOnchainLobOrder`: the order record for an exchange order,
      attributed to `symbol`. */
  function FromLobOrder(o: LobOrder, symbol: string): (r: Result<Order>)
    ensures r.Err? <==> !IsKnownTag(ToLower(o.status))
    ensures r.Ok? ==>
      && r.value.orderId == o.orderId
      && r.value.price == o.price
      && r.value.qty == o.rawOrigSize
      && r.value.leaveQty == o.rawSize
      && r.value.claimedQty == o.rawClaimed
      && r.value.side == o.side
      && r.value.symbol == symbol
      && r.value.orderType == Return
      && r.value.created == o.createdAt
      && r.value.lastChanged == o.lastTouched
      && r.value.txnHash == o.txnHash
      && r.value.status != Pending && r.value.status != Failed
  {
    match DeriveStatus(o.status, o.rawOrigSize, o.rawSize, o.rawClaimed)
    case Err(e) => Err(e)
    case Ok(status) =>
      Ok(Order(o.orderId, o.price, o.rawOrigSize, o.rawSize, o.rawClaimed, o.side, symbol,
               status, Return, o.createdAt, o.lastTouched, o.txnHash))
  }

  /** The tag is compared case-insensitively. */
  lemma StatusIgnoresCase(tag: string, qty: int, leaveQty: int, claimedQty: int)
    ensures DeriveStatus(tag, qty, leaveQty, claimedQty) == DeriveStatus(ToLower(tag), qty, leaveQty, claimedQty)
  {
    ToLowerIsLower(tag);
  }

  /** An exchange order becomes an active record exactly when its tag is
      "open"; the other three tags give settled orders. */
  lemma ActiveIffOpen(o: LobOrder, symbol: string)
    requires FromLobOrder(o, symbol).Ok?
    ensures FromLobOrder(o, symbol).value.IsActive() <==> ToLower(o.status) == "open"
  {
  }

  /** "open": Placed exactly when nothing has been executed. */
  lemma OpenStatus(o: LobOrder, symbol: string)
    requires ToLower(o.status) == "open"
    ensures FromLobOrder(o, symbol).Ok?
    ensures FromLobOrder(o, symbol).value.status == Placed <==> o.rawSize == o.rawOrigSize
    ensures FromLobOrder(o, symbol).value.status == PartiallyFilled <==> o.rawSize != o.rawOrigSize
  {
  }

  /** "cancelled": Canceled exactly when the derived record still has
      unclaimed proceeds, i.e. the status agrees with `isUnclaimed`. */
  lemma CancelledStatusMatchesUnclaimed(o: LobOrder, symbol: string)
    requires ToLower(o.status) == "cancelled"
    ensures FromLobOrder(o, symbol).Ok?
    ensures var r := FromLobOrder(o, symbol).value;
      (r.status == Canceled <==> r.IsUnclaimed()) &&
      (r.status == CanceledAndClaimed <==> !r.IsUnclaimed())
  {
  }

  /** "claimed" and "filled": FilledAndClaimed exactly when at least the
      original size has been claimed; "filled" is always Filled. */
  lemma ClaimedAndFilledStatus(o: LobOrder, symbol: string)
    requires ToLower(o.status) == "claimed" || ToLower(o.status) == "filled"
    ensures FromLobOrder(o, symbol).Ok?
    ensures ToLower(o.status) == "filled" ==> FromLobOrder(o, symbol).value.status == Filled
    ensures ToLower(o.status) == "claimed" ==>
      (FromLobOrder(o, symbol).value.status == FilledAndClaimed <==> o.rawClaimed >= o.rawOrigSize) &&
      (FromLobOrder(o, symbol).value.status == PartiallyFilledAndClaimed <==> o.rawClaimed < o.rawOrigSize)
  {
  }

  /** `isActive` holds for exactly two of the nine statuses. */
  lemma ActiveStatuses(o: Order)
    ensures o.IsActive() <==> o.status in {Placed, PartiallyFilled}
  {
  }
}

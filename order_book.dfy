/** The reference order book built from the exchange's depth stream
    (src/core/marketData/OrderBook.ts). Each side maps a price to the
    level entry last written there. */
module OrderBooks {
  import opened Common
  import opened Entries
  import opened Quotes

  /** The contents of both sides, as a value. */
  datatype Book = Book(buys: map<real, Entry>, sells: map<real, Entry>)
  {
    function SideMap(side: Side): map<real, Entry>
    {
      if side == Bid then buys else sells
    }
  }

  const EmptyBook := Book(map[], map[])

  /** The `Snapshot` message: a full set of levels and the update id it
      was taken at. */
  datatype Snapshot = Snapshot(lastTransactionId: int, symbol: string, entries: seq<Entry>)

  /** The entry stored at `price` on `side`, if any. */
  function Level(b: Book, side: Side, price: real): Option<Entry>
  {
    if price in b.SideMap(side) then Some(b.SideMap(side)[price]) else None
  }

  /** The effect of one unchecked `applyEntry`: the entry's level holds the
      entry when its size is positive and is removed otherwise; every other
      level of both sides is unchanged. */
  function ApplyTo(b: Book, e: Entry): (r: Book)
    ensures Level(r, e.side, e.price) == (if e.Qty() > 0.0 then Some(e) else None)
    ensures forall side, price :: side != e.side || price != e.price ==> Level(r, side, price) == Level(b, side, price)
  {
    var m := b.SideMap(e.side);
    var m' := if e.Qty() > 0.0 then m[e.price := e] else m - {e.price};
    if e.side == Bid then Book(m', b.sells) else Book(b.buys, m')
  }

  /** The entries applied one after the other, first to last. */
  function ApplyAll(b: Book, es: seq<Entry>): Book
    decreases |es|
  {
    if es == [] then b else ApplyAll(ApplyTo(b, es[0]), es[1..])
  }

  /** No entry after position `i` is written at `price` on `side`. */
  predicate LastIndexAt(es: seq<Entry>, side: Side, price: real, i: int)
  {
    forall j :: 0 <= j < |es| && i < j ==> es[j].side != side || es[j].price != price
  }

  /** The last entry of `es` written at `price` on `side`. */
  function LastAt(es: seq<Entry>, side: Side, price: real): (r: Option<Entry>)
    ensures r.Some? ==> r.value in es && r.value.side == side && r.value.price == price
    ensures r.Some? ==> exists i :: 0 <= i < |es| && es[i] == r.value && LastIndexAt(es, side, price, i)
    ensures r.None? ==> forall i :: 0 <= i < |es| ==> es[i].side != side || es[i].price != price
    decreases |es|
  {
    if es == [] then None
    else
      match LastAt(es[1..], side, price)
      case Some(e) =>
        var i :| 0 <= i < |es[1..]| && es[1..][i] == e && LastIndexAt(es[1..], side, price, i);
        assert es[i + 1] == e;
        assert forall j :: i + 1 < j < |es| ==> es[j] == es[1..][j - 1];
        Some(e)
      case None =>
        assert forall j :: 0 < j < |es| ==> es[j] == es[1..][j - 1];
        if es[0].side == side && es[0].price == price then Some(es[0]) else None
  }

  /** Applying a level update a second time changes nothing. */
  lemma ApplyToIdempotent(b: Book, e: Entry)
    ensures ApplyTo(ApplyTo(b, e), e) == ApplyTo(b, e)
  {
    var r := ApplyTo(b, e);
    var r2 := ApplyTo(r, e);
    assert r2.buys == r.buys && r2.sells == r.sells;
  }

  /** After a run of updates, each level holds the last entry written
      there if that entry's size is positive, is empty if that entry's
      size is not, and is as before if no entry was written there. */
  lemma {:induction false} ApplyAllLevel(b: Book, es: seq<Entry>, side: Side, price: real)
    ensures Level(ApplyAll(b, es), side, price) ==
      match LastAt(es, side, price)
      case None => Level(b, side, price)
      case Some(e) => if e.Qty() > 0.0 then Some(e) else None
    decreases |es|
  {
    if es != [] {
      ApplyAllLevel(ApplyTo(b, es[0]), es[1..], side, price);
    }
  }

  /** The book a snapshot produces: a level is present exactly when the
      snapshot's last entry for it has a positive size, and then it holds
      that entry, whatever the book held before. */
  lemma {:induction false} SnapshotLevel(es: seq<Entry>, side: Side, price: real)
    ensures price in ApplyAll(EmptyBook, es).SideMap(side) <==>
      LastAt(es, side, price).Some? && LastAt(es, side, price).value.Qty() > 0.0
    ensures price in ApplyAll(EmptyBook, es).SideMap(side) ==>
      ApplyAll(EmptyBook, es).SideMap(side)[price] == LastAt(es, side, price).value
  {
    ApplyAllLevel(EmptyBook, es, side, price);
  }

  class OrderBook {
    const symbol: string
    var lastTransactionId: int
    var buys: map<real, Entry>
    var sells: map<real, Entry>

    ghost function Sides(): Book
      reads this
    {
      Book(buys, sells)
    }

    /** The constructor for a non-empty symbol; `Create` is the checked
        entry point. */
    constructor (symbol: string)
      requires symbol != ""
      ensures this.symbol == symbol && lastTransactionId == 0
      ensures buys == map[] && sells == map[]
    {
      this.symbol := symbol;
      lastTransactionId := 0;
      buys := map[];
      sells := map[];
    }

    /** `new OrderBook(symbol)`: the "Symbol is required" error is `null`. */
    static method Create(symbol: string) returns (book: OrderBook?)
      ensures book == null <==> symbol == ""
      ensures book != null ==> fresh(book) && book.symbol == symbol && book.lastTransactionId == 0 &&
                               book.buys == map[] && book.sells == map[]
    {
      if symbol == "" {
        return null;
      }
      book := new OrderBook(symbol);
    }

    /** `topOfBook()` at time `now`: the bid is the lowest buy price (0 for
        no buys) and the ask the highest sell price (`MAX_VALUE` for no
        sells), as the code computes them. */
    function TopOfBook(now: int): (q: Quote)
      reads this
      ensures q.symbol == symbol && q.timeStamp == now
      ensures buys == map[] ==> q.bid == 0.0
      ensures buys != map[] ==> q.bid in buys && forall p :: p in buys ==> q.bid <= p
      ensures sells == map[] ==> q.ask == MAX_VALUE
      ensures sells != map[] ==> q.ask in sells && forall p :: p in sells ==> p <= q.ask
    {
      var bid := if |buys| != 0 then SetMin(buys.Keys) else 0.0;
      var ask := if |sells| != 0 then SetMax(sells.Keys) else MAX_VALUE;
      Quote(symbol, now, bid, ask)
    }

    /** `isValid()`: the top of book is valid on both sides, which needs at
        least one level on each side. */
    function IsValid(): (r: bool)
      reads this
      ensures r <==> TopOfBook(0).IsValidBid() && TopOfBook(0).IsValidAsk()
      ensures r ==> buys != map[] && sells != map[]
    {
      var quote := TopOfBook(0);
      quote.bid != 0.0 && quote.ask != 0.0 && quote.ask != MAX_VALUE
    }

    /** `applyEntry(entry, checkTransactionId)`: a checked entry not newer
        than the last snapshot is dropped; otherwise the entry's level is
        set or removed. The last transaction id is never changed here. */
    method ApplyEntry(entry: Entry, checkTransactionId: bool)
      modifies this
      ensures lastTransactionId == old(lastTransactionId)
      ensures checkTransactionId && entry.transactionId <= old(lastTransactionId) ==> Sides() == old(Sides())
      ensures !(checkTransactionId && entry.transactionId <= old(lastTransactionId)) ==> Sides() == ApplyTo(old(Sides()), entry)
    {
      if checkTransactionId && entry.transactionId <= lastTransactionId {
        return;
      }
      if entry.side == Bid {
        if entry.Qty() > 0.0 {
          buys := buys[entry.price := entry];
        } else {
          buys := buys - {entry.price};
        }
      } else {
        if entry.Qty() > 0.0 {
          sells := sells[entry.price := entry];
        } else {
          sells := sells - {entry.price};
        }
      }
    }

    /** `applySnapshot(snapshot)`: the book becomes the snapshot's entries
        applied unchecked to an empty book, and its update id is recorded. */
    method ApplySnapshot(snapshot: Snapshot)
      modifies this
      ensures Sides() == ApplyAll(EmptyBook, snapshot.entries)
      ensures lastTransactionId == snapshot.lastTransactionId
    {
      buys := map[];
      sells := map[];
      var entries := snapshot.entries;
      for i := 0 to |entries|
        invariant ApplyAll(Sides(), entries[i..]) == ApplyAll(EmptyBook, entries)
      {
        assert entries[i..][1..] == entries[i + 1..];
        ApplyEntry(entries[i], false);
      }
      lastTransactionId := snapshot.lastTransactionId;
    }

    /** `clear()`: both sides emptied, the update id kept. */
    method Clear()
      modifies this
      ensures buys == map[] && sells == map[]
      ensures lastTransactionId == old(lastTransactionId)
    {
      buys := map[];
      sells := map[];
    }
  }
}

/** Conversion of one Binance partial depth message into level entries
    (src/core/marketData/binance/models/PartialOrderBookUpdate.ts).
    `parseFloat` is a parameter. */
module PartialOrderBookUpdates {
  import opened Common
  import opened Entries
  import opened OrderBooks

  /** A `[price, quantity]` pair as the exchange sends it. */
  type Level = (string, string)

  datatype StreamData = StreamData(lastUpdateId: int, bids: seq<Level>, asks: seq<Level>)

  /** The entry for one pair: the parsed price, a one-part profile holding
      the parsed quantity, and the message's update id. */
  function ToEntry(data: StreamData, side: Side, level: Level, parse: string -> real): Entry
  {
    Entry(data.lastUpdateId, side, parse(level.0), [parse(level.1)])
  }

  /** `getEntries`: one entry per pair, all bids in their order and then all
      asks in theirs. */
  function GetEntries(data: StreamData, parse: string -> real): (r: seq<Entry>)
    ensures |r| == |data.bids| + |data.asks|
    ensures forall i :: 0 <= i < |data.bids| ==> r[i] == ToEntry(data, Bid, data.bids[i], parse)
    ensures forall j :: 0 <= j < |data.asks| ==> r[|data.bids| + j] == ToEntry(data, Ask, data.asks[j], parse)
    ensures data.bids == [] && data.asks == [] ==> r == []
  {
    var bids := seq(|data.bids|, i requires 0 <= i < |data.bids| => ToEntry(data, Bid, data.bids[i], parse));
    var asks := seq(|data.asks|, j requires 0 <= j < |data.asks| => ToEntry(data, Ask, data.asks[j], parse));
    bids + asks
  }

  /** Every entry carries the message's update id, has size equal to its
      parsed quantity, and is on the bid side exactly when it comes from
      the bid list. */
  lemma EntriesShape(data: StreamData, parse: string -> real)
    ensures var r := GetEntries(data, parse);
      forall k :: 0 <= k < |r| ==>
        && r[k].transactionId == data.lastUpdateId
        && (r[k].side == Bid <==> k < |data.bids|)
        && r[k].Qty() == parse((if k < |data.bids| then data.bids[k] else data.asks[k - |data.bids|]).1)
  {
    var r := GetEntries(data, parse);
    forall k | 0 <= k < |r|
      ensures r[k].transactionId == data.lastUpdateId
      ensures r[k].side == Bid <==> k < |data.bids|
      ensures r[k].Qty() == parse((if k < |data.bids| then data.bids[k] else data.asks[k - |data.bids|]).1)
    {
      if k < |data.bids| {
        assert r[k] == ToEntry(data, Bid, data.bids[k], parse);
      } else {
        var j := k - |data.bids|;
        assert r[|data.bids| + j] == ToEntry(data, Ask, data.asks[j], parse);
        assert r[k] == ToEntry(data, Ask, data.asks[j], parse);
      }
    }
  }

  /** The book the depth stream handler builds from one message (clear,
      then apply every entry unchecked): each buy level is the price of
      some bid pair whose parsed quantity is positive, and each sell level
      that of some ask pair. */
  lemma {:induction false} UpdateBookLevelsComeFromPairs(data: StreamData, parse: string -> real, side: Side, price: real)
    requires price in ApplyAll(EmptyBook, GetEntries(data, parse)).SideMap(side)
    ensures side == Bid ==> exists i :: 0 <= i < |data.bids| && parse(data.bids[i].0) == price && parse(data.bids[i].1) > 0.0
    ensures side == Ask ==> exists j :: 0 <= j < |data.asks| && parse(data.asks[j].0) == price && parse(data.asks[j].1) > 0.0
  {
    var r := GetEntries(data, parse);
    SnapshotLevel(r, side, price);
    var e := LastAt(r, side, price).value;
    var k :| 0 <= k < |r| && r[k] == e;
    EntriesShape(data, parse);
    if k < |data.bids| {
      assert r[k] == ToEntry(data, Bid, data.bids[k], parse);
    } else {
      var j := k - |data.bids|;
      assert r[|data.bids| + j] == ToEntry(data, Ask, data.asks[j], parse);
    }
  }
}

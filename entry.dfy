/** One price level of a reference order book
    (src/core/marketData/models/Entry.ts). */
module Entries {
  import opened Common

  /** The `reduce((a, b) => a + b, 0)` fold: elements are added from the
      left, starting at 0. */
  function Sum(s: seq<real>): real
    decreases |s|
  {
    if s == [] then 0.0 else Sum(s[..|s| - 1]) + s[|s| - 1]
  }

  /** A level update: price, side, the update id it came with, and the
      quantity split into a profile of parts. */
  datatype Entry = Entry(transactionId: int, side: Side, price: real, qtyProfile: seq<real>)
  {
    /** `qty()`: the total size at this level. An empty profile is size 0,
        a one-part profile is that part, and parts that are not negative
        give a total that is not negative. */
    function Qty(): (r: real)
      ensures qtyProfile == [] ==> r == 0.0
      ensures |qtyProfile| == 1 ==> r == qtyProfile[0]
      ensures (forall i :: 0 <= i < |qtyProfile| ==> qtyProfile[i] >= 0.0) ==> r >= 0.0
    {
      SumNonNegative(qtyProfile);
      SumSingleton(qtyProfile);
      Sum(qtyProfile)
    }
  }

  /** A one-part profile sums to its part. */
  lemma SumSingleton(s: seq<real>)
    ensures |s| == 1 ==> Sum(s) == s[0]
  {
    if |s| == 1 {
      assert s[..0] == [];
    }
  }

  /** The sum of parts that are not negative is not negative. */
  lemma {:induction false} SumNonNegative(s: seq<real>)
    ensures (forall i :: 0 <= i < |s| ==> s[i] >= 0.0) ==> Sum(s) >= 0.0
    decreases |s|
  {
    if s != [] && forall i :: 0 <= i < |s| ==> s[i] >= 0.0 {
      var init := s[..|s| - 1];
      assert forall i :: 0 <= i < |init| ==> init[i] == s[i];
      SumNonNegative(init);
    }
  }

  /** The fold distributes over concatenation: splitting a profile in two
      does not change the total. */
  lemma {:induction false} SumAppend(s: seq<real>, t: seq<real>)
    ensures Sum(s + t) == Sum(s) + Sum(t)
    decreases |t|
  {
    if t == [] {
      assert s + t == s;
    } else {
      var t' := t[..|t| - 1];
      assert (s + t)[..|s + t| - 1] == s + t';
      SumAppend(s, t');
    }
  }

  /** The total is the same whatever the order of the parts: it depends
      only on the profile's contents, here shown for moving the last part
      to the front. */
  lemma {:induction false} SumRotate(s: seq<real>, x: real)
    ensures Sum([x] + s) == Sum(s + [x])
  {
    SumAppend([x], s);
    SumAppend(s, [x]);
    assert Sum([x]) == Sum([]) + x;
  }
}

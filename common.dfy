/** Value types shared by every part of the market maker: the order side of
    the exchange SDK, an optional value (the source's `null`/`undefined`),
    the ASCII case mapping behind `toLowerCase`/`toUpperCase`, powers of
    ten for price precisions and the extremes of a set of prices. */
module Common {

  /** `Side` of the exchange SDK: the string "bid" or "ask". */
  datatype Side = Bid | Ask

  /** The opposite side of the book. */
  function Opposite(side: Side): (r: Side)
    ensures r != side
  {
    if side == Bid then Ask else Bid
  }

  datatype Option<T> = None | Some(value: T)

  /** `String.prototype.toLowerCase` on one character, ASCII letters only. */
  function LowerChar(c: char): char
  {
    if 'A' <= c <= 'Z' then (c as int + 32) as char else c
  }

  /** `String.prototype.toUpperCase` on one character, ASCII letters only. */
  function UpperChar(c: char): char
  {
    if 'a' <= c <= 'z' then (c as int - 32) as char else c
  }

  function ToLower(s: string): (r: string)
    ensures |r| == |s|
    ensures forall i :: 0 <= i < |s| ==> r[i] == LowerChar(s[i])
  {
    seq(|s|, i requires 0 <= i < |s| => LowerChar(s[i]))
  }

  function ToUpper(s: string): (r: string)
    ensures |r| == |s|
    ensures forall i :: 0 <= i < |s| ==> r[i] == UpperChar(s[i])
  {
    seq(|s|, i requires 0 <= i < |s| => UpperChar(s[i]))
  }

  /** No character of `s` is an upper-case ASCII letter. */
  predicate IsLowerCase(s: string)
  {
    forall i :: 0 <= i < |s| ==> !('A' <= s[i] <= 'Z')
  }

  /** Lower-casing leaves no upper-case letter and is idempotent. */
  lemma ToLowerIsLower(s: string)
    ensures IsLowerCase(ToLower(s))
    ensures ToLower(ToLower(s)) == ToLower(s)
  {
  }

  /** A string without upper-case letters survives upper-casing followed by
      lower-casing: `toUpperCase` loses nothing on it. */
  lemma {:induction false} LowerUpperRoundTrip(s: string)
    requires IsLowerCase(s)
    ensures ToLower(ToUpper(s)) == s
  {
    forall i | 0 <= i < |s|
      ensures ToLower(ToUpper(s))[i] == s[i]
    {
      assert !('A' <= s[i] <= 'Z');
    }
  }

  /** Case-insensitive comparison ignores an upper-casing. */
  lemma LowerOfUpper(s: string)
    ensures ToLower(ToUpper(s)) == ToLower(s)
  {
  }

  /** 10^n as a real, for `Math.pow(10, pricePrecision)`. */
  function Pow10(n: nat): (r: real)
    ensures r >= 1.0
  {
    if n == 0 then 1.0 else 10.0 * Pow10(n - 1)
  }

  /** Every element of `s` occurs once. */
  predicate NoDuplicates<T(==)>(s: seq<T>)
  {
    forall i, j :: 0 <= i < j < |s| ==> s[i] != s[j]
  }

  /** `m` is the least element of `s`. */
  predicate IsMin(s: set<real>, m: real)
  {
    m in s && forall y :: y in s ==> m <= y
  }

  /** `m` is the greatest element of `s`. */
  predicate IsMax(s: set<real>, m: real)
  {
    m in s && forall y :: y in s ==> y <= m
  }

  /** A non-empty set has an element to pick. */
  lemma HasElement(s: set<real>)
    requires s != {}
    ensures exists x :: x in s
  {
    if forall x :: x !in s {
      assert false;
    }
  }

  lemma {:induction false} MinExists(s: set<real>)
    requires s != {}
    ensures exists m :: IsMin(s, m)
    decreases |s|
  {
    HasElement(s);
    var x :| x in s;
    var rest := s - {x};
    if rest == {} {
      assert s == {x};
      assert IsMin(s, x);
    } else {
      MinExists(rest);
      var m :| IsMin(rest, m);
      var r := if x < m then x else m;
      assert s == rest + {x};
      assert IsMin(s, r);
    }
  }

  lemma {:induction false} MaxExists(s: set<real>)
    requires s != {}
    ensures exists m :: IsMax(s, m)
    decreases |s|
  {
    HasElement(s);
    var x :| x in s;
    var rest := s - {x};
    if rest == {} {
      assert s == {x};
      assert IsMax(s, x);
    } else {
      MaxExists(rest);
      var m :| IsMax(rest, m);
      var r := if x > m then x else m;
      assert s == rest + {x};
      assert IsMax(s, r);
    }
  }

  /** `Math.min(...keys)` of a non-empty key set. */
  function SetMin(s: set<real>): (m: real)
    requires s != {}
    ensures m in s && forall y :: y in s ==> m <= y
  {
    MinExists(s);
    var m :| IsMin(s, m); m
  }

  /** `Math.max(...keys)` of a non-empty key set. */
  function SetMax(s: set<real>): (m: real)
    requires s != {}
    ensures m in s && forall y :: y in s ==> y <= m
  {
    MaxExists(s);
    var m :| IsMax(s, m); m
  }

}

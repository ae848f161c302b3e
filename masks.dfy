/**
 * Boolean masks over sequences, as numpy uses them: `xs[mask]` keeps the
 * entries whose flag is set (Select), `full[mask] = vals` writes `vals`, in
 * order, to the flagged positions (Scatter).
 */
module Masks {

  /** Number of set flags. */
  function Count(mask: seq<bool>): (c: nat)
    ensures c <= |mask|
  {
    if |mask| == 0 then 0
    else Count(mask[..|mask| - 1]) + (if mask[|mask| - 1] then 1 else 0)
  }

  /** True when no flag is set (numpy's `np.all(~mask)`). */
  predicate NoneSet(mask: seq<bool>) {
    forall i :: 0 <= i < |mask| ==> !mask[i]
  }

  /** Element-wise negation (numpy's `~mask`). */
  function Not(mask: seq<bool>): (r: seq<bool>)
    ensures |r| == |mask|
    ensures forall i :: 0 <= i < |mask| ==> r[i] == !mask[i]
  {
    seq(|mask|, i requires 0 <= i < |mask| => !mask[i])
  }

  /** `xs[mask]`: the entries of `xs` whose flag is set, in their original order. */
  function Select<T>(xs: seq<T>, mask: seq<bool>): (r: seq<T>)
    requires |xs| == |mask|
    ensures |r| == Count(mask)
  {
    if |mask| == 0 then []
    else
      var n := |mask| - 1;
      Select(xs[..n], mask[..n]) + (if mask[n] then [xs[n]] else [])
  }

  /**
   * The sequence that `full[~mask] = fill; full[mask] = vals` leaves: `vals`
   * in order at the flagged positions, `fill` everywhere else.
   */
  function Scatter<T>(mask: seq<bool>, vals: seq<T>, fill: T): (r: seq<T>)
    requires |vals| == Count(mask)
    ensures |r| == |mask|
  {
    if |mask| == 0 then []
    else
      var n := |mask| - 1;
      var k := Count(mask[..n]);
      Scatter(mask[..n], vals[..k], fill) + [if mask[n] then vals[k] else fill]
  }

  /** Python's `s[-n:]` for n >= 0: the last n entries, or all of `s` when n is 0 or too large. */
  function PyTail<T>(s: seq<T>, n: nat): (r: seq<T>)
    ensures 0 < n <= |s| ==> |r| == n && r == s[|s| - n..]
    ensures n == 0 || n > |s| ==> r == s
  {
    if 0 < n <= |s| then s[|s| - n..] else s
  }

  lemma {:induction false} CountZeroIsNoneSet(mask: seq<bool>)
    ensures Count(mask) == 0 <==> NoneSet(mask)
  {
    if |mask| > 0 {
      var n := |mask| - 1;
      CountZeroIsNoneSet(mask[..n]);
      assert forall i :: 0 <= i < n ==> mask[..n][i] == mask[i];
    }
  }

  lemma {:induction false} CountAppend(a: seq<bool>, b: seq<bool>)
    ensures Count(a + b) == Count(a) + Count(b)
  {
    if |b| > 0 {
      var n := |b| - 1;
      assert (a + b)[..|a| + n] == a + b[..n];
      CountAppend(a, b[..n]);
    } else {
      assert a + b == a;
    }
  }

  lemma {:induction false} CountNot(mask: seq<bool>)
    ensures Count(Not(mask)) == |mask| - Count(mask)
  {
    if |mask| > 0 {
      var n := |mask| - 1;
      assert Not(mask)[..n] == Not(mask[..n]);
      CountNot(mask[..n]);
    }
  }

  /** Selecting from a concatenation selects from each part. */
  lemma {:induction false} SelectAppend<T>(a: seq<T>, b: seq<T>, ma: seq<bool>, mb: seq<bool>)
    requires |a| == |ma| && |b| == |mb|
    ensures Select(a + b, ma + mb) == Select(a, ma) + Select(b, mb)
  {
    if |mb| == 0 {
      assert a + b == a && ma + mb == ma;
    } else {
      var n := |mb| - 1;
      var tail := if mb[n] then [b[n]] else [];
      assert (a + b)[..|a| + n] == a + b[..n];
      assert (ma + mb)[..|ma| + n] == ma + mb[..n];
      calc {
        Select(a + b, ma + mb);
        Select(a + b[..n], ma + mb[..n]) + tail;
        { SelectAppend(a, b[..n], ma, mb[..n]); }
        (Select(a, ma) + Select(b[..n], mb[..n])) + tail;
        Select(a, ma) + (Select(b[..n], mb[..n]) + tail);
        Select(a, ma) + Select(b, mb);
      }
    }
  }

  /** The flagged entry at position i lands at its rank among the flagged entries. */
  lemma {:induction false} SelectAt<T>(xs: seq<T>, mask: seq<bool>, i: nat)
    requires |xs| == |mask| && i < |mask| && mask[i]
    ensures Count(mask[..i]) < Count(mask)
    ensures Select(xs, mask)[Count(mask[..i])] == xs[i]
  {
    var n := |mask| - 1;
    if i < n {
      assert mask[..n][..i] == mask[..i];
      SelectAt(xs[..n], mask[..n], i);
    } else {
      assert mask[..i] == mask[..n];
    }
  }

  /** Every selected entry comes from a flagged position of `xs`. */
  lemma {:induction false} SelectFrom<T>(xs: seq<T>, mask: seq<bool>, k: nat)
    requires |xs| == |mask| && k < Count(mask)
    ensures exists i :: 0 <= i < |mask| && mask[i] && Count(mask[..i]) == k && xs[i] == Select(xs, mask)[k]
  {
    var n := |mask| - 1;
    if k < Count(mask[..n]) {
      SelectFrom(xs[..n], mask[..n], k);
      var i :| 0 <= i < n && mask[..n][i] && Count(mask[..n][..i]) == k && xs[..n][i] == Select(xs[..n], mask[..n])[k];
      assert mask[..n][..i] == mask[..i];
    } else {
      assert mask[..n] == mask[..n];
      assert mask[n] && Count(mask[..n]) == k;
    }
  }

  /** Position i of a scatter holds the value of rank Count(mask[..i]) if flagged, the fill otherwise. */
  lemma {:induction false} ScatterAt<T>(mask: seq<bool>, vals: seq<T>, fill: T, i: nat)
    requires |vals| == Count(mask) && i < |mask|
    ensures mask[i] ==> Count(mask[..i]) < |vals| && Scatter(mask, vals, fill)[i] == vals[Count(mask[..i])]
    ensures !mask[i] ==> Scatter(mask, vals, fill)[i] == fill
  {
    var n := |mask| - 1;
    var k := Count(mask[..n]);
    if i < n {
      assert mask[..n][..i] == mask[..i];
      ScatterAt(mask[..n], vals[..k], fill, i);
      if mask[i] {
        SelectRankBound(mask[..n], i);
      }
    } else {
      assert mask[..i] == mask[..n];
    }
  }

  lemma {:induction false} SelectRankBound(mask: seq<bool>, i: nat)
    requires i < |mask| && mask[i]
    ensures Count(mask[..i]) < Count(mask)
  {
    var n := |mask| - 1;
    if i < n {
      assert mask[..n][..i] == mask[..i];
      SelectRankBound(mask[..n], i);
    } else {
      assert mask[..i] == mask[..n];
    }
  }

  /**
   * Computing f on the flagged entries only and scattering the results back
   * gives f at every flagged position and the fill at every other one.
   */
  lemma ScatterSelected<T, U>(xs: seq<T>, mask: seq<bool>, f: T -> U, fill: U)
    requires |xs| == |mask|
    ensures |Scatter(mask, MapSeq(f, Select(xs, mask)), fill)| == |mask|
    ensures forall i :: 0 <= i < |mask| ==>
      Scatter(mask, MapSeq(f, Select(xs, mask)), fill)[i] == if mask[i] then f(xs[i]) else fill
  {
    var sel := Select(xs, mask);
    var vals := MapSeq(f, sel);
    forall i | 0 <= i < |mask|
      ensures Scatter(mask, vals, fill)[i] == if mask[i] then f(xs[i]) else fill
    {
      ScatterAt(mask, vals, fill, i);
      if mask[i] {
        SelectAt(xs, mask, i);
      }
    }
  }

  /** `[f(x) for x in xs]`. */
  function MapSeq<T, U>(f: T -> U, xs: seq<T>): (r: seq<U>)
    ensures |r| == |xs|
    ensures forall i :: 0 <= i < |xs| ==> r[i] == f(xs[i])
  {
    seq(|xs|, i requires 0 <= i < |xs| => f(xs[i]))
  }

  lemma {:induction false} MapSeqAppend<T, U>(f: T -> U, a: seq<T>, b: seq<T>)
    ensures MapSeq(f, a + b) == MapSeq(f, a) + MapSeq(f, b)
  {
    assert forall i :: 0 <= i < |a| + |b| ==> MapSeq(f, a + b)[i] == (MapSeq(f, a) + MapSeq(f, b))[i];
  }

  /** Transforming then masking is masking then transforming. */
  lemma {:induction false} SelectMapSeq<T, U>(f: T -> U, xs: seq<T>, mask: seq<bool>)
    requires |xs| == |mask|
    ensures Select(MapSeq(f, xs), mask) == MapSeq(f, Select(xs, mask))
  {
    if |mask| > 0 {
      var n := |mask| - 1;
      assert MapSeq(f, xs)[..n] == MapSeq(f, xs[..n]);
      SelectMapSeq(f, xs[..n], mask[..n]);
      MapSeqAppend(f, Select(xs[..n], mask[..n]), if mask[n] then [xs[n]] else []);
    }
  }
}

/** The index-to-futures ratio history used by `UpdateRatio`: a FIFO queue that keeps
    at most 100 ratios, whose arithmetic mean is the ratio in force. */
module RatioWindow {

  /** `if (ratioHistory.Count > 100) ratioHistory.Dequeue();` */
  const Capacity: nat := 100

  function Sum(s: seq<real>): real
  {
    if s == [] then 0.0 else Sum(s[..|s| - 1]) + s[|s| - 1]
  }

  /** `Queue<double>.Average()`; the queue is never empty when it is averaged. */
  function Mean(s: seq<real>): real
    requires s != []
  {
    Sum(s) / (|s| as real)
  }

  /** `Enqueue(r)` followed by at most one `Dequeue()`. */
  function Push(h: seq<real>, r: real): (h': seq<real>)
    ensures h' != [] && h'[|h'| - 1] == r
    ensures |h| <= Capacity ==> |h'| <= Capacity
    ensures |h| < Capacity ==> h' == h + [r]
    ensures |h| >= Capacity ==> h' == h[1..] + [r] && |h'| == |h|
  {
    var q := h + [r];
    if |q| > Capacity then q[1..] else q
  }

  /** The window after pushing each of `rs` in turn. */
  function PushAll(h: seq<real>, rs: seq<real>): seq<real>
  {
    if rs == [] then h else Push(PushAll(h, rs[..|rs| - 1]), rs[|rs| - 1])
  }

  function Newest(s: seq<real>, n: nat): (r: seq<real>)
    ensures |r| == if |s| <= n then |s| else n
  {
    if |s| <= n then s else s[|s| - n..]
  }

  /** Pushing onto the newest ratios of a history gives the newest ratios of the
      extended history. */
  lemma PushNewest(all: seq<real>, x: real)
    ensures Push(Newest(all, Capacity), x) == Newest(all + [x], Capacity)
  {
    var w := Newest(all, Capacity);
    var ext := all + [x];
    if |all| < Capacity {
      assert w + [x] == ext;
    } else {
      assert w[1..] + [x] == ext[|ext| - Capacity..];
    }
  }

  /** Starting from a window within capacity, the window always holds the newest
      ratios seen, at most 100 of them, oldest first. */
  lemma {:induction false} WindowHoldsNewest(h: seq<real>, rs: seq<real>)
    requires |h| <= Capacity
    ensures PushAll(h, rs) == Newest(h + rs, Capacity)
    decreases |rs|
  {
    if rs == [] {
      assert h + rs == h;
    } else {
      var n := |rs| - 1;
      WindowHoldsNewest(h, rs[..n]);
      assert h + rs == (h + rs[..n]) + [rs[n]];
      PushNewest(h + rs[..n], rs[n]);
    }
  }

  /** The first ratio pushed onto an empty history is the whole window and its mean. */
  lemma FirstPush(r: real)
    ensures Push([], r) == [r]
    ensures Mean([r]) == r
  {
    assert [r][..0] == [];
    assert Sum([r]) == r;
  }

  lemma {:induction false} SumWithin(s: seq<real>, lo: real, hi: real)
    requires forall i :: 0 <= i < |s| ==> lo <= s[i] <= hi
    ensures lo * (|s| as real) <= Sum(s) <= hi * (|s| as real)
    decreases |s|
  {
    if s != [] {
      SumWithin(s[..|s| - 1], lo, hi);
    }
  }

  /** The mean lies between any lower and upper bound of the entries; in particular a
      window of positive ratios has a positive mean, and a window holding one ratio
      throughout has that ratio as its mean. */
  lemma MeanWithin(s: seq<real>, lo: real, hi: real)
    requires s != []
    requires forall i :: 0 <= i < |s| ==> lo <= s[i] <= hi
    ensures lo <= Mean(s) <= hi
  {
    SumWithin(s, lo, hi);
    var n := |s| as real;
    assert lo * n <= Sum(s) <= hi * n;
    assert Mean(s) * n == Sum(s);
  }
}

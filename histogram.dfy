/** The histogram outline: the step polyline, bracketed by -inf and +inf,
    that a renderer draws as a plain line, and the bin counts with the
    underflow and overflow added. */
module Histograms {
  import opened Wrappers
  import opened Traces

  /** What np.histogram returns: the counts of the B bins and their B+1 edges. */
  datatype Bins = Bins(hist: seq<real>, edges: seq<real>)

  predicate BinsShaped(b: Bins) {
    |b.edges| == |b.hist| + 1
  }

  /** samples[~np.isnan(samples)]: the samples that are not NaN (None). */
  function Present(samples: seq<Option<real>>): (r: seq<real>)
    ensures |r| <= |samples|
  {
    if samples == [] then []
    else if samples[0].None? then Present(samples[1..])
    else [samples[0].value] + Present(samples[1..])
  }

  /** sum(samples < t): NaN compares false, so it is never counted. */
  function CountBelow(samples: seq<Option<real>>, t: real): nat {
    if samples == [] then 0
    else (if samples[0].Some? && samples[0].value < t then 1 else 0) + CountBelow(samples[1..], t)
  }

  /** sum(samples > t) */
  function CountAbove(samples: seq<Option<real>>, t: real): nat {
    if samples == [] then 0
    else (if samples[0].Some? && samples[0].value > t then 1 else 0) + CountAbove(samples[1..], t)
  }

  /** The number of values of a NaN-free sequence below (above) t. */
  function Below(values: seq<real>, t: real): nat {
    if values == [] then 0 else (if values[0] < t then 1 else 0) + Below(values[1..], t)
  }

  function Above(values: seq<real>, t: real): nat {
    if values == [] then 0 else (if values[0] > t then 1 else 0) + Above(values[1..], t)
  }

  /** Missing samples count toward neither the underflow nor the overflow. */
  lemma {:induction false} CountsIgnoreMissing(samples: seq<Option<real>>, t: real)
    ensures CountBelow(samples, t) == Below(Present(samples), t)
    ensures CountAbove(samples, t) == Above(Present(samples), t)
  {
    if samples != [] {
      CountsIgnoreMissing(samples[1..], t);
      if samples[0].Some? {
        assert Present(samples)[1..] == Present(samples[1..]);
      }
    }
  }

  /** Every element twice in a row: [a, b] becomes [a, a, b, b]. */
  function Doubled<T>(s: seq<T>): (d: seq<T>)
    ensures |d| == 2 * |s|
  {
    if s == [] then [] else Doubled(s[..|s| - 1]) + [s[|s| - 1], s[|s| - 1]]
  }

  /** Element i of s sits at positions 2i and 2i+1 of Doubled(s). */
  lemma {:induction false} DoubledAt<T>(s: seq<T>, i: nat)
    requires i < |s|
    ensures Doubled(s)[2 * i] == s[i] && Doubled(s)[2 * i + 1] == s[i]
  {
    var p := s[..|s| - 1];
    assert Doubled(s) == Doubled(p) + [s[|s| - 1], s[|s| - 1]];
    if i < |s| - 1 {
      DoubledAt(p, i);
    }
  }

  lemma DoubledPointwise<T>(s: seq<T>)
    ensures forall i :: 0 <= i < |s| ==> Doubled(s)[2 * i] == s[i] && Doubled(s)[2 * i + 1] == s[i]
  {
    forall i | 0 <= i < |s| ensures Doubled(s)[2 * i] == s[i] && Doubled(s)[2 * i + 1] == s[i] {
      DoubledAt(s, i);
    }
  }

  /** The even-indexed elements: the inverse of Doubled. */
  function Halved<T>(d: seq<T>): (s: seq<T>)
    ensures |s| == (|d| + 1) / 2
  {
    if |d| <= 1 then d else [d[0]] + Halved(d[2..])
  }

  lemma {:induction false} HalvedDoubled<T>(s: seq<T>)
    ensures Halved(Doubled(s)) == s
  {
    if s != [] {
      var d := Doubled(s);
      var t := s[1..];
      HalvedDoubled(t);
      assert d[2..] == Doubled(t) by {
        forall i | 0 <= i < |t| ensures d[2..][2 * i] == t[i] && d[2..][2 * i + 1] == t[i] {
          DoubledAt(s, i + 1);
        }
        DoubledPointwise(t);
        SameDoubling(d[2..], Doubled(t), t);
      }
      DoubledAt(s, 0);
    }
  }

  /** Two sequences that double the same sequence are equal. */
  lemma SameDoubling<T>(d: seq<T>, e: seq<T>, s: seq<T>)
    requires |d| == |e| == 2 * |s|
    requires forall i :: 0 <= i < |s| ==> d[2 * i] == s[i] && d[2 * i + 1] == s[i]
    requires forall i :: 0 <= i < |s| ==> e[2 * i] == s[i] && e[2 * i + 1] == s[i]
    ensures d == e
  {
    forall k | 0 <= k < |d| ensures d[k] == e[k] {
      var i := k / 2;
      if k == 2 * i {
        assert d[k] == s[i] == e[k];
      } else {
        assert k == 2 * i + 1;
        assert d[k] == s[i] == e[k];
      }
    }
  }

  function Finite(edges: seq<real>): (f: seq<ExtReal>)
    ensures |f| == |edges|
    ensures forall i :: 0 <= i < |edges| ==> f[i] == Fin(edges[i])
  {
    seq(|edges|, i requires 0 <= i < |edges| => Fin(edges[i]))
  }

  /** The x values of the outline: every edge twice, between -inf and +inf. */
  function OutlineX(edges: seq<real>): (x: seq<ExtReal>)
    ensures |x| == 2 * |edges| + 2
  {
    [NegInf] + Doubled(Finite(edges)) + [PosInf]
  }

  /** [underflow] + hist + [overflow], where the underflow and overflow
      count the samples strictly outside the first and last edge. */
  function BinCount(samples: seq<Option<real>>, b: Bins): (c: seq<real>)
    requires BinsShaped(b)
    ensures |c| == |b.hist| + 2
  {
    [CountBelow(samples, b.edges[0]) as real] + b.hist + [CountAbove(samples, b.edges[|b.edges| - 1]) as real]
  }

  lemma DoubledAppend<T>(s: seq<T>, a: T)
    ensures Doubled(s + [a]) == Doubled(s) + [a, a]
  {
    assert (s + [a])[..|s|] == s;
  }

  lemma DoubledPrefixStep<T>(s: seq<T>, i: nat)
    requires i < |s|
    ensures Doubled(s[..i + 1]) == Doubled(s[..i]) + [s[i], s[i]]
  {
    assert s[..i + 1] == s[..i] + [s[i]];
    DoubledAppend(s[..i], s[i]);
  }

  /** The loop of Figure.histogram that builds the outline point by point:
      x runs -inf, e0, e0, e1, e1, ..., eB, eB, +inf and y, which repeats
      its last value before each new height, runs u, u, h0, h0, ..., o, o. */
  method BuildOutline(under: real, hist: seq<real>, edges: seq<real>, over: real)
    returns (x: seq<ExtReal>, y: seq<real>)
    requires |edges| == |hist| + 1
    ensures x == OutlineX(edges)
    ensures y == Doubled([under] + hist + [over])
  {
    ghost var counts := [under] + hist + [over];
    ghost var finite := Finite(edges);
    x := [NegInf];
    y := [under];
    var i := 0;
    while i < |hist|
      invariant 0 <= i <= |hist|
      invariant x == [NegInf] + Doubled(finite[..i])
      invariant y == Doubled(counts[..i]) + [counts[i]]
    {
      DoubledPrefixStep(counts, i);
      DoubledPrefixStep(finite, i);
      assert counts[i + 1] == hist[i] && finite[i] == Fin(edges[i]);
      x := x + [Fin(edges[i]), Fin(edges[i])];
      y := y + [y[|y| - 1], hist[i]];
      i := i + 1;
    }
    var last := edges[|edges| - 1];
    DoubledPrefixStep(finite, i);
    assert finite[..i + 1] == finite && finite[i] == Fin(last);
    x := x + [Fin(last), Fin(last), PosInf];
    ghost var d := Doubled(counts[..i]);
    assert y[|y| - 1] == counts[i] && counts[i + 1] == over;
    y := y + [y[|y| - 1], over, over];
    assert y == d + [counts[i], counts[i], over, over];
    DoubledPrefixStep(counts, i);
    DoubledPrefixStep(counts, i + 1);
    assert counts[..i + 2] == counts;
    assert Doubled(counts) == (d + [counts[i], counts[i]]) + [over, over];
  }

  /** The outline's points one by one: -inf and +inf at the ends, each edge
      at two consecutive x positions, and heights u, u, h0, h0, ..., o, o. */
  lemma OutlineIndices(samples: seq<Option<real>>, b: Bins)
    requires BinsShaped(b)
    ensures var x, y, n := OutlineX(b.edges), Doubled(BinCount(samples, b)), |b.hist|;
      |x| == 2 * n + 4 && |y| == 2 * n + 4
      && x[0] == NegInf && x[2 * n + 3] == PosInf
      && (forall i :: 0 <= i <= n ==> x[2 * i + 1] == Fin(b.edges[i]) && x[2 * i + 2] == Fin(b.edges[i]))
      && y[0] == CountBelow(samples, b.edges[0]) as real
      && (forall i :: 0 <= i < n ==> y[2 * i + 2] == b.hist[i] && y[2 * i + 1] == y[2 * i])
      && y[2 * n + 1] == y[2 * n]
      && y[2 * n + 2] == CountAbove(samples, b.edges[n]) as real
      && y[2 * n + 3] == y[2 * n + 2]
  {
    var x, c, n := OutlineX(b.edges), BinCount(samples, b), |b.hist|;
    var d := Doubled(Finite(b.edges));
    forall i | 0 <= i <= n ensures x[2 * i + 1] == Fin(b.edges[i]) && x[2 * i + 2] == Fin(b.edges[i]) {
      DoubledAt(Finite(b.edges), i);
      assert x[2 * i + 1] == d[2 * i];
      assert x[2 * i + 2] == d[2 * i + 1];
    }
    DoubledPointwise(c);
    forall i | 0 <= i < n ensures Doubled(c)[2 * i + 2] == b.hist[i] {
      assert c[i + 1] == b.hist[i];
      assert Doubled(c)[2 * (i + 1)] == c[i + 1];
    }
    assert Doubled(c)[2 * (n + 1)] == c[n + 1];
  }

  /** The bin counts and edges can be read back off the outline: its
      heights are the bin counts doubled, its inner x values the edges doubled. */
  lemma OutlineRecoversBins(samples: seq<Option<real>>, b: Bins)
    requires BinsShaped(b)
    ensures Halved(Doubled(BinCount(samples, b))) == BinCount(samples, b)
    ensures var x := OutlineX(b.edges); Halved(x[1..|x| - 1]) == Finite(b.edges)
  {
    HalvedDoubled(BinCount(samples, b));
    HalvedDoubled(Finite(b.edges));
    var x := OutlineX(b.edges);
    assert x[1..|x| - 1] == Doubled(Finite(b.edges));
  }

  /** The segment from point k to point k+1 is horizontal when k is even
      and vertical when k is odd. */
  predicate AxisAligned(x: seq<ExtReal>, y: seq<real>, k: nat)
    requires k + 1 < |x| && |x| == |y|
  {
    if k % 2 == 0 then y[k] == y[k + 1] else x[k] == x[k + 1]
  }

  /** The outline alternates horizontal and vertical segments, so a renderer
      can draw it as a plain line with no step-plot support. */
  lemma OutlineIsStepLine(samples: seq<Option<real>>, b: Bins)
    requires BinsShaped(b)
    ensures var x, y := OutlineX(b.edges), Doubled(BinCount(samples, b));
      |x| == |y| && forall k :: 0 <= k < |x| - 1 ==> AxisAligned(x, y, k)
  {
    var x, c := OutlineX(b.edges), BinCount(samples, b);
    var y, d := Doubled(c), Doubled(Finite(b.edges));
    forall k | 0 <= k < |x| - 1 ensures AxisAligned(x, y, k) {
      var i := k / 2;
      if k == 2 * i {
        DoubledAt(c, i);
        assert y[2 * i] == c[i] == y[2 * i + 1];
      } else {
        assert k == 2 * i + 1;
        DoubledAt(Finite(b.edges), i);
        assert x[k] == d[2 * i] == d[2 * i + 1] == x[k + 1];
      }
    }
  }

  predicate Sorted(edges: seq<real>) {
    forall i, j :: 0 <= i < j < |edges| ==> edges[i] <= edges[j]
  }

  lemma OutlineXAt(edges: seq<real>, k: nat)
    requires 0 < k < 2 * |edges| + 1
    ensures OutlineX(edges)[k] == Fin(edges[(k - 1) / 2])
  {
    var i := (k - 1) / 2;
    var d := Doubled(Finite(edges));
    assert OutlineX(edges)[k] == d[k - 1];
    DoubledAt(Finite(edges), i);
    if k - 1 == 2 * i { assert d[2 * i] == Fin(edges[i]); }
    else { assert d[2 * i + 1] == Fin(edges[i]); }
  }

  /** With non-decreasing edges (as np.histogram returns them) the outline's
      x values never decrease. */
  lemma OutlineXNonDecreasing(edges: seq<real>)
    requires |edges| > 0 && Sorted(edges)
    ensures var x := OutlineX(edges); forall j, k :: 0 <= j < k < |x| ==> ExtLeq(x[j], x[k])
  {
    var x := OutlineX(edges);
    forall j, k | 0 <= j < k < |x| ensures ExtLeq(x[j], x[k]) {
      if 0 < j && k < |x| - 1 {
        OutlineXAt(edges, j);
        OutlineXAt(edges, k);
        assert (j - 1) / 2 <= (k - 1) / 2;
      }
    }
  }

  /** NaN samples change neither the binning input nor the bin counts: two
      sample sets with the same non-missing values give the same histogram. */
  lemma HistogramIgnoresMissing(s1: seq<Option<real>>, s2: seq<Option<real>>, binning: seq<real> -> Bins)
    requires Present(s1) == Present(s2)
    requires BinsShaped(binning(Present(s1)))
    ensures binning(Present(s1)) == binning(Present(s2))
    ensures BinCount(s1, binning(Present(s1))) == BinCount(s2, binning(Present(s2)))
  {
    var b := binning(Present(s1));
    CountsIgnoreMissing(s1, b.edges[0]);
    CountsIgnoreMissing(s2, b.edges[0]);
    CountsIgnoreMissing(s1, b.edges[|b.edges| - 1]);
    CountsIgnoreMissing(s2, b.edges[|b.edges| - 1]);
  }

  /** Samples [1, 2, 2, 3, 3, 3] binned on edges [1, 2, 3, 4]: no underflow
      or overflow, and the outline climbs 0, 1, 2, 3 then drops to 0. */
  lemma ThreeBinExample()
    ensures var samples := [Some(1.0), Some(2.0), Some(2.0), Some(3.0), Some(3.0), Some(3.0)];
      var b := Bins([1.0, 2.0, 3.0], [1.0, 2.0, 3.0, 4.0]);
      BinCount(samples, b) == [0.0, 1.0, 2.0, 3.0, 0.0]
      && Doubled(BinCount(samples, b)) == [0.0, 0.0, 1.0, 1.0, 2.0, 2.0, 3.0, 3.0, 0.0, 0.0]
      && OutlineX(b.edges) == [NegInf, Fin(1.0), Fin(1.0), Fin(2.0), Fin(2.0), Fin(3.0), Fin(3.0),
                                Fin(4.0), Fin(4.0), PosInf]
  {
    var samples := [Some(1.0), Some(2.0), Some(2.0), Some(3.0), Some(3.0), Some(3.0)];
    var c := [0.0, 1.0, 2.0, 3.0, 0.0];
    assert CountBelow(samples, 1.0) == 0;
    assert CountAbove(samples, 4.0) == 0;
    var e := Finite([1.0, 2.0, 3.0, 4.0]);
    assert e == [Fin(1.0), Fin(2.0), Fin(3.0), Fin(4.0)];
    DoubledPointwise(c);
    DoubledPointwise(e);
    SameDoubling(Doubled(c), [0.0, 0.0, 1.0, 1.0, 2.0, 2.0, 3.0, 3.0, 0.0, 0.0], c);
    SameDoubling(Doubled(e), [Fin(1.0), Fin(1.0), Fin(2.0), Fin(2.0), Fin(3.0), Fin(3.0), Fin(4.0), Fin(4.0)], e);
  }
}

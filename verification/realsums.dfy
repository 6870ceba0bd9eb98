/** Sums of reals: splitting, scaling, strided partition and tree reduction. */
module RealSums {

  ghost function Sum(xs: seq<real>): real {
    if xs == [] then 0.0 else Sum(xs[..|xs| - 1]) + xs[|xs| - 1]
  }

  lemma NothingSummed() ensures Sum([]) == 0.0 {}

  lemma SumAppend(xs: seq<real>, x: real)
    ensures Sum(xs + [x]) == Sum(xs) + x
  {
    assert (xs + [x])[..|xs|] == xs;
  }

  lemma {:induction false} SumSplit(xs: seq<real>, k: nat)
    requires k <= |xs|
    ensures Sum(xs) == Sum(xs[..k]) + Sum(xs[k..])
    decreases |xs|
  {
    if k == |xs| {
      assert xs[..k] == xs && xs[k..] == [];
    } else {
      var n := |xs| - 1;
      SumSplit(xs[..n], k);
      assert xs[..n][..k] == xs[..k];
      assert xs[k..][..n - k] == xs[..n][k..];
    }
  }

  lemma {:induction false} SumPairwise(xs: seq<real>, ys: seq<real>, zs: seq<real>)
    requires |xs| == |ys| == |zs| && forall i :: 0 <= i < |xs| ==> zs[i] == xs[i] + ys[i]
    ensures Sum(zs) == Sum(xs) + Sum(ys)
  {
    if xs != [] {
      var n := |xs| - 1;
      SumPairwise(xs[..n], ys[..n], zs[..n]);
    }
  }

  lemma {:induction false} SumScale(xs: seq<real>, ys: seq<real>, k: real)
    requires |xs| == |ys| && forall i :: 0 <= i < |xs| ==> ys[i] == k * xs[i]
    ensures Sum(ys) == k * Sum(xs)
  {
    if xs != [] {
      var n := |xs| - 1;
      SumScale(xs[..n], ys[..n], k);
      assert k * (Sum(xs[..n]) + xs[n]) == k * Sum(xs[..n]) + k * xs[n];
    }
  }

  lemma {:induction false} SumZero(xs: seq<real>)
    requires forall i :: 0 <= i < |xs| ==> xs[i] == 0.0
    ensures Sum(xs) == 0.0
  {
    if xs != [] { SumZero(xs[..|xs| - 1]); }
  }

  /** Trailing zeros do not change a sum. */
  lemma PaddedSum(xs: seq<real>, padded: seq<real>)
    requires |xs| <= |padded| && padded[..|xs|] == xs && forall i :: |xs| <= i < |padded| ==> padded[i] == 0.0
    ensures Sum(padded) == Sum(xs)
  {
    SumSplit(padded, |xs|);
    SumZero(padded[|xs|..]);
  }

  // ------------------------------------------------------------------ strided parts

  /** Sum of the entries below n whose index is congruent to w modulo `parts`. */
  ghost function StrideSum(xs: seq<real>, w: nat, parts: nat, n: nat): real
    requires n <= |xs| && w < parts
  {
    if n == 0 then 0.0
    else StrideSum(xs, w, parts, n - 1) + if (n - 1) % parts == w then xs[n - 1] else 0.0
  }

  lemma {:induction false} StrideScale(xs: seq<real>, ys: seq<real>, k: real, w: nat, parts: nat, n: nat)
    requires |xs| == |ys| && n <= |xs| && w < parts && forall i :: 0 <= i < |xs| ==> ys[i] == k * xs[i]
    ensures StrideSum(ys, w, parts, n) == k * StrideSum(xs, w, parts, n)
  {
    if n > 0 {
      StrideScale(xs, ys, k, w, parts, n - 1);
      assert k * (StrideSum(xs, w, parts, n - 1) + xs[n - 1]) == k * StrideSum(xs, w, parts, n - 1) + k * xs[n - 1];
    }
  }

  /** Between two indices of one class the class does not grow. */
  lemma {:induction false} StrideSkips(xs: seq<real>, w: nat, parts: nat, a: nat, b: nat)
    requires a <= b <= |xs| && w < parts && forall t :: a <= t < b ==> t % parts != w
    ensures StrideSum(xs, w, parts, b) == StrideSum(xs, w, parts, a)
    decreases b
  {
    if a < b { StrideSkips(xs, w, parts, a, b - 1); }
  }

  /** The classes 0..parts, each summed up to n. */
  ghost function Strides(xs: seq<real>, parts: nat, n: nat): seq<real>
    requires n <= |xs|
  {
    seq(parts, w requires 0 <= w < parts => StrideSum(xs, w, parts, n))
  }

  /** The strided classes partition the sum: every index is in exactly one of them. */
  lemma {:induction false} StridesCover(xs: seq<real>, parts: nat, n: nat)
    requires n <= |xs| && parts > 0
    ensures Sum(Strides(xs, parts, n)) == Sum(xs[..n])
  {
    if n == 0 {
      SumZero(Strides(xs, parts, 0));
    } else {
      StridesCover(xs, parts, n - 1);
      var before, after, w := Strides(xs, parts, n - 1), Strides(xs, parts, n), (n - 1) % parts;
      assert after == before[w := before[w] + xs[n - 1]];
      SumUpdate(before, w, before[w] + xs[n - 1]);
      assert xs[..n][..n - 1] == xs[..n - 1];
    }
  }

  lemma {:induction false} SumUpdate(xs: seq<real>, i: nat, x: real)
    requires i < |xs|
    ensures Sum(xs[i := x]) == Sum(xs) - xs[i] + x
  {
    var n := |xs| - 1;
    if i == n {
      assert xs[i := x][..n] == xs[..n];
    } else {
      assert xs[i := x][..n] == xs[..n][i := x];
      SumUpdate(xs[..n], i, x);
    }
  }

  /** Consecutive members of class w are `parts` apart. */
  lemma NextInClass(t: nat, w: nat, parts: nat)
    requires w < parts && t % parts == w
    ensures (t + parts) % parts == w
    ensures forall u :: t < u < t + parts ==> u % parts != w
  {
    var q := t / parts;
    assert t == q * parts + w;
    ModOf(t + parts, parts, q + 1, w);
    forall u | t < u < t + parts ensures u % parts != w {
      var r := w + (u - t);
      if r < parts { ModOf(u, parts, q, r); } else { ModOf(u, parts, q + 1, r - parts); }
    }
  }

  lemma ModOf(a: int, n: int, q: int, r: int)
    requires n > 0 && 0 <= r < n && (a == q * n + r || a == (q - 1) * n + n + r)
    ensures a % n == r
  {
    var d := a / n - q;
    assert d * n == (a / n) * n - q * n;
    assert (q - 1) * n + n == q * n;
    assert d >= 1 ==> d * n >= n;
    assert d <= -1 ==> d * n <= -n;
  }

  /** Before its first member, class w is empty. */
  lemma BeforeFirst(w: nat, parts: nat)
    requires w < parts
    ensures w % parts == w && forall u :: 0 <= u < w ==> u % parts != w
  {
    ModOf(w, parts, 0, w);
    forall u | 0 <= u < w ensures u % parts != w { ModOf(u, parts, 0, u); }
  }

  // ----------------------------------------------------------------- tree reduction

  ghost predicate IsPow2(n: nat) { n == 1 || (n > 1 && n % 2 == 0 && IsPow2(n / 2)) }

  /** Folding the upper half of 2h values onto the lower half keeps their sum. */
  lemma HalveSum(before: seq<real>, after: seq<real>, h: nat)
    requires 2 * h <= |before| && h <= |after| && forall i :: 0 <= i < h ==> after[i] == before[i] + before[i + h]
    ensures Sum(after[..h]) == Sum(before[..2 * h])
  {
    var both := before[..2 * h];
    SumSplit(both, h);
    SumPairwise(both[..h], both[h..], after[..h]);
  }

  lemma SumOne(xs: seq<real>)
    requires |xs| > 0
    ensures Sum(xs[..1]) == xs[0]
  {
    assert xs[..1][..0] == [];
  }

  /** One barrier phase: threads below `stride` add the element `stride` above theirs. */
  method FoldHalf(a: array<real>, stride: nat)
    requires 2 * stride <= a.Length
    modifies a
    ensures Sum(a[..stride]) == Sum(old(a[..2 * stride]))
  {
    hide Sum;
    ghost var before := a[..];
    for dim := 0 to stride
      invariant forall i :: 0 <= i < dim ==> a[i] == before[i] + before[i + stride]
      invariant forall i :: dim <= i < a.Length ==> a[i] == before[i]
    {
      a[dim] := a[dim] + a[dim + stride];
    }
    HalveSum(before, a[..], stride);
    assert before[..2 * stride] == old(a[..2 * stride]) && a[..][..stride] == a[..stride];
  }

  /** Shared-memory reduction: each phase adds the upper half onto the lower half. */
  method TreeReduce(a: array<real>)
    requires IsPow2(a.Length)
    modifies a
    ensures a[0] == Sum(old(a[..]))
  {
    hide Sum;
    var width := a.Length;
    assert a[..] == a[..width];
    while width > 1
      invariant 1 <= width <= a.Length && IsPow2(width) && Sum(a[..width]) == Sum(old(a[..]))
    {
      var stride := width / 2;
      FoldHalf(a, stride);
      width := stride;
    }
    SumOne(a[..]);
    assert a[..][..1] == a[..1];
  }

  /** Warp reduction by shuffle-down; a lane whose source is outside the warp reads itself. */
  method ShuffleDownSum(lanes: seq<real>) returns (total: real)
    requires IsPow2(|lanes|)
    ensures total == Sum(lanes)
  {
    hide Sum;
    var value, width := lanes, |lanes|;
    assert lanes[..width] == lanes;
    while width > 1
      invariant 1 <= width <= |lanes| == |value| && IsPow2(width) && Sum(value[..width]) == Sum(lanes)
    {
      var offset := width / 2;
      var n := |value|;
      var next := seq(n, i requires 0 <= i < n => value[i] + (if i + offset < n then value[i + offset] else value[i]));
      HalveSum(value, next, offset);
      value, width := next, offset;
    }
    SumOne(value);
    return value[0];
  }

  /** i xor offset, for an offset that is a power of two. */
  function FlipBit(i: nat, offset: nat): int
    requires offset > 0
  {
    if (i / offset) % 2 == 0 then i + offset else i - offset
  }

  lemma FlipLow(i: nat, offset: nat)
    requires i < offset
    ensures FlipBit(i, offset) == i + offset
  {
    assert i / offset == 0;
  }

  /** One butterfly exchange; a lane whose partner is outside the warp reads itself. */
  method Exchange(value: seq<real>, offset: nat) returns (next: seq<real>)
    requires 0 < offset && 2 * offset <= |value|
    ensures |next| == |value| && Sum(next[..offset]) == Sum(value[..2 * offset])
  {
    hide Sum, FlipBit;
    var n := |value|;
    next := seq(n, i requires 0 <= i < n =>
      var source := FlipBit(i, offset);
      value[i] + (if 0 <= source < n then value[source] else value[i]));
    forall i | 0 <= i < offset ensures next[i] == value[i] + value[i + offset] { FlipLow(i, offset); }
    HalveSum(value, next, offset);
  }

  /** Warp reduction by xor-butterfly, read off lane 0. */
  method ButterflySum(lanes: seq<real>) returns (total: real)
    requires IsPow2(|lanes|)
    ensures total == Sum(lanes)
  {
    hide Sum;
    var value, width := lanes, |lanes|;
    assert lanes[..width] == lanes;
    while width > 1
      invariant 1 <= width <= |lanes| == |value| && IsPow2(width) && Sum(value[..width]) == Sum(lanes)
    {
      value := Exchange(value, width / 2);
      width := width / 2;
    }
    SumOne(value);
    return value[0];
  }
}

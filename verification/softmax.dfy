/** Softmax-weighted averages over exact reals: the plain definition, the online form, and the
    split over strided parts.  `exp` is any function with the laws used. */
module Softmax {
  import opened Protocol
  import opened RealSums

  type RealFn = real -> real

  ghost predicate IsExp(exp: RealFn) {
    && (forall a: real, b: real :: exp(a + b) == exp(a) * exp(b))
    && (forall a: real :: exp(a) > 0.0)
  }

  lemma ExpSplit(exp: RealFn, x: real, m: real, m': real)
    requires IsExp(exp)
    ensures exp(x - m') == exp(x - m) * exp(m - m')
  {
    assert (x - m) + (m - m') == x - m';
  }

  lemma ExpPositive(exp: RealFn, x: real)
    requires IsExp(exp)
    ensures exp(x) > 0.0
  {}

  /** The terms exp(s[i] - m) * v[i]. */
  ghost function Terms(exp: RealFn, s: seq<real>, v: seq<real>, m: real): (r: seq<real>)
    requires |s| == |v|
    ensures |r| == |s|
  {
    seq(|s|, i requires 0 <= i < |s| => exp(s[i] - m) * v[i])
  }

  ghost function Weighted(exp: RealFn, s: seq<real>, v: seq<real>, m: real): real
    requires |s| == |v|
  {
    Sum(Terms(exp, s, v, m))
  }

  ghost function Ones(n: nat): seq<real> { seq(n, _ => 1.0) }

  /** Moving the reference point scales every term by the same factor. */
  lemma TermsScale(exp: RealFn, s: seq<real>, v: seq<real>, m: real, m': real)
    requires IsExp(exp) && |s| == |v|
    ensures forall i :: 0 <= i < |s| ==> Terms(exp, s, v, m')[i] == exp(m - m') * Terms(exp, s, v, m)[i]
  {
    hide IsExp;
    forall i | 0 <= i < |s| ensures Terms(exp, s, v, m')[i] == exp(m - m') * Terms(exp, s, v, m)[i] {
      ExpSplit(exp, s[i], m, m');
    }
  }

  lemma Shift(exp: RealFn, s: seq<real>, v: seq<real>, m: real, m': real)
    requires IsExp(exp) && |s| == |v|
    ensures Weighted(exp, s, v, m') == exp(m - m') * Weighted(exp, s, v, m)
  {
    hide IsExp, Sum;
    TermsScale(exp, s, v, m, m');
    SumScale(Terms(exp, s, v, m), Terms(exp, s, v, m'), exp(m - m'));
  }

  lemma WeightedAppend(exp: RealFn, s: seq<real>, v: seq<real>, x: real, y: real, m: real)
    requires |s| == |v|
    ensures Weighted(exp, s + [x], v + [y], m) == Weighted(exp, s, v, m) + exp(x - m) * y
  {
    hide Sum;
    var whole, front := Terms(exp, s + [x], v + [y], m), Terms(exp, s, v, m);
    forall i | 0 <= i < |s| ensures whole[i] == front[i] {
      assert (s + [x])[i] == s[i] && (v + [y])[i] == v[i];
    }
    assert whole[|s|] == exp(x - m) * y;
    assert whole == front + [exp(x - m) * y];
    SumAppend(Terms(exp, s, v, m), exp(x - m) * y);
  }

  lemma {:induction false} DenominatorPositive(exp: RealFn, s: seq<real>, m: real)
    requires IsExp(exp) && s != []
    ensures Weighted(exp, s, Ones(|s|), m) > 0.0
  {
    hide IsExp, Weighted;
    var n := |s| - 1;
    WeightedAppend(exp, s[..n], Ones(n), s[n], 1.0, m);
    assert s[..n] + [s[n]] == s && Ones(n) + [1.0] == Ones(|s|);
    ExpPositive(exp, s[n] - m);
    if n > 0 {
      DenominatorPositive(exp, s[..n], m);
    } else {
      NothingWeighted(exp, m);
      assert s[..n] == [] && Ones(0) == [];
    }
  }

  lemma NothingWeighted(exp: RealFn, m: real)
    ensures Weighted(exp, [], [], m) == 0.0
  {}

  /** The softmax average of `v` under scores `s`: no maximum, no rescaling. */
  ghost function Attend(exp: RealFn, s: seq<real>, v: seq<real>): real
    requires |s| == |v|
  {
    var d := Weighted(exp, s, Ones(|s|), 0.0);
    if d == 0.0 then 0.0 else Weighted(exp, s, v, 0.0) / d
  }

  /** Any reference point gives the same average. */
  lemma AnyReference(exp: RealFn, s: seq<real>, v: seq<real>, m: real)
    requires IsExp(exp) && |s| == |v| > 0
    ensures Weighted(exp, s, Ones(|s|), m) > 0.0
    ensures Weighted(exp, s, v, m) / Weighted(exp, s, Ones(|s|), m) == Attend(exp, s, v)
  {
    hide IsExp, Weighted;
    DenominatorPositive(exp, s, m);
    DenominatorPositive(exp, s, 0.0);
    Shift(exp, s, v, 0.0, m);
    Shift(exp, s, Ones(|s|), 0.0, m);
    ExpPositive(exp, 0.0 - m);
    CancelFactor(exp(0.0 - m), Weighted(exp, s, v, 0.0), Weighted(exp, s, Ones(|s|), 0.0));
  }

  lemma CancelFactor(k: real, a: real, b: real)
    requires k > 0.0 && b > 0.0
    ensures k * b > 0.0 && (k * a) / (k * b) == a / b
  {
    var q := a / b;
    assert q * b == a;
    assert q * (k * b) == k * (q * b);
  }

  // -------------------------------------------------------------------- online form

  function Max(a: real, b: real): real { if a >= b then a else b }

  function NewMax(m: Option<real>, score: real): real { if m.None? then score else Max(m.value, score) }

  /** Rescaling factor of what was accumulated so far; -INFINITY is `None`. */
  function Alpha(exp: RealFn, m: Option<real>, newMax: real): real { if m.None? then 0.0 else exp(m.value - newMax) }

  /** `m` is the greatest score, so no exponent relative to it is positive. */
  ghost predicate Tops(m: real, s: seq<real>) { m in s && forall i :: 0 <= i < |s| ==> s[i] <= m }

  lemma TopsAppend(m: Option<real>, s: seq<real>, score: real)
    requires if s == [] then m.None? else m.Some? && Tops(m.value, s)
    ensures Tops(NewMax(m, score), s + [score])
  {
    var s' := s + [score];
    assert s'[|s|] == score;
    if s != [] {
      var i :| 0 <= i < |s| && s[i] == m.value;
      assert s'[i] == m.value;
    }
  }

  /** `acc` is the weighted sum of `v` relative to the running maximum. */
  ghost predicate Accumulates(exp: RealFn, m: Option<real>, acc: real, s: seq<real>, v: seq<real>)
    requires |s| == |v|
  {
    if s == [] then m.None? && acc == 0.0
    else m.Some? && Tops(m.value, s) && acc == Weighted(exp, s, v, m.value)
  }

  /** One online update absorbs one more token. */
  lemma OnlineAbsorbs(exp: RealFn, m: Option<real>, acc: real, s: seq<real>, v: seq<real>, score: real, value: real,
                      acc': real)
    requires IsExp(exp) && |s| == |v| && Accumulates(exp, m, acc, s, v)
    requires acc' == Alpha(exp, m, NewMax(m, score)) * acc + exp(score - NewMax(m, score)) * value
    ensures Accumulates(exp, Some(NewMax(m, score)), acc', s + [score], v + [value])
  {
    hide IsExp, Weighted, Tops;
    var newMax := NewMax(m, score);
    TopsAppend(m, s, score);
    WeightedAppend(exp, s, v, score, value, newMax);
    if s != [] {
      Shift(exp, s, v, m.value, newMax);
    } else {
      NothingWeighted(exp, newMax);
    }
  }

  /** The normalised online result is the softmax average. */
  lemma OnlineResult(exp: RealFn, m: Option<real>, sum: real, acc: real, s: seq<real>, v: seq<real>)
    requires IsExp(exp) && |s| == |v| > 0
    requires Accumulates(exp, m, sum, s, Ones(|s|)) && Accumulates(exp, m, acc, s, v)
    ensures sum > 0.0 && acc / sum == Attend(exp, s, v)
  {
    hide IsExp, Weighted, Attend;
    AnyReference(exp, s, v, m.value);
  }

  // --------------------------------------------------------------------- split form

  /** `m` is the greatest score of class w below n. */
  ghost predicate ClassTops(m: real, s: seq<real>, w: nat, parts: nat, n: nat)
    requires n <= |s| && parts > 0
  {
    && (exists i :: 0 <= i < n && i % parts == w && s[i] == m)
    && forall i :: 0 <= i < n && i % parts == w ==> s[i] <= m
  }

  lemma ClassTopsStep(m: Option<real>, s: seq<real>, w: nat, parts: nat, t: nat, next: nat)
    requires w < parts && t < |s| && t % parts == w && w <= t
    requires if t <= w then m.None? else m.Some? && ClassTops(m.value, s, w, parts, t)
    requires next == (if t + parts <= |s| then t + parts else |s|)
    ensures ClassTops(NewMax(m, s[t]), s, w, parts, next)
  {
    NextInClass(t, w, parts);
    BeforeFirst(w, parts);
    var newMax := NewMax(m, s[t]);
    forall i | 0 <= i < next && i % parts == w ensures i == t || (t > w && i < t) {}
    if t > w && newMax == m.value {
      var i :| 0 <= i < t && i % parts == w && s[i] == m.value;
      assert s[i] == newMax;
    } else {
      assert s[t] == newMax;
    }
  }

  /** `acc` is class w's share of the weighted sum over the tokens below n. */
  ghost predicate PartAccumulates(exp: RealFn, m: Option<real>, acc: real, s: seq<real>, v: seq<real>, w: nat,
                                  parts: nat, n: nat)
    requires |s| == |v| && n <= |s| && w < parts
  {
    if n <= w then m.None? && acc == 0.0
    else m.Some? && ClassTops(m.value, s, w, parts, n) && acc == StrideSum(Terms(exp, s, v, m.value), w, parts, n)
  }

  /** Class w's share, moved to another reference point. */
  lemma PartShift(exp: RealFn, s: seq<real>, v: seq<real>, m: real, m': real, w: nat, parts: nat, n: nat)
    requires IsExp(exp) && |s| == |v| && w < parts && n <= |s|
    ensures StrideSum(Terms(exp, s, v, m'), w, parts, n) == exp(m - m') * StrideSum(Terms(exp, s, v, m), w, parts, n)
  {
    hide IsExp, StrideSum;
    TermsScale(exp, s, v, m, m');
    StrideScale(Terms(exp, s, v, m), Terms(exp, s, v, m'), exp(m - m'), w, parts, n);
  }

  /** Class w's share after the token t of the class, up to the class's next token. */
  lemma PartStep(terms: seq<real>, w: nat, parts: nat, t: nat, next: nat)
    requires w < parts && t < |terms| && t % parts == w
    requires next == (if t + parts <= |terms| then t + parts else |terms|)
    ensures StrideSum(terms, w, parts, next) == StrideSum(terms, w, parts, t) + terms[t]
  {
    NextInClass(t, w, parts);
    StrideSkips(terms, w, parts, t + 1, next);
  }

  lemma EmptyClass(terms: seq<real>, w: nat, parts: nat, n: nat)
    requires n <= w < parts && n <= |terms|
    ensures StrideSum(terms, w, parts, n) == 0.0
  {
    BeforeFirst(w, parts);
    StrideSkips(terms, w, parts, 0, n);
  }

  lemma PartAbsorbs(exp: RealFn, m: Option<real>, acc: real, s: seq<real>, v: seq<real>, w: nat, parts: nat, t: nat,
                    next: nat, acc': real)
    requires IsExp(exp) && |s| == |v| && w < parts && t < |s| && t % parts == w && w <= t
    requires PartAccumulates(exp, m, acc, s, v, w, parts, t)
    requires next == (if t + parts <= |s| then t + parts else |s|)
    requires acc' == Alpha(exp, m, NewMax(m, s[t])) * acc + exp(s[t] - NewMax(m, s[t])) * v[t]
    ensures PartAccumulates(exp, Some(NewMax(m, s[t])), acc', s, v, w, parts, next)
  {
    hide IsExp, StrideSum, ClassTops;
    var newMax := NewMax(m, s[t]);
    ClassTopsStep(m, s, w, parts, t, next);
    var terms := Terms(exp, s, v, newMax);
    PartStep(terms, w, parts, t, next);
    if t > w {
      PartShift(exp, s, v, m.value, newMax, w, parts, t);
    } else {
      EmptyClass(terms, w, parts, t);
    }
  }

  /** One part, rescaled to the common reference point; a part with no token contributes nothing. */
  lemma PartShare(exp: RealFn, s: seq<real>, v: seq<real>, m: Option<real>, acc: real, w: nat, parts: nat, common: real)
    requires IsExp(exp) && |s| == |v| && w < parts && PartAccumulates(exp, m, acc, s, v, w, parts, |s|)
    ensures StrideSum(Terms(exp, s, v, common), w, parts, |s|) == if m.None? then 0.0 else exp(m.value - common) * acc
  {
    hide IsExp, StrideSum;
    if m.None? {
      EmptyClass(Terms(exp, s, v, common), w, parts, |s|);
    } else {
      PartShift(exp, s, v, m.value, common, w, parts, |s|);
    }
  }

  /** Rescaled to a common reference point, the parts add up to the whole. */
  lemma PartsMerge(exp: RealFn, s: seq<real>, v: seq<real>, parts: nat, maxes: seq<Option<real>>, accs: seq<real>,
                   m: real, shares: seq<real>)
    requires IsExp(exp) && |s| == |v| && |maxes| == |accs| == |shares| == parts > 0
    requires forall w :: 0 <= w < parts ==> PartAccumulates(exp, maxes[w], accs[w], s, v, w, parts, |s|)
    requires forall w :: 0 <= w < parts ==>
      shares[w] == if maxes[w].None? then 0.0 else exp(maxes[w].value - m) * accs[w]
    ensures Sum(shares) == Weighted(exp, s, v, m)
  {
    hide IsExp, StrideSum, Sum, PartAccumulates;
    var terms := Terms(exp, s, v, m);
    forall w | 0 <= w < parts ensures shares[w] == StrideSum(terms, w, parts, |s|) {
      PartShare(exp, s, v, maxes[w], accs[w], w, parts, m);
    }
    assert shares == Strides(terms, parts, |s|);
    StridesCover(terms, parts, |s|);
    assert terms[..|s|] == terms;
  }
}

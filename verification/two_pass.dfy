/** Two-pass softmax attention, as the CPU references compute it
    (kernels/paged_kv_cache/paged_kv_cache.cu, kernels/flash_attention/flash_attention_prefilling.cu). */
module TwoPass {
  import opened Protocol
  import opened RealSums
  import opened Softmax
  import opened Attention

  method PlainDot(a: seq<real>, b: seq<real>) returns (score: real)
    requires |a| == |b|
    ensures score == Dot(a, b)
  {
    hide Sum;
    ghost var products := Products(a, b);
    NothingSummed();
    score := 0.0;
    for dim := 0 to |a|
      invariant score == Sum(products[..dim])
    {
      SumAppend(products[..dim], products[dim]);
      assert products[..dim] + [products[dim]] == products[..dim + 1];
      score := score + a[dim] * b[dim];
    }
    assert products[..|a|] == products;
  }

  /** First pass: scaled scores and their maximum. */
  method ScorePass(q: seq<real>, keys: seq<seq<real>>, scale: real) returns (scores: seq<real>, rowMax: Option<real>)
    requires AllWide(keys, |q|)
    ensures scores == Scores(q, keys, scale)
    ensures rowMax.None? <==> keys == []
    ensures rowMax.Some? ==> rowMax.value in scores && forall t :: 0 <= t < |scores| ==> scores[t] <= rowMax.value
  {
    hide Dot;
    ghost var s := Scores(q, keys, scale);
    scores, rowMax := [], None;
    for token := 0 to |keys|
      invariant |scores| == token && forall t :: 0 <= t < token ==> scores[t] == s[t]
      invariant rowMax.None? <==> token == 0
      invariant rowMax.Some? ==> rowMax.value in scores && forall t :: 0 <= t < |scores| ==> scores[t] <= rowMax.value
    {
      var score := PlainDot(q, keys[token]);
      score := score * scale;
      scores := scores + [score];
      rowMax := Some(NewMax(rowMax, score));
      assert scores[token] == score == s[token];
    }
  }

  /** Second pass: exponentials relative to the maximum, and their sum. */
  method ExpPass(exp: RealFn, scores: seq<real>, m: real) returns (weights: seq<real>, denom: real)
    ensures weights == Terms(exp, scores, Ones(|scores|), m) && denom == Sum(weights)
  {
    hide Sum;
    NothingSummed();
    weights, denom := [], 0.0;
    for token := 0 to |scores|
      invariant |weights| == token && denom == Sum(weights)
      invariant forall t :: 0 <= t < token ==> weights[t] == exp(scores[t] - m)
    {
      var e := exp(scores[token] - m);
      SumAppend(weights, e);
      weights := weights + [e];
      denom := denom + e;
    }
  }

  /** One term of the weighted sum: probability times value. */
  function Probable(weight: real, denom: real, v: real): real
    requires denom != 0.0
  {
    (weight / denom) * v
  }

  /** Third loop: the probabilities' weighted sum of one column. */
  method WeighColumn(weights: seq<real>, denom: real, column: seq<real>) returns (acc: real)
    requires |weights| == |column| && (weights != [] ==> denom != 0.0)
    ensures acc == Sum(seq(|weights|, t requires 0 <= t < |weights| => Probable(weights[t], denom, column[t])))
  {
    hide Sum;
    ghost var terms := seq(|weights|, t requires 0 <= t < |weights| => Probable(weights[t], denom, column[t]));
    NothingSummed();
    acc := 0.0;
    for token := 0 to |weights|
      invariant acc == Sum(terms[..token])
    {
      SumAppend(terms[..token], terms[token]);
      assert terms[..token] + [terms[token]] == terms[..token + 1];
      acc := acc + Probable(weights[token], denom, column[token]);
    }
    assert terms[..|weights|] == terms;
  }

  /** Dividing every weight or dividing the sum is the same. */
  lemma Normalised(exp: RealFn, s: seq<real>, v: seq<real>, m: real, weights: seq<real>, denom: real, probs: seq<real>)
    requires IsExp(exp) && |s| == |v| == |weights| == |probs| > 0
    requires weights == Terms(exp, s, Ones(|s|), m) && denom == Sum(weights) && denom != 0.0
    requires forall t :: 0 <= t < |s| ==> probs[t] == Probable(weights[t], denom, v[t])
    ensures Sum(probs) == Attend(exp, s, v)
  {
    hide IsExp, Sum, Attend, Terms, Probable;
    AnyReference(exp, s, v, m);
    var terms := Terms(exp, s, v, m);
    var k := Inverse(denom);
    forall t | 0 <= t < |s| ensures probs[t] == k * terms[t] {
      UnitTerm(exp, s, v, m, t);
      ScaleOne(weights[t], v[t], denom, k);
    }
    SumScale(terms, probs, k);
    ScaleSum(Sum(terms), denom, k, Sum(probs));
  }

  lemma UnitTerm(exp: RealFn, s: seq<real>, v: seq<real>, m: real, t: nat)
    requires t < |s| == |v|
    ensures Terms(exp, s, v, m)[t] == Terms(exp, s, Ones(|s|), m)[t] * v[t]
  {
    assert Terms(exp, s, Ones(|s|), m)[t] == exp(s[t] - m) * 1.0;
  }

  lemma Inverse(denom: real) returns (k: real)
    requires denom != 0.0
    ensures k * denom == 1.0
  {
    k := 1.0 / denom;
  }

  lemma ScaleOne(w: real, v: real, denom: real, k: real)
    requires denom != 0.0 && k * denom == 1.0
    ensures Probable(w, denom, v) == k * (w * v)
  {
    var x := w / denom;
    assert x * denom == w;
    assert k * (x * denom) == (k * denom) * x;
  }

  lemma ScaleSum(a: real, denom: real, k: real, total: real)
    requires denom != 0.0 && k * denom == 1.0 && total == k * a
    ensures total == a / denom
  {
    assert total * denom == (k * denom) * a;
  }

  /** The reference row: scores, maximum, exponentials, probabilities, weighted sums. */
  method ReferenceRow(exp: RealFn, q: seq<real>, keys: seq<seq<real>>, values: seq<seq<real>>, scale: real)
    returns (row: seq<real>)
    requires IsExp(exp) && AllWide(keys, |q|) && AllWide(values, |q|) && |keys| == |values|
    ensures row == AttentionRow(exp, q, keys, values, scale)
  {
    hide IsExp, Sum, Attend, Scores, Terms;
    var scores, rowMax := ScorePass(q, keys, scale);
    var m := if rowMax.Some? then rowMax.value else 0.0;
    var weights, denom := ExpPass(exp, scores, m);
    DenominatorNonzero(exp, scores, m, weights, denom);
    row := [];
    for dim := 0 to |q|
      invariant |row| == dim
      invariant forall d :: 0 <= d < dim ==> row[d] == AttentionAt(exp, q, keys, values, scale, d)
    {
      var column := Column(values, |q|, dim);
      var acc := WeighColumn(weights, denom, column);
      ReferenceColumn(exp, scores, column, m, weights, denom, acc);
      row := row + [acc];
    }
  }

  lemma DenominatorNonzero(exp: RealFn, s: seq<real>, m: real, weights: seq<real>, denom: real)
    requires IsExp(exp) && weights == Terms(exp, s, Ones(|s|), m) && denom == Sum(weights)
    ensures |weights| == |s| && (weights != [] ==> denom > 0.0)
  {
    hide IsExp, Sum;
    if s != [] { DenominatorPositive(exp, s, m); }
  }

  lemma ReferenceColumn(exp: RealFn, s: seq<real>, v: seq<real>, m: real, weights: seq<real>, denom: real, acc: real)
    requires IsExp(exp) && |s| == |v| == |weights|
    requires weights == Terms(exp, s, Ones(|s|), m) && denom == Sum(weights) && (weights != [] ==> denom != 0.0)
    requires acc == Sum(seq(|weights|, t requires 0 <= t < |weights| => Probable(weights[t], denom, v[t])))
    ensures acc == Attend(exp, s, v)
  {
    hide IsExp, Attend, Sum;
    var probs := seq(|weights|, t requires 0 <= t < |weights| => Probable(weights[t], denom, v[t]));
    if s == [] {
      NothingAttended(exp);
      NothingSummed();
      assert probs == [] && v == [];
    } else {
      Normalised(exp, s, v, m, weights, denom, probs);
    }
  }

  lemma NothingAttended(exp: RealFn) ensures Attend(exp, [], []) == 0.0 {}
}

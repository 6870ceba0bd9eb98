/** The online-softmax recurrence over one row, shared by the attention kernels that visit
    every token in order. */
module OnlineSoftmax {
  import opened Protocol
  import opened Softmax
  import opened Attention
  import opened PagedDecode

  /** Running maximum, denominator and numerator row after the first t tokens. */
  ghost predicate OnlineAt(exp: RealFn, m: Option<real>, sum: real, out: seq<real>, s: seq<real>,
                           values: seq<seq<real>>, t: nat)
    requires |s| == |values| && t <= |s| && AllWide(values, |out|)
  {
    && Accumulates(exp, m, sum, s[..t], Ones(t))
    && forall d :: 0 <= d < |out| ==> Accumulates(exp, m, out[d], s[..t], Column(values, |out|, d)[..t])
  }

  lemma OnlineStarts(exp: RealFn, out: seq<real>, s: seq<real>, values: seq<seq<real>>)
    requires |s| == |values| && AllWide(values, |out|) && forall d :: 0 <= d < |out| ==> out[d] == 0.0
    ensures OnlineAt(exp, None, 0.0, out, s, values, 0)
  {}

  lemma OnlineColumn(exp: RealFn, m: Option<real>, acc: real, s: seq<real>, v: seq<real>, t: nat, acc': real)
    requires IsExp(exp) && |s| == |v| && t < |s| && Accumulates(exp, m, acc, s[..t], v[..t])
    requires acc' == Alpha(exp, m, NewMax(m, s[t])) * acc + exp(s[t] - NewMax(m, s[t])) * v[t]
    ensures Accumulates(exp, Some(NewMax(m, s[t])), acc', s[..t + 1], v[..t + 1])
  {
    hide IsExp, Accumulates, Alpha, NewMax;
    OnlineAbsorbs(exp, m, acc, s[..t], v[..t], s[t], v[t], acc');
    assert s[..t] + [s[t]] == s[..t + 1] && v[..t] + [v[t]] == v[..t + 1];
  }

  lemma OnlineStep(exp: RealFn, m: Option<real>, sum: real, out: seq<real>, s: seq<real>, values: seq<seq<real>>,
                   t: nat, alpha: real, beta: real, sum': real, out': seq<real>)
    requires IsExp(exp) && |s| == |values| && t < |s| && AllWide(values, |out|) && |out'| == |out|
    requires OnlineAt(exp, m, sum, out, s, values, t)
    requires alpha == Alpha(exp, m, NewMax(m, s[t])) && beta == exp(s[t] - NewMax(m, s[t]))
    requires sum' == alpha * sum + beta
    requires forall d :: 0 <= d < |out| ==> out'[d] == alpha * out[d] + beta * values[t][d]
    ensures OnlineAt(exp, Some(NewMax(m, s[t])), sum', out', s, values, t + 1)
  {
    hide IsExp, Accumulates, Alpha, NewMax;
    var ones := Ones(|s|);
    assert ones[..t] == Ones(t) && ones[..t + 1] == Ones(t + 1);
    assert beta * ones[t] == beta;
    OnlineColumn(exp, m, sum, s, ones, t, sum');
    forall d | 0 <= d < |out|
      ensures Accumulates(exp, Some(NewMax(m, s[t])), out'[d], s[..t + 1], Column(values, |out'|, d)[..t + 1])
    {
      assert Column(values, |out|, d)[t] == values[t][d];
      OnlineColumn(exp, m, out[d], s, Column(values, |out|, d), t, out'[d]);
    }
  }

  lemma OnlineEnds(exp: RealFn, m: Option<real>, sum: real, out: seq<real>, q: seq<real>, keys: seq<seq<real>>,
                   values: seq<seq<real>>, scale: real, d: nat)
    requires IsExp(exp) && |keys| == |values| && |out| == |q| && AllWide(keys, |q|) && AllWide(values, |q|) && d < |q|
    requires OnlineAt(exp, m, sum, out, Scores(q, keys, scale), values, |keys|)
    ensures Quotient(out[d], sum) == DecodeAt(exp, q, keys, values, scale, d)
    ensures keys != [] ==> sum > 0.0 && out[d] / sum == AttentionAt(exp, q, keys, values, scale, d)
  {
    hide IsExp, Scores, Weighted, Attend;
    var s, column := Scores(q, keys, scale), Column(values, |q|, d);
    assert s[..|keys|] == s && column[..|keys|] == column;
    if keys != [] {
      OnlineResult(exp, m, sum, out[d], s, column);
    }
  }
}

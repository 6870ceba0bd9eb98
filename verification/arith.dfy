/** Integer facts behind the paged layout: ceiling division and slot numbers. */
module Arith {

  /** Blocks that hold `tokens` tokens: (tokens + size - 1) // size. */
  function CeilDiv(tokens: nat, size: nat): nat
    requires size > 0
  {
    (tokens + size - 1) / size
  }

  lemma MulMonotone(a: int, b: int, n: int)
    requires n >= 0 && a <= b
    ensures a * n <= b * n
  {
    assert (b - a) * n >= 0;
    assert (b - a) * n == b * n - a * n;
  }

  lemma DivModDetermine(p: int, q: int, n: int)
    requires n > 0 && p / n == q / n && p % n == q % n
    ensures p == q
  {
    assert p == (p / n) * n + p % n;
    assert q == (q / n) * n + q % n;
  }

  lemma DivModUnique(a: int, n: int, q: int, r: int)
    requires n > 0 && 0 <= r < n && a == q * n + r
    ensures a / n == q && a % n == r
  {
    var d := a / n - q;
    assert a == (a / n) * n + a % n;
    assert d * n == r - a % n;
    assert d >= 1 ==> d * n >= n;
    assert d <= -1 ==> d * n <= -n;
  }

  lemma DivMonotone(a: int, b: int, n: int)
    requires n > 0 && 0 <= a <= b
    ensures 0 <= a / n <= b / n
  {
    var d := a / n - b / n;
    assert d * n == a - b - a % n + b % n;
    assert d >= 1 ==> d * n >= n;
  }

  /** `CeilDiv` is the least number of blocks whose capacity reaches `tokens`. */
  lemma CeilDivLeast(tokens: nat, size: nat)
    requires size > 0
    ensures CeilDiv(tokens, size) * size >= tokens
    ensures tokens > 0 ==> CeilDiv(tokens, size) > 0 && (CeilDiv(tokens, size) - 1) * size < tokens
    ensures tokens == 0 ==> CeilDiv(tokens, size) == 0
  {
    var a := tokens + size - 1;
    assert a == (a / size) * size + a % size;
    if tokens > 0 { DivMonotone(size, a, size); DivModUnique(size, size, 1, 0); }
    if tokens == 0 { DivModUnique(a, size, 0, size - 1); }
  }

  lemma CeilDivMonotone(a: nat, b: nat, size: nat)
    requires size > 0 && a <= b
    ensures CeilDiv(a, size) <= CeilDiv(b, size)
  {
    DivMonotone(a + size - 1, b + size - 1, size);
  }

  /** `blocks` blocks suffice for `tokens` tokens exactly when their capacity does. */
  lemma CeilDivFits(tokens: nat, size: nat, blocks: nat)
    requires size > 0
    ensures CeilDiv(tokens, size) <= blocks <==> tokens <= blocks * size
  {
    CeilDivLeast(tokens, size);
    var c := CeilDiv(tokens, size);
    if c <= blocks {
      MulMonotone(c, blocks, size);
    } else {
      MulMonotone(blocks, c - 1, size);
    }
  }

  /** Every position below `tokens` lies in one of the `CeilDiv` blocks. */
  lemma PositionInBlocks(p: nat, tokens: nat, size: nat)
    requires size > 0 && p < tokens
    ensures 0 <= p / size < CeilDiv(tokens, size) && 0 <= p % size < size
  {
    var b := p / size;
    assert p == b * size + p % size;
    DivModUnique(p + size, size, b + 1, p % size);
    DivMonotone(p + size, tokens + size - 1, size);
    DivMonotone(0, p, size);
  }

  lemma SlotUnique(block: nat, offset: nat, block': nat, offset': nat, size: nat)
    requires offset < size && offset' < size
    ensures block * size + offset == block' * size + offset' <==> block == block' && offset == offset'
  {
    DivModUnique(block * size + offset, size, block, offset);
    DivModUnique(block' * size + offset', size, block', offset');
  }

  lemma SlotInRange(block: nat, offset: nat, blocks: nat, size: nat)
    requires offset < size && block < blocks
    ensures 0 <= block * size + offset < blocks * size
  {
    MulMonotone(0, block, size);
    MulMonotone(block + 1, blocks, size);
    assert (block + 1) * size == block * size + size;
  }
}

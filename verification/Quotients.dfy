/** Whole batches in a queue and whole periods in a stretch of time: quotients
    against repeated addition. */
module Quotients {

  /** `n` times `m`, added up. */
  function Span(n: nat, m: nat): nat
  {
    if n == 0 then 0 else Span(n - 1, m) + m
  }

  lemma {:induction false} SpanIsProduct(n: nat, m: nat)
    ensures Span(n, m) == n * m
  {
    if n > 0 {
      SpanIsProduct(n - 1, m);
    }
  }

  lemma {:induction false} AboveQuotient(n: nat, m: nat, p: nat)
    requires m > 0 && n > p / m
    ensures n * m > p
  {
    var d := n - (p / m + 1);
    assert n * m == (p / m) * m + m + d * m;
    assert d * m >= 0;
  }

  lemma UpToQuotient(n: nat, m: nat, p: nat)
    requires m > 0 && n <= p / m
    ensures n * m <= p
  {
    var d := p / m - n;
    assert (p / m) * m == n * m + d * m;
    assert d * m >= 0;
  }

  lemma QuotientAbove(n: nat, m: nat, p: nat)
    requires m > 0 && p < Span(n, m)
    ensures p / m < n
  {
    SpanIsProduct(n, m);
    if n <= p / m {
      UpToQuotient(n, m, p);
    }
  }

  lemma QuotientBound(n: nat, m: nat, p: nat)
    requires m > 0 && Span(n, m) <= p
    ensures n <= p / m
  {
    SpanIsProduct(n, m);
    if n > p / m {
      AboveQuotient(n, m, p);
    }
  }

  lemma {:induction false} QuotientStep(x: nat, d: nat)
    requires d > 0
    ensures if x < d then x / d == 0 else x / d == 1 + (x - d) / d
  {
    if x < d {
      QuotientAbove(1, d, x);
    } else {
      var n := (x - d) / d;
      UpToQuotient(n, d, x - d);
      AboveQuotient(n + 1, d, x - d);
      SpanIsProduct(n, d);
      SpanIsProduct(n + 1, d);
      QuotientBound(n + 1, d, x);
      QuotientAbove(n + 2, d, x);
    }
  }

  lemma {:induction false} QuotientMonotone(x: nat, y: nat, d: nat)
    requires d > 0 && x <= y
    ensures x / d <= y / d
  {
    UpToQuotient(x / d, d, x);
    SpanIsProduct(x / d, d);
    QuotientBound(x / d, d, y);
  }

  lemma {:induction false} ProductMonotone(q: nat, d: nat, d': nat)
    requires d <= d'
    ensures q * d <= q * d'
  {
    if q > 0 {
      ProductMonotone(q - 1, d, d');
    }
  }

  lemma {:induction false} QuotientAntitone(x: nat, d: nat, d': nat)
    requires 0 < d <= d'
    ensures x / d >= x / d'
  {
    UpToQuotient(x / d', d', x);
    ProductMonotone(x / d', d, d');
    SpanIsProduct(x / d', d);
    QuotientBound(x / d', d, x);
  }

  /** Moving up by a whole batch saves a whole batch. */
  lemma QuotientShift(x: nat, y: nat, d: nat)
    requires d > 0 && x + d <= y
    ensures x / d + 1 <= y / d
  {
    QuotientStep(y, d);
    QuotientMonotone(x, y - d, d);
  }
}

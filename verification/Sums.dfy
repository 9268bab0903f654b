/** Finite sums of real numbers. */
module Sums {
  /** A product, by name. */
  function Times(a: real, b: real): real {
    a * b
  }

  function SumTo(n: nat, f: nat -> real): real {
    if n == 0 then 0.0 else SumTo(n - 1, f) + f(n - 1)
  }

  lemma {:induction false} SumEq(n: nat, f: nat -> real, g: nat -> real)
    requires forall i: nat :: i < n ==> f(i) == g(i)
    ensures SumTo(n, f) == SumTo(n, g)
  {
    if n > 0 {
      SumEq(n - 1, f, g);
    }
  }

  lemma {:induction false} SumAdd(n: nat, f: nat -> real, g: nat -> real, h: nat -> real)
    requires forall i: nat :: i < n ==> h(i) == f(i) + g(i)
    ensures SumTo(n, h) == SumTo(n, f) + SumTo(n, g)
  {
    if n > 0 {
      SumAdd(n - 1, f, g, h);
    }
  }

  lemma {:induction false} SumScale(n: nat, c: real, f: nat -> real, g: nat -> real)
    requires forall i: nat :: i < n ==> g(i) == Times(c, f(i))
    ensures SumTo(n, g) == Times(c, SumTo(n, f))
  {
    if n > 0 {
      SumScale(n - 1, c, f, g);
    }
  }

  lemma {:induction false} SumNegated(n: nat, f: nat -> real, g: nat -> real)
    requires forall i: nat :: i < n ==> g(i) == -f(i)
    ensures SumTo(n, g) == -SumTo(n, f)
  {
    if n > 0 {
      SumNegated(n - 1, f, g);
    }
  }

  lemma {:induction false} SumSplit(m: nat, n: nat, f: nat -> real, g: nat -> real)
    requires forall i: nat :: i < n ==> g(i) == f(m + i)
    ensures SumTo(m + n, f) == SumTo(m, f) + SumTo(n, g)
  {
    if n > 0 {
      SumSplit(m, n - 1, f, g);
    }
  }

  lemma {:induction false} SumZero(n: nat, f: nat -> real)
    requires forall i: nat :: i < n ==> f(i) == 0.0
    ensures SumTo(n, f) == 0.0
  {
    if n > 0 {
      SumZero(n - 1, f);
    }
  }

  /** Only one term counts. */
  lemma {:induction false} SumOne(n: nat, f: nat -> real, k: nat)
    requires k < n && forall i: nat :: i < n && i != k ==> f(i) == 0.0
    ensures SumTo(n, f) == f(k)
  {
    if k == n - 1 {
      SumZero(n - 1, f);
    } else {
      SumOne(n - 1, f, k);
    }
  }

  function Row(f: (nat, nat) -> real, i: nat): nat -> real {
    (j: nat) => f(i, j)
  }

  function Column(f: (nat, nat) -> real, j: nat): nat -> real {
    (i: nat) => f(i, j)
  }

  /** A double sum may be taken by rows or by columns. */
  lemma {:induction false} SumSwap(m: nat, n: nat, f: (nat, nat) -> real, rows: nat -> real, columns: nat -> real)
    requires forall i: nat :: i < m ==> rows(i) == SumTo(n, Row(f, i))
    requires forall j: nat :: j < n ==> columns(j) == SumTo(m, Column(f, j))
    ensures SumTo(m, rows) == SumTo(n, columns)
  {
    if m == 0 {
      SumZero(n, columns);
    } else {
      var fewer := (j: nat) => SumTo(m - 1, Column(f, j));
      SumSwap(m - 1, n, f, rows, fewer);
      SumAdd(n, fewer, Row(f, m - 1), columns);
    }
  }

  /** A sum by pairs. */
  lemma {:induction false} SumPairs(n: nat, f: nat -> real, pairs: nat -> real)
    requires forall i: nat :: i < n ==> pairs(i) == f(2 * i) + f(2 * i + 1)
    ensures SumTo(2 * n, f) == SumTo(n, pairs)
  {
    if n > 0 {
      SumPairs(n - 1, f, pairs);
      assert SumTo(2 * n, f) == SumTo(2 * n - 2, f) + f(2 * n - 2) + f(2 * n - 1);
    }
  }
}

/**
 The rotation applied to queries and keys before they are quantised: a Sylvester-Hadamard
 matrix of the largest power of two that fits, scaled, and padded with the identity.  The
 in-place construction yields an orthogonal matrix, so rotating both sides of a score leaves
 it unchanged.
 */
module Hadamard {
  import opened Blocks
  import opened Sums

  function Pow2(k: nat): (p: nat)
    ensures p >= 1
  {
    if k == 0 then 1 else 2 * Pow2(k - 1)
  }

  /** Entry (i, j) of the Sylvester matrix of order 2^k. */
  function Sylvester(k: nat, i: nat, j: nat): real
    requires i < Pow2(k) && j < Pow2(k)
  {
    if k == 0 then 1.0
    else
      var half := Pow2(k - 1);
      var entry := Sylvester(k - 1, if i < half then i else i - half, if j < half then j else j - half);
      if i >= half && j >= half then -entry else entry
  }

  // ------------------------------------------------------------------ square matrices laid out flat

  function Index(n: nat, x: nat, y: nat): nat {
    x * n + y
  }

  lemma IndexFits(n: nat, x: nat, y: nat)
    requires x < n && y < n
    ensures Index(n, x, y) < n * n
  {
    PairFits(x, n, y, n);
  }

  /** The entry in row x and column y. */
  ghost function Cell(s: seq<real>, n: nat, x: nat, y: nat): real
    requires |s| == n * n && x < n && y < n
  {
    IndexFits(n, x, y);
    s[Index(n, x, y)]
  }

  method Get(h: array<real>, n: nat, x: nat, y: nat) returns (v: real)
    requires h.Length == n * n && x < n && y < n
    ensures v == Cell(h[..], n, x, y)
  {
    IndexFits(n, x, y);
    v := h[Index(n, x, y)];
  }

  /** `h[x * n + y] = v` sets that entry and no other. */
  method Put(h: array<real>, n: nat, x: nat, y: nat, v: real)
    requires h.Length == n * n && x < n && y < n
    modifies h
    ensures forall u: nat, w: nat :: u < n && w < n ==>
      Cell(h[..], n, u, w) == if u == x && w == y then v else Cell(old(h[..]), n, u, w)
  {
    IndexFits(n, x, y);
    h[Index(n, x, y)] := v;
    forall u: nat, w: nat | u < n && w < n
      ensures Cell(h[..], n, u, w) == if u == x && w == y then v else Cell(old(h[..]), n, u, w)
    {
      IndexFits(n, u, w);
      if Index(n, u, w) == Index(n, x, y) {
        PairTellsApart(n, u, w, x, y);
      }
    }
  }

  // ------------------------------------------------------------------ the doubling loop

  /** The upper left square of order m holds this Sylvester matrix. */
  ghost predicate Filled(s: seq<real>, n: nat, k: nat)
    requires |s| == n * n
  {
    Pow2(k) <= n && forall i: nat, j: nat :: i < Pow2(k) && j < Pow2(k) ==> Cell(s, n, i, j) == Sylvester(k, i, j)
  }

  /** Copies the upper left square of order `step` to the right, below, and, negated, across. */
  method Double(h: array<real>, p2: nat, step: nat, ghost k: nat)
    requires h.Length == p2 * p2 && step == Pow2(k) && 2 * step <= p2 && Filled(h[..], p2, k)
    modifies h
    ensures Filled(h[..], p2, k + 1)
  {
    hide Cell, Index, Sylvester;
    for i := 0 to step
      invariant forall x: nat, y: nat :: x < step && y < step ==> Cell(h[..], p2, x, y) == Sylvester(k, x, y)
      invariant forall x: nat, y: nat :: x < i && y < step ==> Quad(h[..], p2, k, x, y)
    {
      for j := 0 to step
        invariant forall x: nat, y: nat :: x < step && y < step ==> Cell(h[..], p2, x, y) == Sylvester(k, x, y)
        invariant forall x: nat, y: nat :: x < i && y < step ==> Quad(h[..], p2, k, x, y)
        invariant forall y: nat :: y < j ==> Quad(h[..], p2, k, i, y)
      {
        ghost var was := h[..];
        var val := Get(h, p2, i, j);
        Put(h, p2, i, j + step, val);
        Put(h, p2, i + step, j, val);
        Put(h, p2, i + step, j + step, -val);
        assert Quad(h[..], p2, k, i, j);
        forall x: nat, y: nat | (x < i && y < step) || (x == i && y < j)
          ensures Quad(h[..], p2, k, x, y)
        {
          assert Quad(was, p2, k, x, y);
        }
      }
    }
    QuadsFill(h[..], p2, k);
  }

  /** The three copies of entry (x, y). */
  ghost predicate Quad(s: seq<real>, n: nat, k: nat, x: nat, y: nat)
    requires |s| == n * n && 2 * Pow2(k) <= n && x < Pow2(k) && y < Pow2(k)
  {
    var m := Pow2(k);
    && Cell(s, n, x, y + m) == Sylvester(k, x, y) && Cell(s, n, x + m, y) == Sylvester(k, x, y)
    && Cell(s, n, x + m, y + m) == -Sylvester(k, x, y)
  }

  lemma QuadsFill(s: seq<real>, n: nat, k: nat)
    requires |s| == n * n && 2 * Pow2(k) <= n && Filled(s, n, k)
    requires forall x: nat, y: nat :: x < Pow2(k) && y < Pow2(k) ==> Quad(s, n, k, x, y)
    ensures Filled(s, n, k + 1)
  {
    var m := Pow2(k);
    hide Cell;
    forall i: nat, j: nat | i < Pow2(k + 1) && j < Pow2(k + 1)
      ensures Cell(s, n, i, j) == Sylvester(k + 1, i, j)
    {
      var x, y := if i < m then i else i - m, if j < m then j else j - m;
      assert Quad(s, n, k, x, y) && Cell(s, n, x, y) == Sylvester(k, x, y);
    }
  }

  // ------------------------------------------------------------------ the rotation

  /** The exponent of the largest power of two up to d. */
  function Log2(d: nat): (k: nat)
    requires d >= 1
    ensures Pow2(k) <= d < Pow2(k + 1)
  {
    Log2From(d, 0)
  }

  function Log2From(d: nat, k: nat): (r: nat)
    requires Pow2(k) <= d
    ensures Pow2(r) <= d < Pow2(r + 1)
    decreases d - Pow2(k)
  {
    if 2 * Pow2(k) <= d then Log2From(d, k + 1) else k
  }

  /** The square root, as the construction uses it. */
  ghost predicate IsSqrt(sqrt: real -> real) {
    forall x :: x > 0.0 ==> sqrt(x) > 0.0 && sqrt(x) * sqrt(x) == x
  }

  /** Entry (i, j) of the rotation of order d: scaled Sylvester, then the identity. */
  ghost function Rotation(d: nat, sqrt: real -> real, i: nat, j: nat): real
    requires d >= 1 && i < d && j < d && IsSqrt(sqrt)
  {
    var k := Log2(d);
    var p2 := Pow2(k);
    if i < p2 && j < p2 then Times(Sylvester(k, i, j), 1.0 / sqrt(p2 as real))
    else if i == j then 1.0 else 0.0
  }

  method GenerateHadamardOrthogonal(d: nat, sqrt: real -> real) returns (h: array<real>)
    requires d >= 1 && IsSqrt(sqrt)
    ensures fresh(h) && h.Length == d * d
    ensures forall i: nat, j: nat :: i < d && j < d ==> Cell(h[..], d, i, j) == Rotation(d, sqrt, i, j)
  {
    hide Cell, Index, Sylvester;
    var p2 := 1;
    ghost var k: nat := 0;
    while p2 * 2 <= d
      invariant p2 == Pow2(k) <= d && Log2From(d, k) == Log2(d)
      decreases d - p2
    {
      p2 := p2 * 2;
      k := k + 1;
    }
    assert Log2(d) == k;
    h := new real[d * d](_ => 0.0);
    var sub := BuildSylvester(p2, k);
    ZeroCells(h[..], d);
    CopyScaled(h, d, sub, p2, 1.0 / sqrt(p2 as real));
    ghost var padded, sylvester := h[..], sub[..];
    for i := p2 to d
      invariant forall x: nat, y: nat :: x < d && y < d ==>
        Cell(h[..], d, x, y) == if x == y && p2 <= x < i then 1.0 else Cell(padded, d, x, y)
    {
      Put(h, d, i, i, 1.0);
    }
    PaddedIsRotation(d, sqrt, sylvester, p2, padded, h[..]);
  }

  lemma PaddedIsRotation(d: nat, sqrt: real -> real, sub: seq<real>, p2: nat, padded: seq<real>, s: seq<real>)
    requires d >= 1 && IsSqrt(sqrt) && p2 == Pow2(Log2(d)) && |s| == |padded| == d * d && |sub| == p2 * p2
    requires Filled(sub, p2, Log2(d))
    requires forall x: nat, y: nat :: x < d && y < d ==>
      Cell(padded, d, x, y) == if x < p2 && y < p2 then Times(Cell(sub, p2, x, y), 1.0 / sqrt(p2 as real)) else 0.0
    requires forall x: nat, y: nat :: x < d && y < d ==>
      Cell(s, d, x, y) == if x == y && p2 <= x < d then 1.0 else Cell(padded, d, x, y)
    ensures forall i: nat, j: nat :: i < d && j < d ==> Cell(s, d, i, j) == Rotation(d, sqrt, i, j)
  {
    hide Cell, Sylvester, Pow2, Times;
  }

  lemma ZeroCells(s: seq<real>, n: nat)
    requires |s| == n * n && forall e :: 0 <= e < |s| ==> s[e] == 0.0
    ensures forall x: nat, y: nat :: x < n && y < n ==> Cell(s, n, x, y) == 0.0
  {
    hide Index;
    forall x: nat, y: nat | x < n && y < n
      ensures Cell(s, n, x, y) == 0.0
    {
      IndexFits(n, x, y);
    }
  }

  /** The Sylvester matrix, by doubling. */
  method BuildSylvester(p2: nat, ghost k: nat) returns (sub: array<real>)
    requires p2 == Pow2(k)
    ensures fresh(sub) && sub.Length == p2 * p2 && Filled(sub[..], p2, k)
  {
    sub := new real[p2 * p2](_ => 1.0);
    var step := 1;
    ghost var m: nat := 0;
    IndexFits(p2, 0, 0);
    while step < p2
      invariant m <= k && step == Pow2(m) && Filled(sub[..], p2, m)
      decreases p2 - step
    {
      Pow2Grows(m, k);
      Double(sub, p2, step, m);
      step := step * 2;
      m := m + 1;
    }
    if m < k {
      Pow2Grows(m, k);
    }
  }

  lemma {:induction false} Pow2Grows(m: nat, k: nat)
    requires m < k
    ensures 2 * Pow2(m) <= Pow2(k)
    decreases k
  {
    if m < k - 1 {
      Pow2Grows(m, k - 1);
    }
  }

  method CopyScaled(h: array<real>, d: nat, sub: array<real>, p2: nat, scale: real)
    requires h != sub && h.Length == d * d && sub.Length == p2 * p2 && p2 <= d
    requires forall x: nat, y: nat :: x < d && y < d ==> Cell(h[..], d, x, y) == 0.0
    modifies h
    ensures forall x: nat, y: nat :: x < d && y < d ==>
      Cell(h[..], d, x, y) == if x < p2 && y < p2 then Times(Cell(sub[..], p2, x, y), scale) else 0.0
  {
    hide Cell, Index;
    for i := 0 to p2
      invariant forall x: nat, y: nat :: x < d && y < d ==>
        Cell(h[..], d, x, y) == if x < i && y < p2 then Times(Cell(sub[..], p2, x, y), scale) else 0.0
    {
      for j := 0 to p2
        invariant forall x: nat, y: nat :: x < d && y < d ==>
          Cell(h[..], d, x, y) == if (x < i && y < p2) || (x == i && y < j) then Times(Cell(sub[..], p2, x, y), scale)
            else 0.0
      {
        var v := Get(sub, p2, i, j);
        Put(h, d, i, j, Times(v, scale));
      }
    }
  }

  // ------------------------------------------------------------------ orthogonality

  ghost function SylvesterRow(k: nat, i: nat): nat -> real
    requires i < Pow2(k)
  {
    (j: nat) => if j < Pow2(k) then Sylvester(k, i, j) else 0.0
  }

  ghost function Product(f: nat -> real, g: nat -> real): nat -> real {
    (j: nat) => Times(f(j), g(j))
  }

  /** The inner product of the first n entries. */
  ghost function Dot(n: nat, f: nat -> real, g: nat -> real): real {
    SumTo(n, Product(f, g))
  }

  /** The products of two rows' entries, in terms of the matrix of half the order. */
  lemma HalfProducts(k: nat, i: nat, l: nat, j: nat)
    requires k > 0 && i < Pow2(k) && l < Pow2(k) && j < Pow2(k - 1)
    ensures var m := Pow2(k - 1);
      var x, y := if i < m then i else i - m, if l < m then l else l - m;
      var half := Product(SylvesterRow(k - 1, x), SylvesterRow(k - 1, y));
      var both := Product(SylvesterRow(k, i), SylvesterRow(k, l));
      both(j) == half(j) && both(m + j) == if (i < m) == (l < m) then half(j) else -half(j)
  {
    var m := Pow2(k - 1);
    var x, y := if i < m then i else i - m, if l < m then l else l - m;
    var a, b := Sylvester(k - 1, x, j), Sylvester(k - 1, y, j);
    assert Sylvester(k, i, j) == a && Sylvester(k, l, j) == b;
    assert Sylvester(k, i, m + j) == if i < m then a else -a;
    assert Sylvester(k, l, m + j) == if l < m then b else -b;
    Signs(a, b);
    hide Sylvester, Times;
  }

  lemma Signs(a: real, b: real)
    ensures Times(-a, b) == -Times(a, b) && Times(a, -b) == -Times(a, b) && Times(-a, -b) == Times(a, b)
  {
  }

  lemma SylvesterOne()
    ensures Dot(1, SylvesterRow(0, 0), SylvesterRow(0, 0)) == 1.0
  {
    var both := Product(SylvesterRow(0, 0), SylvesterRow(0, 0));
    assert both(0) == Times(1.0, 1.0) == 1.0;
    assert SumTo(1, both) == SumTo(0, both) + both(0);
  }

  /** Rows of the Sylvester matrix are orthogonal, of squared length 2^k. */
  lemma {:induction false} SylvesterOrthogonal(k: nat, i: nat, l: nat)
    requires i < Pow2(k) && l < Pow2(k)
    ensures Dot(Pow2(k), SylvesterRow(k, i), SylvesterRow(k, l)) == if i == l then Pow2(k) as real else 0.0
  {
    hide Product, SylvesterRow, Sylvester, Times, SumTo;
    var both := Product(SylvesterRow(k, i), SylvesterRow(k, l));
    if k == 0 {
      SylvesterOne();
    } else {
      var m := Pow2(k - 1);
      var x, y := if i < m then i else i - m, if l < m then l else l - m;
      var half := Product(SylvesterRow(k - 1, x), SylvesterRow(k - 1, y));
      var right := (j: nat) => both(m + j);
      SylvesterOrthogonal(k - 1, x, y);
      forall j: nat | j < m
        ensures both(j) == half(j) && right(j) == if (i < m) == (l < m) then half(j) else -half(j)
      {
        HalfProducts(k, i, l, j);
      }
      SumSplit(m, m, both, right);
      SumEq(m, both, half);
      if (i < m) == (l < m) {
        SumEq(m, right, half);
      } else {
        SumNegated(m, half, right);
      }
    }
  }

  /** Row i of the rotation. */
  ghost function RotationRow(d: nat, sqrt: real -> real, i: nat): nat -> real
    requires d >= 1 && i < d && IsSqrt(sqrt)
  {
    (j: nat) => if j < d then Rotation(d, sqrt, i, j) else 0.0
  }

  lemma ScaledProduct(a: real, b: real, p2: nat, root: real)
    requires p2 >= 1 && root > 0.0 && root * root == p2 as real
    ensures Times(Times(a, 1.0 / root), Times(b, 1.0 / root)) == Times(1.0 / (p2 as real), Times(a, b))
  {
    ScaleSquared(p2, root);
    Factors(a, b, 1.0 / root);
  }

  lemma Normalised(p2: nat, sum: real, same: bool)
    requires p2 >= 1 && sum == if same then p2 as real else 0.0
    ensures Times(1.0 / (p2 as real), sum) == if same then 1.0 else 0.0
  {
  }

  /** H times its transpose is the identity: rows are orthonormal. */
  lemma RotationOrthogonal(d: nat, sqrt: real -> real, i: nat, l: nat)
    requires d >= 1 && i < d && l < d && IsSqrt(sqrt)
    ensures Dot(d, RotationRow(d, sqrt, i), RotationRow(d, sqrt, l)) == if i == l then 1.0 else 0.0
  {
    var p2 := Pow2(Log2(d));
    if i < p2 && l < p2 {
      UpperOrthogonal(d, sqrt, i, l);
    } else {
      var e := if i < p2 then l else i;
      var both := Product(RotationRow(d, sqrt, i), RotationRow(d, sqrt, l));
      TimesZero();
      hide Times, Sylvester, Pow2;
      SumOne(d, both, e);
    }
  }

  lemma UpperOrthogonal(d: nat, sqrt: real -> real, i: nat, l: nat)
    requires d >= 1 && IsSqrt(sqrt) && i < Pow2(Log2(d)) && l < Pow2(Log2(d))
    ensures Dot(d, RotationRow(d, sqrt, i), RotationRow(d, sqrt, l)) == if i == l then 1.0 else 0.0
  {
    hide Times, Sylvester, Pow2, SumTo, Log2;
    var k := Log2(d);
    var p2, root := Pow2(k), sqrt(Pow2(k) as real);
    var both := Product(RotationRow(d, sqrt, i), RotationRow(d, sqrt, l));
    var unscaled := Product(SylvesterRow(k, i), SylvesterRow(k, l));
    var rest := (j: nat) => both(p2 + j);
    forall j: nat | j < d - p2
      ensures rest(j) == 0.0
    {
      TimesZero();
    }
    forall j: nat | j < p2
      ensures both(j) == Times(1.0 / (p2 as real), unscaled(j))
    {
      ScaledProduct(Sylvester(k, i, j), Sylvester(k, l, j), p2, root);
    }
    hide Product, SylvesterRow, RotationRow;
    SumSplit(p2, d - p2, both, rest);
    SumZero(d - p2, rest);
    SylvesterOrthogonal(k, i, l);
    SumScale(p2, 1.0 / (p2 as real), unscaled, both);
    Normalised(p2, SumTo(p2, unscaled), i == l);
  }

  lemma TimesZero()
    ensures forall a {:trigger Times(a, 0.0)} :: Times(a, 0.0) == 0.0
    ensures forall a {:trigger Times(0.0, a)} :: Times(0.0, a) == 0.0
    ensures Times(1.0, 1.0) == 1.0
  {
  }

  lemma ScaleSquared(p2: nat, root: real)
    requires p2 >= 1 && root > 0.0 && root * root == p2 as real
    ensures (1.0 / root) * (1.0 / root) == 1.0 / (p2 as real)
  {
    var inv := 1.0 / root;
    assert inv * root == 1.0;
    assert (inv * inv) * (root * root) == (inv * root) * (inv * root);
  }

  lemma Factors(a: real, b: real, s: real)
    ensures (a * s) * (b * s) == (s * s) * (a * b)
  {
  }

  // ------------------------------------------------------------------ scores

  /** A vector times the matrix, as the query and key rows are rotated. */
  ghost function Rotated(d: nat, sqrt: real -> real, q: nat -> real): nat -> real
    requires d >= 1 && IsSqrt(sqrt)
  {
    (j: nat) => SumTo(d, Weighted(d, sqrt, q, j))
  }

  /** q(i) times entry (i, j). */
  ghost function Weighted(d: nat, sqrt: real -> real, q: nat -> real, j: nat): nat -> real
    requires d >= 1 && IsSqrt(sqrt)
  {
    (i: nat) => if i < d then Times(q(i), RotationRow(d, sqrt, i)(j)) else 0.0
  }

  /** Rotating a vector and taking its product with w is a sum over the rows' products with w. */
  lemma RotatedDot(d: nat, sqrt: real -> real, q: nat -> real, w: nat -> real, terms: nat -> real)
    requires d >= 1 && IsSqrt(sqrt)
    requires forall i: nat :: i < d ==> terms(i) == Times(q(i), Dot(d, RotationRow(d, sqrt, i), w))
    ensures Dot(d, Rotated(d, sqrt, q), w) == SumTo(d, terms)
  {
    hide Times, SumTo, RotationRow;
    var f := (i: nat, j: nat) => if i < d then Times(Times(q(i), RotationRow(d, sqrt, i)(j)), w(j)) else 0.0;
    var products := Product(Rotated(d, sqrt, q), w);
    forall j: nat | j < d
      ensures products(j) == SumTo(d, Column(f, j))
    {
      forall i: nat | i < d
        ensures Column(f, j)(i) == Times(w(j), Weighted(d, sqrt, q, j)(i))
      {
        Commutes(w(j), Times(q(i), RotationRow(d, sqrt, i)(j)));
      }
      SumScale(d, w(j), Weighted(d, sqrt, q, j), Column(f, j));
      Commutes(w(j), SumTo(d, Weighted(d, sqrt, q, j)));
    }
    forall i: nat | i < d
      ensures terms(i) == SumTo(d, Row(f, i))
    {
      var rowProducts := Product(RotationRow(d, sqrt, i), w);
      forall j: nat | j < d
        ensures Row(f, i)(j) == Times(q(i), rowProducts(j))
      {
        Associates(q(i), RotationRow(d, sqrt, i)(j), w(j));
      }
      SumScale(d, q(i), rowProducts, Row(f, i));
    }
    SumSwap(d, d, f, terms, products);
  }

  lemma Commutes(a: real, b: real)
    ensures Times(a, b) == Times(b, a)
  {
  }

  lemma Associates(a: real, b: real, c: real)
    ensures Times(Times(a, b), c) == Times(a, Times(b, c))
  {
  }

  lemma {:induction false} DotCommutes(n: nat, f: nat -> real, g: nat -> real)
    ensures Dot(n, f, g) == Dot(n, g, f)
  {
    forall j: nat | j < n
      ensures Product(f, g)(j) == Product(g, f)(j)
    {
      Commutes(f(j), g(j));
    }
    SumEq(n, Product(f, g), Product(g, f));
  }

  /** A row's product with a rotated vector picks the vector's entry. */
  lemma RowPicks(d: nat, sqrt: real -> real, k: nat -> real, i: nat)
    requires d >= 1 && IsSqrt(sqrt) && i < d
    ensures Dot(d, RotationRow(d, sqrt, i), Rotated(d, sqrt, k)) == k(i)
  {
    hide Times, SumTo, RotationRow, Product;
    var row := RotationRow(d, sqrt, i);
    var terms := (l: nat) => if l < d then Times(k(l), Dot(d, RotationRow(d, sqrt, l), row)) else 0.0;
    RotatedDot(d, sqrt, k, row, terms);
    DotCommutes(d, row, Rotated(d, sqrt, k));
    forall l: nat | l < d
      ensures terms(l) == if l == i then k(i) else 0.0
    {
      RotationOrthogonal(d, sqrt, l, i);
      TimesZero();
      TimesOne(k(l));
    }
    SumOne(d, terms, i);
  }

  lemma TimesOne(a: real)
    ensures Times(a, 1.0) == a
  {
  }

  /** Rotating the query and the key leaves their score unchanged. */
  lemma ScoresUnchanged(d: nat, sqrt: real -> real, q: nat -> real, k: nat -> real)
    requires d >= 1 && IsSqrt(sqrt)
    ensures Dot(d, Rotated(d, sqrt, q), Rotated(d, sqrt, k)) == Dot(d, q, k)
  {
    hide Times, SumTo, RotationRow, Rotated;
    var terms := Product(q, k);
    forall i: nat | i < d
      ensures terms(i) == Times(q(i), Dot(d, RotationRow(d, sqrt, i), Rotated(d, sqrt, k)))
    {
      RowPicks(d, sqrt, k, i);
    }
    RotatedDot(d, sqrt, q, Rotated(d, sqrt, k), terms);
  }

  // ------------------------------------------------------------------ the entries

  /** Minus one to the number of binary digits that both numbers have set. */
  function Sign(i: nat, j: nat): real {
    if i == 0 || j == 0 then 1.0
    else if i % 2 == 1 && j % 2 == 1 then -Sign(i / 2, j / 2)
    else Sign(i / 2, j / 2)
  }

  lemma LowestDigit(i: nat, j: nat)
    ensures Sign(i, j) == if i % 2 == 1 && j % 2 == 1 then -Sign(i / 2, j / 2) else Sign(i / 2, j / 2)
  {
  }

  lemma Halves(i: nat, p: nat)
    ensures (i + 2 * p) / 2 == i / 2 + p && (i + 2 * p) % 2 == i % 2
  {
  }

  lemma FirstDigit()
    ensures Sign(1, 0) == Sign(0, 1) == Sign(0, 0) == 1.0 && Sign(1, 1) == -1.0
  {
  }

  /** A digit above both numbers counts only when both get it. */
  lemma {:induction false} HighestDigit(k: nat, i: nat, j: nat)
    requires i < Pow2(k) && j < Pow2(k)
    ensures Sign(i + Pow2(k), j) == Sign(i, j + Pow2(k)) == Sign(i, j)
    ensures Sign(i + Pow2(k), j + Pow2(k)) == -Sign(i, j)
  {
    hide Sign;
    if k == 0 {
      FirstDigit();
    } else {
      var p := Pow2(k - 1);
      HighestDigit(k - 1, i / 2, j / 2);
      DigitsMoved(i, j, p);
    }
  }

  lemma DigitsMoved(i: nat, j: nat, p: nat)
    requires Sign(i / 2 + p, j / 2) == Sign(i / 2, j / 2 + p) == Sign(i / 2, j / 2)
    requires Sign(i / 2 + p, j / 2 + p) == -Sign(i / 2, j / 2)
    ensures Sign(i + 2 * p, j) == Sign(i, j + 2 * p) == Sign(i, j) && Sign(i + 2 * p, j + 2 * p) == -Sign(i, j)
  {
    hide Sign;
    Halves(i, p);
    Halves(j, p);
    LowestDigit(i, j);
    LowestDigit(i + 2 * p, j);
    LowestDigit(i, j + 2 * p);
    LowestDigit(i + 2 * p, j + 2 * p);
  }

  /** Every entry of the Sylvester matrix, by the digits its row and column share. */
  lemma {:induction false} SylvesterSigns(k: nat, i: nat, j: nat)
    requires i < Pow2(k) && j < Pow2(k)
    ensures Sylvester(k, i, j) == Sign(i, j)
  {
    if k > 0 {
      var half := Pow2(k - 1);
      var i', j' := if i < half then i else i - half, if j < half then j else j - half;
      SylvesterSigns(k - 1, i', j');
      HighestDigit(k - 1, i', j');
      hide Sign;
    }
  }

  /** The rotation is the scaled Sylvester matrix within the largest power of two, and the identity past it. */
  lemma RotationEntries(d: nat, sqrt: real -> real, i: nat, j: nat)
    requires d >= 1 && i < d && j < d && IsSqrt(sqrt)
    ensures var p2 := Pow2(Log2(d));
      && p2 <= d < 2 * p2
      && (i < p2 && j < p2 ==> Times(Rotation(d, sqrt, i, j), sqrt(p2 as real)) == Sign(i, j))
      && (i >= p2 || j >= p2 ==> Rotation(d, sqrt, i, j) == if i == j then 1.0 else 0.0)
  {
    var k := Log2(d);
    if i < Pow2(k) && j < Pow2(k) {
      SylvesterSigns(k, i, j);
      Rescaled(Sign(i, j), sqrt(Pow2(k) as real));
    }
  }

  lemma Rescaled(a: real, b: real)
    requires b > 0.0
    ensures Times(Times(a, 1.0 / b), b) == a
  {
    assert (1.0 / b) * b == 1.0;
    assert a * (1.0 / b) * b == a * ((1.0 / b) * b);
  }
}

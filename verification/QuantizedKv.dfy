/**
 Quantised keys and values: eight- or four-bit codes with one scale per token and head.  Codes
 fit their width, every entry is off by at most half a scale, and so a score against a
 quantised key is off by at most half a scale times the absolute sum of the query.
 */
module QuantizedKv {
  import opened Sums
  import opened Hadamard

  datatype KvDtype = Q8 | Q4 {
    function MaxQuant(): real {
      if Q8? then 127.0 else 7.0
    }

    function Offset(): int {
      if Q8? then 128 else 8
    }

    /** One past the largest code. */
    function Codes(): int {
      if Q8? then 256 else 16
    }
  }

  function Abs(x: real): (r: real)
    ensures r >= 0.0 && (r == x || r == -x)
  {
    if x < 0.0 then -x else x
  }

  /** The largest magnitude of a row. */
  function AbsMax(row: seq<real>): (m: real)
    requires row != []
    ensures m >= 0.0 && (exists i :: 0 <= i < |row| && Abs(row[i]) == m)
    ensures forall i :: 0 <= i < |row| ==> Abs(row[i]) <= m
  {
    var last := Abs(row[|row| - 1]);
    if |row| == 1 then last
    else
      var m := AbsMax(row[..|row| - 1]);
      assert exists i :: 0 <= i < |row| - 1 && Abs(row[i]) == m by {
        var i :| 0 <= i < |row[..|row| - 1]| && Abs(row[..|row| - 1][i]) == m;
        assert Abs(row[i]) == m;
      }
      assert forall i :: 0 <= i < |row| - 1 ==> row[i] == row[..|row| - 1][i];
      if last > m then last else m
  }

  /** Rounds to the nearest integer, halves away from zero. */
  function Round(x: real): int {
    if x >= 0.0 then (x + 0.5).Floor else -((-x + 0.5).Floor)
  }

  lemma RoundNear(x: real)
    ensures Abs(Round(x) as real - x) <= 0.5
  {
  }

  /** A saturating cast to a byte. */
  function ToU8(v: int): int {
    if v < 0 then 0 else if v > 255 then 255 else v
  }

  function Scale(dtype: KvDtype, row: seq<real>): (s: real)
    requires row != []
    ensures s > 0.0
  {
    AbsMax(row) * (1.0 / dtype.MaxQuant()) + 0.00001
  }

  function Quantize(dtype: KvDtype, row: seq<real>): (codes: seq<int>)
    requires row != []
    ensures |codes| == |row|
  {
    var s := Scale(dtype, row);
    seq(|row|, i requires 0 <= i < |row| => ToU8(Round(row[i] / s) + dtype.Offset()))
  }

  function Dequantize(dtype: KvDtype, codes: seq<int>, scale: real): (row: seq<real>)
    ensures |row| == |codes|
  {
    seq(|codes|, i requires 0 <= i < |codes| => Times((codes[i] - dtype.Offset()) as real, scale))
  }

  /** What is read back for a row. */
  function Stored(dtype: KvDtype, row: seq<real>): (r: seq<real>)
    requires row != []
    ensures |r| == |row|
  {
    Dequantize(dtype, Quantize(dtype, row), Scale(dtype, row))
  }

  /** No entry exceeds the largest code once scaled. */
  lemma ScaledFits(dtype: KvDtype, row: seq<real>, i: nat)
    requires i < |row|
    ensures Abs(row[i] / Scale(dtype, row)) <= dtype.MaxQuant()
  {
    var s, m := Scale(dtype, row), dtype.MaxQuant();
    assert s * m >= AbsMax(row) by {
      assert (1.0 / m) * m == 1.0;
      assert s * m == AbsMax(row) * ((1.0 / m) * m) + 0.00001 * m;
    }
    QuotientBound(row[i], s, m);
  }

  lemma QuotientBound(x: real, s: real, m: real)
    requires s > 0.0 && Abs(x) <= s * m
    ensures Abs(x / s) <= m
  {
    var q := x / s;
    assert q * s == x;
    if q > m {
      MulLess(m, q, s);
    } else if -q > m {
      MulLess(m, -q, s);
    }
  }

  lemma MulLess(a: real, b: real, s: real)
    requires a < b && s > 0.0
    ensures a * s < b * s
  {
  }

  /** A code is never zero and always fits its width, so the cast to a byte changes nothing. */
  lemma CodesFit(dtype: KvDtype, row: seq<real>, i: nat)
    requires i < |row|
    ensures 1 <= Quantize(dtype, row)[i] < dtype.Codes()
    ensures Quantize(dtype, row)[i] - dtype.Offset() == Round(row[i] / Scale(dtype, row))
  {
    ScaledFits(dtype, row, i);
    hide Scale;
    RoundBound(row[i] / Scale(dtype, row), if dtype.Q8? then 127 else 7);
  }

  lemma RoundBound(x: real, m: int)
    requires Abs(x) <= m as real && m >= 0
    ensures -m <= Round(x) <= m
  {
  }

  /** Every entry comes back within half a scale. */
  lemma EntryError(dtype: KvDtype, row: seq<real>, i: nat)
    requires i < |row|
    ensures Abs(Stored(dtype, row)[i] - row[i]) <= Scale(dtype, row) / 2.0
  {
    var s := Scale(dtype, row);
    CodesFit(dtype, row, i);
    hide Scale, Quantize, Times, Abs, Round;
    assert Stored(dtype, row)[i] == Times(Round(row[i] / s) as real, s);
    RoundedError(row[i], s);
  }

  /**
   In numbers: eight-bit entries come back within a 254th of the row's largest magnitude, four-bit
   ones within a 14th of it, up to the small constant that keeps the scale positive.
   */
  lemma EntryBound(dtype: KvDtype, row: seq<real>, i: nat)
    requires i < |row|
    ensures dtype.Q8? ==> Abs(Stored(dtype, row)[i] - row[i]) <= AbsMax(row) / 254.0 + 0.000005
    ensures dtype.Q4? ==> Abs(Stored(dtype, row)[i] - row[i]) <= AbsMax(row) / 14.0 + 0.000005
  {
    hide Stored, Abs, AbsMax;
    EntryError(dtype, row, i);
    HalfScale(AbsMax(row));
    hide Scale;
    ScaleFrom(dtype, row);
  }

  lemma ScaleFrom(dtype: KvDtype, row: seq<real>)
    requires row != []
    ensures Scale(dtype, row) == AbsMax(row) * (1.0 / (if dtype.Q8? then 127.0 else 7.0)) + 0.00001
  {
    hide AbsMax;
  }

  lemma HalfScale(m: real)
    ensures (m * (1.0 / 127.0) + 0.00001) / 2.0 == m / 254.0 + 0.000005
    ensures (m * (1.0 / 7.0) + 0.00001) / 2.0 == m / 14.0 + 0.000005
  {
  }

  /** Rounding is symmetric, and halves go away from zero. */
  lemma RoundHalves(x: real, k: nat)
    ensures Round(-x) == -Round(x) && Round(k as real + 0.5) == k + 1
  {
  }

  /** The scale is the row's largest magnitude over 127 or 7, and a bit. */
  lemma ScaleIs(dtype: KvDtype, row: seq<real>)
    requires row != []
    ensures Times(Scale(dtype, row) - 0.00001, if dtype.Q8? then 127.0 else 7.0) == AbsMax(row)
  {
    hide AbsMax, Scale;
    ScaleFrom(dtype, row);
    WholeScale(AbsMax(row));
  }

  lemma WholeScale(m: real)
    ensures (m * (1.0 / 127.0) + 0.00001 - 0.00001) * 127.0 == m
    ensures (m * (1.0 / 7.0) + 0.00001 - 0.00001) * 7.0 == m
  {
  }

  lemma RoundedError(x: real, s: real)
    requires s > 0.0
    ensures Abs(Times(Round(x / s) as real, s) - x) <= s / 2.0
  {
    RoundNear(x / s);
    CloseProduct(Round(x / s) as real, x / s, s);
    assert x / s * s == x;
  }

  lemma CloseProduct(a: real, b: real, s: real)
    requires Abs(a - b) <= 0.5 && s > 0.0
    ensures Abs(Times(a, s) - b * s) <= s / 2.0
  {
    NonNegative(0.5 - (a - b), s);
    NonNegative(0.5 + (a - b), s);
  }

  lemma NonNegative(a: real, b: real)
    requires a >= 0.0 && b >= 0.0
    ensures a * b >= 0.0
  {
  }

  // ------------------------------------------------------------------ scores

  ghost function Vector(row: seq<real>): nat -> real {
    (i: nat) => if i < |row| then row[i] else 0.0
  }

  ghost function Magnitudes(q: nat -> real): nat -> real {
    (i: nat) => Abs(q(i))
  }

  /** The difference of two scores is bounded entry by entry. */
  lemma {:induction false} DotError(n: nat, q: nat -> real, a: nat -> real, b: nat -> real, e: real)
    requires forall i: nat :: i < n ==> Abs(a(i) - b(i)) <= e
    ensures Abs(Dot(n, q, a) - Dot(n, q, b)) <= Times(SumTo(n, Magnitudes(q)), e)
  {
    if n > 0 {
      DotError(n - 1, q, a, b, e);
      TermError(q(n - 1), a(n - 1), b(n - 1), e);
      Distribute(SumTo(n - 1, Magnitudes(q)), Abs(q(n - 1)), e);
      hide Times;
    } else {
      assert Times(0.0, e) == 0.0;
    }
  }

  lemma TermError(q: real, a: real, b: real, e: real)
    requires Abs(a - b) <= e
    ensures Abs(Times(q, a) - Times(q, b)) <= Times(Abs(q), e)
  {
    Subtracts(q, a, b);
    if q >= 0.0 {
      MulBound(q, a - b, e);
    } else {
      MulBound(-q, a - b, e);
    }
  }

  lemma Subtracts(q: real, a: real, b: real)
    ensures Times(q, a) - Times(q, b) == q * (a - b) && (-q) * (a - b) == -(q * (a - b))
  {
  }

  lemma MulBound(q: real, d: real, e: real)
    requires q >= 0.0 && Abs(d) <= e
    ensures Abs(q * d) <= q * e
  {
    assert q * (e - d) >= 0.0 && q * (e + d) >= 0.0;
  }

  lemma Distribute(a: real, b: real, e: real)
    ensures Times(a + b, e) == Times(a, e) + Times(b, e)
  {
  }

  /**
   The score of a rotated query against the stored form of a rotated key differs from the score
   of the query against the key by at most half the key's scale times the absolute sum of the
   rotated query.
   */
  lemma ScoreError(dtype: KvDtype, d: nat, sqrt: real -> real, q: nat -> real, k: nat -> real, rotatedKey: seq<real>)
    requires d >= 1 && IsSqrt(sqrt) && |rotatedKey| == d
    requires forall i: nat :: i < d ==> rotatedKey[i] == Rotated(d, sqrt, k)(i)
    ensures Abs(Dot(d, Rotated(d, sqrt, q), Vector(Stored(dtype, rotatedKey))) - Dot(d, q, k))
      <= Times(SumTo(d, Magnitudes(Rotated(d, sqrt, q))), Scale(dtype, rotatedKey) / 2.0)
  {
    hide Stored, Scale, Times, Rotated, Dot;
    var rq, rk := Rotated(d, sqrt, q), Rotated(d, sqrt, k);
    forall i: nat | i < d
      ensures Abs(Vector(Stored(dtype, rotatedKey))(i) - rk(i)) <= Scale(dtype, rotatedKey) / 2.0
    {
      EntryError(dtype, rotatedKey, i);
    }
    DotError(d, rq, Vector(Stored(dtype, rotatedKey)), rk, Scale(dtype, rotatedKey) / 2.0);
    ScoresUnchanged(d, sqrt, q, k);
  }
}

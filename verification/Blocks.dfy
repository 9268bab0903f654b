/** Positions laid out in blocks of a fixed size. */
module Blocks {
  /** The block of a token position, and its row there. */
  function BlockOf(bs: nat, pos: nat): nat
    requires bs > 0
  {
    pos / bs
  }

  function RowIn(bs: nat, pos: nat): (r: nat)
    requires bs > 0
    ensures r < bs
  {
    pos % bs
  }

  lemma LessByFactor(a: int, b: int, bs: nat)
    requires a * bs < b * bs
    ensures a < b
  {
  }

  lemma FactorLe(a: int, b: int, k: nat)
    requires a <= b
    ensures a * k <= b * k
  {
  }

  /** The block of a position is determined by where the block starts. */
  lemma BlockIs(bs: nat, pos: nat, q: nat)
    requires bs > 0 && q * bs <= pos < q * bs + bs
    ensures BlockOf(bs, pos) == q && RowIn(bs, pos) == pos - q * bs
  {
    var d := pos / bs;
    assert pos == d * bs + pos % bs;
    assert d * bs < (q + 1) * bs && q * bs < (d + 1) * bs by {
      assert (q + 1) * bs == q * bs + bs && (d + 1) * bs == d * bs + bs;
    }
    LessByFactor(d, q + 1, bs);
    LessByFactor(q, d + 1, bs);
  }

  lemma BlockStart(bs: nat, pos: nat)
    requires bs > 0
    ensures pos == BlockOf(bs, pos) * bs + RowIn(bs, pos)
  {
  }

  lemma BlockInTable(bs: nat, pos: nat, n: nat)
    requires bs > 0 && pos < n * bs
    ensures BlockOf(bs, pos) < n
  {
    BlockStart(bs, pos);
    LessByFactor(BlockOf(bs, pos), n, bs);
  }

  /** Two coordinates, laid out flat. */
  lemma PairFits(x: nat, n: nat, y: nat, m: nat)
    requires x < n && y < m
    ensures x * m + y < n * m
  {
    assert (x + 1) * m <= n * m;
  }

  lemma PairTellsApart(m: nat, x: nat, y: nat, u: nat, w: nat)
    requires y < m && w < m && x * m + y == u * m + w
    ensures x == u && y == w
  {
    BlockIs(m, x * m + y, x);
    BlockIs(m, x * m + y, u);
  }

  // ------------------------------------------------------------------ nested sequences, laid out flat

  function Flatten<T>(rows: seq<seq<T>>): seq<T> {
    if rows == [] then [] else Flatten(rows[..|rows| - 1]) + rows[|rows| - 1]
  }

  /** Entry y of row x of equal rows. */
  lemma {:induction false} FlattenAt<T>(rows: seq<seq<T>>, m: nat, x: nat, y: nat)
    requires (forall i :: 0 <= i < |rows| ==> |rows[i]| == m) && x < |rows| && y < m
    ensures x * m + y < |rows| * m == |Flatten(rows)| && Flatten(rows)[x * m + y] == rows[x][y]
    decreases |rows|
  {
    var n := |rows| - 1;
    FlattenLength(rows, m);
    FlattenLength(rows[..n], m);
    PairFits(x, |rows|, y, m);
    if x < n {
      FlattenAt(rows[..n], m, x, y);
    } else {
      assert Flatten(rows)[n * m + y] == rows[n][y];
    }
  }

  lemma {:induction false} FlattenLength<T>(rows: seq<seq<T>>, m: nat)
    requires forall i :: 0 <= i < |rows| ==> |rows[i]| == m
    ensures |Flatten(rows)| == |rows| * m
    decreases |rows|
  {
    if rows != [] {
      FlattenLength(rows[..|rows| - 1], m);
      assert |rows| * m == (|rows| - 1) * m + m;
    }
  }
}

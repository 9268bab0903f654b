/**
 The attention kernel: one thread per sequence and head reads keys through the block table,
 keeps a running maximum and a rescaled sum in a single pass, and then weighs the values.  The
 result is ordinary softmax attention over the keys and values laid out in table order.
 */
module PagedAttention {
  import opened Blocks
  import opened Grids
  import opened Sums
  import opened Hadamard

  /** What a launch is given: flat tensors and their dimensions. */
  datatype Launch = Launch(
    q: seq<real>, blockTable: seq<nat>, k: seq<real>, v: seq<real>,
    numSeqs: nat, numBlocks: nat, cacheBlocks: nat, blockSize: nat, nHeads: nat, headDim: nat)
  {
    /** Tensors have the sizes their dimensions say, and the table names blocks that exist. */
    ghost predicate Valid() {
      && blockSize > 0 && headDim > 0
      && |q| == Rows().Size() && |blockTable| == numSeqs * numBlocks
      && |k| == |v| == cacheBlocks * (blockSize * (nHeads * headDim))
      && forall i :: 0 <= i < |blockTable| ==> blockTable[i] < cacheBlocks
    }

    predicate HasThread(s: nat, h: nat) {
      s < numSeqs && h < nHeads
    }

    /** The layout of queries and outputs. */
    function Rows(): Grid {
      Grid(numSeqs, nHeads, headDim)
    }

    /** Flat index of entry d of head h of row t of physical block p. */
    function CacheIndex(p: nat, t: nat, h: nat, d: nat): nat {
      p * (blockSize * (nHeads * headDim)) + (t * (nHeads * headDim) + (h * headDim + d))
    }

    lemma CacheIndexFits(p: nat, t: nat, h: nat, d: nat)
      requires Valid() && p < cacheBlocks && t < blockSize && h < nHeads && d < headDim
      ensures CacheIndex(p, t, h, d) < |k|
    {
      PairFits(h, nHeads, d, headDim);
      PairFits(t, blockSize, h * headDim + d, nHeads * headDim);
      PairFits(p, cacheBlocks, t * (nHeads * headDim) + (h * headDim + d), blockSize * (nHeads * headDim));
    }

    /** Keys a thread sees: all rows of all blocks of its table. */
    function Keys(): nat {
      numBlocks * blockSize
    }

    /** The physical block of logical block b. */
    ghost function Physical(s: nat, b: nat): nat
      requires Valid() && s < numSeqs && b < numBlocks
      ensures Physical(s, b) < cacheBlocks
    {
      PairFits(s, numSeqs, b, numBlocks);
      blockTable[s * numBlocks + b]
    }

    ghost function Query(s: nat, h: nat): nat -> real
      requires Valid() && HasThread(s, h)
    {
      (d: nat) => if d < headDim then Rows().Entry(q, s, h, d) else 0.0
    }

    /** Entry d of the key or value at position j of the table laid out flat. */
    ghost function CacheAt(cache: seq<real>, s: nat, h: nat, j: nat, d: nat): real
      requires Valid() && HasThread(s, h) && j < Keys() && d < headDim && |cache| == |k|
    {
      BlockInTable(blockSize, j, numBlocks);
      var p, t := Physical(s, BlockOf(blockSize, j)), RowIn(blockSize, j);
      CacheIndexFits(p, t, h, d);
      cache[CacheIndex(p, t, h, d)]
    }

    ghost function Key(s: nat, h: nat, j: nat): nat -> real
      requires Valid() && HasThread(s, h) && j < Keys()
    {
      (d: nat) => if d < headDim then CacheAt(k, s, h, j, d) else 0.0
    }

    ghost function Score(sqrt: real -> real, s: nat, h: nat, j: nat): real
      requires Valid() && HasThread(s, h) && j < Keys() && IsSqrt(sqrt)
    {
      Dot(headDim, Query(s, h), Key(s, h, j)) / sqrt(headDim as real)
    }
  }

  /** What is needed of the exponential. */
  ghost predicate IsExp(exp: real -> real) {
    && (forall x :: exp(x) > 0.0)
    && (forall x, y :: Times(exp(x), exp(y)) == exp(x + y))
  }

  lemma ExpZero(exp: real -> real)
    requires IsExp(exp)
    ensures exp(0.0) == 1.0
  {
    assert Times(exp(0.0), exp(0.0)) == exp(0.0 + 0.0);
  }

  /** exp(score - shift) at each position. */
  ghost function Shifted(exp: real -> real, scores: nat -> real, shift: real): nat -> real {
    (j: nat) => exp(scores(j) - shift)
  }

  /** Changing the shift rescales the sum. */
  lemma Rescale(exp: real -> real, scores: nat -> real, n: nat, a: real, b: real)
    requires IsExp(exp)
    ensures SumTo(n, Shifted(exp, scores, b)) == Times(exp(a - b), SumTo(n, Shifted(exp, scores, a)))
  {
    hide Times;
    forall j: nat | j < n
      ensures Shifted(exp, scores, b)(j) == Times(exp(a - b), Shifted(exp, scores, a)(j))
    {
      assert (a - b) + (scores(j) - a) == scores(j) - b;
    }
    SumScale(n, exp(a - b), Shifted(exp, scores, a), Shifted(exp, scores, b));
  }

  lemma {:induction false} SumPositive(n: nat, f: nat -> real)
    requires n > 0 && forall j: nat :: j < n ==> f(j) > 0.0
    ensures SumTo(n, f) > 0.0
  {
    if n > 1 {
      SumPositive(n - 1, f);
    }
  }

  /** The softmax weight of position j among n. */
  ghost function Weight(exp: real -> real, scores: nat -> real, n: nat, j: nat): real
    requires IsExp(exp) && n > 0
  {
    SumPositive(n, Shifted(exp, scores, 0.0));
    exp(scores(j)) / SumTo(n, Shifted(exp, scores, 0.0))
  }

  /** The weight does not depend on what is subtracted from the scores. */
  lemma ShiftedWeight(exp: real -> real, scores: nat -> real, n: nat, j: nat, shift: real)
    requires IsExp(exp) && n > 0
    ensures SumTo(n, Shifted(exp, scores, shift)) > 0.0
    ensures exp(scores(j) - shift) / SumTo(n, Shifted(exp, scores, shift)) == Weight(exp, scores, n, j)
  {
    SumPositive(n, Shifted(exp, scores, shift));
    SumPositive(n, Shifted(exp, scores, 0.0));
    Rescale(exp, scores, n, shift, 0.0);
    assert (shift - 0.0) + (scores(j) - shift) == scores(j);
    assert Times(exp(shift - 0.0), exp(scores(j) - shift)) == exp(scores(j));
    SameQuotient(exp(scores(j) - shift), SumTo(n, Shifted(exp, scores, shift)), exp(shift - 0.0));
  }

  lemma SameQuotient(a: real, b: real, c: real)
    requires b > 0.0 && c > 0.0
    ensures Times(c, b) > 0.0 && Times(c, a) / Times(c, b) == a / b
  {
    var x := a / b;
    assert x * b == a;
    assert x * (c * b) == c * a;
  }

  /** Weights are positive and add up to one. */
  lemma WeightsSumToOne(exp: real -> real, scores: nat -> real, n: nat, weights: nat -> real)
    requires IsExp(exp) && n > 0 && forall j: nat :: j < n ==> weights(j) == Weight(exp, scores, n, j)
    ensures SumTo(n, weights) == 1.0 && forall j: nat :: j < n ==> weights(j) > 0.0
  {
    var shifted := Shifted(exp, scores, 0.0);
    var total := SumTo(n, shifted);
    SumPositive(n, shifted);
    forall j: nat | j < n
      ensures weights(j) == Times(1.0 / total, shifted(j)) && weights(j) > 0.0
    {
      assert scores(j) - 0.0 == scores(j);
      Quotient(exp(scores(j)), total);
    }
    hide Times;
    SumScale(n, 1.0 / total, shifted, weights);
    Quotient(total, total);
  }

  lemma Quotient(a: real, b: real)
    requires a > 0.0 && b > 0.0
    ensures a / b == Times(1.0 / b, a) && a / b > 0.0 && b / b == 1.0
  {
    var x := 1.0 / b;
    assert x * b == 1.0;
    assert (x * a) * b == a;
  }

  // ------------------------------------------------------------------ the single pass

  /** One more key: either it is the new maximum, and the sum is rescaled, or it is added. */
  lemma OneMore(exp: real -> real, scores: nat -> real, n: nat, maxScore: real, sumExp: real)
    requires IsExp(exp) && sumExp == SumTo(n, Shifted(exp, scores, maxScore))
    ensures SumTo(n + 1, Shifted(exp, scores, scores(n))) == Times(sumExp, exp(maxScore - scores(n))) + 1.0
    ensures SumTo(n + 1, Shifted(exp, scores, maxScore)) == sumExp + exp(scores(n) - maxScore)
  {
    Rescale(exp, scores, n, maxScore, scores(n));
    Commutes(sumExp, exp(maxScore - scores(n)));
    ExpZero(exp);
    assert scores(n) - scores(n) == 0.0;
    hide Times;
  }

  ghost function ScoresOf(l: Launch, sqrt: real -> real, s: nat, h: nat): nat -> real
    requires l.Valid() && l.HasThread(s, h) && IsSqrt(sqrt)
  {
    (j: nat) => if j < l.Keys() then l.Score(sqrt, s, h, j) else 0.0
  }

  ghost function Weights(l: Launch, exp: real -> real, sqrt: real -> real, s: nat, h: nat): nat -> real
    requires l.Valid() && l.HasThread(s, h) && IsSqrt(sqrt) && IsExp(exp)
  {
    (j: nat) => if j < l.Keys() then Weight(exp, ScoresOf(l, sqrt, s, h), l.Keys(), j) else 0.0
  }

  /** Entry d of the value at each position. */
  ghost function Values(l: Launch, s: nat, h: nat, d: nat): nat -> real
    requires l.Valid() && l.HasThread(s, h)
  {
    (j: nat) => if j < l.Keys() && d < l.headDim then l.CacheAt(l.v, s, h, j, d) else 0.0
  }

  /** Softmax attention: the values weighed by the softmax of the scores. */
  ghost function Attention(l: Launch, exp: real -> real, sqrt: real -> real, s: nat, h: nat, d: nat): real
    requires l.Valid() && l.HasThread(s, h) && IsSqrt(sqrt) && IsExp(exp)
  {
    Dot(l.Keys(), Weights(l, exp, sqrt, s, h), Values(l, s, h, d))
  }

  lemma PositionOf(l: Launch, b: nat, t: nat)
    requires b < l.numBlocks && t < l.blockSize
    ensures b * l.blockSize + t < l.Keys()
    ensures BlockOf(l.blockSize, b * l.blockSize + t) == b && RowIn(l.blockSize, b * l.blockSize + t) == t
  {
    PairFits(b, l.numBlocks, t, l.blockSize);
    BlockIs(l.blockSize, b * l.blockSize + t, b);
  }

  /** The scaled inner product of the query and the key in row t of block b. */
  method ComputeScore(l: Launch, sqrt: real -> real, s: nat, h: nat, b: nat, t: nat) returns (score: real)
    requires l.Valid() && l.HasThread(s, h) && b < l.numBlocks && t < l.blockSize && IsSqrt(sqrt)
    ensures score == ScoresOf(l, sqrt, s, h)(b * l.blockSize + t)
  {
    PositionOf(l, b, t);
    PairFits(s, l.numSeqs, b, l.numBlocks);
    hide Grid.Index, Launch.CacheIndex, Times, Launch.Keys;
    var physicalBlock := l.blockTable[s * l.numBlocks + b];
    ghost var j := b * l.blockSize + t;
    ghost var products := Product(l.Query(s, h), l.Key(s, h, j));
    score := 0.0;
    for d := 0 to l.headDim
      invariant score == SumTo(d, products)
    {
      l.Rows().IndexFits(s, h, d);
      l.CacheIndexFits(physicalBlock, t, h, d);
      var qVal := l.q[l.Rows().Index(s, h, d)];
      var kVal := l.k[l.CacheIndex(physicalBlock, t, h, d)];
      score := score + Times(qVal, kVal);
    }
    score := score / sqrt(l.headDim as real);
  }

  /** The first pass: the running maximum, from -99999, and the sum relative to it. */
  method OnePass(l: Launch, exp: real -> real, sqrt: real -> real, s: nat, h: nat)
      returns (maxScore: real, sumExp: real)
    requires l.Valid() && l.HasThread(s, h) && IsSqrt(sqrt) && IsExp(exp)
    ensures sumExp == SumTo(l.Keys(), Shifted(exp, ScoresOf(l, sqrt, s, h), maxScore))
    ensures forall j: nat :: j < l.Keys() ==> ScoresOf(l, sqrt, s, h)(j) <= maxScore
  {
    hide ScoresOf, Shifted, SumTo, Times, IsSqrt, IsExp, Launch.Valid;
    ghost var scores := ScoresOf(l, sqrt, s, h);
    ghost var n: nat := 0;
    maxScore, sumExp := -99999.0, 0.0;
    NoneYet(exp, scores, maxScore);
    for b := 0 to l.numBlocks
      invariant n == b * l.blockSize && sumExp == SumTo(n, Shifted(exp, scores, maxScore))
      invariant forall j: nat :: j < n ==> scores(j) <= maxScore
    {
      for t := 0 to l.blockSize
        invariant n == b * l.blockSize + t && sumExp == SumTo(n, Shifted(exp, scores, maxScore))
        invariant forall j: nat :: j < n ==> scores(j) <= maxScore
      {
        var score := ComputeScore(l, sqrt, s, h, b, t);
        OneMore(exp, scores, n, maxScore, sumExp);
        if score > maxScore {
          var scale := exp(maxScore - score);
          sumExp := Times(sumExp, scale) + 1.0;
          maxScore := score;
        } else {
          var scale := exp(score - maxScore);
          sumExp := sumExp + scale;
        }
        n := n + 1;
      }
    }
  }

  lemma NoneYet(exp: real -> real, scores: nat -> real, shift: real)
    ensures SumTo(0, Shifted(exp, scores, shift)) == 0.0
  {
  }

  /** The second pass, for one entry: weights from the first pass times values. */
  method WeighValues(l: Launch, exp: real -> real, sqrt: real -> real, s: nat, h: nat, d: nat,
                     maxScore: real, sumExp: real) returns (out: real)
    requires l.Valid() && l.HasThread(s, h) && d < l.headDim && IsSqrt(sqrt) && IsExp(exp)
    requires sumExp == SumTo(l.Keys(), Shifted(exp, ScoresOf(l, sqrt, s, h), maxScore))
    ensures out == Attention(l, exp, sqrt, s, h, d)
  {
    hide Grid.Index, Launch.CacheIndex, Times, Shifted, ScoresOf, Launch.Keys, IsExp, IsSqrt, Weight, SumTo, Weights,
         Values, Product;
    ghost var scores := ScoresOf(l, sqrt, s, h);
    ghost var terms := Product(Weights(l, exp, sqrt, s, h), Values(l, s, h, d));
    ghost var n: nat := 0;
    out := 0.0;
    SumNone(terms);
    for b := 0 to l.numBlocks
      invariant n == b * l.blockSize && out == SumTo(n, terms)
    {
      for t := 0 to l.blockSize
        invariant n == b * l.blockSize + t && out == SumTo(n, terms)
      {
        PositionOf(l, b, t);
        ShiftedWeight(exp, scores, l.Keys(), n, maxScore);
        TermIs(l, exp, sqrt, s, h, d, n);
        var score := ComputeScore(l, sqrt, s, h, b, t);
        var weight := exp(score - maxScore) / sumExp;
        var value := ReadValue(l, s, h, b, t, d);
        out := out + Times(weight, value);
        SumMore(n, terms);
        n := n + 1;
      }
    }
    WholeTable(l);
  }

  lemma TermIs(l: Launch, exp: real -> real, sqrt: real -> real, s: nat, h: nat, d: nat, j: nat)
    requires l.Valid() && l.HasThread(s, h) && d < l.headDim && IsSqrt(sqrt) && IsExp(exp) && j < l.Keys()
    ensures Product(Weights(l, exp, sqrt, s, h), Values(l, s, h, d))(j) ==
      Times(Weight(exp, ScoresOf(l, sqrt, s, h), l.Keys(), j), Values(l, s, h, d)(j))
  {
    hide Times, Weight, ScoresOf, Values, Launch.Keys;
  }

  lemma WholeTable(l: Launch)
    ensures l.Keys() == l.numBlocks * l.blockSize
  {
  }

  lemma SumNone(f: nat -> real)
    ensures SumTo(0, f) == 0.0
  {
  }

  lemma SumMore(n: nat, f: nat -> real)
    ensures SumTo(n + 1, f) == SumTo(n, f) + f(n)
  {
  }

  method ReadValue(l: Launch, s: nat, h: nat, b: nat, t: nat, d: nat) returns (value: real)
    requires l.Valid() && l.HasThread(s, h) && b < l.numBlocks && t < l.blockSize && d < l.headDim
    ensures value == Values(l, s, h, d)(b * l.blockSize + t)
  {
    hide Launch.CacheIndex, Launch.Keys;
    PositionOf(l, b, t);
    PairFits(s, l.numSeqs, b, l.numBlocks);
    var physicalBlock := l.blockTable[s * l.numBlocks + b];
    l.CacheIndexFits(physicalBlock, t, h, d);
    value := l.v[l.CacheIndex(physicalBlock, t, h, d)];
  }

  /**
   One thread of the kernel.  Its part of the output is softmax attention over the keys and
   values of its whole block table; the rest of the output is as before.
   */
  method PagedAttentionKernel(l: Launch, exp: real -> real, sqrt: real -> real, s: nat, h: nat, output: array<real>)
    requires l.Valid() && IsSqrt(sqrt) && IsExp(exp) && output.Length == l.Rows().Size()
    modifies output
    ensures l.HasThread(s, h) ==>
      forall d: nat :: d < l.headDim ==> l.Rows().Entry(output[..], s, h, d) == Attention(l, exp, sqrt, s, h, d)
    ensures forall s2: nat, h2: nat, d: nat :: l.HasThread(s2, h2) && d < l.headDim && !(s2 == s && h2 == h) ==>
      l.Rows().Entry(output[..], s2, h2, d) == l.Rows().Entry(old(output[..]), s2, h2, d)
  {
    if l.HasThread(s, h) {
      hide Attention, Grid.Index, ScoresOf, IsSqrt, IsExp;
      var maxScore, sumExp := OnePass(l, exp, sqrt, s, h);
      for d := 0 to l.headDim
        invariant forall e: nat :: e < d ==> l.Rows().Entry(output[..], s, h, e) == Attention(l, exp, sqrt, s, h, e)
        invariant forall s2: nat, h2: nat, e: nat :: l.HasThread(s2, h2) && e < l.headDim && !(s2 == s && h2 == h) ==>
          l.Rows().Entry(output[..], s2, h2, e) == l.Rows().Entry(old(output[..]), s2, h2, e)
      {
        var out := WeighValues(l, exp, sqrt, s, h, d, maxScore, sumExp);
        WriteEntry(l.Rows(), output, s, h, d, out);
      }
    }
  }

  // ------------------------------------------------------------------ what is attended to, and how much

  /** Scores are inner products over the square root of the dimension. */
  lemma ScoreScaled(l: Launch, sqrt: real -> real, s: nat, h: nat, j: nat)
    requires l.Valid() && l.HasThread(s, h) && j < l.Keys() && IsSqrt(sqrt)
    ensures Times(l.Score(sqrt, s, h, j), sqrt(l.headDim as real)) == Dot(l.headDim, l.Query(s, h), l.Key(s, h, j))
  {
    hide Dot, Launch.Query, Launch.Key;
    assert sqrt(l.headDim as real) > 0.0;
  }

  /** One position weighs as much more than another as the exponential of how much higher it scores. */
  lemma WeightRatio(exp: real -> real, scores: nat -> real, n: nat, i: nat, j: nat)
    requires IsExp(exp) && i < n && j < n
    ensures Weight(exp, scores, n, i) == Times(exp(scores(i) - scores(j)), Weight(exp, scores, n, j))
  {
    hide Times;
    var shifted := Shifted(exp, scores, 0.0);
    SumPositive(n, shifted);
    var a, b := scores(i), scores(j);
    Raised(exp, a, b);
    hide IsExp, SumTo;
    OverSum(exp(a - b), exp(b), SumTo(n, shifted));
  }

  lemma Raised(exp: real -> real, a: real, b: real)
    requires IsExp(exp)
    ensures exp(a) == Times(exp(a - b), exp(b))
  {
    hide Times;
    assert Times(exp(a - b), exp(b)) == exp((a - b) + b);
    assert (a - b) + b == a;
  }

  lemma OverSum(c: real, x: real, total: real)
    requires total > 0.0
    ensures Times(c, x) / total == Times(c, x / total)
  {
    var y := x / total;
    assert y * total == x;
    assert (c * y) * total == c * (y * total);
  }

  /** A cache as blocks of rows of heads of entries, and tables of blocks by sequence. */
  ghost predicate LaidOut(l: Launch, cache: seq<real>, blocks: seq<seq<seq<seq<real>>>>, tables: seq<seq<nat>>) {
    && |blocks| == l.cacheBlocks && |tables| == l.numSeqs
    && (forall p :: 0 <= p < |blocks| ==> Nested(Grid(l.blockSize, l.nHeads, l.headDim), blocks[p]))
    && (forall s :: 0 <= s < |tables| ==> |tables[s]| == l.numBlocks)
    && cache == Flatten(FlattenBlocks(blocks)) && l.blockTable == Flatten(tables)
  }

  function FlattenBlocks(blocks: seq<seq<seq<seq<real>>>>): (r: seq<seq<real>>)
    ensures |r| == |blocks| && forall p :: 0 <= p < |blocks| ==> r[p] == Flatten(FlattenRows(blocks[p]))
  {
    seq(|blocks|, p requires 0 <= p < |blocks| => Flatten(FlattenRows(blocks[p])))
  }

  /** Row t of block b of a sequence is that row of the block its table names there. */
  lemma ReadsLaidOut(l: Launch, cache: seq<real>, blocks: seq<seq<seq<seq<real>>>>, tables: seq<seq<nat>>, s: nat,
                     h: nat, b: nat, t: nat, d: nat)
    requires l.Valid() && |cache| == |l.k| && LaidOut(l, cache, blocks, tables)
    requires l.HasThread(s, h) && b < l.numBlocks && t < l.blockSize && d < l.headDim
    ensures tables[s][b] < |blocks| && b * l.blockSize + t < l.Keys()
    ensures l.CacheAt(cache, s, h, b * l.blockSize + t, d) ==
      NestedEntry(Grid(l.blockSize, l.nHeads, l.headDim), blocks[tables[s][b]], t, h, d)
  {
    TableEntry(l, tables, s, b);
    CacheEntry(l, cache, blocks, tables[s][b], t, h, d);
    hide Flatten, Nested, NestedEntry, FlattenBlocks, Launch.CacheIndex, BlockOf, RowIn;
    PositionOf(l, b, t);
  }

  lemma TableEntry(l: Launch, tables: seq<seq<nat>>, s: nat, b: nat)
    requires l.Valid() && s < l.numSeqs == |tables| && b < l.numBlocks && l.blockTable == Flatten(tables)
    requires forall i :: 0 <= i < |tables| ==> |tables[i]| == l.numBlocks
    ensures l.Physical(s, b) == tables[s][b]
  {
    hide Flatten;
    FlattenAt(tables, l.numBlocks, s, b);
  }

  lemma CacheEntry(l: Launch, cache: seq<real>, blocks: seq<seq<seq<seq<real>>>>, p: nat, t: nat, h: nat, d: nat)
    requires p < |blocks| && t < l.blockSize && h < l.nHeads && d < l.headDim && cache == Flatten(FlattenBlocks(blocks))
    requires forall q :: 0 <= q < |blocks| ==> Nested(Grid(l.blockSize, l.nHeads, l.headDim), blocks[q])
    ensures l.CacheIndex(p, t, h, d) < |cache|
    ensures cache[l.CacheIndex(p, t, h, d)] == NestedEntry(Grid(l.blockSize, l.nHeads, l.headDim), blocks[p], t, h, d)
  {
    hide Flatten;
    var grid := Grid(l.blockSize, l.nHeads, l.headDim);
    BlocksEqual(l, blocks);
    EntryOfNested(grid, blocks[p], t, h, d);
    grid.IndexFits(t, h, d);
    hide Nested;
    FlattenAt(FlattenBlocks(blocks), grid.Size(), p, grid.Index(t, h, d));
  }

  lemma BlocksEqual(l: Launch, blocks: seq<seq<seq<seq<real>>>>)
    requires forall p :: 0 <= p < |blocks| ==> Nested(Grid(l.blockSize, l.nHeads, l.headDim), blocks[p])
    ensures var grid := Grid(l.blockSize, l.nHeads, l.headDim);
      forall p :: 0 <= p < |blocks| ==> |FlattenBlocks(blocks)[p]| == grid.Size()
  {
    hide Flatten;
    var grid := Grid(l.blockSize, l.nHeads, l.headDim);
    forall p | 0 <= p < |blocks|
      ensures |FlattenBlocks(blocks)[p]| == grid.Size()
    {
      NestedSize(grid, blocks[p]);
    }
  }
}

/**
 Rotary position embedding: neighbouring entries are rotated as pairs by an angle that grows
 with the position.  The kernel's threads, in any order, compute the pairwise tensor form;
 rotation keeps norms, and scores depend on positions only through their difference.
 */
module Rotary {
  import opened Types
  import opened Blocks
  import opened Grids
  import opened Sums
  import opened Hadamard

  /** The functions the rotation uses; `pow` is the base raised to a fraction. */
  datatype Trig = Trig(cos: real -> real, sin: real -> real, pow: real -> real) {
    /** The difference formulas. */
    ghost predicate Difference(a: real, b: real) {
      && cos(a) * cos(b) + sin(a) * sin(b) == cos(a - b)
      && sin(a) * cos(b) - cos(a) * sin(b) == sin(a - b)
    }

    ghost predicate Valid() {
      && cos(0.0) == 1.0 && (forall a, b :: Difference(a, b)) && (forall e :: pow(e) > 0.0)
    }

    /** The kernel divides the position; the tensor form multiplies by the inverse. */
    function Angle(pos: nat, i: nat, dim: nat): real
      requires dim > 0 && pow((2 * i) as real / dim as real) != 0.0
    {
      pos as real / pow((2 * i) as real / dim as real)
    }

    function Freq(pos: nat, i: nat, dim: nat): real
      requires dim > 0 && pow((2 * i) as real / dim as real) != 0.0
    {
      Times(pos as real, 1.0 / pow((2 * i) as real / dim as real))
    }

    lemma AngleIsFreq(pos: nat, i: nat, dim: nat)
      requires Valid() && dim > 0
      ensures Angle(pos, i, dim) == Freq(pos, i, dim)
    {
      Inverse(pos as real, pow((2 * i) as real / dim as real));
    }
  }

  lemma Inverse(a: real, b: real)
    requires b > 0.0
    ensures a / b == Times(a, 1.0 / b)
  {
    assert (a * (1.0 / b)) * b == a * ((1.0 / b) * b);
  }

  /** The two entries of a rotated pair. */
  function First(x1: real, x2: real, c: real, s: real): real {
    Times(x1, c) - Times(x2, s)
  }

  function Second(x1: real, x2: real, c: real, s: real): real {
    Times(x1, s) + Times(x2, c)
  }

  // ------------------------------------------------------------------ the pairwise form

  /** Entry d of a head at a position: pairs (2i, 2i+1) are rotated, an odd last entry is not. */
  ghost function Turned(trig: Trig, dim: nat, pos: nat, x: nat -> real, d: nat): real
    requires trig.Valid() && d < dim
  {
    var a := trig.Angle(pos, d / 2, dim);
    if d >= 2 * (dim / 2) then x(d)
    else if d % 2 == 0 then First(x(d), x(d + 1), trig.cos(a), trig.sin(a))
    else Second(x(d - 1), x(d), trig.cos(a), trig.sin(a))
  }

  ghost function Turn(trig: Trig, dim: nat, pos: nat, x: nat -> real): nat -> real
    requires trig.Valid()
  {
    (d: nat) => if d < dim then Turned(trig, dim, pos, x, d) else 0.0
  }

  /** A head of a flat tensor. */
  ghost function Head(grid: Grid, data: seq<real>, s: nat, h: nat): nat -> real
    requires grid.Has(s, h) && |data| == grid.Size()
  {
    (d: nat) => if d < grid.dim then grid.Entry(data, s, h, d) else 0.0
  }

  // ------------------------------------------------------------------ the tensor form

  /** Entry k of every row of a tensor whose last dimension is `width`. */
  function NarrowLast(data: seq<real>, width: nat, k: nat): (r: seq<real>)
    requires k < width && |data| % width == 0
    ensures |r| == |data| / width
  {
    seq(|data| / width, j requires 0 <= j < |data| / width => At(data, j, width, k))
  }

  function At(data: seq<real>, j: nat, width: nat, k: nat): real
    requires k < width && j < |data| / width
  {
    BlockStart(width, |data|);
    PairFits(j, |data| / width, k, width);
    data[j * width + k]
  }

  /** Two tensors with a last dimension of one, put side by side along it. */
  function CatLast(a: seq<real>, b: seq<real>): (r: seq<real>)
    requires |a| == |b|
    ensures |r| == 2 * |a|
  {
    seq(2 * |a|, e requires 0 <= e < 2 * |a| => if e % 2 == 0 then a[e / 2] else b[e / 2])
  }

  /** The table of angles, by token and pair, seen by every head of the token. */
  function Broadcast(pairs: Grid, table: nat -> nat -> real): (r: seq<real>)
    ensures |r| == pairs.Size()
  {
    seq(pairs.Size(), j requires 0 <= j < pairs.Size() =>
      if pairs.heads * pairs.dim > 0 then
        table(BlockOf(pairs.heads * pairs.dim, j))(RowIn(pairs.dim, j))
      else 0.0)
  }

  ghost function Cosines(trig: Trig, dim: nat, positions: seq<nat>): nat -> nat -> real
    requires trig.Valid() && dim > 0
  {
    (s: nat) => (i: nat) => if s < |positions| then trig.cos(trig.Freq(positions[s], i, dim)) else 0.0
  }

  ghost function Sines(trig: Trig, dim: nat, positions: seq<nat>): nat -> nat -> real
    requires trig.Valid() && dim > 0
  {
    (s: nat) => (i: nat) => if s < |positions| then trig.sin(trig.Freq(positions[s], i, dim)) else 0.0
  }

  /** Both halves of the rotation, entry by entry. */
  function Combine(half: (real, real, real, real) -> real, x1: seq<real>, x2: seq<real>, c: seq<real>, s: seq<real>)
      : (r: seq<real>)
    requires |x1| == |x2| == |c| == |s|
    ensures |r| == |x1|
  {
    seq(|x1|, j requires 0 <= j < |x1| => half(x1[j], x2[j], c[j], s[j]))
  }

  /**
   The flat tensor is seen as pairs, first and second entries are taken apart, rotated with the
   table of angles, and put back side by side.  Seeing it as pairs fails for an odd dimension.
   */
  ghost function RotateInterleaved(trig: Trig, grid: Grid, positions: seq<nat>, x: seq<real>): (r: Option<seq<real>>)
    requires trig.Valid() && |x| == grid.Size() && grid.dim > 0
    ensures r.Some? ==> |r.value| == |x|
  {
    var pairs := Grid(grid.rows, grid.heads, grid.dim / 2);
    if |x| != 2 * pairs.Size() then None
    else
      var x1, x2 := NarrowLast(x, 2, 0), NarrowLast(x, 2, 1);
      var c := Broadcast(pairs, Cosines(trig, grid.dim, positions));
      var s := Broadcast(pairs, Sines(trig, grid.dim, positions));
      Some(CatLast(Combine(First, x1, x2, c, s), Combine(Second, x1, x2, c, s)))
  }

  lemma Twice(a: nat, b: nat)
    ensures a * (2 * b) == 2 * (a * b)
  {
  }

  /** Entry 2i or 2i + 1 of a head is entry 0 or 1 of one of its pairs. */
  lemma IndexOfPair(grid: Grid, s: nat, h: nat, i: nat, k: nat)
    requires grid.Has(s, h) && grid.dim % 2 == 0 && k < 2 && 2 * i + k < grid.dim
    ensures var pairs := Grid(grid.rows, grid.heads, grid.dim / 2);
      && grid.Size() == 2 * pairs.Size() && pairs.Index(s, h, i) < pairs.Size()
      && grid.Index(s, h, 2 * i + k) == 2 * pairs.Index(s, h, i) + k
  {
    var half := grid.dim / 2;
    Grid(grid.rows, grid.heads, half).IndexFits(s, h, i);
    Twice(grid.heads, half);
    Twice(grid.rows, grid.heads * half);
    Twice(s, grid.heads * half);
    Twice(h, half);
  }

  /** The table's entry for a pair does not depend on the head. */
  lemma BroadcastAt(pairs: Grid, table: nat -> nat -> real, s: nat, h: nat, i: nat)
    requires pairs.Has(s, h) && i < pairs.dim
    ensures pairs.Index(s, h, i) < pairs.Size() && Broadcast(pairs, table)[pairs.Index(s, h, i)] == table(s)(i)
  {
    pairs.IndexFits(s, h, i);
    PairFits(h, pairs.heads, i, pairs.dim);
    var j := pairs.Index(s, h, i);
    BlockIs(pairs.heads * pairs.dim, j, s);
    var q := s * pairs.heads + h;
    assert q * pairs.dim == s * (pairs.heads * pairs.dim) + h * pairs.dim;
    BlockIs(pairs.dim, j, q);
  }

  /** Entry by entry, the tensor form rotates pairs. */
  lemma InterleavedAt(trig: Trig, grid: Grid, positions: seq<nat>, x: seq<real>, s: nat, h: nat, i: nat, k: nat)
    requires trig.Valid() && |x| == grid.Size() && |positions| == grid.rows && grid.Has(s, h)
    requires grid.dim % 2 == 0 && k < 2 && 2 * i + k < grid.dim
    ensures var r := RotateInterleaved(trig, grid, positions, x);
      var f := trig.Freq(positions[s], i, grid.dim);
      var x1, x2 := grid.Entry(x, s, h, 2 * i), grid.Entry(x, s, h, 2 * i + 1);
      r.Some? && grid.Entry(r.value, s, h, 2 * i + k) ==
        if k == 0 then First(x1, x2, trig.cos(f), trig.sin(f)) else Second(x1, x2, trig.cos(f), trig.sin(f))
  {
    hide Trig.Freq, First, Second, Grid.Index, Grid.Size, Broadcast, Trig.Valid;
    IndexOfPair(grid, s, h, i, 0);
    IndexOfPair(grid, s, h, i, 1);
    var pairs := Grid(grid.rows, grid.heads, grid.dim / 2);
    BroadcastAt(pairs, Cosines(trig, grid.dim, positions), s, h, i);
    BroadcastAt(pairs, Sines(trig, grid.dim, positions), s, h, i);
  }

  lemma TurnedPair(trig: Trig, dim: nat, pos: nat, x: nat -> real, i: nat)
    requires trig.Valid() && 2 * i + 1 < dim
    ensures var a := trig.Angle(pos, i, dim);
      && Turned(trig, dim, pos, x, 2 * i) == First(x(2 * i), x(2 * i + 1), trig.cos(a), trig.sin(a))
      && Turned(trig, dim, pos, x, 2 * i + 1) == Second(x(2 * i), x(2 * i + 1), trig.cos(a), trig.sin(a))
  {
    hide Trig.Angle, First, Second;
    assert (2 * i) / 2 == i && (2 * i + 1) / 2 == i && (2 * i) % 2 == 0 && (2 * i + 1) % 2 == 1;
  }

  // ------------------------------------------------------------------ the kernel

  /** The rotation of every head of a tensor. */
  ghost predicate AllTurned(trig: Trig, grid: Grid, positions: seq<nat>, was: seq<real>, now: seq<real>)
    requires trig.Valid() && |was| == |now| == grid.Size() && |positions| == grid.rows
  {
    forall s: nat, h: nat :: grid.Has(s, h) ==> HeadTurned(trig, grid, positions, was, now, s, h)
  }

  ghost predicate HeadTurned(trig: Trig, grid: Grid, positions: seq<nat>, was: seq<real>, now: seq<real>, s: nat,
                             h: nat)
    requires trig.Valid() && |was| == |now| == grid.Size() && |positions| == grid.rows && grid.Has(s, h)
  {
    forall d: nat :: d < grid.dim ==>
      grid.Entry(now, s, h, d) == Turned(trig, grid.dim, positions[s], Head(grid, was, s, h), d)
  }

  ghost predicate HeadKept(grid: Grid, was: seq<real>, now: seq<real>, s: nat, h: nat)
    requires |was| == |now| == grid.Size() && grid.Has(s, h)
  {
    forall d: nat :: d < grid.dim ==> grid.Entry(now, s, h, d) == grid.Entry(was, s, h, d)
  }

  /** Rotates pair i of one head. */
  method TurnPair(trig: Trig, grid: Grid, data: array<real>, s: nat, h: nat, i: nat, angle: real)
    requires grid.Has(s, h) && 2 * i + 1 < grid.dim && data.Length == grid.Size()
    modifies data
    ensures var x1, x2 := grid.Entry(old(data[..]), s, h, 2 * i), grid.Entry(old(data[..]), s, h, 2 * i + 1);
      forall s2: nat, h2: nat, d: nat :: grid.Has(s2, h2) && d < grid.dim ==>
        grid.Entry(data[..], s2, h2, d) ==
          (if s2 == s && h2 == h && d == 2 * i then First(x1, x2, trig.cos(angle), trig.sin(angle))
           else if s2 == s && h2 == h && d == 2 * i + 1 then Second(x1, x2, trig.cos(angle), trig.sin(angle))
           else grid.Entry(old(data[..]), s2, h2, d))
  {
    hide Grid.Entry, Grid.Size, First, Second;
    var x1 := ReadEntry(grid, data, s, h, 2 * i);
    var x2 := ReadEntry(grid, data, s, h, 2 * i + 1);
    WriteEntry(grid, data, s, h, 2 * i, First(x1, x2, trig.cos(angle), trig.sin(angle)));
    WriteEntry(grid, data, s, h, 2 * i + 1, Second(x1, x2, trig.cos(angle), trig.sin(angle)));
  }

  /** What one thread does to one of the two tensors. */
  method TurnHead(trig: Trig, grid: Grid, data: array<real>, positions: seq<nat>, s: nat, h: nat)
    requires trig.Valid() && grid.Has(s, h) && data.Length == grid.Size() && |positions| == grid.rows
    modifies data
    ensures HeadTurned(trig, grid, positions, old(data[..]), data[..], s, h)
    ensures forall s2: nat, h2: nat :: grid.Has(s2, h2) && !(s2 == s && h2 == h) ==>
      HeadKept(grid, old(data[..]), data[..], s2, h2)
  {
    hide Grid.Entry, Grid.Size, Trig.Valid, Trig.Angle, Turned, First, Second;
    ghost var was := data[..];
    ghost var x := Head(grid, was, s, h);
    for i := 0 to grid.dim / 2
      invariant forall d: nat :: d < 2 * i ==>
        grid.Entry(data[..], s, h, d) == Turned(trig, grid.dim, positions[s], x, d)
      invariant forall d: nat :: 2 * i <= d < grid.dim ==> grid.Entry(data[..], s, h, d) == grid.Entry(was, s, h, d)
      invariant forall s2: nat, h2: nat, d: nat :: grid.Has(s2, h2) && d < grid.dim && !(s2 == s && h2 == h) ==>
        grid.Entry(data[..], s2, h2, d) == grid.Entry(was, s2, h2, d)
    {
      CanDivide(trig, i, grid.dim);
      TurnedPair(trig, grid.dim, positions[s], x, i);
      TurnPair(trig, grid, data, s, h, i, trig.Angle(positions[s], i, grid.dim));
    }
    if grid.dim % 2 == 1 {
      LastStays(trig, grid.dim, positions[s], x);
    }
  }

  lemma LastStays(trig: Trig, dim: nat, pos: nat, x: nat -> real)
    requires trig.Valid() && dim % 2 == 1
    ensures Turned(trig, dim, pos, x, dim - 1) == x(dim - 1)
  {
  }

  lemma CanDivide(trig: Trig, i: nat, dim: nat)
    requires trig.Valid() && dim > 0
    ensures trig.pow((2 * i) as real / dim as real) != 0.0
  {
  }

  /** One thread: a token and a head, of queries and keys alike. */
  method RopeKernel(trig: Trig, grid: Grid, q: array<real>, k: array<real>, positions: seq<nat>, s: nat, h: nat)
    requires trig.Valid() && q != k && q.Length == k.Length == grid.Size() && |positions| == grid.rows
    modifies q, k
    ensures grid.Has(s, h) ==>
      && HeadTurned(trig, grid, positions, old(q[..]), q[..], s, h)
      && HeadTurned(trig, grid, positions, old(k[..]), k[..], s, h)
    ensures forall s2: nat, h2: nat :: grid.Has(s2, h2) && !(s2 == s && h2 == h) ==>
      HeadKept(grid, old(q[..]), q[..], s2, h2) && HeadKept(grid, old(k[..]), k[..], s2, h2)
  {
    if s < |positions| && h < grid.heads {
      TurnHead(trig, grid, q, positions, s, h);
      TurnHead(trig, grid, k, positions, s, h);
    }
  }

  /**
   The kernel finds keys with the queries' number of heads: some thread reaches outside the key
   tensor if and only if there are fewer heads of keys, and all threads reach the keys of their own
   token and head if and only if there are as many, or just one token.
   */
  lemma KeysReached(grid: Grid, keyHeads: nat)
    requires grid.rows > 0 && grid.heads > 0 && grid.dim > 1
    ensures var keys := Grid(grid.rows, keyHeads, grid.dim);
      && (keyHeads >= grid.heads <==> forall s: nat, h: nat, d: nat ::
            grid.Has(s, h) && d < 2 * (grid.dim / 2) ==> grid.Index(s, h, d) < keys.Size())
      && (keyHeads == grid.heads || grid.rows == 1 <==> forall s: nat, h: nat, d: nat ::
            grid.Has(s, h) && d < 2 * (grid.dim / 2) ==> grid.Index(s, h, d) == keys.Index(s, h, d))
  {
    var keys := Grid(grid.rows, keyHeads, grid.dim);
    var s, h, d := grid.rows - 1, grid.heads - 1, 2 * (grid.dim / 2) - 1;
    RowsGrow(grid, keyHeads);
    if keyHeads >= grid.heads {
      forall s: nat, h: nat, d: nat | grid.Has(s, h) && d < 2 * (grid.dim / 2)
        ensures grid.Index(s, h, d) < keys.Size()
      {
        grid.IndexFits(s, h, d);
      }
    } else {
      assert grid.Has(s, h) && grid.Index(s, h, d) >= grid.Size() - 2 by {
        assert s * (grid.heads * grid.dim) + grid.heads * grid.dim == grid.Size();
        assert h * grid.dim + grid.dim == grid.heads * grid.dim;
      }
    }
    if grid.rows > 1 && keyHeads != grid.heads {
      assert grid.Has(1, 0) && grid.Index(1, 0, 0) == grid.heads * grid.dim
        && keys.Index(1, 0, 0) == keyHeads * grid.dim;
      if keyHeads * grid.dim == grid.heads * grid.dim {
        BlockIs(grid.dim, keyHeads * grid.dim, keyHeads);
        BlockIs(grid.dim, keyHeads * grid.dim, grid.heads);
      }
    }
  }

  lemma RowsGrow(grid: Grid, keyHeads: nat)
    requires grid.rows > 0
    ensures var size := Grid(grid.rows, keyHeads, grid.dim).Size();
      if keyHeads >= grid.heads then size >= grid.Size() else size + grid.dim <= grid.Size()
  {
    var a, b := keyHeads * grid.dim, grid.heads * grid.dim;
    if keyHeads >= grid.heads {
      FactorLe(grid.heads, keyHeads, grid.dim);
      FactorLe(b, a, grid.rows);
    } else {
      FactorLe(keyHeads + 1, grid.heads, grid.dim);
      assert (keyHeads + 1) * grid.dim == a + grid.dim;
      FactorLe(a + grid.dim, b, grid.rows);
      assert (a + grid.dim) * grid.rows == a * grid.rows + grid.dim * grid.rows;
      FactorLe(1, grid.rows, grid.dim);
    }
  }

  /** A launch: every token and head once, in some order. */
  ghost predicate Launches(grid: Grid, order: seq<(nat, nat)>) {
    NoDup(order) && forall s: nat, h: nat :: grid.Has(s, h) ==> (s, h) in order
  }

  /** Whatever the order of the threads, every head of both tensors is rotated. */
  method RunThreads(trig: Trig, grid: Grid, q: array<real>, k: array<real>, positions: seq<nat>, order: seq<(nat, nat)>)
    requires trig.Valid() && q != k && q.Length == k.Length == grid.Size() && |positions| == grid.rows
    requires Launches(grid, order)
    modifies q, k
    ensures AllTurned(trig, grid, positions, old(q[..]), q[..])
    ensures AllTurned(trig, grid, positions, old(k[..]), k[..])
  {
    ghost var q0, k0 := q[..], k[..];
    for i := 0 to |order|
      invariant Progress(trig, grid, positions, q0, q[..], order, i)
      invariant Progress(trig, grid, positions, k0, k[..], order, i)
    {
      ghost var q1, k1 := q[..], k[..];
      RopeKernel(trig, grid, q, k, positions, order[i].0, order[i].1);
      ProgressStep(trig, grid, positions, q0, q1, q[..], order, i);
      ProgressStep(trig, grid, positions, k0, k1, k[..], order, i);
    }
    assert order[..|order|] == order;
  }

  /** The heads of the threads that have run are rotated, the others are as before. */
  ghost predicate Progress(trig: Trig, grid: Grid, positions: seq<nat>, was: seq<real>, now: seq<real>,
                           order: seq<(nat, nat)>, i: nat)
    requires trig.Valid() && |was| == |now| == grid.Size() && |positions| == grid.rows && i <= |order|
  {
    forall s: nat, h: nat :: grid.Has(s, h) ==>
      if (s, h) in order[..i] then HeadTurned(trig, grid, positions, was, now, s, h)
      else HeadKept(grid, was, now, s, h)
  }

  lemma ProgressStep(trig: Trig, grid: Grid, positions: seq<nat>, was: seq<real>, mid: seq<real>, now: seq<real>,
                     order: seq<(nat, nat)>, i: nat)
    requires trig.Valid() && |was| == |mid| == |now| == grid.Size() && |positions| == grid.rows && i < |order|
    requires NoDup(order) && Progress(trig, grid, positions, was, mid, order, i)
    requires grid.Has(order[i].0, order[i].1) ==>
      HeadTurned(trig, grid, positions, mid, now, order[i].0, order[i].1)
    requires forall s: nat, h: nat :: grid.Has(s, h) && !(s == order[i].0 && h == order[i].1) ==>
      HeadKept(grid, mid, now, s, h)
    ensures Progress(trig, grid, positions, was, now, order, i + 1)
  {
    hide Trig.Valid, Grid.Entry, Grid.Size;
    assert order[..i + 1] == order[..i] + [order[i]];
    forall s: nat, h: nat | grid.Has(s, h)
      ensures if (s, h) in order[..i + 1] then HeadTurned(trig, grid, positions, was, now, s, h)
        else HeadKept(grid, was, now, s, h)
    {
      if (s, h) == order[i] {
        assert (s, h) !in order[..i];
        SameHeadTurned(trig, grid, positions, was, mid, now, s, h);
      } else if (s, h) in order[..i] {
        assert HeadTurned(trig, grid, positions, was, mid, s, h) && HeadKept(grid, mid, now, s, h);
      } else {
        assert HeadKept(grid, was, mid, s, h) && HeadKept(grid, mid, now, s, h);
      }
    }
  }

  lemma SameHeadTurned(trig: Trig, grid: Grid, positions: seq<nat>, was: seq<real>, mid: seq<real>, now: seq<real>,
                       s: nat, h: nat)
    requires trig.Valid() && |was| == |mid| == |now| == grid.Size() && |positions| == grid.rows && grid.Has(s, h)
    requires HeadKept(grid, was, mid, s, h) && HeadTurned(trig, grid, positions, mid, now, s, h)
    ensures HeadTurned(trig, grid, positions, was, now, s, h)
  {
    hide Trig.Valid, Grid.Entry, Grid.Size, Trig.Angle;
    var x, y := Head(grid, was, s, h), Head(grid, mid, s, h);
    assert forall d: nat :: x(d) == y(d);
    forall d: nat | d < grid.dim
      ensures Turned(trig, grid.dim, positions[s], x, d) == Turned(trig, grid.dim, positions[s], y, d)
    {
    }
  }

  // ------------------------------------------------------------------ the two forms

  /** A tensor can be seen as pairs if and only if its heads have an even number of entries, or it is empty. */
  lemma SeenAsPairs(grid: Grid)
    requires grid.dim > 0
    ensures grid.Size() == 2 * Grid(grid.rows, grid.heads, grid.dim / 2).Size() <==>
      grid.dim % 2 == 0 || grid.Size() == 0
  {
    var half, n := grid.dim / 2, grid.rows * grid.heads;
    assert grid.Size() == n * grid.dim && Grid(grid.rows, grid.heads, half).Size() == n * half by {
      Regroup(grid.rows, grid.heads, grid.dim);
      Regroup(grid.rows, grid.heads, half);
    }
    assert n * (2 * half) == 2 * (n * half);
    if grid.dim % 2 == 1 {
      assert n * grid.dim == n * (2 * half) + n;
    }
  }

  lemma Regroup(a: nat, b: nat, c: nat)
    ensures a * (b * c) == (a * b) * c
  {
  }

  /** The tensor form rotates every head. */
  lemma InterleavedTurns(trig: Trig, grid: Grid, positions: seq<nat>, x: seq<real>, s: nat, h: nat)
    requires trig.Valid() && |x| == grid.Size() && |positions| == grid.rows && grid.Has(s, h)
    requires grid.dim > 0 && grid.dim % 2 == 0
    ensures var r := RotateInterleaved(trig, grid, positions, x);
      r.Some? && HeadTurned(trig, grid, positions, x, r.value, s, h)
  {
    hide RotateInterleaved, Turned, First, Second, Trig.Valid, Trig.Angle, Trig.Freq, Grid.Entry, Grid.Size;
    InterleavedAt(trig, grid, positions, x, s, h, 0, 0);
    var r := RotateInterleaved(trig, grid, positions, x).value;
    forall d: nat | d < grid.dim
      ensures grid.Entry(r, s, h, d) == Turned(trig, grid.dim, positions[s], Head(grid, x, s, h), d)
    {
      var i, k := d / 2, d % 2;
      InterleavedAt(trig, grid, positions, x, s, h, i, k);
      trig.AngleIsFreq(positions[s], i, grid.dim);
      TurnedPair(trig, grid.dim, positions[s], Head(grid, x, s, h), i);
    }
  }

  /** Every place of a flat tensor is an entry of some head. */
  lemma PlaceOf(grid: Grid, e: nat) returns (s: nat, h: nat, d: nat)
    requires e < grid.Size()
    ensures grid.Has(s, h) && d < grid.dim && grid.Index(s, h, d) == e
  {
    var row := grid.heads * grid.dim;
    assert row > 0 && grid.dim > 0;
    s, h, d := BlockOf(row, e), BlockOf(grid.dim, RowIn(row, e)), RowIn(grid.dim, RowIn(row, e));
    BlockStart(row, e);
    BlockInTable(row, e, grid.rows);
    BlockStart(grid.dim, RowIn(row, e));
    BlockInTable(grid.dim, RowIn(row, e), grid.heads);
  }

  /** What has been rotated everywhere is determined by what it was. */
  lemma TurnedOnce(trig: Trig, grid: Grid, positions: seq<nat>, was: seq<real>, a: seq<real>, b: seq<real>)
    requires trig.Valid() && |was| == |a| == |b| == grid.Size() && |positions| == grid.rows
    requires AllTurned(trig, grid, positions, was, a) && AllTurned(trig, grid, positions, was, b)
    ensures a == b
  {
    hide Turned, Trig.Valid, Grid.Size;
    forall e | 0 <= e < |a|
      ensures a[e] == b[e]
    {
      var s, h, d := PlaceOf(grid, e);
      assert HeadTurned(trig, grid, positions, was, a, s, h) && HeadTurned(trig, grid, positions, was, b, s, h);
      assert grid.Entry(a, s, h, d) == grid.Entry(b, s, h, d);
    }
  }

  /**
   The tensor form fails on an odd head dimension, and otherwise yields the very tensor that the
   kernel's threads leave behind.
   */
  lemma FormsAgree(trig: Trig, grid: Grid, positions: seq<nat>, x: seq<real>)
    requires trig.Valid() && |x| == grid.Size() && |positions| == grid.rows && grid.dim > 0
    ensures var r := RotateInterleaved(trig, grid, positions, x);
      && (r.Some? <==> grid.dim % 2 == 0 || grid.Size() == 0)
      && (r.Some? ==> forall now: seq<real> :: |now| == |x| ==>
            (now == r.value <==> AllTurned(trig, grid, positions, x, now)))
  {
    SeenAsPairs(grid);
    var r := RotateInterleaved(trig, grid, positions, x);
    assert r.Some? <==> grid.Size() == 2 * Grid(grid.rows, grid.heads, grid.dim / 2).Size();
    hide RotateInterleaved, Turned, HeadTurned, Trig.Valid, Grid.Size;
    if r.Some? {
      forall s: nat, h: nat | grid.Has(s, h)
        ensures HeadTurned(trig, grid, positions, x, r.value, s, h)
      {
        HasEntries(grid, s, h);
        InterleavedTurns(trig, grid, positions, x, s, h);
      }
      forall now: seq<real> | |now| == |x| && AllTurned(trig, grid, positions, x, now)
        ensures now == r.value
      {
        TurnedOnce(trig, grid, positions, x, now, r.value);
      }
    }
  }

  lemma HasEntries(grid: Grid, s: nat, h: nat)
    requires grid.Has(s, h) && grid.dim > 0
    ensures grid.Size() > 0
  {
    grid.IndexFits(s, h, 0);
  }

  // ------------------------------------------------------------------ norms and scores

  /** The score of a pair of a query and one of a key, turned apart by an angle. */
  function PairScore(q1: real, q2: real, k1: real, k2: real, c: real, s: real): real {
    (q1 * k1 + q2 * k2) * c + (q1 * k2 - q2 * k1) * s
  }

  lemma PairProduct(q1: real, q2: real, k1: real, k2: real, cm: real, sm: real, cn: real, sn: real, c: real, s: real)
    requires c == cm * cn + sm * sn && s == sm * cn - cm * sn
    ensures Times(First(q1, q2, cm, sm), First(k1, k2, cn, sn)) + Times(Second(q1, q2, cm, sm), Second(k1, k2, cn, sn))
         == PairScore(q1, q2, k1, k2, c, s)
  {
    Expanded(q1 * cm, q2 * sm, q1 * sm, q2 * cm, k1 * cn, k2 * sn, k1 * sn, k2 * cn);
  }

  lemma Expanded(a: real, b: real, c: real, d: real, e: real, f: real, g: real, h: real)
    ensures (a - b) * (e - f) + (c + d) * (g + h) == a * e - a * f - b * e + b * f + c * g + c * h + d * g + d * h
  {
  }

  /** The angle between two positions for pair i. */
  ghost function Between(trig: Trig, apart: int, i: nat, dim: nat): real
    requires trig.Valid() && dim > 0
  {
    apart as real / trig.pow((2 * i) as real / dim as real)
  }

  lemma AnglesApart(trig: Trig, m: nat, n: nat, i: nat, dim: nat)
    requires trig.Valid() && dim > 0
    ensures trig.Angle(m, i, dim) - trig.Angle(n, i, dim) == Between(trig, m - n, i, dim)
  {
    var p := trig.pow((2 * i) as real / dim as real);
    Inverse(m as real, p);
    Inverse(n as real, p);
    Inverse((m - n) as real, p);
  }

  /** What pair i contributes to a score. */
  ghost function RelativePairs(trig: Trig, dim: nat, apart: int, q: nat -> real, k: nat -> real): nat -> real
    requires trig.Valid()
  {
    (i: nat) =>
      if dim > 0 then
        PairScore(q(2 * i), q(2 * i + 1), k(2 * i), k(2 * i + 1),
                  trig.cos(Between(trig, apart, i, dim)), trig.sin(Between(trig, apart, i, dim)))
      else 0.0
  }

  lemma PairIsRelative(trig: Trig, dim: nat, m: nat, n: nat, q: nat -> real, k: nat -> real, i: nat)
    requires trig.Valid() && 2 * i + 1 < dim
    ensures var terms := Product(Turn(trig, dim, m, q), Turn(trig, dim, n, k));
      terms(2 * i) + terms(2 * i + 1) == RelativePairs(trig, dim, m - n, q, k)(i)
  {
    hide Turned, First, Second, PairScore, Times, Trig.Angle, Between, Trig.Valid;
    CanDivide(trig, i, dim);
    var a, b := trig.Angle(m, i, dim), trig.Angle(n, i, dim);
    TurnedPair(trig, dim, m, q, i);
    TurnedPair(trig, dim, n, k, i);
    AnglesApart(trig, m, n, i, dim);
    AnglesDiffer(trig, a, b);
    PairProduct(q(2 * i), q(2 * i + 1), k(2 * i), k(2 * i + 1), trig.cos(a), trig.sin(a), trig.cos(b), trig.sin(b),
                trig.cos(a - b), trig.sin(a - b));
    PairTerms(dim, Turn(trig, dim, m, q), Turn(trig, dim, n, k), i);
  }

  lemma AnglesDiffer(trig: Trig, a: real, b: real)
    requires trig.Valid()
    ensures trig.cos(a) * trig.cos(b) + trig.sin(a) * trig.sin(b) == trig.cos(a - b)
    ensures trig.sin(a) * trig.cos(b) - trig.cos(a) * trig.sin(b) == trig.sin(a - b)
  {
    assert trig.Difference(a, b);
  }

  lemma PairTerms(dim: nat, x: nat -> real, y: nat -> real, i: nat)
    ensures var terms := Product(x, y);
      terms(2 * i) == Times(x(2 * i), y(2 * i)) && terms(2 * i + 1) == Times(x(2 * i + 1), y(2 * i + 1))
  {
  }

  /** The score of a turned query and a turned key, by pairs; an odd last entry is multiplied as it is. */
  lemma ScoreByPairs(trig: Trig, dim: nat, m: nat, n: nat, q: nat -> real, k: nat -> real)
    requires trig.Valid()
    ensures Dot(dim, Turn(trig, dim, m, q), Turn(trig, dim, n, k)) ==
      SumTo(dim / 2, RelativePairs(trig, dim, m - n, q, k)) +
      (if dim % 2 == 1 then Times(q(dim - 1), k(dim - 1)) else 0.0)
  {
    hide Turned, PairScore, Times, Trig.Valid, RelativePairs;
    var half := dim / 2;
    var terms := Product(Turn(trig, dim, m, q), Turn(trig, dim, n, k));
    forall i: nat | i < half
      ensures RelativePairs(trig, dim, m - n, q, k)(i) == terms(2 * i) + terms(2 * i + 1)
    {
      PairIsRelative(trig, dim, m, n, q, k, i);
    }
    SumPairs(half, terms, RelativePairs(trig, dim, m - n, q, k));
    if dim % 2 == 1 {
      LastStays(trig, dim, m, q);
      LastStays(trig, dim, n, k);
      assert SumTo(dim, terms) == SumTo(2 * half, terms) + terms(dim - 1);
    }
  }

  /** Scores depend on the two positions only through their difference. */
  lemma ScoresAreRelative(trig: Trig, dim: nat, m: nat, n: nat, m2: nat, n2: nat, q: nat -> real, k: nat -> real)
    requires trig.Valid() && m - n == m2 - n2
    ensures Dot(dim, Turn(trig, dim, m, q), Turn(trig, dim, n, k)) ==
      Dot(dim, Turn(trig, dim, m2, q), Turn(trig, dim, n2, k))
  {
    ScoreByPairs(trig, dim, m, n, q, k);
    ScoreByPairs(trig, dim, m2, n2, q, k);
  }

  /** At position 0 nothing turns. */
  lemma FirstPositionStays(trig: Trig, dim: nat, x: nat -> real, d: nat)
    requires trig.Valid() && d < dim
    ensures Turn(trig, dim, 0, x)(d) == x(d)
  {
    assert trig.Angle(0, d / 2, dim) == 0.0;
    assert trig.Difference(0.0, 0.0);
    assert trig.sin(0.0) == 0.0;
  }

  /** Rotation keeps the norm of a head. */
  lemma NormsKept(trig: Trig, dim: nat, pos: nat, x: nat -> real)
    requires trig.Valid()
    ensures Dot(dim, Turn(trig, dim, pos, x), Turn(trig, dim, pos, x)) == Dot(dim, x, x)
  {
    hide Times, Turned, Trig.Valid;
    ScoresAreRelative(trig, dim, pos, pos, 0, 0, x, x);
    var there := Turn(trig, dim, 0, x);
    forall d: nat | d < dim
      ensures Product(there, there)(d) == Product(x, x)(d)
    {
      FirstPositionStays(trig, dim, x, d);
    }
    SumEq(dim, Product(there, there), Product(x, x));
  }

  // ------------------------------------------------------------------ positions

  /** Token e of the batch is token RowIn of sequence BlockOf, which starts at its stored length. */
  ghost predicate IsPosition(offsets: seq<nat>, seqLen: nat, positions: seq<nat>, e: nat)
    requires seqLen > 0 && e < |positions|
  {
    var b := BlockOf(seqLen, e);
    b < |offsets| && positions[e] == offsets[b] + RowIn(seqLen, e)
  }

  /** The positions of a batch of sequences of seqLen tokens each, past their stored lengths. */
  method BuildPositions(offsets: seq<nat>, seqLen: nat) returns (positions: seq<nat>)
    ensures |positions| == |offsets| * seqLen
    ensures seqLen > 0 ==> forall e: nat :: e < |positions| ==> IsPosition(offsets, seqLen, positions, e)
  {
    hide BlockOf, RowIn;
    positions := [];
    for b := 0 to |offsets|
      invariant |positions| == b * seqLen
      invariant seqLen > 0 ==> forall e: nat :: e < |positions| ==> IsPosition(offsets, seqLen, positions, e)
    {
      for t := 0 to seqLen
        invariant |positions| == b * seqLen + t
        invariant seqLen > 0 ==> forall e: nat :: e < |positions| ==> IsPosition(offsets, seqLen, positions, e)
      {
        BlockIs(seqLen, b * seqLen + t, b);
        ghost var was := positions;
        positions := positions + [offsets[b] + t];
        forall e: nat | e < |positions|
          ensures IsPosition(offsets, seqLen, positions, e)
        {
          assert e == |was| || IsPosition(offsets, seqLen, was, e);
        }
      }
    }
  }
}

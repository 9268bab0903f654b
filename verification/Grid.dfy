/** Tensors of rows, heads and entries, laid out flat. */
module Grids {
  import opened Blocks

  datatype Grid = Grid(rows: nat, heads: nat, dim: nat) {
    function Size(): nat {
      rows * (heads * dim)
    }

    predicate Has(s: nat, h: nat) {
      s < rows && h < heads
    }

    /** Flat index of entry d of head h of row s. */
    function Index(s: nat, h: nat, d: nat): nat {
      s * (heads * dim) + (h * dim + d)
    }

    lemma IndexFits(s: nat, h: nat, d: nat)
      requires Has(s, h) && d < dim
      ensures Index(s, h, d) < Size()
    {
      PairFits(h, heads, d, dim);
      PairFits(s, rows, h * dim + d, heads * dim);
    }

    /** Different entries are in different places. */
    lemma IndexTellsApart(s: nat, h: nat, d: nat, s2: nat, h2: nat, d2: nat)
      requires Has(s, h) && Has(s2, h2) && d < dim && d2 < dim
      requires Index(s, h, d) == Index(s2, h2, d2)
      ensures s == s2 && h == h2 && d == d2
    {
      PairFits(h, heads, d, dim);
      PairFits(h2, heads, d2, dim);
      PairTellsApart(heads * dim, s, h * dim + d, s2, h2 * dim + d2);
      PairTellsApart(dim, h, d, h2, d2);
    }

    ghost function Entry(data: seq<real>, s: nat, h: nat, d: nat): real
      requires Has(s, h) && d < dim && |data| == Size()
    {
      IndexFits(s, h, d);
      data[Index(s, h, d)]
    }
  }

  /** Rows of heads of entries, of the grid's dimensions. */
  ghost predicate Nested(grid: Grid, x: seq<seq<seq<real>>>) {
    && |x| == grid.rows && (forall s :: 0 <= s < |x| ==> |x[s]| == grid.heads)
    && forall s, h :: 0 <= s < |x| && 0 <= h < |x[s]| ==> |x[s][h]| == grid.dim
  }

  ghost function NestedEntry(grid: Grid, x: seq<seq<seq<real>>>, s: nat, h: nat, d: nat): real
    requires Nested(grid, x) && grid.Has(s, h) && d < grid.dim
  {
    x[s][h][d]
  }

  function FlattenRows(x: seq<seq<seq<real>>>): (r: seq<seq<real>>)
    ensures |r| == |x| && forall s :: 0 <= s < |x| ==> r[s] == Flatten(x[s])
  {
    seq(|x|, s requires 0 <= s < |x| => Flatten(x[s]))
  }

  lemma NestedRows(grid: Grid, x: seq<seq<seq<real>>>)
    requires Nested(grid, x)
    ensures forall s :: 0 <= s < |x| ==> |FlattenRows(x)[s]| == grid.heads * grid.dim
  {
    hide Flatten;
    forall s | 0 <= s < |x|
      ensures |FlattenRows(x)[s]| == grid.heads * grid.dim
    {
      FlattenLength(x[s], grid.dim);
    }
  }

  lemma NestedSize(grid: Grid, x: seq<seq<seq<real>>>)
    requires Nested(grid, x)
    ensures |Flatten(FlattenRows(x))| == grid.Size()
  {
    NestedRows(grid, x);
    FlattenLength(FlattenRows(x), grid.heads * grid.dim);
  }

  /** The layout is row by row, head by head: a nested tensor laid end to end has its entries where the grid looks. */
  lemma EntryOfNested(grid: Grid, x: seq<seq<seq<real>>>, s: nat, h: nat, d: nat)
    requires Nested(grid, x) && grid.Has(s, h) && d < grid.dim
    ensures var data := Flatten(FlattenRows(x));
      |data| == grid.Size() && grid.Entry(data, s, h, d) == NestedEntry(grid, x, s, h, d)
  {
    hide Flatten;
    var rows := FlattenRows(x);
    NestedRows(grid, x);
    PairFits(h, grid.heads, d, grid.dim);
    FlattenAt(x[s], grid.dim, h, d);
    FlattenAt(rows, grid.heads * grid.dim, s, h * grid.dim + d);
  }

  /** Reads one entry. */
  method ReadEntry(grid: Grid, data: array<real>, s: nat, h: nat, d: nat) returns (value: real)
    requires grid.Has(s, h) && d < grid.dim && data.Length == grid.Size()
    ensures value == grid.Entry(data[..], s, h, d)
  {
    grid.IndexFits(s, h, d);
    value := data[grid.Index(s, h, d)];
  }

  /** Writes one entry and touches no other. */
  method WriteEntry(grid: Grid, data: array<real>, s: nat, h: nat, d: nat, value: real)
    requires grid.Has(s, h) && d < grid.dim && data.Length == grid.Size()
    modifies data
    ensures forall s2: nat, h2: nat, d2: nat :: grid.Has(s2, h2) && d2 < grid.dim ==>
      grid.Entry(data[..], s2, h2, d2) ==
        if s2 == s && h2 == h && d2 == d then value else grid.Entry(old(data[..]), s2, h2, d2)
  {
    grid.IndexFits(s, h, d);
    data[grid.Index(s, h, d)] := value;
    hide Grid.Index, Grid.Size;
    forall s2: nat, h2: nat, d2: nat | grid.Has(s2, h2) && d2 < grid.dim
      ensures grid.Entry(data[..], s2, h2, d2) ==
        if s2 == s && h2 == h && d2 == d then value else grid.Entry(old(data[..]), s2, h2, d2)
    {
      grid.IndexFits(s2, h2, d2);
      if grid.Index(s2, h2, d2) == grid.Index(s, h, d) {
        grid.IndexTellsApart(s2, h2, d2, s, h, d);
      }
    }
  }
}

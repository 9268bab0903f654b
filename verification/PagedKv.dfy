/**
 The paged key/value cache of the Candle backend.  Rows are written in chunks into physical
 blocks and read back by laying a sequence's block table out flat; the theorem is that this is
 an append-only list of rows per sequence and layer, whatever the blocks held before.
 A row stands for one token's keys (or values) as stored: quantised row by row, if at all.
 */
module PagedKv {
  import opened Types
  import opened Blocks

  datatype BlockData<R> = BlockData(k: seq<R>, v: seq<R>)

  type Cache<R> = map<(nat, BlockId), BlockData<R>>

  /** Replaces chunk_len rows of a block, by gluing what is left, new and right of them. */
  function UpdateBlockTensor<R>(block: seq<R>, slice: seq<R>, start: nat): (r: seq<R>)
    requires start + |slice| <= |block|
    ensures |r| == |block|
    ensures forall i :: 0 <= i < |block| ==>
      r[i] == if start <= i < start + |slice| then slice[i - start] else block[i]
  {
    var end := start + |slice|;
    var left := if start > 0 then Some(block[..start]) else None;
    var right := if end < |block| then Some(block[end..]) else None;
    match (left, right)
    case (Some(l), Some(r)) => l + slice + r
    case (Some(l), None) => l + slice
    case (None, Some(r)) => slice + r
    case (None, None) => slice
  }

  function Min(a: nat, b: nat): nat {
    if a < b then a else b
  }

  /** Every cached block has bs rows of keys and of values. */
  ghost predicate Shaped<R>(c: Cache<R>, bs: nat) {
    forall key :: key in c ==> |c[key].k| == bs && |c[key].v| == bs
  }

  function ZeroBlock<R>(bs: nat, zero: R): BlockData<R> {
    BlockData(seq(bs, _ => zero), seq(bs, _ => zero))
  }

  /** One trip round the write loop: the rows from t up to the end of their block. */
  function ChunkLen(bs: nat, offset: nat, n: nat, t: nat): (len: nat)
    requires bs > 0 && t < n
    ensures 0 < len <= n - t && RowIn(bs, offset + t) + len <= bs
  {
    Min(n - t, bs - RowIn(bs, offset + t))
  }

  function WriteChunk<R>(c: Cache<R>, layer: nat, b: BlockId, bs: nat, zero: R, start: nat, k: seq<R>, v: seq<R>)
      : (r: Cache<R>)
    requires bs > 0 && Shaped(c, bs) && |k| == |v| && start + |k| <= bs
    ensures Shaped(r, bs)
  {
    var block := if (layer, b) in c then c[(layer, b)] else ZeroBlock(bs, zero);
    c[(layer, b) := BlockData(UpdateBlockTensor(block.k, k, start), UpdateBlockTensor(block.v, v, start))]
  }

  /** A block written for the first time holds zeros wherever nothing has been written. */
  lemma NewBlockZero<R>(c: Cache<R>, layer: nat, b: BlockId, bs: nat, zero: R, start: nat, k: seq<R>, v: seq<R>,
                        i: nat)
    requires bs > 0 && Shaped(c, bs) && |k| == |v| && start + |k| <= bs && (layer, b) !in c && i < bs
    ensures var block := WriteChunk(c, layer, b, bs, zero, start, k, v)[(layer, b)];
      if start <= i < start + |k| then block.k[i] == k[i - start] && block.v[i] == v[i - start]
      else block.k[i] == block.v[i] == zero
  {
    hide UpdateBlockTensor;
  }

  /** The write loop from row t on. */
  function WriteFrom<R>(c: Cache<R>, layer: nat, table: seq<BlockId>, bs: nat, zero: R, offset: nat, k: seq<R>,
                        v: seq<R>, t: nat): (r: Cache<R>)
    requires bs > 0 && Shaped(c, bs) && |k| == |v| && t <= |k| && offset + |k| <= |table| * bs
    ensures Shaped(r, bs)
    decreases |k| - t
  {
    if t == |k| then c
    else
      var abs := offset + t;
      BlockInTable(bs, abs, |table|);
      var len := ChunkLen(bs, offset, |k|, t);
      var c' := WriteChunk(c, layer, table[BlockOf(bs, abs)], bs, zero, RowIn(bs, abs), k[t..t + len], v[t..t + len]);
      WriteFrom(c', layer, table, bs, zero, offset, k, v, t + len)
  }

  // ------------------------------------------------------------------ the flat view

  /** Row j of the sequence with this block table, in this layer. */
  ghost function RowAt<R>(c: Cache<R>, layer: nat, table: seq<BlockId>, bs: nat, j: nat): Option<(R, R)>
    requires bs > 0 && Shaped(c, bs)
  {
    if BlockOf(bs, j) < |table| && (layer, table[BlockOf(bs, j)]) in c
    then Some((c[(layer, table[BlockOf(bs, j)])].k[RowIn(bs, j)], c[(layer, table[BlockOf(bs, j)])].v[RowIn(bs, j)]))
    else None
  }

  /** The first rows of the flat view are exactly these. */
  ghost predicate Reads<R>(c: Cache<R>, layer: nat, table: seq<BlockId>, bs: nat, k: seq<R>, v: seq<R>)
    requires bs > 0 && Shaped(c, bs)
  {
    && |k| == |v|
    && forall j :: 0 <= j < |k| ==> RowAt(c, layer, table, bs, j) == Some((k[j], v[j]))
  }

  /** Position j lies in the chunk [abs, abs + len) exactly if it lies in its block at those rows. */
  lemma InChunk(bs: nat, abs: nat, len: nat, j: nat)
    requires bs > 0 && RowIn(bs, abs) + len <= bs
    ensures abs <= j < abs + len <==>
      BlockOf(bs, j) == BlockOf(bs, abs) && RowIn(bs, abs) <= RowIn(bs, j) < RowIn(bs, abs) + len
    ensures abs <= j < abs + len ==> RowIn(bs, j) == RowIn(bs, abs) + (j - abs)
  {
    BlockStart(bs, abs);
    BlockStart(bs, j);
    if abs <= j < abs + len {
      BlockIs(bs, j, BlockOf(bs, abs));
    }
  }

  /** Row i of block q once a chunk has been written to block b from row `start` on. */
  lemma ChunkBlock<R>(c: Cache<R>, layer: nat, b: BlockId, bs: nat, zero: R, start: nat, k: seq<R>, v: seq<R>,
                      q: BlockId, i: nat)
    requires bs > 0 && Shaped(c, bs) && |k| == |v| && start + |k| <= bs && i < bs
    ensures var r := WriteChunk(c, layer, b, bs, zero, start, k, v);
      && ((layer, q) in r <==> q == b || (layer, q) in c)
      && (q == b && start <= i < start + |k| ==>
            r[(layer, q)].k[i] == k[i - start] && r[(layer, q)].v[i] == v[i - start])
      && ((layer, q) in c && !(q == b && start <= i < start + |k|) ==>
            r[(layer, q)].k[i] == c[(layer, q)].k[i] && r[(layer, q)].v[i] == c[(layer, q)].v[i])
  {
  }

  /** A chunk puts its rows in place and leaves every other row of the sequence alone. */
  lemma ChunkRows<R>(c: Cache<R>, layer: nat, table: seq<BlockId>, bs: nat, zero: R, abs: nat, k: seq<R>, v: seq<R>,
                     j: nat)
    requires bs > 0 && Shaped(c, bs) && NoDup(table) && |k| == |v| && RowIn(bs, abs) + |k| <= bs
      && BlockOf(bs, abs) < |table|
    ensures var r := WriteChunk(c, layer, table[BlockOf(bs, abs)], bs, zero, RowIn(bs, abs), k, v);
      && (abs <= j < abs + |k| ==> RowAt(r, layer, table, bs, j) == Some((k[j - abs], v[j - abs])))
      && (!(abs <= j < abs + |k|) && RowAt(c, layer, table, bs, j).Some? ==>
            RowAt(r, layer, table, bs, j) == RowAt(c, layer, table, bs, j))
  {
    hide BlockOf, RowIn, WriteChunk, NoDup;
    InChunk(bs, abs, |k|, j);
    if BlockOf(bs, j) < |table| {
      SameBlock(table, BlockOf(bs, j), BlockOf(bs, abs));
      ChunkBlock(c, layer, table[BlockOf(bs, abs)], bs, zero, RowIn(bs, abs), k, v, table[BlockOf(bs, j)],
                 RowIn(bs, j));
    }
  }

  lemma SameBlock(table: seq<BlockId>, p: nat, q: nat)
    requires NoDup(table) && p < |table| && q < |table|
    ensures table[p] == table[q] <==> p == q
  {
  }

  /** The write loop appends its rows to the flat view. */
  lemma {:induction false} WriteFromRows<R>(c: Cache<R>, layer: nat, table: seq<BlockId>, bs: nat, zero: R,
                                            offset: nat, k: seq<R>, v: seq<R>, t: nat, j: nat)
    requires bs > 0 && Shaped(c, bs) && NoDup(table) && |k| == |v| && t <= |k| && offset + |k| <= |table| * bs
    ensures var r := WriteFrom(c, layer, table, bs, zero, offset, k, v, t);
      && (offset + t <= j < offset + |k| ==> RowAt(r, layer, table, bs, j) == Some((k[j - offset], v[j - offset])))
      && (j < offset + t && RowAt(c, layer, table, bs, j).Some? ==>
            RowAt(r, layer, table, bs, j) == RowAt(c, layer, table, bs, j))
    decreases |k| - t
  {
    hide RowAt, Shaped, BlockOf, RowIn, WriteChunk;
    if t < |k| {
      var abs := offset + t;
      BlockInTable(bs, abs, |table|);
      var len := ChunkLen(bs, offset, |k|, t);
      var kc, vc := k[t..t + len], v[t..t + len];
      ChunkRows(c, layer, table, bs, zero, abs, kc, vc, j);
      var c' := WriteChunk(c, layer, table[BlockOf(bs, abs)], bs, zero, RowIn(bs, abs), kc, vc);
      WriteFromRows(c', layer, table, bs, zero, offset, k, v, t + len, j);
      if abs <= j < abs + len {
        assert kc[j - abs] == k[j - offset] && vc[j - abs] == v[j - offset];
      }
    }
  }

  /** Blocks outside the table and other layers are not touched. */
  lemma {:induction false} WriteFromElsewhere<R>(c: Cache<R>, layer: nat, table: seq<BlockId>, bs: nat, zero: R,
                                                 offset: nat, k: seq<R>, v: seq<R>, t: nat)
    requires bs > 0 && Shaped(c, bs) && |k| == |v| && t <= |k| && offset + |k| <= |table| * bs
    ensures var r := WriteFrom(c, layer, table, bs, zero, offset, k, v, t);
      && c.Keys <= r.Keys
      && forall key :: key in r && (key.0 != layer || key.1 !in table) ==> key in c && r[key] == c[key]
    decreases |k| - t
  {
    hide Shaped, BlockOf, RowIn, UpdateBlockTensor;
    if t < |k| {
      var abs := offset + t;
      BlockInTable(bs, abs, |table|);
      var len := ChunkLen(bs, offset, |k|, t);
      var c' := WriteChunk(c, layer, table[BlockOf(bs, abs)], bs, zero, RowIn(bs, abs), k[t..t + len], v[t..t + len]);
      WriteFromElsewhere(c', layer, table, bs, zero, offset, k, v, t + len);
    }
  }

  /** Appending rows to what a sequence has so far. */
  lemma WriteAppends<R>(c: Cache<R>, layer: nat, table: seq<BlockId>, bs: nat, zero: R, hk: seq<R>, hv: seq<R>,
                        k: seq<R>, v: seq<R>)
    requires bs > 0 && Shaped(c, bs) && NoDup(table) && Reads(c, layer, table, bs, hk, hv)
    requires |k| == |v| && |hk| + |k| <= |table| * bs
    ensures Reads(WriteFrom(c, layer, table, bs, zero, |hk|, k, v, 0), layer, table, bs, hk + k, hv + v)
  {
    var r := WriteFrom(c, layer, table, bs, zero, |hk|, k, v, 0);
    forall j | 0 <= j < |hk + k|
      ensures RowAt(r, layer, table, bs, j) == Some(((hk + k)[j], (hv + v)[j]))
    {
      WriteFromRows(c, layer, table, bs, zero, |hk|, k, v, 0, j);
      if j < |hk| {
        assert RowAt(c, layer, table, bs, j) == Some((hk[j], hv[j]));
      }
    }
  }

  /** A sequence whose blocks were not written, or in another layer, reads as before. */
  lemma WriteSpares<R>(c: Cache<R>, layer: nat, table: seq<BlockId>, bs: nat, zero: R, offset: nat, k: seq<R>,
                       v: seq<R>, layer2: nat, table2: seq<BlockId>, hk: seq<R>, hv: seq<R>)
    requires bs > 0 && Shaped(c, bs) && |k| == |v| && offset + |k| <= |table| * bs
    requires layer2 != layer || forall b :: b in table2 ==> b !in table
    requires Reads(c, layer2, table2, bs, hk, hv)
    ensures Reads(WriteFrom(c, layer, table, bs, zero, offset, k, v, 0), layer2, table2, bs, hk, hv)
  {
    hide BlockOf, RowIn, WriteFrom;
    WriteFromElsewhere(c, layer, table, bs, zero, offset, k, v, 0);
    var r := WriteFrom(c, layer, table, bs, zero, offset, k, v, 0);
    forall j | 0 <= j < |hk|
      ensures RowAt(r, layer2, table2, bs, j) == Some((hk[j], hv[j]))
    {
      assert RowAt(c, layer2, table2, bs, j) == Some((hk[j], hv[j]));
      assert table2[BlockOf(bs, j)] in table2;
    }
  }

  // ------------------------------------------------------------------ reading back

  /** Concatenates these blocks' rows; fails on a block that was never written. */
  function Concat<R>(c: Cache<R>, layer: nat, blocks: seq<BlockId>): Option<(seq<R>, seq<R>)> {
    if blocks == [] then Some(([], []))
    else
      var n := |blocks| - 1;
      match Concat(c, layer, blocks[..n])
      case None => None
      case Some((k, v)) =>
        if (layer, blocks[n]) in c then Some((k + c[(layer, blocks[n])].k, v + c[(layer, blocks[n])].v)) else None
  }

  /** Reads the first `total` rows: the active blocks laid out flat, cut to length. */
  function Gather<R>(c: Cache<R>, layer: nat, table: seq<BlockId>, bs: nat, total: nat): Option<(seq<R>, seq<R>)>
    requires bs > 0
  {
    var active := Min(ActiveBlocks(bs, total), |table|);
    if active == 0 then None
    else match Concat(c, layer, table[..active])
      case None => None
      case Some((k, v)) =>
        if total <= |k| && total <= |v| then Some((k[..total], v[..total])) else None
  }

  /** These are the newest of the rows, in order: as many as the window admits, or all without one. */
  ghost predicate Newest<R>(rows: seq<R>, window: Option<nat>, seen: seq<R>) {
    && |seen| == (if window.Some? && window.value < |rows| then window.value else |rows|)
    && forall j :: 0 <= j < |seen| ==> seen[j] == rows[|rows| - |seen| + j]
  }

  function Window<R>(rows: seq<R>, window: Option<nat>): (r: seq<R>)
    ensures Newest(rows, window, r)
  {
    match window
    case None => rows
    case Some(w) => if |rows| > w then rows[|rows| - w..] else rows
  }

  lemma {:induction false} ConcatRows<R>(c: Cache<R>, layer: nat, table: seq<BlockId>, bs: nat, n: nat)
    requires bs > 0 && Shaped(c, bs) && n <= |table|
    requires forall i :: 0 <= i < n ==> (layer, table[i]) in c
    ensures Concat(c, layer, table[..n]).Some?
    ensures var (k, v) := Concat(c, layer, table[..n]).value;
      && |k| == |v| == n * bs
      && forall j :: 0 <= j < n * bs ==> RowAt(c, layer, table, bs, j) == Some((k[j], v[j]))
    decreases n
  {
    if n > 0 {
      ConcatRows(c, layer, table, bs, n - 1);
      assert table[..n][..n - 1] == table[..n - 1];
      var (k, v) := Concat(c, layer, table[..n]).value;
      assert n * bs == (n - 1) * bs + bs;
      forall j | (n - 1) * bs <= j < n * bs
        ensures RowAt(c, layer, table, bs, j) == Some((k[j], v[j]))
      {
        BlockIs(bs, j, n - 1);
      }
    }
  }

  /** The number of blocks that hold `total` tokens. */
  function ActiveBlocks(bs: nat, total: nat): nat
    requires bs > 0
  {
    (total + bs - 1) / bs
  }

  lemma ActiveBlocksCover(bs: nat, total: nat)
    requires bs > 0 && total > 0
    ensures var n := ActiveBlocks(bs, total);
      0 < n && total <= n * bs && n == BlockOf(bs, total - 1) + 1
  {
    var n := ActiveBlocks(bs, total);
    BlockStart(bs, total + bs - 1);
    assert BlockOf(bs, total + bs - 1) == n;
    BlockStart(bs, total - 1);
    var q := BlockOf(bs, total - 1);
    assert (q + 1) * bs == q * bs + bs;
    BlockIs(bs, total + bs - 1, q + 1);
  }

  /** Every active block has been written. */
  lemma ActiveWritten<R>(c: Cache<R>, layer: nat, table: seq<BlockId>, bs: nat, hk: seq<R>, hv: seq<R>, i: nat)
    requires bs > 0 && Shaped(c, bs) && Reads(c, layer, table, bs, hk, hv)
    requires 0 < |hk| && i < ActiveBlocks(bs, |hk|) <= |table|
    ensures (layer, table[i]) in c
  {
    hide BlockOf, RowIn, ActiveBlocks;
    ActiveBlocksCover(bs, |hk|);
    BlockStart(bs, |hk| - 1);
    var q := BlockOf(bs, |hk| - 1);
    FactorLe(i, q, bs);
    BlockIs(bs, i * bs, i);
    assert RowAt(c, layer, table, bs, i * bs) == Some((hk[i * bs], hv[i * bs]));
  }

  /**
   Reading back what was appended: the gathered rows are the whole history, in order, whatever
   stale rows the last block holds beyond it.
   */
  lemma GatherReads<R>(c: Cache<R>, layer: nat, table: seq<BlockId>, bs: nat, hk: seq<R>, hv: seq<R>)
    requires bs > 0 && Shaped(c, bs) && Reads(c, layer, table, bs, hk, hv)
    requires 0 < |hk| <= |table| * bs
    ensures Gather(c, layer, table, bs, |hk|) == Some((hk, hv))
  {
    hide BlockOf, RowIn, ActiveBlocks, Shaped, Concat;
    var total := |hk|;
    var active := ActiveBlocks(bs, total);
    ActiveBlocksCover(bs, total);
    BlockInTable(bs, total - 1, |table|);
    forall i | 0 <= i < active
      ensures (layer, table[i]) in c
    {
      ActiveWritten(c, layer, table, bs, hk, hv, i);
    }
    ConcatRows(c, layer, table, bs, active);
    var (k, v) := Concat(c, layer, table[..active]).value;
    forall j | 0 <= j < total
      ensures k[j] == hk[j] && v[j] == hv[j]
    {
      assert RowAt(c, layer, table, bs, j) == Some((hk[j], hv[j]));
    }
    assert k[..total] == hk && v[..total] == hv;
  }
}

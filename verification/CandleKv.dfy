/**
 The backend object's cache fields and the loops that update them, proved against the pass of
 module KvPass.
 */
module CandleKv {
  import opened Types
  import opened ModelMetas
  import opened SchedulerSpec
  import opened Blocks
  import opened PagedKv
  import opened KvPass

  class CandleBackend<R(==)> {
    const model: Model<R>
    var gpuKvCache: Cache<R>
    var seqBlocks: map<SeqId, seq<BlockId>>
    var seqLengths: map<SeqId, nat>

    constructor (model: Model<R>)
      requires model.bs > 0
      ensures this.model == model && Abs() == Kv(map[], map[], map[])
      ensures Valid()
    {
      this.model := model;
      gpuKvCache, seqBlocks, seqLengths := map[], map[], map[];
    }

    ghost function Abs(): Kv<R>
      reads this
    {
      Kv(gpuKvCache, seqBlocks, seqLengths)
    }

    ghost predicate Valid()
      reads this
    {
      model.bs > 0 && Shaped(gpuKvCache, model.bs)
    }

    function GetSeqLen(id: SeqId): nat
      reads this
    {
      if id in seqLengths then seqLengths[id] else 0
    }

    /** Writes the rows block by block, creating zeroed blocks where there is none yet. */
    method WriteRows(layer: nat, table: seq<BlockId>, offset: nat, k: seq<R>, v: seq<R>)
      requires Valid() && |k| == |v| && offset + |k| <= |table| * model.bs
      modifies this`gpuKvCache
      ensures Valid()
      ensures gpuKvCache == WriteFrom(old(gpuKvCache), layer, table, model.bs, model.zero, offset, k, v, 0)
    {
      hide BlockOf, RowIn, UpdateBlockTensor;
      var bs := model.bs;
      var tStart := 0;
      while tStart < |k|
        invariant tStart <= |k| && Valid()
        invariant WriteFrom(gpuKvCache, layer, table, bs, model.zero, offset, k, v, tStart)
               == WriteFrom(old(gpuKvCache), layer, table, bs, model.zero, offset, k, v, 0)
      {
        var absIdx := offset + tStart;
        BlockInTable(bs, absIdx, |table|);
        var blockId := table[BlockOf(bs, absIdx)];
        var startBlockOffset := RowIn(bs, absIdx);
        var chunkLen := ChunkLen(bs, offset, |k|, tStart);
        var tEnd := tStart + chunkLen;
        var block := if (layer, blockId) in gpuKvCache then gpuKvCache[(layer, blockId)] else ZeroBlock(bs, model.zero);
        gpuKvCache := gpuKvCache[(layer, blockId) := BlockData(
          UpdateBlockTensor(block.k, k[tStart..tEnd], startBlockOffset),
          UpdateBlockTensor(block.v, v[tStart..tEnd], startBlockOffset))];
        tStart := tEnd;
      }
    }

    /** Lays the active blocks out flat and cuts them to length; None for a block never written. */
    method ReadRows(layer: nat, table: seq<BlockId>, total: nat) returns (r: Option<KvRows<R>>)
      requires Valid()
      ensures r == Gather(gpuKvCache, layer, table, model.bs, total)
    {
      var active := Min(ActiveBlocks(model.bs, total), |table|);
      if active == 0 {
        return None;
      }
      var k: seq<R>, v: seq<R> := [], [];
      for i := 0 to active
        invariant Concat(gpuKvCache, layer, table[..i]) == Some((k, v))
      {
        assert table[..i + 1][..i] == table[..i];
        if (layer, table[i]) !in gpuKvCache {
          ConcatStops(gpuKvCache, layer, table, i + 1, active);
          return None;
        }
        var block := gpuKvCache[(layer, table[i])];
        k, v := k + block.k, v + block.v;
      }
      if total > |k| || total > |v| {
        return None;
      }
      r := Some((k[..total], v[..total]));
    }

    /** One row of the batch in one layer. */
    method Attend(layer: nat, table: seq<BlockId>, offset: nat, rows: KvRows<R>) returns (r: Option<KvRows<R>>)
      requires Valid() && |rows.0| == |rows.1|
      modifies this`gpuKvCache
      ensures Valid()
      ensures var a := AttendRow(model, old(gpuKvCache), layer, table, offset, rows);
        if r.Some? then a == Some((gpuKvCache, r.value)) else a == None
    {
      hide WriteFrom, Gather;
      if offset + |rows.0| > |table| * model.bs {
        return None;
      }
      if !model.meta.IsKvShared(layer) {
        WriteRows(layer, table, offset, rows.0, rows.1);
      }
      var srcLayer := model.meta.GetKvSourceLayer(layer);
      var history := ReadRows(srcLayer, table, offset + |rows.0|);
      if history.None? {
        return None;
      }
      var w := model.meta.SlidingWindowLen(layer);
      r := Some((Window(history.value.0, w), Window(history.value.1, w)));
    }

    /** All rows of the batch in one layer. */
    method AttendLayer(ghost kv: Kv<R>, l: nat, b: BatchInput, rows: PassRows<R>) returns (r: Option<seq<KvRows<R>>>)
      requires Valid() && |b.seqIds| == |b.blockTables| && seqLengths == kv.seqLens
      requires forall l, i :: |rows(l, i).0| == |rows(l, i).1|
      modifies this`gpuKvCache
      ensures Valid()
      ensures var a := AttendRows(model, kv, old(gpuKvCache), l, b, rows, |b.seqIds|);
        if r.Some? then a == Some((gpuKvCache, r.value)) else a == None
    {
      hide AttendRow;
      var out: seq<KvRows<R>> := [];
      for i := 0 to |b.seqIds|
        invariant Valid()
        invariant AttendRows(model, kv, old(gpuKvCache), l, b, rows, i) == Some((gpuKvCache, out))
      {
        var seen := Attend(l, b.blockTables[i], GetSeqLen(b.seqIds[i]), rows(l, i));
        if seen.None? {
          AttendStops(model, kv, old(gpuKvCache), l, b, rows, i + 1, |b.seqIds|);
          return None;
        }
        out := out + [seen.value];
      }
      r := Some(out);
    }

    method RecordLengths(b: BatchInput)
      requires BatchOk(b)
      modifies this`seqLengths
      ensures seqLengths == RecordLens(old(seqLengths), b, |b.seqIds|)
    {
      for i := 0 to |b.seqIds|
        invariant seqLengths == RecordLens(old(seqLengths), b, i)
      {
        seqLengths := seqLengths[b.seqIds[i] := GetSeqLen(b.seqIds[i]) + (b.cuSeqlens[i + 1] - b.cuSeqlens[i])];
      }
    }

    /** The attention part of a forward pass, layer by layer and row by row. */
    method ForwardPass(b: BatchInput, rows: PassRows<R>) returns (r: Option<seq<seq<KvRows<R>>>>)
      requires Valid() && BatchOk(b) && |b.seqIds| > 0
      requires forall l, i :: |rows(l, i).0| == |rows(l, i).1| == RowLen(b)
      modifies this
      ensures Valid()
      ensures var p := Pass(model, old(Abs()), b, rows);
        if r.Some? then p == Some((Abs(), r.value)) else p == None
    {
      hide AttendRows, RecordLens;
      ghost var kv := Abs();
      if |b.seqIds| * RowLen(b) != |b.tokenIds| {
        return None;
      }
      var outs: seq<seq<KvRows<R>>> := [];
      for l := 0 to model.meta.nLayers
        invariant Valid() && seqLengths == kv.seqLens
        invariant seqBlocks == if l > 0 then RecordTables(kv.seqBlocks, b, |b.seqIds|) else kv.seqBlocks
        invariant AttendLayers(model, kv, b, rows, l) == Some((gpuKvCache, outs))
      {
        RememberTables(b, kv.seqBlocks, l);
        var out := AttendLayer(kv, l, b, rows);
        if out.None? {
          LayersStop(model, kv, b, rows, l + 1, model.meta.nLayers);
          return None;
        }
        outs := outs + [out.value];
      }
      RecordLengths(b);
      r := Some(outs);
    }

    /** Every attention operator records the batch's tables; doing it again changes nothing. */
    method RememberTables(b: BatchInput, ghost was: map<SeqId, seq<BlockId>>, ghost l: nat)
      requires |b.seqIds| == |b.blockTables|
      requires seqBlocks == if l > 0 then RecordTables(was, b, |b.seqIds|) else was
      modifies this`seqBlocks
      ensures seqBlocks == RecordTables(was, b, |b.seqIds|)
    {
      for i := 0 to |b.seqIds|
        invariant seqBlocks == RecordTables(if l > 0 then RecordTables(was, b, |b.seqIds|) else was, b, i)
      {
        seqBlocks := seqBlocks[b.seqIds[i] := b.blockTables[i]];
      }
      if l > 0 {
        RecordTwice(was, b, |b.seqIds|);
      }
    }

    /** Forgets a finished sequence: its blocks, in every layer. */
    method ClearSequence(id: SeqId)
      requires Valid()
      modifies this`seqBlocks, this`gpuKvCache
      ensures Valid()
      ensures Abs() == KvPass.ClearSequence(model, old(Abs()), id)
    {
      if id !in seqBlocks {
        return;
      }
      var blocks := seqBlocks[id];
      seqBlocks := seqBlocks - {id};
      for layer := 0 to model.meta.nLayers
        invariant Valid() && seqBlocks == old(seqBlocks) - {id}
        invariant gpuKvCache == Without(old(gpuKvCache), layer, blocks, [])
      {
        for i := 0 to |blocks|
          invariant Valid() && seqBlocks == old(seqBlocks) - {id}
          invariant gpuKvCache == Without(old(gpuKvCache), layer, blocks, blocks[..i])
        {
          gpuKvCache := gpuKvCache - {(layer, blocks[i])};
          assert blocks[..i + 1] == blocks[..i] + [blocks[i]];
        }
        assert blocks[..|blocks|] == blocks;
        WithoutLayer(old(gpuKvCache), layer, blocks);
      }
      WithoutAll(model, old(Abs()), id);
    }
  }

  /** The cache without these blocks in the layers below l, and without some of them in layer l. */
  ghost function Without<R>(c: Cache<R>, l: nat, blocks: seq<BlockId>, some: seq<BlockId>): Cache<R> {
    map key | key in c && !(key.0 < l && key.1 in blocks) && !(key.0 == l && key.1 in some) :: c[key]
  }

  lemma WithoutLayer<R>(c: Cache<R>, l: nat, blocks: seq<BlockId>)
    ensures Without(c, l, blocks, blocks) == Without(c, l + 1, blocks, [])
  {
  }

  lemma WithoutAll<R>(m: Model<R>, kv: Kv<R>, id: SeqId)
    requires id in kv.seqBlocks
    ensures KvPass.ClearSequence(m, kv, id).cache == Without(kv.cache, m.meta.nLayers, kv.seqBlocks[id], [])
  {
  }

  lemma {:induction false} ConcatStops<R>(c: Cache<R>, layer: nat, table: seq<BlockId>, n: nat, m: nat)
    requires n <= m <= |table| && Concat(c, layer, table[..n]) == None
    ensures Concat(c, layer, table[..m]) == None
    decreases m
  {
    if n < m {
      ConcatStops(c, layer, table, n, m - 1);
      assert table[..m][..m - 1] == table[..m - 1];
    }
  }

  /** Recording the same tables again leaves the record as it is. */
  lemma RecordTwice(was: map<SeqId, seq<BlockId>>, b: BatchInput, n: nat)
    requires n == |b.seqIds| == |b.blockTables|
    ensures RecordTables(RecordTables(was, b, n), b, n) == RecordTables(was, b, n)
  {
    var once := RecordTables(was, b, n);
    RecordAgain(was, once, b, n);
    RecordAgain(once, was, b, n);
    assert RecordTables(once, b, n).Keys == once.Keys;
  }

  lemma {:induction false} RecordAgain(a: map<SeqId, seq<BlockId>>, c: map<SeqId, seq<BlockId>>, b: BatchInput, n: nat)
    requires n <= |b.seqIds| == |b.blockTables|
    ensures RecordTables(a, b, n).Keys == a.Keys + (set i | 0 <= i < n :: b.seqIds[i])
    ensures forall id :: id in RecordTables(a, b, n) && id in RecordTables(c, b, n) ==>
      RecordTables(a, b, n)[id] == RecordTables(c, b, n)[id]
        || (id in a && id in c && (forall i :: 0 <= i < n ==> b.seqIds[i] != id)
        && RecordTables(a, b, n)[id] == a[id] && RecordTables(c, b, n)[id] == c[id])
  {
    if n > 0 {
      RecordAgain(a, c, b, n - 1);
    }
  }
}

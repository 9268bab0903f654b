/**
 One forward pass over the paged cache: layer by layer and row by row, un-shared layers append
 their keys and values, every layer reads its source layer's history back.
 */
module KvPass {
  import opened Types
  import opened ModelMetas
  import opened SchedulerSpec
  import opened Blocks
  import opened PagedKv

  datatype Kv<R> = Kv(cache: Cache<R>, seqBlocks: map<SeqId, seq<BlockId>>, seqLens: map<SeqId, nat>) {
    /** Tokens processed so far; none for a sequence never seen. */
    function LenOf(id: SeqId): nat {
      if id in seqLens then seqLens[id] else 0
    }
  }

  type KvRows<R> = (seq<R>, seq<R>)

  /** The keys and values a pass computes for a layer and a row of the batch. */
  type PassRows<!R> = (nat, nat) -> KvRows<R>

  datatype Model<R> = Model(meta: ModelMeta, bs: nat, zero: R)

  // ------------------------------------------------------------------ the pass

  /** The cache of layer `layer` after row n: written if the layer has keys of its own. */
  function RowCache<R>(m: Model<R>, c: Cache<R>, layer: nat, table: seq<BlockId>, offset: nat, rows: KvRows<R>)
      : (r: Cache<R>)
    requires m.bs > 0 && Shaped(c, m.bs) && |rows.0| == |rows.1| && offset + |rows.0| <= |table| * m.bs
    ensures Shaped(r, m.bs)
  {
    if m.meta.IsKvShared(layer) then c
    else WriteFrom(c, layer, table, m.bs, m.zero, offset, rows.0, rows.1, 0)
  }

  /** One row in one layer: write unless the layer is shared, then read the source layer. */
  function AttendRow<R>(m: Model<R>, c: Cache<R>, layer: nat, table: seq<BlockId>, offset: nat, rows: KvRows<R>)
      : (r: Option<(Cache<R>, KvRows<R>)>)
    requires m.bs > 0 && Shaped(c, m.bs) && |rows.0| == |rows.1|
    ensures r.Some? ==> Shaped(r.value.0, m.bs)
  {
    if offset + |rows.0| > |table| * m.bs then None
    else
      var c' := RowCache(m, c, layer, table, offset, rows);
      match Gather(c', m.meta.KvSourceLayer(layer), table, m.bs, offset + |rows.0|)
      case None => None
      case Some((k, v)) =>
        var w := m.meta.SlidingWindowLen(layer);
        Some((c', (Window(k, w), Window(v, w))))
  }

  /** The first n rows of the batch in this layer. */
  function AttendRows<R>(m: Model<R>, kv: Kv<R>, c: Cache<R>, layer: nat, b: BatchInput, rows: PassRows<R>, n: nat)
      : (r: Option<(Cache<R>, seq<KvRows<R>>)>)
    requires m.bs > 0 && Shaped(c, m.bs) && n <= |b.seqIds| == |b.blockTables|
    requires forall l, i :: |rows(l, i).0| == |rows(l, i).1|
    ensures r.Some? ==> Shaped(r.value.0, m.bs) && |r.value.1| == n
  {
    if n == 0 then Some((c, []))
    else match AttendRows(m, kv, c, layer, b, rows, n - 1)
      case None => None
      case Some((c', outs)) =>
        match AttendRow(m, c', layer, b.blockTables[n - 1], kv.LenOf(b.seqIds[n - 1]), rows(layer, n - 1))
        case None => None
        case Some((c'', out)) => Some((c'', outs + [out]))
  }

  /** The first l layers. */
  function AttendLayers<R>(m: Model<R>, kv: Kv<R>, b: BatchInput, rows: PassRows<R>, l: nat)
      : (r: Option<(Cache<R>, seq<seq<KvRows<R>>>)>)
    requires m.bs > 0 && Shaped(kv.cache, m.bs) && |b.seqIds| == |b.blockTables|
    requires forall l, i :: |rows(l, i).0| == |rows(l, i).1|
    ensures r.Some? ==> Shaped(r.value.0, m.bs) && |r.value.1| == l
  {
    if l == 0 then Some((kv.cache, []))
    else match AttendLayers(m, kv, b, rows, l - 1)
      case None => None
      case Some((c, outs)) =>
        match AttendRows(m, kv, c, l - 1, b, rows, |b.seqIds|)
        case None => None
        case Some((c', out)) => Some((c', outs + [out]))
  }

  /** Each sequence's block table as of this pass. */
  function RecordTables(m: map<SeqId, seq<BlockId>>, b: BatchInput, n: nat): map<SeqId, seq<BlockId>>
    requires n <= |b.seqIds| == |b.blockTables|
  {
    if n == 0 then m else RecordTables(m, b, n - 1)[b.seqIds[n - 1] := b.blockTables[n - 1]]
  }

  /** Adds each row's token count, as told by the cumulative lengths. */
  function RecordLens(lens: map<SeqId, nat>, b: BatchInput, n: nat): map<SeqId, nat>
    requires n <= |b.seqIds| && |b.cuSeqlens| == |b.seqIds| + 1
    requires forall i :: 0 <= i < |b.seqIds| ==> b.cuSeqlens[i] <= b.cuSeqlens[i + 1]
  {
    if n == 0 then lens
    else
      var m := RecordLens(lens, b, n - 1);
      var id := b.seqIds[n - 1];
      m[id := (if id in m then m[id] else 0) + (b.cuSeqlens[n] - b.cuSeqlens[n - 1])]
  }

  ghost predicate BatchOk(b: BatchInput) {
    && |b.seqIds| == |b.blockTables| && |b.cuSeqlens| == |b.seqIds| + 1
    && forall i :: 0 <= i < |b.seqIds| ==> b.cuSeqlens[i] <= b.cuSeqlens[i + 1]
  }

  /** The common row length the token list is reshaped to. */
  function RowLen(b: BatchInput): nat
    requires |b.seqIds| > 0
  {
    |b.tokenIds| / |b.seqIds|
  }

  /** The reshape to equal rows succeeds. */
  predicate Reshapes(b: BatchInput)
    requires |b.seqIds| > 0
  {
    |b.seqIds| * RowLen(b) == |b.tokenIds|
  }

  /** The whole pass; None is the error result. */
  function Pass<R>(m: Model<R>, kv: Kv<R>, b: BatchInput, rows: PassRows<R>): Option<(Kv<R>, seq<seq<KvRows<R>>>)>
    requires m.bs > 0 && Shaped(kv.cache, m.bs) && BatchOk(b) && |b.seqIds| > 0
    requires forall l, i :: |rows(l, i).0| == |rows(l, i).1| == RowLen(b)
  {
    if !Reshapes(b) then None
    else match AttendLayers(m, kv, b, rows, m.meta.nLayers)
      case None => None
      case Some((c, outs)) =>
        var blocks := if m.meta.nLayers > 0 then RecordTables(kv.seqBlocks, b, |b.seqIds|) else kv.seqBlocks;
        Some((Kv(c, blocks, RecordLens(kv.seqLens, b, |b.seqIds|)), outs))
  }

  // ------------------------------------------------------------------ errors end the pass

  lemma AttendStop<R>(m: Model<R>, kv: Kv<R>, c: Cache<R>, layer: nat, b: BatchInput, rows: PassRows<R>, k: nat)
    requires m.bs > 0 && Shaped(c, m.bs) && 0 < k <= |b.seqIds| == |b.blockTables|
    requires forall l, i :: |rows(l, i).0| == |rows(l, i).1|
    requires AttendRows(m, kv, c, layer, b, rows, k - 1) == None
    ensures AttendRows(m, kv, c, layer, b, rows, k) == None
  {
    hide AttendRow, Kv.LenOf;
  }

  lemma LayerStop<R>(m: Model<R>, kv: Kv<R>, b: BatchInput, rows: PassRows<R>, k: nat)
    requires m.bs > 0 && Shaped(kv.cache, m.bs) && |b.seqIds| == |b.blockTables| && 0 < k
    requires forall l, i :: |rows(l, i).0| == |rows(l, i).1|
    requires AttendLayers(m, kv, b, rows, k - 1) == None
    ensures AttendLayers(m, kv, b, rows, k) == None
  {
    hide AttendRows;
  }

  lemma {:induction false} AttendStops<R>(m: Model<R>, kv: Kv<R>, c: Cache<R>, layer: nat, b: BatchInput,
                                          rows: PassRows<R>, n: nat, k: nat)
    requires m.bs > 0 && Shaped(c, m.bs) && n <= k <= |b.seqIds| == |b.blockTables|
    requires forall l, i :: |rows(l, i).0| == |rows(l, i).1|
    requires AttendRows(m, kv, c, layer, b, rows, n) == None
    ensures AttendRows(m, kv, c, layer, b, rows, k) == None
    decreases k
  {
    hide AttendRows, Shaped;
    if n < k {
      AttendStops(m, kv, c, layer, b, rows, n, k - 1);
      AttendStop(m, kv, c, layer, b, rows, k);
    }
  }

  lemma {:induction false} LayersStop<R>(m: Model<R>, kv: Kv<R>, b: BatchInput, rows: PassRows<R>, n: nat, k: nat)
    requires m.bs > 0 && Shaped(kv.cache, m.bs) && |b.seqIds| == |b.blockTables| && n <= k
    requires forall l, i :: |rows(l, i).0| == |rows(l, i).1|
    requires AttendLayers(m, kv, b, rows, n) == None
    ensures AttendLayers(m, kv, b, rows, k) == None
    decreases k
  {
    hide AttendLayers, Shaped;
    if n < k {
      LayersStop(m, kv, b, rows, n, k - 1);
      LayerStop(m, kv, b, rows, k);
    }
  }

  // ------------------------------------------------------------------ forgetting

  /** Forgets a finished sequence's blocks in every layer; its length stays on record. */
  function ClearSequence<R>(m: Model<R>, kv: Kv<R>, id: SeqId): Kv<R> {
    if id !in kv.seqBlocks then kv
    else
      var blocks := kv.seqBlocks[id];
      kv.(seqBlocks := kv.seqBlocks - {id},
          cache := map key | key in kv.cache && !(key.0 < m.meta.nLayers && key.1 in blocks) :: kv.cache[key])
  }

  /** After forgetting a sequence none of its blocks is left in any layer; nothing else has changed. */
  lemma ClearForgets<R>(m: Model<R>, kv: Kv<R>, id: SeqId, l: nat, b: BlockId)
    ensures var r := ClearSequence(m, kv, id);
      && id !in r.seqBlocks && r.seqLens == kv.seqLens
      && (forall other :: other != id ==>
            (other in r.seqBlocks <==> other in kv.seqBlocks)
            && (other in r.seqBlocks ==> r.seqBlocks[other] == kv.seqBlocks[other]))
      && ((l, b) in r.cache <==>
            (l, b) in kv.cache && !(id in kv.seqBlocks && b in kv.seqBlocks[id] && l < m.meta.nLayers))
      && ((l, b) in r.cache ==> r.cache[(l, b)] == kv.cache[(l, b)])
  {
  }

  // ------------------------------------------------------------------ what a pass keeps

  /** All rows ever appended, by layer and sequence. */
  type History<R> = map<(nat, SeqId), KvRows<R>>

  function Past<R>(h: History<R>, layer: nat, id: SeqId): KvRows<R> {
    if (layer, id) in h then h[(layer, id)] else ([], [])
  }

  function Plus<R>(a: KvRows<R>, b: KvRows<R>): KvRows<R> {
    (a.0 + b.0, a.1 + b.1)
  }

  /** Tables that share no block and repeat none. */
  ghost predicate Apart(tables: seq<seq<BlockId>>) {
    && (forall i :: 0 <= i < |tables| ==> NoDup(tables[i]))
    && forall i, j :: 0 <= i < |tables| && 0 <= j < |tables| && i != j ==>
         forall b :: b in tables[i] ==> b !in tables[j]
  }

  /** What sequence i should read in layer l after n rows of layer `layer`. */
  ghost function Expected<R>(h: History<R>, b: BatchInput, rows: PassRows<R>, layer: nat, n: nat, l: nat, i: nat)
      : KvRows<R>
    requires i < |b.seqIds|
  {
    var past := Past(h, l, b.seqIds[i]);
    if l < layer || (l == layer && i < n) then Plus(past, rows(l, i)) else past
  }

  ghost predicate RowReads<R>(m: Model<R>, c: Cache<R>, h: History<R>, b: BatchInput, rows: PassRows<R>, layer: nat,
                              n: nat, l: nat, i: nat)
    requires m.bs > 0 && Shaped(c, m.bs) && i < |b.seqIds| == |b.blockTables|
  {
    var e := Expected(h, b, rows, layer, n, l, i);
    Reads(c, l, b.blockTables[i], m.bs, e.0, e.1)
  }

  /** Every un-shared layer reads, for every row, what it should at this point of the pass. */
  ghost predicate At<R>(m: Model<R>, c: Cache<R>, h: History<R>, b: BatchInput, rows: PassRows<R>, layer: nat, n: nat)
    requires m.bs > 0 && Shaped(c, m.bs) && |b.seqIds| == |b.blockTables|
  {
    forall l, i :: 0 <= l < m.meta.nLayers && !m.meta.IsKvShared(l) && 0 <= i < |b.seqIds| ==>
      RowReads(m, c, h, b, rows, layer, n, l, i)
  }

  /** The histories of the batch are as long as the lengths on record, in every un-shared layer. */
  ghost predicate LensAgree<R>(m: Model<R>, kv: Kv<R>, h: History<R>, b: BatchInput) {
    forall l, i :: 0 <= l < m.meta.nLayers && !m.meta.IsKvShared(l) && 0 <= i < |b.seqIds| ==>
      |Past(h, l, b.seqIds[i]).0| == |Past(h, l, b.seqIds[i]).1| == kv.LenOf(b.seqIds[i])
  }

  /** What the caller of a pass provides: disjoint tables with room for the new rows. */
  ghost predicate Prepared<R>(m: Model<R>, kv: Kv<R>, b: BatchInput, rowLen: nat) {
    && m.bs > 0 && |b.seqIds| == |b.blockTables| && Apart(b.blockTables) && rowLen > 0
    && m.meta.FirstShared() > 0
    && forall i :: 0 <= i < |b.seqIds| ==> kv.LenOf(b.seqIds[i]) + rowLen <= |b.blockTables[i]| * m.bs
  }

  ghost predicate UniformRows<R(!new)>(rows: PassRows<R>, rowLen: nat) {
    forall l, i :: |rows(l, i).0| == |rows(l, i).1| == rowLen
  }

  /** Row n of layer `layer`: appends for itself and disturbs nobody else. */
  lemma RowStep<R(!new)>(m: Model<R>, kv: Kv<R>, c: Cache<R>, h: History<R>, b: BatchInput, rows: PassRows<R>,
                         rowLen: nat, layer: nat, n: nat)
    requires Prepared(m, kv, b, rowLen) && UniformRows(rows, rowLen) && LensAgree(m, kv, h, b)
    requires layer < m.meta.nLayers && n < |b.seqIds| && Shaped(c, m.bs) && At(m, c, h, b, rows, layer, n)
    ensures var r := AttendRow(m, c, layer, b.blockTables[n], kv.LenOf(b.seqIds[n]), rows(layer, n));
      var src := m.meta.KvSourceLayer(layer);
      var w := m.meta.SlidingWindowLen(layer);
      var whole := Plus(Past(h, src, b.seqIds[n]), rows(src, n));
      && r.Some? && At(m, r.value.0, h, b, rows, layer, n + 1)
      && r.value.1 == (Window(whole.0, w), Window(whole.1, w))
  {
    hide RowCache, Gather, Window, ModelMeta.KvSourceLayer, ModelMeta.IsKvShared, ModelMeta.SlidingWindowLen;
    var table, offset := b.blockTables[n], kv.LenOf(b.seqIds[n]);
    var c' := RowCache(m, c, layer, table, offset, rows(layer, n));
    AtNext(m, kv, c, c', h, b, rows, rowLen, layer, n);
    SourceReads(m, kv, c', h, b, rows, rowLen, layer, n);
    hide Apart, At, Shaped;
  }

  /** The source layer reads as the row's history with its new rows. */
  lemma SourceReads<R(!new)>(m: Model<R>, kv: Kv<R>, c: Cache<R>, h: History<R>, b: BatchInput, rows: PassRows<R>,
                             rowLen: nat, layer: nat, n: nat)
    requires Prepared(m, kv, b, rowLen) && UniformRows(rows, rowLen) && LensAgree(m, kv, h, b)
    requires layer < m.meta.nLayers && n < |b.seqIds| && Shaped(c, m.bs) && At(m, c, h, b, rows, layer, n + 1)
    ensures var src := m.meta.KvSourceLayer(layer);
      var whole := Plus(Past(h, src, b.seqIds[n]), rows(src, n));
      Gather(c, src, b.blockTables[n], m.bs, kv.LenOf(b.seqIds[n]) + rowLen) == Some(whole)
  {
    hide Apart;
    var src := m.meta.KvSourceLayer(layer);
    if m.meta.IsKvShared(layer) {
      m.meta.KvSource(layer);
    }
    assert RowReads(m, c, h, b, rows, layer, n + 1, src, n);
    var whole := Plus(Past(h, src, b.seqIds[n]), rows(src, n));
    GatherReads(c, src, b.blockTables[n], m.bs, whole.0, whole.1);
  }

  lemma AtNext<R(!new)>(m: Model<R>, kv: Kv<R>, c: Cache<R>, c': Cache<R>, h: History<R>, b: BatchInput,
                        rows: PassRows<R>, rowLen: nat, layer: nat, n: nat)
    requires Prepared(m, kv, b, rowLen) && UniformRows(rows, rowLen) && LensAgree(m, kv, h, b)
    requires layer < m.meta.nLayers && n < |b.seqIds| && Shaped(c, m.bs) && At(m, c, h, b, rows, layer, n)
    requires c' == RowCache(m, c, layer, b.blockTables[n], kv.LenOf(b.seqIds[n]), rows(layer, n))
    ensures At(m, c', h, b, rows, layer, n + 1)
  {
    var next := n + 1;
    forall l, i | 0 <= l < m.meta.nLayers && !m.meta.IsKvShared(l) && 0 <= i < |b.seqIds|
      ensures RowReads(m, c', h, b, rows, layer, next, l, i)
    {
      assert RowReads(m, c, h, b, rows, layer, n, l, i);
      if !m.meta.IsKvShared(layer) {
        WrittenRow(m, kv, c, h, b, rows, rowLen, layer, n, l, i);
      }
    }
  }

  lemma WrittenRow<R(!new)>(m: Model<R>, kv: Kv<R>, c: Cache<R>, h: History<R>, b: BatchInput, rows: PassRows<R>,
                            rowLen: nat, layer: nat, n: nat, l: nat, i: nat)
    requires Prepared(m, kv, b, rowLen) && UniformRows(rows, rowLen) && LensAgree(m, kv, h, b)
    requires layer < m.meta.nLayers && !m.meta.IsKvShared(layer) && n < |b.seqIds| && Shaped(c, m.bs)
    requires l < m.meta.nLayers && !m.meta.IsKvShared(l) && i < |b.seqIds|
    requires RowReads(m, c, h, b, rows, layer, n, l, i)
    ensures RowReads(m, WriteFrom(c, layer, b.blockTables[n], m.bs, m.zero, kv.LenOf(b.seqIds[n]),
                                  rows(layer, n).0, rows(layer, n).1, 0),
                     h, b, rows, layer, n + 1, l, i)
  {
    var table, offset := b.blockTables[n], kv.LenOf(b.seqIds[n]);
    var (k, v) := rows(layer, n);
    var e := Expected(h, b, rows, layer, n, l, i);
    if l == layer && i == n {
      WriteAppends(c, layer, table, m.bs, m.zero, e.0, e.1, k, v);
    } else {
      WriteSpares(c, layer, table, m.bs, m.zero, offset, k, v, l, b.blockTables[i], e.0, e.1);
    }
  }

  // ------------------------------------------------------------------ whole passes

  /** What row i of layer l gets to see: its source layer's whole history, cut to the window. */
  ghost function Sees<R>(m: Model<R>, h: History<R>, b: BatchInput, rows: PassRows<R>, l: nat, i: nat): KvRows<R>
    requires i < |b.seqIds|
  {
    var src, w := m.meta.KvSourceLayer(l), m.meta.SlidingWindowLen(l);
    var whole := Plus(Past(h, src, b.seqIds[i]), rows(src, i));
    (Window(whole.0, w), Window(whole.1, w))
  }

  /** Moving on to the next layer, or starting at the first, changes nothing expected. */
  lemma AtNextLayer<R>(m: Model<R>, c: Cache<R>, h: History<R>, b: BatchInput, rows: PassRows<R>, layer: nat)
    requires m.bs > 0 && Shaped(c, m.bs) && |b.seqIds| == |b.blockTables|
    requires At(m, c, h, b, rows, layer, |b.seqIds|)
    ensures At(m, c, h, b, rows, layer + 1, 0)
  {
    var next := layer + 1;
    forall l, i | 0 <= l < m.meta.nLayers && !m.meta.IsKvShared(l) && 0 <= i < |b.seqIds|
      ensures RowReads(m, c, h, b, rows, next, 0, l, i)
    {
      assert RowReads(m, c, h, b, rows, layer, |b.seqIds|, l, i);
      assert Expected(h, b, rows, layer + 1, 0, l, i) == Expected(h, b, rows, layer, |b.seqIds|, l, i);
    }
  }

  lemma {:induction false} RowsOk<R(!new)>(m: Model<R>, kv: Kv<R>, c: Cache<R>, h: History<R>, b: BatchInput,
                                           rows: PassRows<R>, rowLen: nat, layer: nat, n: nat)
    requires Prepared(m, kv, b, rowLen) && UniformRows(rows, rowLen) && LensAgree(m, kv, h, b)
    requires layer < m.meta.nLayers && n <= |b.seqIds| && Shaped(c, m.bs) && At(m, c, h, b, rows, layer, 0)
    ensures var r := AttendRows(m, kv, c, layer, b, rows, n);
      && r.Some? && At(m, r.value.0, h, b, rows, layer, n) && |r.value.1| == n
      && forall i :: 0 <= i < n ==> r.value.1[i] == Sees(m, h, b, rows, layer, i)
    decreases n
  {
    hide At, LensAgree, Window, AttendRow;
    if n > 0 {
      RowsOk(m, kv, c, h, b, rows, rowLen, layer, n - 1);
      var (c', outs) := AttendRows(m, kv, c, layer, b, rows, n - 1).value;
      RowStep(m, kv, c', h, b, rows, rowLen, layer, n - 1);
    }
  }

  /** Row i of layer l saw the newest rows of its source layer's history, its own new ones included. */
  ghost predicate SawNewest<R>(m: Model<R>, h: History<R>, b: BatchInput, rows: PassRows<R>, l: nat, i: nat,
                               seen: KvRows<R>)
    requires i < |b.seqIds|
  {
    var src, w := m.meta.KvSourceLayer(l), m.meta.SlidingWindowLen(l);
    var whole := Plus(Past(h, src, b.seqIds[i]), rows(src, i));
    Newest(whole.0, w, seen.0) && Newest(whole.1, w, seen.1)
  }

  lemma SeesNewest<R>(m: Model<R>, h: History<R>, b: BatchInput, rows: PassRows<R>, l: nat, i: nat)
    requires i < |b.seqIds|
    ensures SawNewest(m, h, b, rows, l, i, Sees(m, h, b, rows, l, i))
  {
    hide Window, Newest;
  }

  /** With a window of at least one, the last row seen is the newest of the pass. */
  lemma NewestIsSeen<R>(m: Model<R>, h: History<R>, b: BatchInput, rows: PassRows<R>, l: nat, i: nat, seen: KvRows<R>)
    requires i < |b.seqIds| && SawNewest(m, h, b, rows, l, i, seen)
    requires m.meta.SlidingWindowLen(l) != Some(0)
    ensures var (k, v) := rows(m.meta.KvSourceLayer(l), i);
      && (|k| > 0 ==> |seen.0| > 0 && seen.0[|seen.0| - 1] == k[|k| - 1])
      && (|v| > 0 ==> |seen.1| > 0 && seen.1[|seen.1| - 1] == v[|v| - 1])
  {
    hide ModelMeta.SlidingWindowLen, ModelMeta.KvSourceLayer;
  }

  /** These are the keys and values each row of these layers gets to see. */
  ghost predicate SeenBy<R>(m: Model<R>, h: History<R>, b: BatchInput, rows: PassRows<R>, outs: seq<seq<KvRows<R>>>) {
    && (forall k :: 0 <= k < |outs| ==> |outs[k]| == |b.seqIds|)
    && forall k, i :: 0 <= k < |outs| && 0 <= i < |b.seqIds| ==> SawNewest(m, h, b, rows, k, i, outs[k][i])
  }

  lemma {:induction false} LayersOk<R(!new)>(m: Model<R>, kv: Kv<R>, h: History<R>, b: BatchInput, rows: PassRows<R>,
                                             rowLen: nat, l: nat)
    requires Prepared(m, kv, b, rowLen) && UniformRows(rows, rowLen) && LensAgree(m, kv, h, b)
    requires l <= m.meta.nLayers && Shaped(kv.cache, m.bs) && At(m, kv.cache, h, b, rows, 0, 0)
    ensures var r := AttendLayers(m, kv, b, rows, l);
      && r.Some? && At(m, r.value.0, h, b, rows, l, 0)
      && SeenBy(m, h, b, rows, r.value.1)
    decreases l
  {
    hide At, LensAgree, Sees, SawNewest, AttendRows;
    if l > 0 {
      LayersOk(m, kv, h, b, rows, rowLen, l - 1);
      var (c, outs) := AttendLayers(m, kv, b, rows, l - 1).value;
      RowsOk(m, kv, c, h, b, rows, rowLen, l - 1, |b.seqIds|);
      var (c', out) := AttendRows(m, kv, c, l - 1, b, rows, |b.seqIds|).value;
      AtNextLayer(m, c', h, b, rows, l - 1);
      assert AttendLayers(m, kv, b, rows, l) == Some((c', outs + [out]));
      forall i | 0 <= i < |b.seqIds|
        ensures SawNewest(m, h, b, rows, l - 1, i, out[i])
      {
        SeesNewest(m, h, b, rows, l - 1, i);
      }
      assert SeenBy(m, h, b, rows, outs + [out]);
    }
  }

  /** The history with a pass's rows appended. */
  ghost function Appended<R>(m: Model<R>, h: History<R>, b: BatchInput, rows: PassRows<R>): History<R>
    requires forall i, j :: 0 <= i < j < |b.seqIds| ==> b.seqIds[i] != b.seqIds[j]
  {
    map key | key in h.Keys + Touched(m, b) ::
      if exists i :: 0 <= i < |b.seqIds| && b.seqIds[i] == key.1
      then var i :| 0 <= i < |b.seqIds| && b.seqIds[i] == key.1; Plus(Past(h, key.0, key.1), rows(key.0, i))
      else Past(h, key.0, key.1)
  }

  ghost function Touched<R>(m: Model<R>, b: BatchInput): set<(nat, SeqId)> {
    set l, i | 0 <= l < m.meta.nLayers && 0 <= i < |b.seqIds| :: (l, b.seqIds[i])
  }

  lemma AppendedPast<R>(m: Model<R>, h: History<R>, b: BatchInput, rows: PassRows<R>, l: nat, i: nat)
    requires forall i, j :: 0 <= i < j < |b.seqIds| ==> b.seqIds[i] != b.seqIds[j]
    requires l < m.meta.nLayers && i < |b.seqIds|
    ensures Past(Appended(m, h, b, rows), l, b.seqIds[i]) == Plus(Past(h, l, b.seqIds[i]), rows(l, i))
  {
    assert (l, b.seqIds[i]) in Touched(m, b);
  }

  // ------------------------------------------------------------------ equal rows

  /** How many tokens row i has, and which, by the cumulative lengths. */
  function OwnLen(b: BatchInput, i: nat): nat
    requires BatchOk(b) && i < |b.seqIds|
  {
    b.cuSeqlens[i + 1] - b.cuSeqlens[i]
  }

  function OwnTokens(b: BatchInput, i: nat): (r: seq<TokenId>)
    requires Packed(b) && i < |b.seqIds|
    ensures |r| == OwnLen(b, i)
  {
    CutsWithin(b.cuSeqlens, i + 1, |b.seqIds|);
    b.tokenIds[b.cuSeqlens[i]..b.cuSeqlens[i + 1]]
  }

  /** All rows of the batch have the same length. */
  ghost predicate Uniform(b: BatchInput)
    requires BatchOk(b)
  {
    forall i, j :: 0 <= i < |b.seqIds| && 0 <= j < |b.seqIds| ==> OwnLen(b, i) == OwnLen(b, j)
  }

  /** Row i as the reshape cuts it. */
  function ReshapedRow(b: BatchInput, i: nat): (r: seq<TokenId>)
    requires i < |b.seqIds| && Reshapes(b)
    ensures |r| == RowLen(b)
  {
    RowFits(i, |b.seqIds|, RowLen(b));
    b.tokenIds[i * RowLen(b)..i * RowLen(b) + RowLen(b)]
  }

  lemma RowFits(i: nat, n: nat, len: nat)
    requires i < n
    ensures i * len + len <= n * len
  {
    FactorLe(i + 1, n, len);
    assert (i + 1) * len == i * len + len;
  }

  lemma {:induction false} EvenCuts(b: BatchInput, len: nat, i: nat)
    requires Packed(b) && i <= |b.seqIds|
    requires forall j :: 0 <= j < |b.seqIds| ==> OwnLen(b, j) == len
    ensures b.cuSeqlens[i] == i * len
  {
    if i > 0 {
      EvenCuts(b, len, i - 1);
      assert OwnLen(b, i - 1) == len;
      assert i * len == (i - 1) * len + len;
    }
  }

  /** A batch packed by the scheduler: the cumulative lengths start at 0 and cover the tokens. */
  ghost predicate Packed(b: BatchInput) {
    BatchOk(b) && b.cuSeqlens[0] == 0 && b.cuSeqlens[|b.seqIds|] == |b.tokenIds|
  }

  lemma {:induction false} CutsWithin(cu: seq<nat>, i: nat, j: nat)
    requires i <= j < |cu| && forall k :: 0 <= k < |cu| - 1 ==> cu[k] <= cu[k + 1]
    ensures cu[i] <= cu[j]
    decreases j
  {
    if i < j {
      CutsWithin(cu, i, j - 1);
    }
  }

  /**
   The backend reshapes the token list to rows of equal length and ignores the cumulative
   lengths there.  It succeeds and gives every sequence its own tokens if and only if all rows
   of the batch have the same length.
   */
  lemma ReshapeRight(b: BatchInput)
    requires Packed(b) && |b.seqIds| > 0
    ensures Uniform(b) <==>
      Reshapes(b) && forall i :: 0 <= i < |b.seqIds| ==> ReshapedRow(b, i) == OwnTokens(b, i)
  {
    hide RowLen;
    if Uniform(b) {
      UniformReshapes(b, OwnLen(b, 0));
    } else if Reshapes(b) {
      var i, j :| 0 <= i < |b.seqIds| && 0 <= j < |b.seqIds| && OwnLen(b, i) != OwnLen(b, j);
      assert |ReshapedRow(b, i)| == |ReshapedRow(b, j)| == RowLen(b);
    }
  }

  lemma UniformReshapes(b: BatchInput, len: nat)
    requires Packed(b) && |b.seqIds| > 0
    requires forall j :: 0 <= j < |b.seqIds| ==> OwnLen(b, j) == len
    ensures RowLen(b) == len && Reshapes(b)
    ensures forall i :: 0 <= i < |b.seqIds| ==> ReshapedRow(b, i) == OwnTokens(b, i)
  {
    EvenCuts(b, len, |b.seqIds|);
    Quotient(|b.seqIds|, len);
    hide RowLen;
    forall i | 0 <= i < |b.seqIds|
      ensures ReshapedRow(b, i) == OwnTokens(b, i)
    {
      EvenCuts(b, len, i);
      EvenCuts(b, len, i + 1);
      assert (i + 1) * len == i * len + len;
    }
  }

  lemma Quotient(n: nat, len: nat)
    requires n > 0
    ensures n * len / n == len
  {
    BlockIs(n, n * len, len);
    assert BlockOf(n, n * len) == len;
  }

  /** A decode row of one token next to a prefill row of three is cut into two rows of two. */
  lemma MixedBatchIsMisread()
    ensures var b := BatchInput([1, 2], [7, 10, 11, 12], [0, 1, 4], [[0], [1]], [false, true]);
      Packed(b) && Reshapes(b) && ReshapedRow(b, 0) == [7, 10] && OwnTokens(b, 0) == [7]
  {
    var b := BatchInput([1, 2], [7, 10, 11, 12], [0, 1, 4], [[0], [1]], [false, true]);
    assert RowLen(b) == 2;
    assert b.cuSeqlens[0] == 0 && b.cuSeqlens[1] == 1 && b.cuSeqlens[2] == 4;
    assert b.tokenIds[0..2] == [7, 10] && b.tokenIds[0..1] == [7];
  }

  /** A pass over rows of no tokens, of which the first is new, fails: there is no block to read. */
  lemma EmptyRowsFail<R>(m: Model<R>, kv: Kv<R>, b: BatchInput, rows: PassRows<R>)
    requires m.bs > 0 && Shaped(kv.cache, m.bs) && BatchOk(b) && |b.seqIds| > 0 && m.meta.nLayers > 0
    requires forall l, i :: |rows(l, i).0| == |rows(l, i).1| == RowLen(b)
    requires RowLen(b) == 0 && kv.LenOf(b.seqIds[0]) == 0
    ensures Pass(m, kv, b, rows) == None
  {
    assert AttendRows(m, kv, kv.cache, 0, b, rows, 0) == Some((kv.cache, []));
    EmptyRowFails(m, kv.cache, 0, b.blockTables[0], rows(0, 0));
    assert AttendRows(m, kv, kv.cache, 0, b, rows, 1) == None;
    AttendStops(m, kv, kv.cache, 0, b, rows, 1, |b.seqIds|);
    assert AttendLayers(m, kv, b, rows, 0) == Some((kv.cache, []));
    assert AttendLayers(m, kv, b, rows, 1) == None;
    LayersStop(m, kv, b, rows, 1, m.meta.nLayers);
  }

  lemma EmptyRowFails<R>(m: Model<R>, c: Cache<R>, layer: nat, table: seq<BlockId>, rows: KvRows<R>)
    requires m.bs > 0 && Shaped(c, m.bs) && |rows.0| == |rows.1| == 0
    ensures AttendRow(m, c, layer, table, 0, rows) == None
  {
    hide RowCache;
    BlockIs(m.bs, m.bs - 1, 0);
    assert ActiveBlocks(m.bs, 0) == BlockOf(m.bs, m.bs - 1);
  }

  // ------------------------------------------------------------------ the pass as a whole

  ghost predicate DistinctBatch(b: BatchInput) {
    forall i, j :: 0 <= i < j < |b.seqIds| ==> b.seqIds[i] != b.seqIds[j]
  }

  /** What is recorded for one id after n rows: its row's tokens are added, if its row is among them. */
  lemma {:induction false} LenRecorded(lens: map<SeqId, nat>, b: BatchInput, n: nat, i: nat)
    requires BatchOk(b) && DistinctBatch(b) && n <= |b.seqIds| && i < |b.seqIds|
    ensures var m, id := RecordLens(lens, b, n), b.seqIds[i];
      var was := if id in lens then lens[id] else 0;
      if i < n then id in m && m[id] == was + OwnLen(b, i)
      else (id in m <==> id in lens) && (id in m ==> m[id] == lens[id])
  {
    if n > 0 {
      LenRecorded(lens, b, n - 1, i);
    }
  }

  lemma {:induction false} LenUntouched(lens: map<SeqId, nat>, b: BatchInput, n: nat, id: SeqId)
    requires BatchOk(b) && n <= |b.seqIds| && id !in b.seqIds
    ensures var m := RecordLens(lens, b, n); (id in m <==> id in lens) && (id in m ==> m[id] == lens[id])
  {
    if n > 0 {
      LenUntouched(lens, b, n - 1, id);
    }
  }

  lemma {:induction false} TablesRecorded(m0: map<SeqId, seq<BlockId>>, b: BatchInput, n: nat)
    requires |b.seqIds| == |b.blockTables| && DistinctBatch(b) && n <= |b.seqIds|
    ensures var m := RecordTables(m0, b, n);
      forall i :: 0 <= i < n ==> b.seqIds[i] in m && m[b.seqIds[i]] == b.blockTables[i]
  {
    if n > 0 {
      TablesRecorded(m0, b, n - 1);
    }
  }

  /** Everything a pass needs to start from. */
  ghost predicate Consistent<R(!new)>(m: Model<R>, kv: Kv<R>, h: History<R>, b: BatchInput, rows: PassRows<R>) {
    && Packed(b) && |b.seqIds| > 0 && DistinctBatch(b) && Uniform(b)
    && Prepared(m, kv, b, RowLen(b)) && UniformRows(rows, RowLen(b)) && LensAgree(m, kv, h, b)
    && Shaped(kv.cache, m.bs) && At(m, kv.cache, h, b, rows, 0, 0)
  }

  /**
   The pass succeeds, every row of every layer sees its source layer's whole history including
   the new rows, or the newest of it within the layer's window, and what is cached afterwards is
   the appended history.
   */
  lemma PassAppends<R(!new)>(m: Model<R>, kv: Kv<R>, h: History<R>, b: BatchInput, rows: PassRows<R>)
    requires Consistent(m, kv, h, b, rows)
    ensures var r := Pass(m, kv, b, rows);
      && r.Some? && Shaped(r.value.0.cache, m.bs)
      && |r.value.1| == m.meta.nLayers && SeenBy(m, h, b, rows, r.value.1)
      && At(m, r.value.0.cache, h, b, rows, m.meta.nLayers, 0)
  {
    ReshapeRight(b);
    LayersOk(m, kv, h, b, rows, RowLen(b), m.meta.nLayers);
  }

  /** What the pass records: each row's length grown by its tokens, and its table. */
  lemma PassRecords<R(!new)>(m: Model<R>, kv: Kv<R>, b: BatchInput, rows: PassRows<R>)
    requires m.bs > 0 && Shaped(kv.cache, m.bs) && BatchOk(b) && |b.seqIds| > 0 && DistinctBatch(b)
    requires UniformRows(rows, RowLen(b)) && Pass(m, kv, b, rows).Some?
    ensures var kv' := Pass(m, kv, b, rows).value.0;
      && (forall i :: 0 <= i < |b.seqIds| ==> kv'.LenOf(b.seqIds[i]) == kv.LenOf(b.seqIds[i]) + OwnLen(b, i))
      && (forall i :: 0 <= i < |b.seqIds| && m.meta.nLayers > 0 ==>
            b.seqIds[i] in kv'.seqBlocks && kv'.seqBlocks[b.seqIds[i]] == b.blockTables[i])
      && (forall id :: id !in b.seqIds ==> kv'.LenOf(id) == kv.LenOf(id))
  {
    var kv' := Pass(m, kv, b, rows).value.0;
    forall i | 0 <= i < |b.seqIds|
      ensures kv'.LenOf(b.seqIds[i]) == kv.LenOf(b.seqIds[i]) + OwnLen(b, i)
    {
      LenRecorded(kv.seqLens, b, |b.seqIds|, i);
    }
    forall id | id !in b.seqIds
      ensures kv'.LenOf(id) == kv.LenOf(id)
    {
      LenUntouched(kv.seqLens, b, |b.seqIds|, id);
    }
    TablesRecorded(kv.seqBlocks, b, |b.seqIds|);
  }

  /**
   The lengths recorded agree with the rows written, for every row of a pass that succeeds, if and
   only if all rows of the batch have the same length.
   */
  lemma RecordedRight<R(!new)>(m: Model<R>, kv: Kv<R>, b: BatchInput, rows: PassRows<R>)
    requires m.bs > 0 && Shaped(kv.cache, m.bs) && Packed(b) && |b.seqIds| > 0 && DistinctBatch(b)
    requires UniformRows(rows, RowLen(b)) && Pass(m, kv, b, rows).Some?
    ensures Uniform(b) <==> forall i :: 0 <= i < |b.seqIds| ==>
      Pass(m, kv, b, rows).value.0.LenOf(b.seqIds[i]) == kv.LenOf(b.seqIds[i]) + |rows(0, i).0|
  {
    hide Pass, RowLen;
    PassRecords(m, kv, b, rows);
    if Uniform(b) {
      UniformReshapes(b, OwnLen(b, 0));
    }
  }
}

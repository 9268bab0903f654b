/**
 Scheduler and paged cache together, over whole runs of the engine loop: at every successful
 pass each row of each layer sees exactly the rows ever appended for its sequence, and the write
 loop stays inside the block tables the scheduler hands out.
 */
module KvRuns {
  import opened Types
  import opened BlockAllocators
  import opened SchedulerSpec
  import opened SchedulerOwnership
  import opened SchedulerSteps
  import opened SchedulerDrain
  import opened EngineRuns
  import opened ModelMetas
  import opened Blocks
  import opened PagedKv
  import opened KvPass

  /** The engine, the backend's cache, and every row ever appended. */
  datatype Serving<R> = Serving(e: Engine, kv: Kv<R>, hist: History<R>)

  /** In every un-shared layer the cache reads as the history of this sequence, of this length. */
  ghost predicate Remembers<R>(m: Model<R>, kv: Kv<R>, h: History<R>, id: SeqId, table: seq<BlockId>, len: nat)
    requires m.bs > 0 && Shaped(kv.cache, m.bs)
  {
    && kv.LenOf(id) == len
    && forall l :: 0 <= l < m.meta.nLayers && !m.meta.IsKvShared(l) ==>
      LayerRemembers(m, kv.cache, h, id, table, len, l)
  }

  ghost predicate LayerRemembers<R>(m: Model<R>, c: Cache<R>, h: History<R>, id: SeqId, table: seq<BlockId>, len: nat,
                                    l: nat)
    requires m.bs > 0 && Shaped(c, m.bs)
  {
    && |Past(h, l, id).0| == |Past(h, l, id).1| == len
    && Reads(c, l, table, m.bs, Past(h, l, id).0, Past(h, l, id).1)
  }

  /** The backend has not heard of this sequence. */
  ghost predicate Unseen<R>(kv: Kv<R>, h: History<R>, id: SeqId) {
    kv.LenOf(id) == 0 && forall l: nat :: Past(h, l, id) == ([], [])
  }

  ghost predicate KvInv<R>(m: Model<R>, cap: nat, s: Serving<R>) {
    && m.bs > 0 && m.meta.FirstShared() > 0 && EngineInv(m.bs, cap, s.e) && Shaped(s.kv.cache, m.bs)
    && (forall i :: 0 <= i < |s.e.st.running| ==>
          var q := s.e.st.running[i];
          |q.tokenHistory| > 0 && Remembers(m, s.kv, s.hist, q.seqId, q.blockTable, |q.tokenHistory| - 1))
    && forall id :: !Known(s.e, id) ==> Unseen(s.kv, s.hist, id)
  }

  /** A run starts with nothing running, nothing cached and nothing on record. */
  lemma InitialServing<R>(m: Model<R>, cap: nat, pool: Pool)
    requires m.bs > 0 && m.meta.FirstShared() > 0 && Owns(cap, State([], [], pool))
    ensures KvInv(m, cap, Serving(Engine(State([], [], pool), [], [], NOBODY), Kv(map[], map[], map[]), map[]))
  {
    InitialEngine(m.bs, cap, pool);
  }

  // ------------------------------------------------------------------ before the pass

  /** How many of the sequence's tokens the backend has: none before prefill, all but one after. */
  ghost function Cached(q: ActiveSequence): int {
    if q.isPrefill then 0 else |q.tokenHistory| - 1
  }

  /** Once admission is done, the backend remembers for each row what it has processed. */
  ghost predicate RowsRemembered<R>(m: Model<R>, kv: Kv<R>, h: History<R>, running: seq<ActiveSequence>)
    requires m.bs > 0 && Shaped(kv.cache, m.bs)
  {
    forall i :: 0 <= i < |running| ==>
      Cached(running[i]) >= 0 && Remembers(m, kv, h, running[i].seqId, running[i].blockTable, Cached(running[i]))
  }

  lemma UnseenRemembers<R>(m: Model<R>, kv: Kv<R>, h: History<R>, id: SeqId, table: seq<BlockId>)
    requires m.bs > 0 && Shaped(kv.cache, m.bs) && Unseen(kv, h, id)
    ensures Remembers(m, kv, h, id, table, 0)
  {
    forall l | 0 <= l < m.meta.nLayers && !m.meta.IsKvShared(l)
      ensures LayerRemembers(m, kv.cache, h, id, table, 0, l)
    {
      assert Past(h, l, id) == ([], []);
    }
  }

  lemma AdmittedRemembered<R>(m: Model<R>, cap: nat, s: Serving<R>)
    requires KvInv(m, cap, s)
    ensures RowsRemembered(m, s.kv, s.hist, Admit(m.bs, s.e.st).running)
  {
    var k := AdmitFifo(m.bs, s.e.st);
    var a := Admit(m.bs, s.e.st);
    var n := |s.e.st.running|;
    forall i | 0 <= i < |a.running|
      ensures Cached(a.running[i]) >= 0
        && Remembers(m, s.kv, s.hist, a.running[i].seqId, a.running[i].blockTable, Cached(a.running[i]))
    {
      if i < n {
        assert a.running[i] == a.running[..n][i] == s.e.st.running[i];
        assert Ready(m.bs, s.e.st.running[i]);
      } else {
        NewcomerUnseen(m.bs, cap, s.e, a, k, i);
        UnseenRemembers(m, s.kv, s.hist, a.running[i].seqId, a.running[i].blockTable);
      }
    }
  }

  /** A newly admitted request was not known before. */
  lemma NewcomerUnseen(bs: nat, cap: nat, e: Engine, a: State, k: nat, i: nat)
    requires EngineInv(bs, cap, e) && Joined(bs, e.st, a, k) && |e.st.running| <= i < |a.running|
    ensures !Known(e, a.running[i].seqId) && a.running[i].isPrefill
  {
    JoinerIs(bs, e, a, k, i);
  }

  /** Two tables hold no more of a block than all tables do. */
  lemma TwoTables(running: seq<ActiveSequence>, lo: nat, hi: nat, b: BlockId)
    requires lo < hi < |running|
    ensures Tables(running)[b] >= multiset(running[lo].blockTable)[b] + multiset(running[hi].blockTable)[b]
  {
    hide Tables;
    TablesSplit(running, lo);
    var rest := running[lo + 1..];
    TablesSplit(rest, hi - lo - 1);
    assert rest[hi - lo - 1] == running[hi];
  }

  /** Tables of distinct running sequences share no block. */
  lemma TablesApart(cap: nat, st: State, i: nat, j: nat, b: BlockId)
    requires Owns(cap, st) && i < |st.running| && j < |st.running| && i != j
    requires b in st.running[i].blockTable
    ensures b !in st.running[j].blockTable
  {
    hide Owns, Tables;
    TwoTables(st.running, if i < j then i else j, if i < j then j else i, b);
    CountOnce(cap, st, b);
    assert b in multiset(st.running[i].blockTable);
  }

  lemma CountOnce(cap: nat, st: State, b: BlockId)
    requires Owns(cap, st)
    ensures Tables(st.running)[b] <= 1
  {
    AllBlocksOnce(cap, b);
    assert (multiset(st.pool.free) + Tables(st.running))[b] <= 1;
  }

  lemma TableNoDup(cap: nat, st: State, i: nat)
    requires Owns(cap, st) && i < |st.running|
    ensures NoDup(st.running[i].blockTable)
  {
    TablesSplit(st.running, i);
    var t := st.running[i].blockTable;
    forall b | b in t
      ensures multiset(t)[b] == 1
    {
      CountOnce(cap, st, b);
      assert Tables(st.running)[b] >= multiset(t)[b];
    }
    NoDupByCount(t);
  }

  lemma BatchPacked(running: seq<ActiveSequence>)
    ensures Packed(Batch(running))
    ensures forall i :: 0 <= i < |running| ==> OwnLen(Batch(running), i) == |RowTokens(running[i])|
  {
    var b := Batch(running);
    forall i | 0 <= i < |running|
      ensures b.cuSeqlens[i] <= b.cuSeqlens[i + 1] && b.cuSeqlens[i + 1] - b.cuSeqlens[i] == |RowTokens(running[i])|
    {
      BatchRows(running, i);
      assert |b.tokenIds[b.cuSeqlens[i]..b.cuSeqlens[i + 1]]| == b.cuSeqlens[i + 1] - b.cuSeqlens[i];
    }
    BatchStartsAtZero(running);
  }

  lemma {:induction false} BatchStartsAtZero(running: seq<ActiveSequence>)
    ensures Batch(running).cuSeqlens[0] == 0
  {
    if running != [] {
      BatchStartsAtZero(running[..|running| - 1]);
    }
  }

  /**
   Capacity: what the backend has plus what the row brings is the whole history, and the table
   the scheduler hands out has room for it.
   */
  lemma RowCapacity(bs: nat, q: ActiveSequence)
    requires Ready(bs, q) || Fresh(bs, q)
    ensures Cached(q) >= 0 && Cached(q) + |RowTokens(q)| == |q.tokenHistory| <= |q.blockTable| * bs
  {
  }

  /** The batch of a step, packed from an invariant state, is one the pass can work on. */
  lemma BatchConsistent<R(!new)>(m: Model<R>, cap: nat, kv: Kv<R>, h: History<R>, a: State, rows: PassRows<R>)
    requires m.bs > 0 && m.meta.FirstShared() > 0 && Shaped(kv.cache, m.bs)
    requires Owns(cap, a) && Unique(a) && AllRunnable(m.bs, a.running) && a.running != []
    requires RowsRemembered(m, kv, h, a.running)
    requires BatchOk(Batch(a.running)) && Uniform(Batch(a.running)) && OwnLen(Batch(a.running), 0) > 0
    requires UniformRows(rows, RowLen(Batch(a.running)))
    ensures Consistent(m, kv, h, Batch(a.running), rows)
  {
    var b := Batch(a.running);
    BatchPacked(a.running);
    UniformReshapes(b, OwnLen(b, 0));
    BatchIds(a.running);
    BatchApart(cap, a);
    hide Owns, Unique, Batch, RowLen;
    forall i | 0 <= i < |b.seqIds|
      ensures kv.LenOf(b.seqIds[i]) + RowLen(b) <= |b.blockTables[i]| * m.bs
    {
      RowCapacity(m.bs, a.running[i]);
      assert OwnLen(b, i) == |RowTokens(a.running[i])|;
    }
    RememberedAt(m, kv, h, a.running, rows);
  }

  lemma BatchIds(running: seq<ActiveSequence>)
    ensures var b := Batch(running);
      forall i :: 0 <= i < |running| ==> b.seqIds[i] == running[i].seqId && b.blockTables[i] == running[i].blockTable
    ensures Distinct(running) ==> DistinctBatch(Batch(running))
  {
    forall i | 0 <= i < |running|
      ensures Batch(running).seqIds[i] == running[i].seqId && Batch(running).blockTables[i] == running[i].blockTable
    {
      BatchRows(running, i);
    }
  }

  lemma BatchApart(cap: nat, a: State)
    requires Owns(cap, a)
    ensures Apart(Batch(a.running).blockTables)
  {
    BatchIds(a.running);
    var t := Batch(a.running).blockTables;
    forall i | 0 <= i < |t|
      ensures NoDup(t[i])
    {
      TableNoDup(cap, a, i);
    }
    forall i, j, b | 0 <= i < |t| && 0 <= j < |t| && i != j && b in t[i]
      ensures b !in t[j]
    {
      TablesApart(cap, a, i, j, b);
    }
  }

  /** What is remembered row by row is what the pass expects at its start. */
  lemma RememberedAt<R>(m: Model<R>, kv: Kv<R>, h: History<R>, running: seq<ActiveSequence>, rows: PassRows<R>)
    requires m.bs > 0 && Shaped(kv.cache, m.bs) && RowsRemembered(m, kv, h, running)
    ensures LensAgree(m, kv, h, Batch(running)) && At(m, kv.cache, h, Batch(running), rows, 0, 0)
  {
    BatchIds(running);
    var b := Batch(running);
    forall l, i | 0 <= l < m.meta.nLayers && !m.meta.IsKvShared(l) && 0 <= i < |b.seqIds|
      ensures RowReads(m, kv.cache, h, b, rows, 0, 0, l, i)
      ensures |Past(h, l, b.seqIds[i]).0| == |Past(h, l, b.seqIds[i]).1| == kv.LenOf(b.seqIds[i])
    {
      assert Remembers(m, kv, h, running[i].seqId, running[i].blockTable, Cached(running[i]));
      assert LayerRemembers(m, kv.cache, h, running[i].seqId, running[i].blockTable, Cached(running[i]), l);
    }
  }

  // ------------------------------------------------------------------ after the pass

  /** A row remembers what it did before, and the rows of this pass. */
  lemma PassRemembers<R(!new)>(m: Model<R>, kv: Kv<R>, h: History<R>, b: BatchInput, rows: PassRows<R>, i: nat,
                               len: nat)
    requires Consistent(m, kv, h, b, rows) && i < |b.seqIds|
    requires Remembers(m, kv, h, b.seqIds[i], b.blockTables[i], len)
    ensures var r := Pass(m, kv, b, rows);
      && r.Some? && Shaped(r.value.0.cache, m.bs)
      && Remembers(m, r.value.0, Appended(m, h, b, rows), b.seqIds[i], b.blockTables[i], len + RowLen(b))
  {
    hide Pass, Appended, SeenBy, LensAgree;
    PassAppends(m, kv, h, b, rows);
    PassRecords(m, kv, b, rows);
    RowLenIs(b, i);
    var kv', id, table := Pass(m, kv, b, rows).value.0, b.seqIds[i], b.blockTables[i];
    hide RowLen, Packed, Uniform, Prepared;
    forall l | 0 <= l < m.meta.nLayers && !m.meta.IsKvShared(l)
      ensures LayerRemembers(m, kv'.cache, Appended(m, h, b, rows), id, table, len + RowLen(b), l)
    {
      AppendedPast(m, h, b, rows, l, i);
      assert RowReads(m, kv'.cache, h, b, rows, m.meta.nLayers, 0, l, i);
      assert LayerRemembers(m, kv.cache, h, id, table, len, l);
    }
  }

  lemma RowLenIs(b: BatchInput, i: nat)
    requires Packed(b) && Uniform(b) && i < |b.seqIds|
    ensures RowLen(b) == OwnLen(b, i)
  {
    ReshapeRight(b);
    assert |ReshapedRow(b, i)| == |OwnTokens(b, i)|;
  }

  /** Sequences outside the batch keep their history. */
  lemma OthersPast<R>(m: Model<R>, h: History<R>, b: BatchInput, rows: PassRows<R>, id: SeqId)
    requires DistinctBatch(b) && id !in b.seqIds
    ensures forall l: nat :: Past(Appended(m, h, b, rows), l, id) == Past(h, l, id)
  {
    forall l: nat
      ensures Past(Appended(m, h, b, rows), l, id) == Past(h, l, id)
    {
      assert (l, id) !in Touched(m, b);
    }
  }

  /** One more block at the end of the table changes nothing that was there. */
  lemma ReadsGrown<R>(c: Cache<R>, layer: nat, table: seq<BlockId>, table2: seq<BlockId>, bs: nat, k: seq<R>, v: seq<R>)
    requires bs > 0 && Shaped(c, bs) && Reads(c, layer, table, bs, k, v) && |k| <= |table| * bs && table <= table2
    ensures Reads(c, layer, table2, bs, k, v)
  {
    forall j | 0 <= j < |k|
      ensures RowAt(c, layer, table2, bs, j) == Some((k[j], v[j]))
    {
      assert RowAt(c, layer, table, bs, j) == Some((k[j], v[j]));
      BlockInTable(bs, j, |table|);
    }
  }

  lemma RemembersGrown<R>(m: Model<R>, kv: Kv<R>, h: History<R>, id: SeqId, table: seq<BlockId>, table2: seq<BlockId>,
                          len: nat)
    requires m.bs > 0 && Shaped(kv.cache, m.bs) && Remembers(m, kv, h, id, table, len)
    requires len <= |table| * m.bs && table <= table2
    ensures Remembers(m, kv, h, id, table2, len)
  {
    forall l | 0 <= l < m.meta.nLayers && !m.meta.IsKvShared(l)
      ensures LayerRemembers(m, kv.cache, h, id, table2, len, l)
    {
      assert LayerRemembers(m, kv.cache, h, id, table, len, l);
      ReadsGrown(kv.cache, l, table, table2, m.bs, Past(h, l, id).0, Past(h, l, id).1);
    }
  }

  /** The backend forgets each sequence that leaves, in the order they leave. */
  function ClearAll<R>(m: Model<R>, kv: Kv<R>, left: seq<(SeqId, Leave)>, n: nat): Kv<R>
    requires n <= |left|
  {
    if n == 0 then kv else ClearSequence(m, ClearAll(m, kv, left, n - 1), left[n - 1].0)
  }

  /** Forgetting sequences whose recorded blocks are disjoint from this table spares its rows. */
  ghost predicate Spared<R>(kv: Kv<R>, id: SeqId, table: seq<BlockId>) {
    id in kv.seqBlocks ==> forall b :: b in kv.seqBlocks[id] ==> b !in table
  }

  lemma ClearSpares<R>(m: Model<R>, kv: Kv<R>, h: History<R>, gone: SeqId, id: SeqId, table: seq<BlockId>, len: nat)
    requires m.bs > 0 && Shaped(kv.cache, m.bs) && Remembers(m, kv, h, id, table, len) && Spared(kv, gone, table)
    ensures Shaped(ClearSequence(m, kv, gone).cache, m.bs)
    ensures Remembers(m, ClearSequence(m, kv, gone), h, id, table, len)
  {
    var kv' := ClearSequence(m, kv, gone);
    forall l | 0 <= l < m.meta.nLayers && !m.meta.IsKvShared(l)
      ensures LayerRemembers(m, kv'.cache, h, id, table, len, l)
    {
      assert LayerRemembers(m, kv.cache, h, id, table, len, l);
      var (k, v) := Past(h, l, id);
      forall j | 0 <= j < len
        ensures RowAt(kv'.cache, l, table, m.bs, j) == Some((k[j], v[j]))
      {
        assert RowAt(kv.cache, l, table, m.bs, j) == Some((k[j], v[j]));
        assert table[BlockOf(m.bs, j)] in table;
      }
    }
  }

  lemma {:induction false} ClearAllShaped<R>(m: Model<R>, kv: Kv<R>, left: seq<(SeqId, Leave)>, n: nat)
    requires Shaped(kv.cache, m.bs) && n <= |left|
    ensures var c := ClearAll(m, kv, left, n);
      && Shaped(c.cache, m.bs) && c.seqLens == kv.seqLens
      && forall id :: id in c.seqBlocks ==> id in kv.seqBlocks && c.seqBlocks[id] == kv.seqBlocks[id]
  {
    if n > 0 {
      ClearAllShaped(m, kv, left, n - 1);
    }
  }

  lemma {:induction false} ClearAllSpares<R>(m: Model<R>, kv: Kv<R>, h: History<R>, left: seq<(SeqId, Leave)>, n: nat,
                                             id: SeqId, table: seq<BlockId>, len: nat)
    requires m.bs > 0 && Shaped(kv.cache, m.bs) && Remembers(m, kv, h, id, table, len) && n <= |left|
    requires forall k :: 0 <= k < |left| ==> Spared(kv, left[k].0, table)
    ensures Shaped(ClearAll(m, kv, left, n).cache, m.bs) && Remembers(m, ClearAll(m, kv, left, n), h, id, table, len)
  {
    hide Remembers;
    ClearAllShaped(m, kv, left, n);
    if n > 0 {
      ClearAllShaped(m, kv, left, n - 1);
      ClearAllSpares(m, kv, h, left, n - 1, id, table, len);
      assert Spared(kv, left[n - 1].0, table);
      ClearSpares(m, ClearAll(m, kv, left, n - 1), h, left[n - 1].0, id, table, len);
    }
  }

  /** One of the first n that leave had this block on record. */
  ghost predicate LeaverHad<R>(kv: Kv<R>, left: seq<(SeqId, Leave)>, n: nat, b: BlockId)
    requires n <= |left|
  {
    exists k :: 0 <= k < n && left[k].0 in kv.seqBlocks && b in kv.seqBlocks[left[k].0]
  }

  /** Those that left are off the record, and exactly the blocks they had are gone, from every layer. */
  lemma {:induction false} ClearAllForgets<R>(m: Model<R>, kv: Kv<R>, left: seq<(SeqId, Leave)>, n: nat, l: nat,
                                              b: BlockId)
    requires n <= |left|
    ensures var r := ClearAll(m, kv, left, n);
      && (forall id :: id in r.seqBlocks <==> id in kv.seqBlocks && id !in Gone(left, n))
      && (forall id :: id in r.seqBlocks ==> r.seqBlocks[id] == kv.seqBlocks[id])
      && ((l, b) in r.cache <==> (l, b) in kv.cache && !(l < m.meta.nLayers && LeaverHad(kv, left, n, b)))
      && ((l, b) in r.cache ==> r.cache[(l, b)] == kv.cache[(l, b)])
  {
    if n > 0 {
      ClearAllForgets(m, kv, left, n - 1, l, b);
      var before := ClearAll(m, kv, left, n - 1);
      ClearForgets(m, before, left[n - 1].0, l, b);
      GoneMore(left, n);
      LeaverMore(kv, left, n, b);
      hide ClearSequence, LeaverHad, Gone;
    }
  }

  lemma GoneMore(left: seq<(SeqId, Leave)>, n: nat)
    requires 0 < n <= |left|
    ensures Gone(left, n) == Gone(left, n - 1) + {left[n - 1].0}
  {
  }

  lemma LeaverMore<R>(kv: Kv<R>, left: seq<(SeqId, Leave)>, n: nat, b: BlockId)
    requires 0 < n <= |left|
    ensures LeaverHad(kv, left, n, b) <==>
      LeaverHad(kv, left, n - 1, b) || (left[n - 1].0 in kv.seqBlocks && b in kv.seqBlocks[left[n - 1].0])
    ensures left[n - 1].0 in Gone(left, n - 1) && left[n - 1].0 in kv.seqBlocks && b in kv.seqBlocks[left[n - 1].0] ==>
      LeaverHad(kv, left, n - 1, b)
  {
  }

  // ------------------------------------------------------------------ one round

  /** The backend's part of a good step: the pass, then forgetting those who leave. */
  ghost function Served<R(!new)>(m: Model<R>, kv: Kv<R>, b: BatchInput, rows: PassRows<R>, left: seq<(SeqId, Leave)>)
      : Kv<R>
    requires m.bs > 0 && Shaped(kv.cache, m.bs) && BatchOk(b) && |b.seqIds| > 0 && UniformRows(rows, RowLen(b))
    requires Pass(m, kv, b, rows).Some?
  {
    ClearAll(m, Pass(m, kv, b, rows).value.0, left, |left|)
  }

  /** The sequences that leave are rows of the batch. */
  lemma LeaverRow(bs: nat, eos: TokenId, cap: nat, st: State, fwd: Forward, k: nat) returns (j: nat)
    requires Inv(bs, cap, st) && Step(bs, eos, st, fwd).ok && k < |Step(bs, eos, st, fwd).left|
    ensures j < |Admit(bs, st).running| && Step(bs, eos, st, fwd).left[k].0 == Admit(bs, st).running[j].seqId
  {
    hide Inv, Step, Rows, Admit, Keep, Gone, Unique, AllRunnable, Pool.Valid;
    InvCanStep(bs, cap, st);
    StepShape(bs, eos, cap, st, fwd);
    var a := Admit(bs, st);
    var p := Rows(bs, eos, st, fwd);
    assert p.left[k] in p.left;
    j :| 0 <= j < |a.running| && RowLeaves(TurnOf(bs, eos, a, fwd), j, p.left[k]);
  }

  /** The sequences that stay are rows of the batch that do not leave, with the same or a longer table. */
  lemma StayerRow(bs: nat, eos: TokenId, cap: nat, st: State, fwd: Forward, q: ActiveSequence) returns (i: nat)
    requires Inv(bs, cap, st) && Step(bs, eos, st, fwd).ok && q in Step(bs, eos, st, fwd).st.running
    ensures var a := Admit(bs, st);
      && i < |a.running| && a.running[i].seqId == q.seqId && a.running[i].blockTable <= q.blockTable
      && |q.tokenHistory| == |a.running[i].tokenHistory| + 1
      && (Ready(bs, a.running[i]) || Fresh(bs, a.running[i]))
    ensures forall k :: 0 <= k < |Step(bs, eos, st, fwd).left| ==> Step(bs, eos, st, fwd).left[k].0 != q.seqId
  {
    i := StayedFrom(bs, eos, cap, st, fwd, q);
    StepShape(bs, eos, cap, st, fwd);
    var left := Step(bs, eos, st, fwd).left;
    assert q.seqId !in Gone(left, |left|);
    forall k | 0 <= k < |left|
      ensures left[k].0 != q.seqId
    {
      assert left[k].0 in Gone(left, |left|);
    }
  }

  /** After the pass, forgetting those who leave spares the table of one who stays. */
  lemma LeaversSpare<R(!new)>(m: Model<R>, kv: Kv<R>, h: History<R>, b: BatchInput, rows: PassRows<R>,
                              left: seq<(SeqId, Leave)>, i: nat)
    requires Consistent(m, kv, h, b, rows) && Pass(m, kv, b, rows).Some? && i < |b.seqIds|
    requires forall k :: 0 <= k < |left| ==> left[k].0 in b.seqIds && left[k].0 != b.seqIds[i]
    ensures forall k :: 0 <= k < |left| ==> Spared(Pass(m, kv, b, rows).value.0, left[k].0, b.blockTables[i])
  {
    PassRecords(m, kv, b, rows);
    hide Pass, UniformRows, LensAgree, At, Uniform, Packed;
    forall k | 0 <= k < |left|
      ensures Spared(Pass(m, kv, b, rows).value.0, left[k].0, b.blockTables[i])
    {
      var j :| 0 <= j < |b.seqIds| && b.seqIds[j] == left[k].0;
      assert Apart(b.blockTables) && i != j;
    }
  }

  /** A sequence that stays is remembered up to its last token, under its present table. */
  lemma StayerRemembered<R(!new)>(m: Model<R>, kv: Kv<R>, h: History<R>, b: BatchInput, rows: PassRows<R>,
                                  left: seq<(SeqId, Leave)>, i: nat, len: nat, table: seq<BlockId>)
    requires Consistent(m, kv, h, b, rows) && Pass(m, kv, b, rows).Some? && i < |b.seqIds|
    requires forall k :: 0 <= k < |left| ==> left[k].0 in b.seqIds && left[k].0 != b.seqIds[i]
    requires Remembers(m, kv, h, b.seqIds[i], b.blockTables[i], len)
    requires len + RowLen(b) <= |b.blockTables[i]| * m.bs && b.blockTables[i] <= table
    ensures Shaped(Served(m, kv, b, rows, left).cache, m.bs)
    ensures Remembers(m, Served(m, kv, b, rows, left), Appended(m, h, b, rows), b.seqIds[i], table, len + RowLen(b))
  {
    PassRemembers(m, kv, h, b, rows, i, len);
    LeaversSpare(m, kv, h, b, rows, left, i);
    var kv1, h' := Pass(m, kv, b, rows).value.0, Appended(m, h, b, rows);
    ClearAllSpares(m, kv1, h', left, |left|, b.seqIds[i], b.blockTables[i], len + RowLen(b));
    RemembersGrown(m, Served(m, kv, b, rows, left), h', b.seqIds[i], b.blockTables[i], table, len + RowLen(b));
  }

  /** Requests the backend had not heard of before the batch, it has not heard of after. */
  lemma StaysUnseen<R(!new)>(m: Model<R>, kv: Kv<R>, h: History<R>, b: BatchInput, rows: PassRows<R>,
                             left: seq<(SeqId, Leave)>, id: SeqId)
    requires Consistent(m, kv, h, b, rows) && Pass(m, kv, b, rows).Some? && id !in b.seqIds && Unseen(kv, h, id)
    ensures Unseen(Served(m, kv, b, rows, left), Appended(m, h, b, rows), id)
  {
    PassAppends(m, kv, h, b, rows);
    PassRecords(m, kv, b, rows);
    OthersPast(m, h, b, rows, id);
    ClearAllShaped(m, Pass(m, kv, b, rows).value.0, left, |left|);
  }

  /**
   One round of scheduler and backend.  In a good round with a batch the backend's pass succeeds
   and its results are these; after a failure the cache may hold anything, and only the lengths
   of sequences in the failed batch may have changed.
   */
  ghost predicate Next<R(!new)>(m: Model<R>, eos: TokenId, s: Serving<R>, incoming: seq<Request>, fwd: Forward,
                                rows: PassRows<R>, s': Serving<R>)
    requires m.bs > 0 && s.e.st.pool.Valid() && Shaped(s.kv.cache, m.bs)
  {
    var st := s.e.st.(waiting := s.e.st.waiting + incoming);
    var a := Admit(m.bs, st);
    var b := Batch(a.running);
    && s'.e == Tick(m.bs, eos, s.e, incoming, fwd)
    && Shaped(s'.kv.cache, m.bs)
    && if Empty(st) || a.running == [] then s'.kv == s.kv && s'.hist == s.hist
       else
         var o := Step(m.bs, eos, st, fwd);
         if o.ok then
           && BatchOk(b) && |b.seqIds| > 0 && UniformRows(rows, RowLen(b))
           && Pass(m, s.kv, b, rows).Some?
           && s'.kv == Served(m, s.kv, b, rows, o.left)
           && DistinctBatch(b) && s'.hist == Appended(m, s.hist, b, rows)
         else
           && s'.hist == s.hist
           && forall id :: id !in b.seqIds ==> s'.kv.LenOf(id) == s.kv.LenOf(id)
  }

  /** The batch of the round, if there is one. */
  ghost function BatchOf<R>(m: Model<R>, s: Serving<R>, incoming: seq<Request>): BatchInput
    requires m.bs > 0 && s.e.st.pool.Valid()
  {
    Batch(Admit(m.bs, s.e.st.(waiting := s.e.st.waiting + incoming)).running)
  }

  ghost predicate Succeeds<R>(m: Model<R>, eos: TokenId, s: Serving<R>, incoming: seq<Request>, fwd: Forward)
    requires m.bs > 0 && s.e.st.pool.Valid()
  {
    Step(m.bs, eos, s.e.st.(waiting := s.e.st.waiting + incoming), fwd).ok
  }

  /** The rows of the batch have one common length, as the backend takes for granted. */
  ghost predicate EqualRows(b: BatchInput) {
    BatchOk(b) && Uniform(b)
  }

  // ------------------------------------------------------------------ the main result

  /** Whether an id is known depends on the requests added and on how many still wait. */
  lemma SameKnown(e: Engine, f: Engine, id: SeqId)
    requires Known(e, id) && e.added == f.added && |e.st.waiting| == |f.st.waiting|
    ensures Known(f, id)
  {
    var j :| 0 <= j < Admitted(e) && j < |e.added| && e.added[j].seqId == id;
    assert f.added[j].seqId == id;
  }

  lemma KnownLater(e: Engine, f: Engine, id: SeqId)
    requires Known(e, id) && e.added == f.added && |f.st.waiting| <= |e.st.waiting|
    ensures Known(f, id)
  {
    var j :| 0 <= j < Admitted(e) && j < |e.added| && e.added[j].seqId == id;
    assert f.added[j].seqId == id;
  }

  lemma RunningKnown(e: Engine, i: nat)
    requires Trace(e) && i < |e.st.running|
    ensures Known(e, e.st.running[i].seqId)
  {
    hide Told, Known;
  }

  lemma FewerWait(bs: nat, st: State)
    requires bs > 0 && st.pool.Valid()
    ensures |Admit(bs, st).waiting| <= |st.waiting|
  {
    var k := AdmitFifo(bs, st);
  }

  lemma AdmittedKnown(bs: nat, cap: nat, f: Engine, id: SeqId)
    requires EngineInv(bs, cap, f)
    requires Known(f, id) || id in Batch(Admit(bs, f.st).running).seqIds
    ensures Known(f.(st := Admit(bs, f.st)), id)
  {
    hide Inv, Trace, Known, Unique, AllRunnable, Admit, Pool.Valid, Batch;
    InvCanStep(bs, cap, f.st);
    AdmittedEngine(bs, cap, f);
    FewerWait(bs, f.st);
    var a := Admit(bs, f.st);
    if Known(f, id) {
      KnownLater(f, f.(st := a), id);
    } else {
      BatchIds(a.running);
      var i :| 0 <= i < |a.running| && a.running[i].seqId == id;
      RunningKnown(f.(st := a), i);
    }
  }

  lemma StepLeavesWaiting(bs: nat, eos: TokenId, cap: nat, st: State, fwd: Forward)
    requires Inv(bs, cap, st)
    ensures var o := Step(bs, eos, st, fwd);
      if o.ok then o.st.waiting == Admit(bs, st).waiting else AbortFrom(o.st).waiting == Admit(bs, st).waiting
  {
    StepShape(bs, eos, cap, st, fwd);
    var o := Step(bs, eos, st, fwd);
    if !o.ok {
      FailedStep(bs, eos, cap, st, fwd);
      AbortShape(o.st);
    }
    hide Step, Admit, Inv, AbortFrom, Keep, Gone, RowsDone, AllRunnable, Unique, Rows;
  }

  /** Who is known stays known, and whoever is in the batch is known after the step. */
  lemma StepKnown(bs: nat, eos: TokenId, cap: nat, f: Engine, fwd: Forward, id: SeqId)
    requires EngineInv(bs, cap, f)
    requires Known(f, id) || id in Batch(Admit(bs, f.st).running).seqIds
    ensures Inv(bs, cap, f.st) && f.st.pool.Valid() && Known(Stepped(bs, eos, f, fwd), id)
  {
    hide Known, Trace, Inv, Step, Admit, AbortFrom, AbortEvents, Pool.Valid, Endings.AddRows, Endings.AddAbort,
         RowsAfter;
    InvCanStep(bs, cap, f.st);
    AdmittedKnown(bs, cap, f, id);
    StepLeavesWaiting(bs, eos, cap, f.st, fwd);
    SameKnown(f.(st := Admit(bs, f.st)), Stepped(bs, eos, f, fwd), id);
  }

  /** Arrivals mean nothing to the backend. */
  lemma ArrivalsRemembered<R>(m: Model<R>, cap: nat, s: Serving<R>, incoming: seq<Request>)
    requires KvInv(m, cap, s) && UniqueRequests(s.e.added + incoming)
    ensures KvInv(m, cap, s.(e := Adding(s.e, incoming)))
  {
    ArrivalsKeep(m.bs, cap, s.e, incoming);
    forall id | Known(s.e, id)
      ensures Known(Adding(s.e, incoming), id)
    {
      KnownAdding(s.e, incoming, id);
    }
  }

  /** Rows of equal length have tokens if the pass succeeds. */
  lemma RowsNotEmpty<R(!new)>(m: Model<R>, kv: Kv<R>, h: History<R>, running: seq<ActiveSequence>, rows: PassRows<R>)
    requires m.bs > 0 && m.meta.FirstShared() > 0 && Shaped(kv.cache, m.bs) && AllRunnable(m.bs, running)
    requires running != [] && RowsRemembered(m, kv, h, running)
    requires var b := Batch(running); EqualRows(b) && UniformRows(rows, RowLen(b)) && Pass(m, kv, b, rows).Some?
    ensures OwnLen(Batch(running), 0) > 0
  {
    hide Pass, RowLen, RowTokens, Ready, Fresh, Batch, LayerRemembers, Cached, Packed, Distinct, DistinctBatch;
    var b := Batch(running);
    BatchPacked(running);
    BatchIds(running);
    assert Ready(m.bs, running[0]) || Fresh(m.bs, running[0]);
    if OwnLen(b, 0) == 0 {
      assert Remembers(m, kv, h, running[0].seqId, running[0].blockTable, Cached(running[0]));
      NothingCached(m.bs, running[0]);
      UniformReshapes(b, 0);
      EmptyRowsFail(m, kv, b, rows);
    }
  }

  lemma NothingCached(bs: nat, q: ActiveSequence)
    requires (Ready(bs, q) || Fresh(bs, q)) && |RowTokens(q)| == 0
    ensures Cached(q) == 0
  {
    hide Covered;
  }

  /** A pass over rows of equal length sees every row's whole history. */
  lemma GoodBatchServed<R(!new)>(m: Model<R>, cap: nat, s: Serving<R>, rows: PassRows<R>)
    requires KvInv(m, cap, s) && s.e.st.pool.Valid()
    requires var a := Admit(m.bs, s.e.st);
      var b := Batch(a.running);
      && a.running != [] && EqualRows(b) && UniformRows(rows, RowLen(b)) && Pass(m, s.kv, b, rows).Some?
    ensures var b := Batch(Admit(m.bs, s.e.st).running);
      && Consistent(m, s.kv, s.hist, b, rows) && Pass(m, s.kv, b, rows).Some?
      && SeenBy(m, s.hist, b, rows, Pass(m, s.kv, b, rows).value.1)
      && RowsRemembered(m, s.kv, s.hist, Admit(m.bs, s.e.st).running)
  {
    hide Known, Remembers, Unseen, RowLen, Trace, Rows, Keep, Gone, AbortFrom, TurnOf, Pass, SeenBy;
    var a := Admit(m.bs, s.e.st);
    AdmittedRemembered(m, cap, s);
    AdmitOwns(m.bs, cap, s.e.st);
    AdmittedEngine(m.bs, cap, s.e);
    BatchIds(a.running);
    RowsNotEmpty(m, s.kv, s.hist, a.running, rows);
    BatchConsistent(m, cap, s.kv, s.hist, a, rows);
    PassAppends(m, s.kv, s.hist, Batch(a.running), rows);
  }

  /** A good step on such a batch keeps the invariant. */
  lemma GoodBatchKeeps<R(!new)>(m: Model<R>, eos: TokenId, cap: nat, s: Serving<R>, fwd: Forward, rows: PassRows<R>,
                                s': Serving<R>)
    requires KvInv(m, cap, s) && s.e.st.pool.Valid() && Step(m.bs, eos, s.e.st, fwd).ok
    requires var a := Admit(m.bs, s.e.st);
      var b := Batch(a.running);
      && a.running != [] && RowsRemembered(m, s.kv, s.hist, a.running)
      && Consistent(m, s.kv, s.hist, b, rows) && Pass(m, s.kv, b, rows).Some?
      && s'.e == Stepped(m.bs, eos, s.e, fwd) && s'.hist == Appended(m, s.hist, b, rows)
      && s'.kv == Served(m, s.kv, b, rows, Step(m.bs, eos, s.e.st, fwd).left)
    requires Shaped(s'.kv.cache, m.bs)
    ensures KvInv(m, cap, s')
  {
    hide Admit, Batch, Consistent, Pass, RowsRemembered, Remembers, Known, Unseen, Served, Appended, EngineInv, Step,
         AbortFrom, Shaped, Endings.AddRows, Endings.AddAbort, RowsAfter, TurnOf, Pool.Valid;
    EngineParts(m.bs, cap, s.e);
    StepKeeps(m.bs, eos, cap, s.e, fwd);
    forall i | 0 <= i < |s'.e.st.running|
      ensures var q := s'.e.st.running[i];
        |q.tokenHistory| > 0 && Remembers(m, s'.kv, s'.hist, q.seqId, q.blockTable, |q.tokenHistory| - 1)
    {
      OneStays(m, eos, cap, s, fwd, rows, s'.e.st.running[i]);
    }
    forall id | !Known(s'.e, id)
      ensures Unseen(s'.kv, s'.hist, id)
    {
      OneUnseen(m, eos, cap, s, fwd, rows, id);
    }
  }

  lemma LeaversInBatch(bs: nat, eos: TokenId, cap: nat, st: State, fwd: Forward)
    requires Inv(bs, cap, st) && Step(bs, eos, st, fwd).ok
    ensures var left := Step(bs, eos, st, fwd).left;
      forall k :: 0 <= k < |left| ==> left[k].0 in Batch(Admit(bs, st).running).seqIds
  {
    hide Inv, Step, Batch, Admit;
    InvCanStep(bs, cap, st);
    var left, b := Step(bs, eos, st, fwd).left, Batch(Admit(bs, st).running);
    BatchIds(Admit(bs, st).running);
    forall k | 0 <= k < |left|
      ensures left[k].0 in b.seqIds
    {
      var j := LeaverRow(bs, eos, cap, st, fwd, k);
      assert b.seqIds[j] == left[k].0;
    }
  }

  /** Who is not known after a good step has not been seen by the backend. */
  lemma OneUnseen<R(!new)>(m: Model<R>, eos: TokenId, cap: nat, s: Serving<R>, fwd: Forward, rows: PassRows<R>,
                           id: SeqId)
    requires KvInv(m, cap, s) && Step(m.bs, eos, s.e.st, fwd).ok && !Known(Stepped(m.bs, eos, s.e, fwd), id)
    requires var b := Batch(Admit(m.bs, s.e.st).running);
      Consistent(m, s.kv, s.hist, b, rows) && Pass(m, s.kv, b, rows).Some?
    ensures var b := Batch(Admit(m.bs, s.e.st).running);
      Unseen(Served(m, s.kv, b, rows, Step(m.bs, eos, s.e.st, fwd).left), Appended(m, s.hist, b, rows), id)
  {
    hide EngineInv, Inv, Trace, Step, Admit, Batch, Pass, Known, Unseen, Remembers, Stepped, Served, Appended,
         Pool.Valid;
    EngineParts(m.bs, cap, s.e);
    var b := Batch(Admit(m.bs, s.e.st).running);
    if Known(s.e, id) || id in b.seqIds {
      StepKnown(m.bs, eos, cap, s.e, fwd, id);
    }
    StaysUnseen(m, s.kv, s.hist, b, rows, Step(m.bs, eos, s.e.st, fwd).left, id);
  }

  /** The row of a sequence that stays: what the backend has and what the row brings make up all but its last token. */
  lemma StayerInBatch(bs: nat, eos: TokenId, cap: nat, st: State, fwd: Forward, q: ActiveSequence) returns (i: nat)
    requires Inv(bs, cap, st) && Step(bs, eos, st, fwd).ok && q in Step(bs, eos, st, fwd).st.running
    requires Packed(Batch(Admit(bs, st).running)) && Uniform(Batch(Admit(bs, st).running))
    ensures var a, b := Admit(bs, st), Batch(Admit(bs, st).running);
      && i < |a.running| == |b.seqIds| && b.seqIds[i] == a.running[i].seqId == q.seqId
      && b.blockTables[i] == a.running[i].blockTable <= q.blockTable
      && Cached(a.running[i]) + RowLen(b) == |q.tokenHistory| - 1 <= |b.blockTables[i]| * bs
    ensures forall k :: 0 <= k < |Step(bs, eos, st, fwd).left| ==> Step(bs, eos, st, fwd).left[k].0 != q.seqId
  {
    hide Inv, Step, Admit, Batch, RowTokens, RowLen, OwnLen, Packed, Uniform, Ready, Fresh, Pool.Valid;
    InvCanStep(bs, cap, st);
    i := StayerRow(bs, eos, cap, st, fwd, q);
    var a := Admit(bs, st);
    BatchIds(a.running);
    BatchPacked(a.running);
    RowLenIs(Batch(a.running), i);
    RowCapacity(bs, a.running[i]);
  }

  lemma OneStays<R(!new)>(m: Model<R>, eos: TokenId, cap: nat, s: Serving<R>, fwd: Forward, rows: PassRows<R>,
                          q: ActiveSequence)
    requires KvInv(m, cap, s) && Step(m.bs, eos, s.e.st, fwd).ok && q in Step(m.bs, eos, s.e.st, fwd).st.running
    requires var a := Admit(m.bs, s.e.st);
      a.running != [] && Consistent(m, s.kv, s.hist, Batch(a.running), rows)
    requires RowsRemembered(m, s.kv, s.hist, Admit(m.bs, s.e.st).running)
    ensures var b := Batch(Admit(m.bs, s.e.st).running);
      var o := Step(m.bs, eos, s.e.st, fwd);
      && |q.tokenHistory| > 0 && Pass(m, s.kv, b, rows).Some? && Shaped(Served(m, s.kv, b, rows, o.left).cache, m.bs)
      && Remembers(m, Served(m, s.kv, b, rows, o.left), Appended(m, s.hist, b, rows), q.seqId, q.blockTable,
        |q.tokenHistory| - 1)
  {
    hide Inv, Trace, Unseen, Known, Remembers, Step, Admit, Batch, RowLen, Pass, Appended, Prepared, LensAgree, At,
         DistinctBatch, Cached, Pool.Valid, Served;
    InvCanStep(m.bs, cap, s.e.st);
    var a := Admit(m.bs, s.e.st);
    var i := StayerInBatch(m.bs, eos, cap, s.e.st, fwd, q);
    PassAppends(m, s.kv, s.hist, Batch(a.running), rows);
    LeaversInBatch(m.bs, eos, cap, s.e.st, fwd);
    hide KvInv, Consistent, Packed, Uniform, UniformRows;
    StayerRemembered(m, s.kv, s.hist, Batch(a.running), rows, Step(m.bs, eos, s.e.st, fwd).left, i,
                     Cached(a.running[i]), q.blockTable);
  }

  /**
   Every round keeps the invariant, provided that the rows of its batch have equal length if the
   step succeeds; and in such a round every row of every layer sees the whole history of its
   sequence, new rows included.  Nothing is assumed of rounds that fail.
   */
  lemma RoundKeeps<R(!new)>(m: Model<R>, eos: TokenId, cap: nat, s: Serving<R>, incoming: seq<Request>, fwd: Forward,
                            rows: PassRows<R>, s': Serving<R>)
    requires KvInv(m, cap, s) && UniqueRequests(s.e.added + incoming) && Next(m, eos, s, incoming, fwd, rows, s')
    requires Succeeds(m, eos, s, incoming, fwd) ==> EqualRows(BatchOf(m, s, incoming))
    ensures KvInv(m, cap, s')
    ensures var b := BatchOf(m, s, incoming);
      b.seqIds != [] && Succeeds(m, eos, s, incoming, fwd) ==>
        UniformRows(rows, RowLen(b)) && Pass(m, s.kv, b, rows).Some?
          && SeenBy(m, s.hist, b, rows, Pass(m, s.kv, b, rows).value.1)
  {
    ArrivalsRemembered(m, cap, s, incoming);
    var f := Adding(s.e, incoming);
    var s1 := s.(e := f);
    TickKeeps(m.bs, eos, cap, s.e, incoming, fwd);
    var a := Admit(m.bs, f.st);
    BatchIds(a.running);
    if Empty(f.st) {
      EmptyAdmits(m.bs, f.st);
    } else {
      var o := Step(m.bs, eos, f.st, fwd);
      if a.running == [] {
        IdleKeeps(m, eos, cap, s1, fwd, s');
      } else if o.ok {
        GoodBatchServed(m, cap, s1, rows);
        GoodBatchKeeps(m, eos, cap, s1, fwd, rows, s');
      } else {
        FailureKeeps(m, eos, cap, s1, fwd, s');
      }
    }
  }

  lemma EmptyAdmits(bs: nat, st: State)
    requires bs > 0 && st.pool.Valid() && Empty(st)
    ensures Admit(bs, st).running == []
  {
  }

  lemma IdleKeeps<R(!new)>(m: Model<R>, eos: TokenId, cap: nat, s: Serving<R>, fwd: Forward, s': Serving<R>)
    requires KvInv(m, cap, s) && Admit(m.bs, s.e.st).running == []
    requires s'.e == Stepped(m.bs, eos, s.e, fwd) && EngineInv(m.bs, cap, s'.e)
    requires s'.kv == s.kv && s'.hist == s.hist
    ensures KvInv(m, cap, s')
  {
    forall id | !Known(s'.e, id)
      ensures Unseen(s'.kv, s'.hist, id)
    {
      if Known(s.e, id) {
        StepKnown(m.bs, eos, cap, s.e, fwd, id);
      }
    }
  }

  lemma FailureKeeps<R(!new)>(m: Model<R>, eos: TokenId, cap: nat, s: Serving<R>, fwd: Forward, s': Serving<R>)
    requires KvInv(m, cap, s) && !Step(m.bs, eos, s.e.st, fwd).ok
    requires s'.e == Stepped(m.bs, eos, s.e, fwd)
    requires EngineInv(m.bs, cap, s'.e) && Shaped(s'.kv.cache, m.bs) && s'.hist == s.hist
    requires forall id :: id !in Batch(Admit(m.bs, s.e.st).running).seqIds ==> s'.kv.LenOf(id) == s.kv.LenOf(id)
    ensures KvInv(m, cap, s')
  {
    hide Inv, Trace, Known, Unseen, Step, Admit, AbortFrom, AbortEvents, Batch, Pool.Valid, Remembers, Shaped,
         RowsAfter;
    InvCanStep(m.bs, cap, s.e.st);
    AbortShape(Step(m.bs, eos, s.e.st, fwd).st);
    forall id | !Known(s'.e, id)
      ensures Unseen(s'.kv, s'.hist, id)
    {
      if Known(s.e, id) || id in Batch(Admit(m.bs, s.e.st).running).seqIds {
        StepKnown(m.bs, eos, cap, s.e, fwd, id);
      } else {
        SameUnseen(s.kv, s'.kv, s.hist, id);
      }
    }
  }

  lemma SameUnseen<R>(kv: Kv<R>, kv': Kv<R>, h: History<R>, id: SeqId)
    requires Unseen(kv, h, id) && kv'.LenOf(id) == kv.LenOf(id)
    ensures Unseen(kv', h, id)
  {
  }

  // ------------------------------------------------------------------ whole runs

  /** What one round brings: requests, the backend's answer, the rows its pass computes. */
  datatype Input<!R> = Input(incoming: seq<Request>, fwd: Forward, rows: PassRows<R>)

  ghost function AllIncoming<R>(inputs: seq<Input<R>>): seq<Request> {
    if inputs == [] then [] else AllIncoming(inputs[..|inputs| - 1]) + inputs[|inputs| - 1].incoming
  }

  /** A run of the loop in which every batch that is served has rows of equal length. */
  ghost predicate Runs<R(!new)>(m: Model<R>, eos: TokenId, cap: nat, states: seq<Serving<R>>, inputs: seq<Input<R>>) {
    && |states| == |inputs| + 1
    && KvInv(m, cap, states[0])
    && UniqueRequests(states[0].e.added + AllIncoming(inputs))
    && forall k :: 0 <= k < |inputs| ==> RunsAt(m, eos, states[k], inputs[k], states[k + 1])
  }

  ghost predicate RunsAt<R(!new)>(m: Model<R>, eos: TokenId, s: Serving<R>, input: Input<R>, s': Serving<R>) {
    && m.bs > 0 && s.e.st.pool.Valid() && Shaped(s.kv.cache, m.bs)
    && Next(m, eos, s, input.incoming, input.fwd, input.rows, s')
    && (Succeeds(m, eos, s, input.incoming, input.fwd) ==> EqualRows(BatchOf(m, s, input.incoming)))
  }

  /** In every state of every such run the cache remembers the whole history. */
  lemma {:induction false} RunRemembers<R(!new)>(m: Model<R>, eos: TokenId, cap: nat, states: seq<Serving<R>>,
                                                 inputs: seq<Input<R>>)
    requires Runs(m, eos, cap, states, inputs)
    ensures KvInv(m, cap, states[|inputs|])
    ensures states[|inputs|].e.added == states[0].e.added + AllIncoming(inputs)
    decreases |inputs|
  {
    hide KvInv, RunsAt, Next, UniqueRequests, Tick, EqualRows, Pool.Valid, Shaped, Succeeds;
    if inputs == [] {
      assert states[0].e.added + AllIncoming(inputs) == states[0].e.added;
    } else {
      var n := |inputs| - 1;
      var before := states[0].e.added + AllIncoming(inputs[..n]);
      assert states[0].e.added + AllIncoming(inputs) == before + inputs[n].incoming;
      PrefixUnique(before, inputs[n].incoming);
      ShorterRun(m, eos, cap, states, inputs);
      RunRemembers(m, eos, cap, states[..n + 1], inputs[..n]);
      RunsStep(m, eos, states[n], inputs[n], states[n + 1]);
      RoundKeeps(m, eos, cap, states[n], inputs[n].incoming, inputs[n].fwd, inputs[n].rows, states[n + 1]);
      TickAdds(m.bs, eos, states[n].e, inputs[n].incoming, inputs[n].fwd);
    }
  }

  lemma RunsStep<R(!new)>(m: Model<R>, eos: TokenId, s: Serving<R>, input: Input<R>, s': Serving<R>)
    requires RunsAt(m, eos, s, input, s')
    ensures m.bs > 0 && s.e.st.pool.Valid() && Shaped(s.kv.cache, m.bs)
    ensures Next(m, eos, s, input.incoming, input.fwd, input.rows, s')
    ensures s'.e == Tick(m.bs, eos, s.e, input.incoming, input.fwd)
    ensures Succeeds(m, eos, s, input.incoming, input.fwd) ==> EqualRows(BatchOf(m, s, input.incoming))
  {
  }

  lemma ShorterRun<R(!new)>(m: Model<R>, eos: TokenId, cap: nat, states: seq<Serving<R>>, inputs: seq<Input<R>>)
    requires Runs(m, eos, cap, states, inputs) && inputs != []
    ensures var n := |inputs| - 1;
      && (UniqueRequests(states[0].e.added + AllIncoming(inputs[..n])) ==>
        Runs(m, eos, cap, states[..n + 1], inputs[..n]))
      && states[..n + 1][0] == states[0] && states[..n + 1][|inputs[..n]|] == states[n]
      && RunsAt(m, eos, states[n], inputs[n], states[n + 1])
  {
    hide KvInv, RunsAt, UniqueRequests;
    var n := |inputs| - 1;
    forall k | 0 <= k < n
      ensures RunsAt(m, eos, states[..n + 1][k], inputs[..n][k], states[..n + 1][k + 1])
    {
      assert RunsAt(m, eos, states[k], inputs[k], states[k + 1]);
    }
  }
}

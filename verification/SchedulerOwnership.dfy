/**
 Block ownership: whatever a step does, and however it ends, every physical block is either
 free or in exactly one running table, once.
 */
module SchedulerOwnership {
  import opened Types
  import opened BlockAllocators
  import opened SchedulerSpec

  /** The blocks in all tables, with multiplicity. */
  ghost function Tables(running: seq<ActiveSequence>): multiset<BlockId> {
    if running == [] then multiset{}
    else multiset(running[0].blockTable) + Tables(running[1..])
  }

  ghost function AllBlocks(cap: nat): multiset<BlockId> {
    multiset(seq(cap, i => i))
  }

  /** Free blocks and tables together are all blocks, once each; nobody shares a block. */
  ghost predicate Owned(cap: nat, pool: Pool, tables: multiset<BlockId>) {
    && pool.Valid() && |pool.refs| == cap
    && multiset(pool.free) + tables == AllBlocks(cap)
    && forall b :: 0 <= b < cap ==> pool.refs[b] <= 1
  }

  ghost predicate Owns(cap: nat, st: State) {
    Owned(cap, st.pool, Tables(st.running))
  }

  lemma {:induction false} AllBlocksOnce(cap: nat, b: BlockId)
    ensures AllBlocks(cap)[b] == if b < cap then 1 else 0
  {
    if cap > 0 {
      AllBlocksOnce(cap - 1, b);
      assert seq(cap, i => i) == seq(cap - 1, i => i) + [cap - 1];
    }
  }

  /** What ownership means for one block: free with count 0, or in one table with count 1. */
  lemma OwnedMeans(cap: nat, st: State, b: BlockId)
    requires Owns(cap, st) && b < cap
    ensures multiset(st.pool.free)[b] + Tables(st.running)[b] == 1
    ensures st.pool.refs[b] == Tables(st.running)[b]
    ensures |st.pool.free| + |Tables(st.running)| == cap
  {
    AllBlocksOnce(cap, b);
    assert (multiset(st.pool.free) + Tables(st.running))[b] == 1;
    assert b in st.pool.free <==> b in multiset(st.pool.free);
    AllBlocksSize(cap);
    assert |multiset(st.pool.free) + Tables(st.running)| == cap;
  }

  lemma AllBlocksSize(cap: nat)
    ensures |AllBlocks(cap)| == cap
  {
  }

  /** An owned block exists and is not free. */
  lemma OwnedBlock(cap: nat, pool: Pool, tables: multiset<BlockId>, b: BlockId)
    requires Owned(cap, pool, tables) && b in tables
    ensures b < cap && pool.refs[b] == 1
  {
    AllBlocksOnce(cap, b);
    assert (multiset(pool.free) + tables)[b] >= 1;
    assert b in pool.free <==> b in multiset(pool.free);
  }

  // ------------------------------------------------------------------ tables under updates

  lemma {:induction false} TablesAppend(a: seq<ActiveSequence>, b: seq<ActiveSequence>)
    ensures Tables(a + b) == Tables(a) + Tables(b)
  {
    if a == [] {
      assert a + b == b;
    } else {
      assert (a + b)[1..] == a[1..] + b;
      TablesAppend(a[1..], b);
    }
  }

  lemma {:induction false} TablesSplit(running: seq<ActiveSequence>, k: nat)
    requires k < |running|
    ensures Tables(running) == Tables(running[..k]) + multiset(running[k].blockTable) + Tables(running[k + 1..])
  {
    assert running == running[..k] + ([running[k]] + running[k + 1..]);
    TablesAppend(running[..k], [running[k]] + running[k + 1..]);
    assert ([running[k]] + running[k + 1..])[1..] == running[k + 1..];
  }

  /** A row may keep its table or get one more block. */
  lemma TablesUpdate(running: seq<ActiveSequence>, k: nat, s: ActiveSequence, more: seq<BlockId>)
    requires k < |running| && s.blockTable == running[k].blockTable + more
    ensures Tables(running[k := s]) == Tables(running) + multiset(more)
  {
    var r := running[k := s];
    TablesSplit(running, k);
    TablesSplit(r, k);
    assert r[..k] == running[..k] && r[k + 1..] == running[k + 1..];
    assert multiset(s.blockTable) == multiset(running[k].blockTable) + multiset(more);
  }

  lemma TablesWithout(running: seq<ActiveSequence>, k: nat)
    requires k < |running|
    ensures Tables(WithoutAt(running, k)) + multiset(running[k].blockTable) == Tables(running)
  {
    TablesSplit(running, k);
    TablesAppend(running[..k], running[k + 1..]);
  }

  // ------------------------------------------------------------------ allocation and freeing

  lemma AllocateOwned(cap: nat, pool: Pool, tables: multiset<BlockId>)
    requires Owned(cap, pool, tables) && pool.free != []
    ensures pool.Allocate().0.Ok?
    ensures Owned(cap, pool.Allocate().1, tables + multiset{pool.Allocate().0.value})
  {
    pool.AllocateOk();
    assert pool.free == [pool.free[0]] + pool.free[1..];
  }

  lemma {:induction false} TakeBlocksOwned(cap: nat, pool: Pool, tables: multiset<BlockId>, n: nat)
    requires Owned(cap, pool, tables) && n <= |pool.free|
    ensures var (t, p) := TakeBlocks(pool, n); Owned(cap, p, tables + multiset(t))
    decreases n
  {
    hide Pool.Valid;
    if n > 0 {
      AllocateOwned(cap, pool, tables);
      var (r, p) := pool.Allocate();
      var (t, p') := TakeBlocks(p, n - 1);
      TakeBlocksOwned(cap, p, tables + multiset{r.value}, n - 1);
      assert multiset([r.value] + t) == multiset{r.value} + multiset(t);
      assert tables + multiset{r.value} + multiset(t) == tables + multiset([r.value] + t);
    }
  }

  lemma FreeOwned(cap: nat, pool: Pool, tables: multiset<BlockId>, b: BlockId)
    requires Owned(cap, pool, tables + multiset{b})
    ensures pool.Free(b).0 == Ok(true) && Owned(cap, pool.Free(b).1, tables)
  {
    OwnedBlock(cap, pool, tables + multiset{b}, b);
    var p := pool.Free(b).1;
    FreeValid(pool, b);
    assert multiset(p.free) + tables == multiset(pool.free) + (tables + multiset{b});
  }

  lemma FreeValid(pool: Pool, b: BlockId)
    requires pool.Valid() && b < |pool.refs| && pool.refs[b] == 1
    ensures pool.Free(b).1.Valid()
  {
    assert b !in pool.free;
  }

  /** Owned blocks can always be freed. */
  lemma {:induction false} FreeAllOwned(cap: nat, pool: Pool, tables: multiset<BlockId>, blocks: seq<BlockId>)
    requires Owned(cap, pool, tables + multiset(blocks))
    ensures FreeAll(pool, blocks).0 && Owned(cap, FreeAll(pool, blocks).1, tables)
    ensures FreeEach(pool, blocks) == FreeAll(pool, blocks).1
    ensures FreeAll(pool, blocks).1.free == pool.free + blocks
    decreases |blocks|
  {
    if blocks == [] {
      assert tables + multiset(blocks) == tables;
    } else {
      var b, rest := blocks[0], blocks[1..];
      assert blocks == [b] + rest;
      assert tables + multiset(blocks) == (tables + multiset(rest)) + multiset{b};
      FreeOwned(cap, pool, tables + multiset(rest), b);
      FreeAllOwned(cap, pool.Free(b).1, tables, rest);
    }
  }

  // ------------------------------------------------------------------ the parts of a step

  lemma {:induction false} AdmitOwns(bs: nat, cap: nat, st: State)
    requires bs > 0 && Owns(cap, st)
    ensures Owns(cap, Admit(bs, st))
    decreases |st.waiting|
  {
    if st.waiting != [] {
      var req := st.waiting[0];
      var n := Needed(bs, |req.promptTokens|);
      if |st.pool.free| >= n {
        TakeBlocksOwned(cap, st.pool, Tables(st.running), n);
        var (t, p) := TakeBlocks(st.pool, n);
        TablesAppend(st.running, [Activate(req, t)]);
        assert [Activate(req, t)][1..] == [];
        assert Tables([Activate(req, t)]) == multiset(t);
        AdmitOwns(bs, cap, State(st.waiting[1..], st.running + [Activate(req, t)], p));
      }
    }
  }

  lemma RowStepOwns(bs: nat, eos: TokenId, cap: nat, st: State, k: nat, token: TokenId)
    requires Owns(cap, st) && k < |st.running|
    ensures Owns(cap, RowStep(bs, eos, st, k, token).0)
  {
    var (s, done) := Advance(st.running[k], eos, token);
    assert s.blockTable == st.running[k].blockTable + [];
    TablesUpdate(st.running, k, s, []);
    if !done && |s.tokenHistory| >= |s.blockTable| * bs && |st.pool.free| > 0 {
      AllocateOwned(cap, st.pool, Tables(st.running));
      var (b, p) := st.pool.Allocate();
      TablesUpdate(st.running, k, s.(blockTable := s.blockTable + [b.value]), [b.value]);
      assert multiset([b.value]) == multiset{b.value};
    }
  }

  lemma {:induction false} PostRowsOwns(bs: nat, eos: TokenId, cap: nat, st: State, ids: seq<SeqId>,
                                        next: nat -> Option<TokenId>, n: nat)
    requires Owns(cap, st) && n <= |ids|
    ensures Owns(cap, PostRows(bs, eos, st, ids, next, n).st)
    decreases n
  {
    if n > 0 {
      PostRowsOwns(bs, eos, cap, st, ids, next, n - 1);
      var o := PostRows(bs, eos, st, ids, next, n - 1);
      if o.ok {
        match FindSeq(o.st.running, ids[n - 1])
        case None =>
        case Some(k) =>
          match next(n - 1)
          case None =>
          case Some(token) => RowStepOwns(bs, eos, cap, o.st, k, token);
      }
    }
  }

  lemma RetireOwns(cap: nat, st: State, id: SeqId)
    requires Owns(cap, st)
    ensures Retire(st, id).1 && Owns(cap, Retire(st, id).0)
  {
    match FindSeq(st.running, id)
    case None =>
    case Some(k) =>
      TablesWithout(st.running, k);
      FreeAllOwned(cap, st.pool, Tables(WithoutAt(st.running, k)), st.running[k].blockTable);
  }

  lemma {:induction false} RetireAllOwns(cap: nat, st: State, left: seq<(SeqId, Leave)>, n: nat)
    requires Owns(cap, st) && n <= |left|
    ensures RetireAll(st, left, n).1 && Owns(cap, RetireAll(st, left, n).0)
    decreases n
  {
    if n > 0 {
      RetireAllOwns(cap, st, left, n - 1);
      RetireOwns(cap, RetireAll(st, left, n - 1).0, left[n - 1].0);
    }
  }

  /**
   Every step keeps ownership, also one that ends in an error, and none of its allocations and
   frees can fail: the step errs only if packing, the backend or sampling does.
   */
  lemma StepOwns(bs: nat, eos: TokenId, cap: nat, st: State, fwd: Forward)
    requires bs > 0 && Owns(cap, st)
    ensures var o := Step(bs, eos, st, fwd);
      && Owns(cap, o.st)
      && var a := Admit(bs, st);
         var ids := Batch(a.running).seqIds;
         (!o.ok ==> a.running != [] && (!Packable(a.running) || fwd.Failed? ||
                                        !PostRows(bs, eos, a, ids, fwd.next, |ids|).ok))
  {
    AdmitOwns(bs, cap, st);
    var a := Admit(bs, st);
    if a.running != [] && Packable(a.running) && fwd.Output? {
      var ids := Batch(a.running).seqIds;
      PostRowsOwns(bs, eos, cap, a, ids, fwd.next, |ids|);
      var p := PostRows(bs, eos, a, ids, fwd.next, |ids|);
      if p.ok {
        RetireAllOwns(cap, p.st, p.left, |p.left|);
      }
    }
  }

  /** Aborting returns every block to the pool. */
  lemma {:induction false} AbortOwns(cap: nat, st: State)
    requires Owns(cap, st)
    ensures var a := AbortFrom(st);
      Owns(cap, a) && a.running == [] && a.waiting == st.waiting && |a.pool.free| == cap
    decreases |st.running|
  {
    if st.running != [] {
      var s, rest := st.running[0], st.running[1..];
      assert Tables(st.running) == Tables(rest) + multiset(s.blockTable);
      FreeAllOwned(cap, st.pool, Tables(rest), s.blockTable);
      AbortOwns(cap, st.(running := rest, pool := FreeEach(st.pool, s.blockTable)));
    } else {
      AllBlocksSize(cap);
      assert multiset(st.pool.free) == AllBlocks(cap);
    }
  }

  /** At the start every block is free. */
  lemma InitOwns(cap: nat, pool: Pool)
    requires pool.Valid() && pool.free == seq(cap, i => i) && pool.refs == seq(cap, _ => 0)
    ensures Owns(cap, State([], [], pool))
  {
  }
}

/**
 The continuous-batching scheduler as an object.  `Step` is proved to compute the step function
 of SchedulerSpec, and to keep the prefix cache consistent with the running queue: a running
 sequence is always stored under its prompt and never on the recycling list.
 */
module Schedulers {
  import opened Types
  import opened RadixLayout
  import opened Radix
  import opened PrefixCaches
  import opened Recycling
  import opened BlockAllocators
  import opened SchedulerSpec
  import opened SchedulerOwnership
  import opened SchedulerSteps
  import opened SchedulerDrain

  /** A running sequence is stored under its prompt and is not up for removal. */
  ghost predicate Cached(s: ActiveSequence, paths: Paths, recycling: seq<SeqId>) {
    && s.seqId in paths && s.seqId !in recycling && s.tokensGenerated <= |s.tokenHistory|
    && paths[s.seqId] == s.tokenHistory[..|s.tokenHistory| - s.tokensGenerated]
  }

  ghost predicate AllCached(running: seq<ActiveSequence>, paths: Paths, recycling: seq<SeqId>) {
    forall i :: 0 <= i < |running| ==> Cached(running[i], paths, recycling)
  }

  /** Waiting requests are not stored yet. */
  ghost predicate NoneStored(waiting: seq<Request>, paths: Paths) {
    forall i :: 0 <= i < |waiting| ==> waiting[i].seqId !in paths
  }

  /** Storing a newly admitted sequence leaves the others alone. */
  lemma InsertKeepsCached(running: seq<ActiveSequence>, paths: Paths, recycling: seq<SeqId>,
                          req: Request, table: seq<BlockId>, recycling2: seq<SeqId>)
    requires AllCached(running, paths, recycling) && req.seqId !in paths
    requires forall x :: x in recycling ==> x in paths
    requires forall x :: x in recycling2 ==> x in recycling
    ensures AllCached(running + [Activate(req, table)], paths[req.seqId := req.promptTokens], recycling2)
  {
    assert Cached(Activate(req, table), paths[req.seqId := req.promptTokens], recycling2);
  }

  /**
   Recycling a sequence that has just left the running queue evicts only a sequence that left
   earlier: everybody still running stays stored under the same prompt.
   */
  lemma RecycleKeepsCached(running: seq<ActiveSequence>, paths: Paths, recycling: seq<SeqId>, max: nat, id: SeqId)
    requires AllCached(running, paths, recycling)
    requires forall i :: 0 <= i < |running| ==> running[i].seqId != id
    ensures var (p, r) := Recycled(paths, recycling, max, id);
      && AllCached(running, p, r)
      && (forall x :: x in paths && x !in p ==> x in recycling || x == id)
      && (forall x :: x in p ==> x in paths && p[x] == paths[x])
  {
    var (p, r) := Recycled(paths, recycling, max, id);
    RemoveFirstSubset(recycling, id);
    forall i | 0 <= i < |running|
      ensures Cached(running[i], p, r)
    {
      assert Cached(running[i], paths, recycling);
    }
  }

  lemma RemoveFirstSubset(s: seq<SeqId>, x: SeqId)
    ensures forall y :: y in RemoveFirst(s, x) ==> y in s
  {
    forall y | y in RemoveFirst(s, x)
      ensures y in s
    {
      assert y in multiset(RemoveFirst(s, x));
      assert y in multiset(s);
    }
  }

  /** One more token changes neither prompt nor place. */
  lemma RowKeepsCached(running: seq<ActiveSequence>, paths: Paths, recycling: seq<SeqId>, k: nat, s: ActiveSequence)
    requires AllCached(running, paths, recycling) && k < |running|
    requires s.seqId == running[k].seqId && |s.tokenHistory| == |running[k].tokenHistory| + 1
    requires s.tokenHistory[..|running[k].tokenHistory|] == running[k].tokenHistory
    requires s.tokensGenerated == running[k].tokensGenerated + 1
    ensures AllCached(running[k := s], paths, recycling)
  {
    assert Cached(running[k], paths, recycling);
    assert s.tokenHistory[..|s.tokenHistory| - s.tokensGenerated]
      == running[k].tokenHistory[..|running[k].tokenHistory| - running[k].tokensGenerated];
    assert Cached(s, paths, recycling);
  }

  lemma RowStepIds(bs: nat, eos: TokenId, st: State, k: nat, token: TokenId)
    requires st.pool.Valid() && Unique(st) && k < |st.running|
    ensures Unique(RowStep(bs, eos, st, k, token).0)
  {
    hide Pool.Valid;
  }

  lemma RowStepCached(bs: nat, eos: TokenId, st: State, k: nat, token: TokenId, paths: Paths, recycling: seq<SeqId>)
    requires st.pool.Valid() && AllCached(st.running, paths, recycling) && k < |st.running|
    ensures AllCached(RowStep(bs, eos, st, k, token).0.running, paths, recycling)
  {
    hide Pool.Valid, Cached, AllCached;
    var st' := RowStep(bs, eos, st, k, token).0;
    RowKeepsCached(st.running, paths, recycling, k, st'.running[k]);
  }

  /** A row's step keeps ownership, ids, and the agreement with the cache. */
  lemma RowStepKeeps(bs: nat, eos: TokenId, cap: nat, st: State, k: nat, token: TokenId, paths: Paths,
                     recycling: seq<SeqId>)
    requires Owns(cap, st) && Unique(st) && AllCached(st.running, paths, recycling) && k < |st.running|
    ensures var st' := RowStep(bs, eos, st, k, token).0;
      Owns(cap, st') && Unique(st') && AllCached(st'.running, paths, recycling)
  {
    hide RowStep, Unique, AllCached, Pool.Valid;
    RowStepOwns(bs, eos, cap, st, k, token);
    RowStepIds(bs, eos, st, k, token);
    RowStepCached(bs, eos, st, k, token, paths, recycling);
  }

  class Scheduler {
    const blockAllocator: BlockAllocator
    const prefixCache: PrefixCache
    const blockSize: nat
    const eosTokenId: TokenId
    var waitingQueue: seq<Request>
    var runningQueue: seq<ActiveSequence>
    ghost var used: set<SeqId>  // every id ever added; ids are never reused

    constructor (blockSize: nat, eosTokenId: TokenId, blockPoolSize: nat)
      requires blockSize > 0
      ensures Valid() && used == {} && waitingQueue == [] && runningQueue == []
      ensures this.blockSize == blockSize && this.eosTokenId == eosTokenId && blockAllocator.capacity == blockPoolSize
      ensures fresh(blockAllocator) && fresh(prefixCache) && fresh(prefixCache.tree) && fresh(prefixCache.tree.nodes)
    {
      blockAllocator := new BlockAllocator(blockPoolSize);
      prefixCache := new PrefixCache(MAX_RECYCLING);
      this.blockSize := blockSize;
      this.eosTokenId := eosTokenId;
      waitingQueue, runningQueue, used := [], [], {};
    }

    ghost function Abs(): State
      reads this, blockAllocator
    {
      State(waitingQueue, runningQueue, blockAllocator.Abs())
    }

    ghost predicate Queues()
      reads this, blockAllocator
    {
      && blockSize > 0 && blockAllocator.Valid()
      && Owns(blockAllocator.capacity, Abs()) && Unique(Abs())
    }

    ghost predicate CacheOk()
      reads this, prefixCache, prefixCache.tree, prefixCache.tree.nodes
    {
      && prefixCache.Valid() && prefixCache.maxRecyclingSeqs == MAX_RECYCLING
      && AllCached(runningQueue, prefixCache.seqToPath, prefixCache.recyclingSeqs)
      && NoneStored(waitingQueue, prefixCache.seqToPath)
      && prefixCache.seqToPath.Keys <= used
      && forall i :: 0 <= i < |waitingQueue| ==> waitingQueue[i].seqId in used
    }

    ghost predicate Valid()
      reads this, blockAllocator, prefixCache, prefixCache.tree, prefixCache.tree.nodes
    {
      Queues() && CacheOk()
    }

    method AddRequest(request: Request)
      requires Valid() && request.seqId !in used
      modifies this
      ensures Abs() == old(Abs()).(waiting := old(waitingQueue) + [request])
      ensures used == old(used) + {request.seqId}
      ensures Valid()
    {
      hide PrefixCache.Valid, Owned, BlockAllocator.Valid;
      AddUnique(request);
      waitingQueue := waitingQueue + [request];
      used := used + {request.seqId};
    }

    lemma AddUnique(request: Request)
      requires Valid() && request.seqId !in used
      ensures Unique(Abs().(waiting := waitingQueue + [request]))
    {
      hide PrefixCache.Valid, Owned, BlockAllocator.Valid;
      forall i | 0 <= i < |runningQueue|
        ensures runningQueue[i].seqId != request.seqId
      {
        assert Cached(runningQueue[i], prefixCache.seqToPath, prefixCache.recyclingSeqs);
      }
    }

    // ---------------------------------------------------------------- 1. admission

    /** Takes the blocks for a prompt; there are enough, so no allocation fails. */
    lemma TakeFirst(pool: Pool, n: nat)
      requires pool.Valid() && 0 < n <= |pool.free|
      ensures var (r, p) := pool.Allocate();
        && r.Ok? && p.Valid() && n - 1 <= |p.free|
        && TakeBlocks(pool, n) == ([r.value] + TakeBlocks(p, n - 1).0, TakeBlocks(p, n - 1).1)
    {
      pool.AllocateOk();
      hide Pool.Valid;
    }

    lemma TakeNone(pool: Pool)
      requires pool.Valid()
      ensures TakeBlocks(pool, 0) == ([], pool)
    {
    }

    method AllocateBlocks(n: nat) returns (table: seq<BlockId>)
      requires blockAllocator.Valid() && n <= |blockAllocator.freeList|
      modifies blockAllocator
      ensures (table, blockAllocator.Abs()) == TakeBlocks(old(blockAllocator.Abs()), n)
      ensures blockAllocator.Valid()
    {
      hide TakeBlocks, Pool.Valid;
      table := [];
      assert [] + TakeBlocks(blockAllocator.Abs(), n).0 == TakeBlocks(blockAllocator.Abs(), n).0;
      for i := 0 to n
        invariant blockAllocator.Valid() && n - i <= |blockAllocator.freeList|
        invariant var (t, p) := TakeBlocks(blockAllocator.Abs(), n - i);
          (table + t, p) == TakeBlocks(old(blockAllocator.Abs()), n)
      {
        TakeFirst(blockAllocator.Abs(), n - i);
        var b := blockAllocator.Allocate();
        if b.Err? {
          assert false; // the error return: there are enough free blocks
        }
        ghost var rest := TakeBlocks(blockAllocator.Abs(), n - i - 1).0;
        assert table + ([b.value] + rest) == (table + [b.value]) + rest;
        table := table + [b.value];
      }
      TakeNone(blockAllocator.Abs());
      assert table + [] == table;
    }

    /** The stored paths and the recycling list. */
    ghost function CacheAbs(): (Paths, seq<SeqId>)
      reads prefixCache
    {
      (prefixCache.seqToPath, prefixCache.recyclingSeqs)
    }

    /** Stores a prompt that is not stored yet; a closest sequence that is recycled comes off the list. */
    method StorePrompt(req: Request) returns (ghost reuse: Option<SeqId>)
      requires prefixCache.Valid() && req.seqId !in prefixCache.seqToPath
      modifies prefixCache, prefixCache.tree, prefixCache.tree.nodes
      ensures prefixCache.Valid() && prefixCache.tree.OnlyNew()
      ensures prefixCache.seqToPath == old(prefixCache.seqToPath)[req.seqId := req.promptTokens]
      ensures prefixCache.recyclingSeqs == WithoutOption(old(prefixCache.recyclingSeqs), reuse)
      ensures forall x :: x in prefixCache.recyclingSeqs ==> x in old(prefixCache.recyclingSeqs)
      ensures Reuses(old(prefixCache.seqToPath), old(prefixCache.recyclingSeqs), req.promptTokens, reuse)
    {
      hide PrefixCache.Agrees, NoDup, Lcp, LongestShared, Shares, Reuses;
      ghost var paths, recycling := prefixCache.seqToPath, prefixCache.recyclingSeqs;
      var matchRes := prefixCache.InsertSequence(req.seqId, req.promptTokens);
      reuse := matchRes.reuseSeqId;
      MatchReuses(paths, recycling, req.promptTokens, matchRes);
    }

    /** Activates the request at the head of the waiting queue. */
    method AdmitOne(needed: nat) returns (ghost reuse: Option<SeqId>)
      requires Valid() && waitingQueue != []
      requires needed == Needed(blockSize, |waitingQueue[0].promptTokens|) <= |blockAllocator.freeList|
      modifies this`waitingQueue, this`runningQueue, blockAllocator
      modifies prefixCache, prefixCache.tree, prefixCache.tree.nodes
      ensures waitingQueue == old(waitingQueue)[1..]
      ensures var req := old(waitingQueue)[0];
        && req.seqId !in old(CacheAbs()).0
        && Reuses(old(CacheAbs()).0, old(CacheAbs()).1, req.promptTokens, reuse)
        && CacheAbs() == (old(CacheAbs()).0[req.seqId := req.promptTokens], WithoutOption(old(CacheAbs()).1, reuse))
      ensures prefixCache.tree.OnlyNew()
      ensures Valid()
      ensures Admit(blockSize, Abs()) == Admit(blockSize, old(Abs()))
    {
      hide PrefixCache.Agrees, Owned, Pool.Valid, Admit, TakeBlocks, NoDup, Reuses, WithoutOption;
      var req := waitingQueue[0];
      ghost var was := Abs();
      ghost var paths, recycling := prefixCache.seqToPath, prefixCache.recyclingSeqs;
      waitingQueue := waitingQueue[1..];
      var blockTable := AllocateBlocks(needed);
      reuse := StorePrompt(req);
      runningQueue := runningQueue + [Activate(req, blockTable)];
      InsertKeepsCached(was.running, paths, recycling, req, blockTable, prefixCache.recyclingSeqs);
      HeadJoins(blockSize, blockAllocator.capacity, was, blockTable, blockAllocator.Abs());
    }

    /**
     Prefills waiting requests, in order, while their prompts fit the free blocks.  Each prompt is
     stored at its turn, and the recycled sequence it matches, if any, comes off the list.
     */
    method AdmitWaiting() returns (ghost reuses: seq<Option<SeqId>>)
      requires Valid()
      modifies this`waitingQueue, this`runningQueue, blockAllocator
      modifies prefixCache, prefixCache.tree, prefixCache.tree.nodes
      ensures |waitingQueue| <= |old(waitingQueue)|
      ensures var admitted := old(waitingQueue)[..|old(waitingQueue)| - |waitingQueue|];
        && AllReuse(old(CacheAbs()).0, old(CacheAbs()).1, admitted, reuses)
        && CacheAbs() == AllStored(old(CacheAbs()).0, old(CacheAbs()).1, admitted, reuses)
      ensures prefixCache.tree.OnlyNew()
      ensures Valid() && Abs() == Admit(blockSize, old(Abs()))
    {
      hide CacheOk, Owns, Unique, Pool.Valid, Admit, Admitting;
      ghost var waiting, was, k := waitingQueue, CacheAbs(), 0;
      reuses := [];
      AdmittedNone();
      while waitingQueue != []
        invariant Valid() && prefixCache.tree.OnlyNew()
        invariant Admit(blockSize, Abs()) == Admit(blockSize, old(Abs()))
        invariant Admitting(was, waiting, k, reuses)
        decreases |waitingQueue|
      {
        var neededBlocks := (|waitingQueue[0].promptTokens| + blockSize - 1) / blockSize;
        if blockAllocator.FreeBlocks() >= neededBlocks {
          reuses := AdmitNext(neededBlocks, was, waiting, k, reuses);
          k := k + 1;
        } else {
          break;
        }
      }
      StopsAdmitting(blockSize, Abs());
      AdmittedPrefix(was, waiting, k, reuses);
    }

    /** The first k of these requests have been admitted, with these sequences reused for them. */
    ghost predicate Admitting(was: (Paths, seq<SeqId>), waiting: seq<Request>, k: nat, reuses: seq<Option<SeqId>>)
      reads this`waitingQueue, prefixCache
    {
      && k <= |waiting| && waitingQueue == waiting[k..] && AllReuse(was.0, was.1, waiting[..k], reuses)
      && CacheAbs() == AllStored(was.0, was.1, waiting[..k], reuses)
    }

    lemma AdmittedNone()
      ensures Admitting(CacheAbs(), waitingQueue, 0, [])
    {
    }

    lemma AdmittedPrefix(was: (Paths, seq<SeqId>), waiting: seq<Request>, k: nat, reuses: seq<Option<SeqId>>)
      requires Admitting(was, waiting, k, reuses)
      ensures |waitingQueue| <= |waiting| && k == |waiting| - |waitingQueue|
      ensures AllReuse(was.0, was.1, waiting[..k], reuses)
      ensures CacheAbs() == AllStored(was.0, was.1, waiting[..k], reuses)
    {
      hide AllReuse, AllStored;
    }

    /** One more of them. */
    method AdmitNext(needed: nat, ghost was: (Paths, seq<SeqId>), ghost waiting: seq<Request>, ghost k: nat,
                     ghost reuses: seq<Option<SeqId>>) returns (ghost more: seq<Option<SeqId>>)
      requires Valid() && Admitting(was, waiting, k, reuses) && waitingQueue != []
      requires needed == Needed(blockSize, |waitingQueue[0].promptTokens|) <= |blockAllocator.freeList|
      modifies this`waitingQueue, this`runningQueue, blockAllocator
      modifies prefixCache, prefixCache.tree, prefixCache.tree.nodes
      ensures prefixCache.tree.OnlyNew()
      ensures Valid() && Admitting(was, waiting, k + 1, more) && |waitingQueue| < old(|waitingQueue|)
      ensures Admit(blockSize, Abs()) == Admit(blockSize, old(Abs()))
    {
      hide CacheOk, Owns, Unique, Pool.Valid, Admit, AllStored, AllReuse, Reuses, WithoutOption;
      ghost var reuse := AdmitOne(needed);
      OneMoreAdmitted(was, waiting, k, reuses, reuse);
      more := reuses + [reuse];
    }

    // ---------------------------------------------------------------- 2. batch packing

    /** Packs the running sequences into one batch; fails on a decode row without history. */
    method PackBatch() returns (r: Option<BatchInput>)
      ensures r == if Packable(runningQueue) then Some(Batch(runningQueue)) else None
    {
      hide Batch, Packable;
      var seqIds, tokenIds, blockTables, isPrefill := [], [], [], [];
      var cuSeqlens: seq<nat> := [0];
      var currOffset: nat := 0;
      BatchNone();
      for i := 0 to |runningQueue|
        invariant Packable(runningQueue[..i])
        invariant BatchInput(seqIds, tokenIds, cuSeqlens, blockTables, isPrefill) == Batch(runningQueue[..i])
        invariant currOffset == |tokenIds|
      {
        var s := runningQueue[i];
        BatchNext(runningQueue, i);
        seqIds := seqIds + [s.seqId];
        blockTables := blockTables + [s.blockTable];
        isPrefill := isPrefill + [s.isPrefill];
        if s.isPrefill {
          tokenIds := tokenIds + s.tokenHistory;
          currOffset := currOffset + |s.tokenHistory|;
        } else {
          if s.tokenHistory == [] {
            return None;
          }
          tokenIds := tokenIds + [s.tokenHistory[|s.tokenHistory| - 1]];
          currOffset := currOffset + 1;
        }
        cuSeqlens := cuSeqlens + [currOffset];
      }
      assert runningQueue[..|runningQueue|] == runningQueue;
      r := Some(BatchInput(seqIds, tokenIds, cuSeqlens, blockTables, isPrefill));
    }

    // ---------------------------------------------------------------- 4. output rows

    /** The first running sequence with this id. */
    method FindRunning(id: SeqId) returns (r: Option<nat>)
      ensures r == FindSeq(runningQueue, id)
    {
      for i := 0 to |runningQueue|
        invariant forall j :: 0 <= j < i ==> runningQueue[j].seqId != id
        invariant FindSeq(runningQueue, id) ==
          match FindSeq(runningQueue[i..], id) case None => None case Some(k) => Some(k + i)
      {
        if runningQueue[i].seqId == id {
          return Some(i);
        }
        assert runningQueue[i..][1..] == runningQueue[i + 1..];
      }
      r := None;
    }

    /** Appends the token to sequence k and decides whether it goes on, grows or is to leave. */
    method PostProcess(k: nat, token: TokenId) returns (event: Event, leave: Option<Leave>)
      requires Valid() && k < |runningQueue|
      modifies this`runningQueue, blockAllocator
      ensures Abs() == RowStep(blockSize, eosTokenId, old(Abs()), k, token).0
      ensures event == RowStep(blockSize, eosTokenId, old(Abs()), k, token).1
      ensures leave == RowStep(blockSize, eosTokenId, old(Abs()), k, token).2
      ensures |runningQueue| == old(|runningQueue|)
      ensures Valid()
    {
      hide PrefixCache.Valid, Owns, Unique, AllCached, NoneStored, Pool.Valid;
      RowStepKeeps(blockSize, eosTokenId, blockAllocator.capacity, Abs(), k, token,
                   prefixCache.seqToPath, prefixCache.recyclingSeqs);
      var s := runningQueue[k];
      s := s.(tokenHistory := s.tokenHistory + [token], tokensGenerated := s.tokensGenerated + 1);
      var isEos := token == eosTokenId;
      var reachedMax := s.tokensGenerated >= s.maxNewTokens;
      event := Event(s.seqId, token, isEos || reachedMax);
      leave := None;
      if isEos || reachedMax {
        leave := Some(Finished);
      } else {
        s := s.(isPrefill := false);
        if |s.tokenHistory| >= |s.blockTable| * blockSize {
          if blockAllocator.FreeBlocks() > 0 {
            var newBlock := blockAllocator.Allocate();
            s := s.(blockTable := s.blockTable + [newBlock.value]);
          } else {
            leave := Some(Preempted);
          }
        }
      }
      runningQueue := runningQueue[k := s];
    }

    /** The rows of the output in order; a sampling failure ends the step at once. */
    method ProcessRows(seqIds: seq<SeqId>, next: nat -> Option<TokenId>)
        returns (events: seq<Event>, left: seq<(SeqId, Leave)>, ok: bool)
      requires Valid()
      modifies this`runningQueue, blockAllocator
      ensures Valid()
      ensures Outcome(Abs(), events, left, ok) == PostRows(blockSize, eosTokenId, old(Abs()), seqIds, next, |seqIds|)
    {
      hide PrefixCache.Valid, Owned, Unique, AllCached, NoneStored, Pool.Valid, RowStep;
      events, left, ok := [], [], true;
      ghost var was := Abs();
      for i := 0 to |seqIds|
        invariant Valid() && ok
        invariant Outcome(Abs(), events, left, true) == PostRows(blockSize, eosTokenId, was, seqIds, next, i)
      {
        var found := FindRunning(seqIds[i]);
        if found.Some? {
          var token := next(i);
          if token.None? {
            ok := false;
            StopsAt(blockSize, eosTokenId, was, seqIds, next, i + 1, |seqIds|);
            return;
          }
          var event, leave := PostProcess(found.value, token.value);
          events := events + [event];
          left := left + (if leave.Some? then [(event.seqId, leave.value)] else []);
        }
      }
    }

    // ---------------------------------------------------------------- 5. cleanup

    /** Returns a sequence's blocks to the pool. */
    method FreeBlockTable(blocks: seq<BlockId>) returns (ok: bool)
      requires blockAllocator.Valid()
      modifies blockAllocator
      ensures blockAllocator.Valid()
      ensures (ok, blockAllocator.Abs()) == FreeAll(old(blockAllocator.Abs()), blocks)
    {
      for i := 0 to |blocks|
        invariant blockAllocator.Valid()
        invariant FreeAll(blockAllocator.Abs(), blocks[i..]) == FreeAll(old(blockAllocator.Abs()), blocks)
      {
        assert blocks[i..][0] == blocks[i] && blocks[i..][1..] == blocks[i + 1..];
        var r := blockAllocator.Free(blocks[i]);
        if r.Err? {
          return false;
        }
      }
      ok := true;
    }

    /** Takes one sequence out of the running queue and the pool, and hands it to the cache. */
    method RetireOne(id: SeqId) returns (ok: bool)
      requires Valid()
      modifies this`runningQueue, blockAllocator
      modifies prefixCache, prefixCache.tree, prefixCache.tree.nodes
      ensures prefixCache.tree.OnlyNew()
      ensures Valid()
      ensures (Abs(), ok) == Retire(old(Abs()), id)
      ensures CacheAbs() == if FindSeq(old(runningQueue), id).None? then old(CacheAbs())
                            else Recycled(old(CacheAbs()).0, old(CacheAbs()).1, MAX_RECYCLING, id)
    {
      hide PrefixCache.Valid, Owned, NoneStored, Pool.Valid, FreeAll, AllCached, Tables, Recycled;
      RetireOwns(blockAllocator.capacity, Abs(), id);
      var found := FindRunning(id);
      if found.None? {
        return true;
      }
      var seq0 := runningQueue[found.value];
      RetireLeaves(Abs(), found.value);
      runningQueue := WithoutAt(runningQueue, found.value);
      ok := FreeBlockTable(seq0.blockTable);
      RecycleFinished(id);
    }

    /** Hands a sequence that has left the running queue to the cache. */
    method RecycleFinished(id: SeqId)
      requires CacheOk() && forall i :: 0 <= i < |runningQueue| ==> runningQueue[i].seqId != id
      modifies prefixCache, prefixCache.tree, prefixCache.tree.nodes
      ensures prefixCache.tree.OnlyNew()
      ensures CacheAbs() == Recycled(old(CacheAbs()).0, old(CacheAbs()).1, MAX_RECYCLING, id)
      ensures CacheOk()
    {
      RecycleKeepsCached(runningQueue, prefixCache.seqToPath, prefixCache.recyclingSeqs, MAX_RECYCLING, id);
      hide PrefixCache.Valid, Recycled, AllCached;
      prefixCache.RecycleSequence(id);
    }

    /** This sequence is at the end of the recycling list, and still stored. */
    ghost predicate RecycledLast(id: SeqId)
      reads prefixCache
    {
      var r := prefixCache.recyclingSeqs;
      r != [] && r[|r| - 1] == id && id in prefixCache.seqToPath
    }

    /** Everybody running can be handed to the cache. */
    lemma RunningQueue(ids: seq<SeqId>)
      requires Valid() && Leavers(runningQueue, ids)
      ensures CanQueue(CacheAbs().0, CacheAbs().1, ids)
    {
      CachedQueue(runningQueue, ids, CacheAbs().0, CacheAbs().1);
    }

    /** Retires those that leave, in order; the cache takes them in that order. */
    method Cleanup(left: seq<(SeqId, Leave)>) returns (ok: bool)
      requires Valid()
      modifies this`runningQueue, blockAllocator
      modifies prefixCache, prefixCache.tree, prefixCache.tree.nodes
      ensures prefixCache.tree.OnlyNew()
      ensures Valid()
      ensures (Abs(), ok) == RetireAll(old(Abs()), left, |left|) && ok
      ensures Leavers(old(runningQueue), LeavingIds(left)) ==>
        && CacheAbs() == QueuedUp(old(CacheAbs()).0, old(CacheAbs()).1, LeavingIds(left))
        && (left != [] ==> RecycledLast(left[|left| - 1].0))
    {
      hide PrefixCache.Valid, Owned, Unique, AllCached, NoneStored, Pool.Valid, Retire, Recycled, Leavers;
      hide AllRecycled, QueuedUp, CanQueue;
      ok := true;
      ghost var was, paths, recycling := Abs(), prefixCache.seqToPath, prefixCache.recyclingSeqs;
      NoIds(left, paths, recycling);
      if Leavers(runningQueue, LeavingIds(left)) {
        RunningQueue(LeavingIds(left));
      }
      for i := 0 to |left|
        invariant prefixCache.tree.OnlyNew()
        invariant Valid() && ok && (Abs(), true) == RetireAll(was, left, i)
        invariant Leavers(was.running, LeavingIds(left)) ==>
          CacheAbs() == AllRecycled(paths, recycling, LeavingIds(left[..i]))
      {
        RetireOwns(blockAllocator.capacity, Abs(), left[i].0);
        if Leavers(was.running, LeavingIds(left)) {
          UniqueRunning(was);
          LeaverFound(was, left, i);
          OneMoreRecycled(left, i, paths, recycling);
        }
        ok := RetireOne(left[i].0);
      }
      assert left[..|left|] == left;
      if Leavers(was.running, LeavingIds(left)) {
        QueueOfRecycled(paths, recycling, LeavingIds(left));
        if left != [] {
          LastQueued(paths, recycling, LeavingIds(left));
        }
      }
    }

    // ---------------------------------------------------------------- the step

    /** A valid scheduler can always be stepped. */
    lemma CanStep()
      requires Valid()
      ensures blockSize > 0 && Abs().pool.Valid()
    {
    }

    /** The cache has stored the admitted prompts, reusing these, and after a good step queued up those that left. */
    ghost predicate CacheAfter(was: (Paths, seq<SeqId>), admitted: seq<Request>, reuses: seq<Option<SeqId>>, ok: bool,
                               left: seq<(SeqId, Leave)>)
      reads prefixCache
    {
      && AllReuse(was.0, was.1, admitted, reuses)
      && var (paths, recycling) := AllStored(was.0, was.1, admitted, reuses);
      && CacheAbs() == (if ok then QueuedUp(paths, recycling, LeavingIds(left)) else (paths, recycling))
      && (ok && left != [] ==> RecycledLast(left[|left| - 1].0))
    }

    /**
     One serving step.  The backend's answer is `fwd`; `None` is the error result.  Whatever the
     outcome, the scheduler stays valid: blocks owned, ids unique, cache in agreement.  The cache
     has stored the prompts of those admitted, one by one, and after a good step queued up those that
     left, so that the last of them is at the end of the recycling list.
     */
    method Step(fwd: Forward) returns (r: Option<seq<Event>>, ghost reuses: seq<Option<SeqId>>)
      requires Valid()
      modifies this`waitingQueue, this`runningQueue, blockAllocator
      modifies prefixCache, prefixCache.tree, prefixCache.tree.nodes
      ensures prefixCache.tree.OnlyNew()
      ensures Valid()
      ensures var o := SchedulerSpec.Step(blockSize, eosTokenId, old(Abs()), fwd);
        Abs() == o.st && r == if o.ok then Some(o.events) else None
      ensures |waitingQueue| <= |old(waitingQueue)|
      ensures var o := SchedulerSpec.Step(blockSize, eosTokenId, old(Abs()), fwd);
        var admitted := old(waitingQueue)[..|old(waitingQueue)| - |waitingQueue|];
        CacheAfter(old(CacheAbs()), admitted, reuses, o.ok, o.left)
    {
      hide PrefixCache.Valid, Owned, Unique, AllCached, NoneStored, Pool.Valid;
      hide SchedulerSpec.Admit, PostRows, RetireAll, SchedulerSpec.Batch, Leavers, CacheAfter, AllStored, AllReuse,
           QueuedUp;
      ghost var waiting, was := waitingQueue, CacheAbs();
      reuses := AdmitWaiting();
      ghost var admitted := waiting[..|waiting| - |waitingQueue|];
      StoredOnly(was, admitted, reuses);
      if runningQueue == [] {
        return Some([]), reuses;
      }
      var batch := PackBatch();
      if batch.None? || fwd.Failed? {
        return None, reuses;
      }
      ghost var a := Abs();
      var events, left, ok := ProcessRows(batch.value.seqIds, fwd.next);
      if !ok {
        return None, reuses;
      }
      RowsLeave(blockSize, eosTokenId, a, fwd);
      var cleaned := Cleanup(left);
      StoredAndQueued(was, admitted, reuses, left);
      r := Some(events);
    }

    lemma StoredOnly(was: (Paths, seq<SeqId>), admitted: seq<Request>, reuses: seq<Option<SeqId>>)
      requires Valid() && AllReuse(was.0, was.1, admitted, reuses)
      requires CacheAbs() == AllStored(was.0, was.1, admitted, reuses)
      ensures CacheAfter(was, admitted, reuses, true, [])
      ensures forall left :: CacheAfter(was, admitted, reuses, false, left)
    {
      hide AllStored, AllReuse, PrefixCache.Agrees;
      NobodyQueued(CacheAbs().0, CacheAbs().1);
    }

    lemma StoredAndQueued(was: (Paths, seq<SeqId>), admitted: seq<Request>, reuses: seq<Option<SeqId>>,
                          left: seq<(SeqId, Leave)>)
      requires AllReuse(was.0, was.1, admitted, reuses)
      requires var (paths, recycling) := AllStored(was.0, was.1, admitted, reuses);
        CacheAbs() == QueuedUp(paths, recycling, LeavingIds(left))
      requires left != [] ==> RecycledLast(left[|left| - 1].0)
      ensures CacheAfter(was, admitted, reuses, true, left)
    {
      hide AllStored, AllReuse, QueuedUp;
    }

    /** Drops everything running: blocks go back to the pool, sequences to the recycling list, in order. */
    method AbortAllRunning()
      requires Valid()
      modifies this`runningQueue, blockAllocator
      modifies prefixCache, prefixCache.tree, prefixCache.tree.nodes
      ensures prefixCache.tree.OnlyNew()
      ensures Valid() && Abs() == AbortFrom(old(Abs()))
      ensures CacheAbs() == QueuedUp(old(CacheAbs()).0, old(CacheAbs()).1, RunningIds(old(runningQueue)))
    {
      hide PrefixCache.Valid, Owned, NoneStored, Pool.Valid, FreeAll, FreeEach, Retire, Recycled, RunningIds;
      hide QueuedUp, CanQueue, Leavers;
      UniqueRunning(Abs());
      RunningLeave(runningQueue);
      RunningQueue(RunningIds(runningQueue));
      ghost var cap := blockAllocator.capacity;
      while runningQueue != []
        invariant prefixCache.tree.OnlyNew()
        invariant Valid() && AbortFrom(Abs()) == AbortFrom(old(Abs()))
        invariant AllRecycled(CacheAbs().0, CacheAbs().1, RunningIds(runningQueue)) ==
          AllRecycled(old(CacheAbs()).0, old(CacheAbs()).1, RunningIds(old(runningQueue)))
        decreases |runningQueue|
      {
        AbortFirst(cap, Abs());
        FirstRunningId(runningQueue);
        var done := RetireOne(runningQueue[0].seqId);
      }
      NoRunningIds();
      QueueOfRecycled(old(CacheAbs()).0, old(CacheAbs()).1, RunningIds(old(runningQueue)));
    }

    function RunningSequenceIds(): seq<SeqId>
      reads this
    {
      seq(|runningQueue|, i requires 0 <= i < |runningQueue| reads this => runningQueue[i].seqId)
    }
  }

  // ------------------------------------------------------------------ what the cache is given

  function LeavingIds(left: seq<(SeqId, Leave)>): seq<SeqId> {
    seq(|left|, i requires 0 <= i < |left| => left[i].0)
  }

  function RunningIds(running: seq<ActiveSequence>): seq<SeqId> {
    seq(|running|, i requires 0 <= i < |running| => running[i].seqId)
  }

  lemma FirstRunningId(running: seq<ActiveSequence>)
    requires running != []
    ensures RunningIds(running) == [running[0].seqId] + RunningIds(running[1..])
    ensures FindSeq(running, running[0].seqId) == Some(0) && WithoutAt(running, 0) == running[1..]
    ensures RunningIds(running)[0] == running[0].seqId && RunningIds(running)[1..] == RunningIds(running[1..])
    ensures RunningIds(running) != []
  {
  }

  lemma NoRunningIds()
    ensures RunningIds([]) == []
  {
  }

  /** All of these are running, and none is named twice. */
  ghost predicate Leavers(running: seq<ActiveSequence>, ids: seq<SeqId>) {
    && (forall i :: 0 <= i < |ids| ==> FindSeq(running, ids[i]).Some?)
    && forall i, j :: 0 <= i < j < |ids| ==> ids[i] != ids[j]
  }

  lemma RunningLeave(running: seq<ActiveSequence>)
    requires Distinct(running)
    ensures Leavers(running, RunningIds(running))
  {
    forall i | 0 <= i < |running|
      ensures FindSeq(running, RunningIds(running)[i]).Some?
    {
      assert running[i].seqId == RunningIds(running)[i];
    }
  }

  /** Running sequences are stored and not on the list, so they can be queued up. */
  lemma CachedQueue(running: seq<ActiveSequence>, ids: seq<SeqId>, paths: Paths, recycling: seq<SeqId>)
    requires AllCached(running, paths, recycling) && Leavers(running, ids)
    requires NoDup(recycling) && |recycling| <= MAX_RECYCLING && forall x :: x in recycling ==> x in paths
    ensures CanQueue(paths, recycling, ids)
  {
    forall i | 0 <= i < |ids|
      ensures ids[i] in paths && ids[i] !in recycling
    {
      assert Cached(running[FindSeq(running, ids[i]).value], paths, recycling);
    }
  }

  lemma NoIds(left: seq<(SeqId, Leave)>, paths: Paths, recycling: seq<SeqId>)
    ensures left[..0] == [] && LeavingIds([]) == [] && AllRecycled(paths, recycling, []) == (paths, recycling)
  {
  }

  lemma NobodyQueued(paths: Paths, recycling: seq<SeqId>)
    requires |recycling| <= MAX_RECYCLING
    ensures QueuedUp(paths, recycling, LeavingIds([])) == (paths, recycling)
  {
    assert recycling + LeavingIds([]) == recycling && recycling[0..] == recycling;
    assert Oldest(recycling, 0) == {} && paths - {} == paths;
  }

  lemma OneMoreRecycled(left: seq<(SeqId, Leave)>, i: nat, paths: Paths, recycling: seq<SeqId>)
    requires i < |left|
    ensures var (p, r) := AllRecycled(paths, recycling, LeavingIds(left[..i]));
      AllRecycled(paths, recycling, LeavingIds(left[..i + 1])) == Recycled(p, r, MAX_RECYCLING, left[i].0)
  {
    hide AllRecycled, Recycled;
    assert LeavingIds(left[..i + 1]) == LeavingIds(left[..i]) + [left[i].0];
    RecycledMore(paths, recycling, LeavingIds(left[..i]), left[i].0);
  }

  /** At its turn each of them is still running. */
  lemma LeaverFound(st: State, left: seq<(SeqId, Leave)>, i: nat)
    requires Distinct(st.running) && i < |left| && RetireAll(st, left, i).1
    requires Leavers(st.running, LeavingIds(left))
    ensures FindSeq(RetireAll(st, left, i).0.running, left[i].0).Some?
  {
    RetireAllKeeps(st, left, i);
    hide RetireAll, Keep;
    assert LeavingIds(left)[i] == left[i].0;
    assert forall j :: 0 <= j < i ==> LeavingIds(left)[j] == left[j].0;
    var k := FindSeq(st.running, left[i].0).value;
    assert st.running[k] in st.running && st.running[k].seqId !in Gone(left, i);
    assert st.running[k] in Keep(st.running, Gone(left, i));
  }

  /** These leave, they are among the first n rows, and none is named twice. */
  ghost predicate AmongFirst(running: seq<ActiveSequence>, n: nat, left: seq<(SeqId, Leave)>)
    requires n <= |running|
  {
    && (forall i :: 0 <= i < |left| ==> RunsBefore(running, n, left[i].0))
    && forall i, j :: 0 <= i < j < |left| ==> left[i].0 != left[j].0
  }

  ghost predicate RunsBefore(running: seq<ActiveSequence>, n: nat, id: SeqId)
    requires n <= |running|
  {
    exists k :: 0 <= k < n && running[k].seqId == id
  }

  lemma OneMoreLeaves(running: seq<ActiveSequence>, n: nat, left: seq<(SeqId, Leave)>, l: seq<(SeqId, Leave)>)
    requires Distinct(running) && n < |running| && AmongFirst(running, n, left)
    requires l == [] || (|l| == 1 && l[0].0 == running[n].seqId)
    ensures AmongFirst(running, n + 1, left + l)
  {
    forall i | 0 <= i < |left|
      ensures (left + l)[i] == left[i] && left[i].0 != running[n].seqId && RunsBefore(running, n + 1, left[i].0)
    {
      assert RunsBefore(running, n, left[i].0);
    }
    assert l != [] ==> (left + l)[|left|] == l[0];
  }

  lemma {:induction false} LeavingRuns(t: Turn, n: nat)
    requires Distinct(t.running) && n <= |t.running|
    ensures AmongFirst(t.running, n, t.Leaving(n))
  {
    hide Turn.Leaves, Distinct;
    if n > 0 {
      LeavingRuns(t, n - 1);
      hide AmongFirst;
      OneMoreLeaves(t.running, n - 1, t.Leaving(n - 1),
        if t.next(n - 1).Some? && t.Leaves(n - 1).Some? then [(t.running[n - 1].seqId, t.Leaves(n - 1).value)] else []);
    }
  }

  /** Those marked to leave in good rows are running, each once. */
  lemma RowsLeave(bs: nat, eos: TokenId, a: State, fwd: Forward)
    requires bs > 0 && a.pool.Valid() && Unique(a) && fwd.Output?
    ensures var ids := Batch(a.running).seqIds;
      var p := PostRows(bs, eos, a, ids, fwd.next, |ids|);
      p.ok ==> Leavers(p.st.running, LeavingIds(p.left))
  {
    hide Batch, PostRows, Unique, Leavers, Turn.Leaving, AmongFirst;
    GoodRows(bs, eos, a, fwd);
    UniqueRunning(a);
    var ids := Batch(a.running).seqIds;
    var p, t := PostRows(bs, eos, a, ids, fwd.next, |ids|), TurnOf(bs, eos, a, fwd);
    if p.ok {
      LeavingRuns(t, |t.running|);
      DoneIds(t, p);
      DoneLeft(t, p);
      hide RowsDone;
      LeavingFound(t, p.st.running, p.left);
    }
  }

  lemma LeavingFound(t: Turn, running: seq<ActiveSequence>, left: seq<(SeqId, Leave)>)
    requires |running| == |t.running| && forall i :: 0 <= i < |running| ==> running[i].seqId == t.running[i].seqId
    requires AmongFirst(t.running, |t.running|, left)
    ensures Leavers(running, LeavingIds(left))
  {
    forall i | 0 <= i < |left|
      ensures FindSeq(running, left[i].0).Some?
    {
      assert RunsBefore(t.running, |t.running|, left[i].0);
      var k :| 0 <= k < |t.running| && t.running[k].seqId == left[i].0;
      assert running[k].seqId == left[i].0;
    }
  }

  // ------------------------------------------------------------------ admission and the cache

  lemma StopsAdmitting(bs: nat, st: State)
    requires bs > 0 && st.pool.Valid()
    requires st.waiting == [] || |st.pool.free| < Needed(bs, |st.waiting[0].promptTokens|)
    ensures Admit(bs, st) == st
  {
  }

  /** One more request admitted: its prompt is stored, and perhaps one more sequence is off the list. */
  lemma OneMoreAdmitted(was: (Paths, seq<SeqId>), waiting: seq<Request>, k: nat, reuses: seq<Option<SeqId>>,
                        reuse: Option<SeqId>)
    requires k < |waiting| && AllReuse(was.0, was.1, waiting[..k], reuses)
    requires var (p, r) := AllStored(was.0, was.1, waiting[..k], reuses);
      waiting[k].seqId !in p && Reuses(p, r, waiting[k].promptTokens, reuse)
    ensures waiting[k..][0] == waiting[k] && waiting[k..][1..] == waiting[k + 1..]
    ensures AllReuse(was.0, was.1, waiting[..k + 1], reuses + [reuse])
    ensures var (p, r) := AllStored(was.0, was.1, waiting[..k], reuses);
      AllStored(was.0, was.1, waiting[..k + 1], reuses + [reuse]) ==
        (p[waiting[k].seqId := waiting[k].promptTokens], WithoutOption(r, reuse))
  {
    hide AllStored, Reuses, WithoutOption;
    OneMoreStored(was.0, was.1, waiting[..k], reuses, waiting[k], reuse);
    assert waiting[..k] + [waiting[k]] == waiting[..k + 1];
  }

  /** What the insertion reports is what `Reuses` asks for. */
  lemma MatchReuses(paths: Paths, recycling: seq<SeqId>, prompt: seq<TokenId>, r: MatchResult)
    requires LongestShared(paths, prompt, r.matchedOffset)
    requires r.matchedOffset == 0 ==> r.reuseSeqId.None?
    requires r.matchedOffset > 0 ==> r.forkSeqId.Some? != r.reuseSeqId.Some?
    requires r.forkSeqId.Some? ==>
      Shares(paths, r.forkSeqId.value, prompt, r.matchedOffset) && r.forkSeqId.value !in recycling
    requires r.reuseSeqId.Some? ==>
      Shares(paths, r.reuseSeqId.value, prompt, r.matchedOffset) && r.reuseSeqId.value in recycling
    ensures Reuses(paths, recycling, prompt, r.reuseSeqId)
  {
    hide Lcp;
    if r.reuseSeqId.None? && r.matchedOffset > 0 {
      assert Closest(paths, prompt, r.forkSeqId.value);
    }
  }

  lemma BatchNone()
    ensures Packable([]) && Batch([]) == BatchInput([], [], [0], [], [])
  {
  }

  /** One more sequence in the batch. */
  lemma BatchNext(running: seq<ActiveSequence>, i: nat)
    requires i < |running|
    ensures var b, s := Batch(running[..i]), running[i];
      Batch(running[..i + 1]) == BatchInput(b.seqIds + [s.seqId], b.tokenIds + RowTokens(s),
        b.cuSeqlens + [|b.tokenIds| + |RowTokens(s)|], b.blockTables + [s.blockTable], b.isPrefill + [s.isPrefill])
    ensures Packable(running[..i + 1]) <==>
      Packable(running[..i]) && (running[i].isPrefill || running[i].tokenHistory != [])
    ensures Packable(running) ==> Packable(running[..i + 1])
  {
    assert running[..i + 1][..i] == running[..i];
    assert forall j :: 0 <= j <= i ==> running[..i + 1][j] == running[j];
    assert forall j :: 0 <= j < i ==> running[..i][j] == running[j];
    hide RowTokens;
  }

  /** Aborting the first sequence frees its blocks exactly as retiring it does. */
  lemma AbortFirst(cap: nat, st: State)
    requires Owns(cap, st) && Unique(st) && st.running != []
    ensures var (st', ok) := Retire(st, st.running[0].seqId);
      ok && st' == st.(running := st.running[1..], pool := FreeEach(st.pool, st.running[0].blockTable))
  {
    var s, rest := st.running[0], st.running[1..];
    assert Tables(st.running) == Tables(rest) + multiset(s.blockTable);
    FreeAllOwned(cap, st.pool, Tables(rest), s.blockTable);
    assert WithoutAt(st.running, 0) == rest;
  }

  lemma {:induction false} StopsAt(bs: nat, eos: TokenId, st: State, ids: seq<SeqId>, next: nat -> Option<TokenId>,
                                   n: nat, m: nat)
    requires st.pool.Valid() && n <= m <= |ids| && !PostRows(bs, eos, st, ids, next, n).ok
    ensures PostRows(bs, eos, st, ids, next, m) == PostRows(bs, eos, st, ids, next, n)
    decreases m
  {
    hide Pool.Valid, PostRow;
    if n < m {
      StopsAt(bs, eos, st, ids, next, n, m - 1);
    }
  }

  /** Without its row nobody running has the retired id. */
  lemma RetireLeaves(st: State, k: nat)
    requires Unique(st) && k < |st.running|
    ensures var r := WithoutAt(st.running, k);
      && (forall i :: 0 <= i < |r| ==> r[i].seqId != st.running[k].seqId && r[i] in st.running)
      && Unique(st.(running := r))
    ensures forall paths, recycling :: AllCached(st.running, paths, recycling) ==>
      AllCached(WithoutAt(st.running, k), paths, recycling)
  {
    var r := WithoutAt(st.running, k);
    assert forall i :: 0 <= i < |r| ==> r[i] == st.running[if i < k then i else i + 1];
  }

  /** The blocks taken for a request are owned by its new row. */
  lemma HeadOwns(cap: nat, running: seq<ActiveSequence>, free: Pool, req: Request, n: nat)
    requires Owned(cap, free, Tables(running)) && n <= |free.free|
    ensures var (table, pool) := TakeBlocks(free, n); Owned(cap, pool, Tables(running + [Activate(req, table)]))
  {
    TakeBlocksOwned(cap, free, Tables(running), n);
    var table := TakeBlocks(free, n).0;
    hide Owned, TakeBlocks;
    TablesAppend(running, [Activate(req, table)]);
    assert [Activate(req, table)][1..] == [];
    assert Tables([Activate(req, table)]) == multiset(table);
  }

  lemma HeadUnique(st: State, table: seq<BlockId>, pool: Pool)
    requires Unique(st) && st.waiting != []
    ensures Unique(State(st.waiting[1..], st.running + [Activate(st.waiting[0], table)], pool))
  {
  }

  /** Moving the head of the waiting queue over is the first step of admission. */
  lemma HeadJoins(bs: nat, cap: nat, st: State, table: seq<BlockId>, pool: Pool)
    requires bs > 0 && Owns(cap, st) && Unique(st) && st.waiting != []
    requires Needed(bs, |st.waiting[0].promptTokens|) <= |st.pool.free|
    requires (table, pool) == TakeBlocks(st.pool, Needed(bs, |st.waiting[0].promptTokens|))
    ensures var st' := State(st.waiting[1..], st.running + [Activate(st.waiting[0], table)], pool);
      Owns(cap, st') && Unique(st') && Admit(bs, st') == Admit(bs, st)
  {
    HeadOwns(cap, st.running, st.pool, st.waiting[0], Needed(bs, |st.waiting[0].promptTokens|));
    HeadUnique(st, table, pool);
    hide Owned, Unique, TakeBlocks, Tables;
  }
}

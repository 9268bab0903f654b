/**
 Capacity across scheduler and backend, in every run and for every batch, of equal rows or not: at
 each pass the stored length of a sequence is 0 before prefill and one less than its history
 after, stored length and row make up the history, and the block table has room for it.
 */
module KvLengths {
  import opened Types
  import opened BlockAllocators
  import opened SchedulerSpec
  import opened SchedulerOwnership
  import opened SchedulerSteps
  import opened SchedulerDrain
  import opened EngineRuns
  import opened PagedKv
  import opened KvPass
  import opened KvRuns

  /** The lengths on record: all but the last token of who runs, nothing for who has not been admitted. */
  ghost predicate LengthsInv<R>(m: Model<R>, cap: nat, s: Serving<R>) {
    && EngineInv(m.bs, cap, s.e) && Shaped(s.kv.cache, m.bs)
    && (forall i :: 0 <= i < |s.e.st.running| ==> OnRecord(s.kv, s.e.st.running[i]))
    && forall id :: !Known(s.e, id) ==> s.kv.LenOf(id) == 0
  }

  ghost predicate OnRecord<R>(kv: Kv<R>, q: ActiveSequence) {
    |q.tokenHistory| > 0 && kv.LenOf(q.seqId) == |q.tokenHistory| - 1
  }

  /** Row i of the batch is what its sequence's history holds past the rows stored, and fits its table. */
  ghost predicate RowFitsTable<R>(m: Model<R>, kv: Kv<R>, b: BatchInput, i: nat, q: ActiveSequence)
    requires Packed(b) && i < |b.seqIds|
  {
    && b.seqIds[i] == q.seqId && b.blockTables[i] == q.blockTable
    && kv.LenOf(q.seqId) == (if q.isPrefill then 0 else |q.tokenHistory| - 1)
    && OwnTokens(b, i) == q.tokenHistory[kv.LenOf(q.seqId)..]
    && kv.LenOf(q.seqId) + OwnLen(b, i) == |q.tokenHistory| <= |q.blockTable| * m.bs
  }

  /** Every row fits, and no block is in two tables or twice in one. */
  ghost predicate BatchFits<R>(m: Model<R>, kv: Kv<R>, running: seq<ActiveSequence>) {
    var b := Batch(running);
    && Packed(b) && Apart(b.blockTables) && DistinctBatch(b)
    && forall i :: 0 <= i < |running| ==> RowFitsTable(m, kv, b, i, running[i])
  }

  // ------------------------------------------------------------------ at the pass

  lemma CachedOnRecord<R>(m: Model<R>, cap: nat, s: Serving<R>, i: nat)
    requires LengthsInv(m, cap, s) && s.e.st.pool.Valid() && m.bs > 0 && i < |Admit(m.bs, s.e.st).running|
    ensures var q := Admit(m.bs, s.e.st).running[i]; s.kv.LenOf(q.seqId) == Cached(q)
  {
    hide Trace, Owns, Unique, Admit, Known;
    var k := AdmitFifo(m.bs, s.e.st);
    var a := Admit(m.bs, s.e.st);
    var n := |s.e.st.running|;
    if i < n {
      assert a.running[i] == a.running[..n][i] == s.e.st.running[i];
      assert Ready(m.bs, s.e.st.running[i]) && OnRecord(s.kv, s.e.st.running[i]);
    } else {
      NewcomerUnseen(m.bs, cap, s.e, a, k, i);
    }
  }

  /** Whatever batch the scheduler packs, its rows fit. */
  lemma PassFits<R>(m: Model<R>, cap: nat, s: Serving<R>)
    requires LengthsInv(m, cap, s)
    ensures m.bs > 0 && s.e.st.pool.Valid() && BatchFits(m, s.kv, Admit(m.bs, s.e.st).running)
  {
    hide Inv, Trace, Owns, Unique, Admit, Known, Batch, Apart, Packed, OwnLen, OwnTokens, Pool.Valid;
    InvCanStep(m.bs, cap, s.e.st);
    InvParts(m.bs, cap, s.e.st);
    AdmittedEngine(m.bs, cap, s.e);
    AdmitOwns(m.bs, cap, s.e.st);
    var a := Admit(m.bs, s.e.st);
    UniqueRunning(a);
    BatchPacked(a.running);
    BatchIds(a.running);
    BatchApart(cap, a);
    forall i | 0 <= i < |a.running|
      ensures RowFitsTable(m, s.kv, Batch(a.running), i, a.running[i])
    {
      CachedOnRecord(m, cap, s, i);
      RowCapacity(m.bs, a.running[i]);
      RowIsRest(m.bs, a.running, i);
    }
  }

  /** The tokens of a row are the history past what the backend has. */
  lemma RowIsRest(bs: nat, running: seq<ActiveSequence>, i: nat)
    requires AllRunnable(bs, running) && i < |running|
    ensures Packed(Batch(running)) && Cached(running[i]) >= 0 && Cached(running[i]) <= |running[i].tokenHistory|
    ensures OwnTokens(Batch(running), i) == running[i].tokenHistory[Cached(running[i])..]
  {
    hide Batch, Packed, OwnLen;
    BatchPacked(running);
    assert Ready(bs, running[i]) || Fresh(bs, running[i]);
    RowCapacity(bs, running[i]);
    RunnablePacks(bs, running);
    RowCarries(running, i);
  }

  lemma RunnablePacks(bs: nat, running: seq<ActiveSequence>)
    requires AllRunnable(bs, running)
    ensures Packable(running)
  {
  }

  // ------------------------------------------------------------------ one round

  /** A pass adds each row's tokens to the length on record; those who leave stay on record. */
  lemma ServedRecords<R(!new)>(m: Model<R>, kv: Kv<R>, b: BatchInput, rows: PassRows<R>, left: seq<(SeqId, Leave)>)
    requires m.bs > 0 && Shaped(kv.cache, m.bs) && BatchOk(b) && |b.seqIds| > 0 && DistinctBatch(b)
    requires UniformRows(rows, RowLen(b)) && Pass(m, kv, b, rows).Some?
    ensures var kv' := Served(m, kv, b, rows, left);
      && (forall i :: 0 <= i < |b.seqIds| ==> kv'.LenOf(b.seqIds[i]) == kv.LenOf(b.seqIds[i]) + OwnLen(b, i))
      && forall id :: id !in b.seqIds ==> kv'.LenOf(id) == kv.LenOf(id)
  {
    PassRecords(m, kv, b, rows);
    ClearAllShaped(m, Pass(m, kv, b, rows).value.0, left, |left|);
  }

  /** A sequence that stays is on record with all but its last token. */
  lemma StayerOnRecord<R(!new)>(m: Model<R>, eos: TokenId, cap: nat, s: Serving<R>, fwd: Forward, rows: PassRows<R>,
                                q: ActiveSequence)
    requires LengthsInv(m, cap, s) && m.bs > 0 && s.e.st.pool.Valid() && Step(m.bs, eos, s.e.st, fwd).ok
    requires q in Step(m.bs, eos, s.e.st, fwd).st.running
    requires var b := Batch(Admit(m.bs, s.e.st).running);
      BatchOk(b) && |b.seqIds| > 0 && UniformRows(rows, RowLen(b)) && Pass(m, s.kv, b, rows).Some?
    ensures var b := Batch(Admit(m.bs, s.e.st).running);
      OnRecord(Served(m, s.kv, b, rows, Step(m.bs, eos, s.e.st, fwd).left), q)
  {
    hide EngineInv, Inv, Trace, Unique, Admit, Known, Apart, Packed, Pool.Valid, Step, UniformRows, RowLen, Pass;
    EngineParts(m.bs, cap, s.e);
    PassFits(m, cap, s);
    var a := Admit(m.bs, s.e.st);
    var i := StayerRow(m.bs, eos, cap, s.e.st, fwd, q);
    assert RowFitsTable(m, s.kv, Batch(a.running), i, a.running[i]);
    ServedRecords(m, s.kv, Batch(a.running), rows, Step(m.bs, eos, s.e.st, fwd).left);
  }

  /** A round with a batch, served or failed, leaves the right lengths behind. */
  lemma BatchRoundKeeps<R(!new)>(m: Model<R>, eos: TokenId, cap: nat, s: Serving<R>, fwd: Forward, rows: PassRows<R>,
                                 s': Serving<R>)
    requires LengthsInv(m, cap, s) && m.bs > 0 && s.e.st.pool.Valid() && Shaped(s'.kv.cache, m.bs)
    requires s'.e == Stepped(m.bs, eos, s.e, fwd) && EngineInv(m.bs, cap, s'.e)
    requires var b, o := Batch(Admit(m.bs, s.e.st).running), Step(m.bs, eos, s.e.st, fwd);
      if o.ok then
        && BatchOk(b) && |b.seqIds| > 0 && DistinctBatch(b) && UniformRows(rows, RowLen(b))
        && Pass(m, s.kv, b, rows).Some? && s'.kv == Served(m, s.kv, b, rows, o.left)
      else
        forall id :: id !in b.seqIds ==> s'.kv.LenOf(id) == s.kv.LenOf(id)
    ensures LengthsInv(m, cap, s')
  {
    hide EngineInv, Known, Admit, Step, Batch, BatchOk, UniformRows, RowLen, Pass, Served, Shaped, Pool.Valid,
         AbortFrom, OnRecord, Endings.AddRows, Endings.AddAbort, RowsAfter;
    var b, o := Batch(Admit(m.bs, s.e.st).running), Step(m.bs, eos, s.e.st, fwd);
    forall id | !Known(s'.e, id)
      ensures s'.kv.LenOf(id) == 0
    {
      if Known(s.e, id) || id in b.seqIds {
        StepKnown(m.bs, eos, cap, s.e, fwd, id);
      }
      if o.ok {
        ServedRecords(m, s.kv, b, rows, o.left);
      }
    }
    if o.ok {
      forall i | 0 <= i < |s'.e.st.running|
        ensures OnRecord(s'.kv, s'.e.st.running[i])
      {
        StayerOnRecord(m, eos, cap, s, fwd, rows, s'.e.st.running[i]);
      }
    } else {
      AbortShape(o.st);
    }
  }

  /** A round without a batch changes no length. */
  lemma IdleRoundKeeps<R(!new)>(m: Model<R>, eos: TokenId, cap: nat, s: Serving<R>, fwd: Forward, s': Serving<R>)
    requires LengthsInv(m, cap, s) && m.bs > 0 && s.e.st.pool.Valid() && Admit(m.bs, s.e.st).running == []
    requires s'.e == Stepped(m.bs, eos, s.e, fwd) && EngineInv(m.bs, cap, s'.e) && s'.kv == s.kv
    ensures LengthsInv(m, cap, s')
  {
    forall id | !Known(s'.e, id)
      ensures s'.kv.LenOf(id) == 0
    {
      if Known(s.e, id) {
        StepKnown(m.bs, eos, cap, s.e, fwd, id);
      }
    }
  }

  /**
   Every round keeps the lengths on record right, whatever its batch and whether or not it
   succeeds; and the rows of its batch fit.
   */
  lemma RoundKeepsLengths<R(!new)>(m: Model<R>, eos: TokenId, cap: nat, s: Serving<R>, incoming: seq<Request>,
                                   fwd: Forward, rows: PassRows<R>, s': Serving<R>)
    requires LengthsInv(m, cap, s) && UniqueRequests(s.e.added + incoming)
    requires m.bs > 0 && s.e.st.pool.Valid() && Next(m, eos, s, incoming, fwd, rows, s')
    ensures LengthsInv(m, cap, s')
    ensures var st := Adding(s.e, incoming).st;
      st.pool.Valid() && BatchFits(m, s.kv, Admit(m.bs, st).running)
  {
    hide EngineInv, Known, Admit, Step, Batch, BatchOk, UniformRows, RowLen, Pass, Served, UniqueRequests, AbortFrom,
         Endings.AddRows, Endings.AddAbort, RowsAfter, OnRecord, BatchFits, Appended;
    ArrivalsKeep(m.bs, cap, s.e, incoming);
    TickKeeps(m.bs, eos, cap, s.e, incoming, fwd);
    var f := Adding(s.e, incoming);
    var s1 := s.(e := f);
    forall id | Known(s.e, id)
      ensures Known(f, id)
    {
      KnownAdding(s.e, incoming, id);
    }
    PassFits(m, cap, s1);
    if Empty(f.st) {
      EmptyAdmits(m.bs, f.st);
    } else if Admit(m.bs, f.st).running == [] {
      IdleRoundKeeps(m, eos, cap, s1, fwd, s');
    } else {
      BatchRoundKeeps(m, eos, cap, s1, fwd, rows, s');
    }
  }

  // ------------------------------------------------------------------ whole runs

  lemma InitialLengths<R>(m: Model<R>, cap: nat, pool: Pool)
    requires m.bs > 0 && Owns(cap, State([], [], pool))
    ensures LengthsInv(m, cap, Serving(Engine(State([], [], pool), [], [], NOBODY), Kv(map[], map[], map[]), map[]))
  {
    InitialEngine(m.bs, cap, pool);
  }

  /** Rounds of the loop, one after the other, with any batches. */
  ghost predicate Rounds<R(!new)>(m: Model<R>, eos: TokenId, states: seq<Serving<R>>, inputs: seq<Input<R>>) {
    && |states| == |inputs| + 1
    && forall k :: 0 <= k < |inputs| ==> RoundAt(m, eos, states[k], inputs[k], states[k + 1])
  }

  ghost predicate RoundAt<R(!new)>(m: Model<R>, eos: TokenId, s: Serving<R>, input: Input<R>, s': Serving<R>) {
    && m.bs > 0 && s.e.st.pool.Valid() && Shaped(s.kv.cache, m.bs)
    && Next(m, eos, s, input.incoming, input.fwd, input.rows, s')
  }

  /** In every run, at every pass, every row fits. */
  lemma {:induction false} RunFits<R(!new)>(m: Model<R>, eos: TokenId, cap: nat, states: seq<Serving<R>>,
                                            inputs: seq<Input<R>>)
    requires Rounds(m, eos, states, inputs) && LengthsInv(m, cap, states[0])
    requires UniqueRequests(states[0].e.added + AllIncoming(inputs))
    ensures LengthsInv(m, cap, states[|inputs|])
    ensures states[|inputs|].e.added == states[0].e.added + AllIncoming(inputs)
    ensures inputs != [] ==>
      var last := |inputs| - 1;
      var st := Adding(states[last].e, inputs[last].incoming).st;
      m.bs > 0 && st.pool.Valid() && BatchFits(m, states[last].kv, Admit(m.bs, st).running)
    decreases |inputs|
  {
    hide LengthsInv, Next, UniqueRequests, BatchFits, Admit, Tick, Pool.Valid;
    if inputs == [] {
      assert states[0].e.added + AllIncoming(inputs) == states[0].e.added;
    } else {
      var n := |inputs| - 1;
      var before := states[0].e.added + AllIncoming(inputs[..n]);
      assert states[0].e.added + AllIncoming(inputs) == before + inputs[n].incoming;
      PrefixUnique(before, inputs[n].incoming);
      ShorterRounds(m, eos, states, inputs);
      RunFits(m, eos, cap, states[..n + 1], inputs[..n]);
      assert RoundAt(m, eos, states[n], inputs[n], states[n + 1]);
      RoundKeepsLengths(m, eos, cap, states[n], inputs[n].incoming, inputs[n].fwd, inputs[n].rows, states[n + 1]);
      NextTicks(m, eos, states[n], inputs[n], states[n + 1]);
      TickAdds(m.bs, eos, states[n].e, inputs[n].incoming, inputs[n].fwd);
    }
  }

  lemma NextTicks<R(!new)>(m: Model<R>, eos: TokenId, s: Serving<R>, input: Input<R>, s': Serving<R>)
    requires RoundAt(m, eos, s, input, s')
    ensures s'.e == Tick(m.bs, eos, s.e, input.incoming, input.fwd) && Adding(s.e, input.incoming).st.pool.Valid()
  {
  }

  lemma ShorterRounds<R(!new)>(m: Model<R>, eos: TokenId, states: seq<Serving<R>>, inputs: seq<Input<R>>)
    requires Rounds(m, eos, states, inputs) && inputs != []
    ensures var n := |inputs| - 1;
      && Rounds(m, eos, states[..n + 1], inputs[..n])
      && states[..n + 1][0] == states[0] && states[..n + 1][|inputs[..n]|] == states[n]
  {
    var n := |inputs| - 1;
    forall k | 0 <= k < n
      ensures RoundAt(m, eos, states[..n + 1][k], inputs[..n][k], states[..n + 1][k + 1])
    {
      assert RoundAt(m, eos, states[k], inputs[k], states[k + 1]);
    }
  }
}

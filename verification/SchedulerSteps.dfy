/**
 What a step does to each sequence: admission is first-in first-out, every running row receives
 its own token, exactly the rows marked to leave are retired, and what stays has room for its
 history.
 */
module SchedulerSteps {
  import opened Types
  import opened BlockAllocators
  import opened SchedulerSpec
  import opened SchedulerOwnership

  ghost predicate Distinct(running: seq<ActiveSequence>) {
    forall i, j :: 0 <= i < j < |running| ==> running[i].seqId != running[j].seqId
  }

  /** At least one token is generated for any request. */
  function Budget(maxNewTokens: nat): nat {
    if maxNewTokens == 0 then 1 else maxNewTokens
  }

  /** The table covers the history. */
  ghost predicate Covered(bs: nat, s: ActiveSequence) {
    |s.tokenHistory| <= |s.blockTable| * bs
  }

  /** A running sequence between steps: past prefill, not finished, with room. */
  ghost predicate Ready(bs: nat, s: ActiveSequence) {
    !s.isPrefill && 1 <= s.tokensGenerated < s.maxNewTokens && s.tokensGenerated <= |s.tokenHistory| && Covered(bs, s)
  }

  /** A sequence just admitted. */
  ghost predicate Fresh(bs: nat, s: ActiveSequence) {
    s.isPrefill && s.tokensGenerated == 0 && Covered(bs, s)
  }

  ghost predicate AllReady(bs: nat, st: State) {
    forall i :: 0 <= i < |st.running| ==> Ready(bs, st.running[i])
  }

  ghost predicate AllRunnable(bs: nat, running: seq<ActiveSequence>) {
    forall i :: 0 <= i < |running| ==> Ready(bs, running[i]) || Fresh(bs, running[i])
  }

  // ------------------------------------------------------------------ admission

  /** The sequence activates the request, with as many blocks as its prompt needs. */
  ghost predicate Activates(bs: nat, s: ActiveSequence, req: Request)
    requires bs > 0
  {
    s == Activate(req, s.blockTable) && |s.blockTable| == Needed(bs, |req.promptTokens|)
  }

  lemma NeededCovers(bs: nat, n: nat)
    requires bs > 0
    ensures n <= Needed(bs, n) * bs < n + bs
  {
  }

  /** The first k waiting requests have joined the running queue, in order. */
  ghost predicate Joined(bs: nat, st: State, a: State, k: nat)
    requires bs > 0
  {
    && k <= |st.waiting| && a.waiting == st.waiting[k..]
    && |a.running| == |st.running| + k && a.running[..|st.running|] == st.running
    && forall i :: 0 <= i < k ==> Activates(bs, a.running[|st.running| + i], st.waiting[i])
  }

  lemma JoinOne(bs: nat, st: State, s: ActiveSequence, p: Pool, a: State, k: nat)
    requires bs > 0 && st.waiting != [] && Activates(bs, s, st.waiting[0])
    requires Joined(bs, State(st.waiting[1..], st.running + [s], p), a, k)
    ensures Joined(bs, st, a, k + 1)
  {
    assert a.running[..|st.running|] == a.running[..|st.running| + 1][..|st.running|] == st.running;
    assert a.running[|st.running|] == a.running[..|st.running| + 1][|st.running|] == s;
    forall i | 0 <= i < k + 1
      ensures Activates(bs, a.running[|st.running| + i], st.waiting[i])
    {
      if i > 0 {
        assert Activates(bs, a.running[|st.running| + 1 + (i - 1)], st.waiting[1..][i - 1]);
      }
    }
  }

  /**
   Admission is first-in first-out: some prefix of the waiting queue joins the running queue in
   order, and it stops only at a request that does not fit in what is left.
   */
  lemma {:induction false} AdmitFifo(bs: nat, st: State) returns (k: nat)
    requires bs > 0 && st.pool.Valid()
    ensures var a := Admit(bs, st);
      && Joined(bs, st, a, k)
      && (k < |st.waiting| ==> |a.pool.free| < Needed(bs, |st.waiting[k].promptTokens|))
    decreases |st.waiting|
  {
    hide Pool.Valid;
    k := 0;
    if st.waiting != [] {
      var req := st.waiting[0];
      var n := Needed(bs, |req.promptTokens|);
      if |st.pool.free| >= n {
        var (t, p) := TakeBlocks(st.pool, n);
        var st' := State(st.waiting[1..], st.running + [Activate(req, t)], p);
        var k' := AdmitFifo(bs, st');
        k := k' + 1;
        JoinOne(bs, st, Activate(req, t), p, Admit(bs, st), k');
      }
    }
  }

  /** An activated sequence has room for its prompt. */
  lemma ActivatedFresh(bs: nat, s: ActiveSequence, req: Request)
    requires bs > 0 && Activates(bs, s, req)
    ensures Fresh(bs, s)
  {
    hide Needed;
    NeededCovers(bs, |req.promptTokens|);
  }

  lemma AdmitRunnable(bs: nat, st: State)
    requires bs > 0 && st.pool.Valid() && AllReady(bs, st)
    ensures AllRunnable(bs, Admit(bs, st).running) && Packable(Admit(bs, st).running)
  {
    hide Admit, Activates, Pool.Valid, Covered, Needed;
    var k := AdmitFifo(bs, st);
    var a := Admit(bs, st);
    forall i | 0 <= i < |a.running|
      ensures Ready(bs, a.running[i]) || Fresh(bs, a.running[i])
    {
      if i < |st.running| {
        assert a.running[i] == a.running[..|st.running|][i];
      } else {
        var j := i - |st.running|;
        assert Activates(bs, a.running[|st.running| + j], st.waiting[j]);
        ActivatedFresh(bs, a.running[i], st.waiting[j]);
      }
    }
  }

  // ------------------------------------------------------------------ the rows of a batch

  lemma SlicesOfBoth(tokens: seq<TokenId>, more: seq<TokenId>)
    ensures (tokens + more)[|tokens|..|tokens| + |more|] == more
    ensures forall i, j :: 0 <= i <= j <= |tokens| ==> (tokens + more)[i..j] == tokens[i..j]
  {
  }

  lemma {:induction false} BatchRows(running: seq<ActiveSequence>, i: nat)
    requires i < |running|
    ensures var b := Batch(running);
      && b.seqIds[i] == running[i].seqId
      && b.blockTables[i] == running[i].blockTable
      && b.isPrefill[i] == running[i].isPrefill
      && b.cuSeqlens[i] <= b.cuSeqlens[i + 1] <= |b.tokenIds|
      && b.tokenIds[b.cuSeqlens[i]..b.cuSeqlens[i + 1]] == RowTokens(running[i])
    decreases |running|
  {
    hide RowTokens;
    var n := |running| - 1;
    SlicesOfBoth(Batch(running[..n]).tokenIds, RowTokens(running[n]));
    if i < n {
      BatchRows(running[..n], i);
    }
  }

  /** Prefill brings the whole history, decode its last token. */
  lemma RowCarries(running: seq<ActiveSequence>, i: nat)
    requires Packable(running) && i < |running|
    ensures var b, s := Batch(running), running[i];
      && b.cuSeqlens[i] <= b.cuSeqlens[i + 1] <= |b.tokenIds|
      && b.tokenIds[b.cuSeqlens[i]..b.cuSeqlens[i + 1]] ==
           if s.isPrefill then s.tokenHistory else s.tokenHistory[|s.tokenHistory| - 1..]
  {
    hide Batch;
    BatchRows(running, i);
    if !running[i].isPrefill {
      assert running[i].tokenHistory != [];
    }
  }

  // ------------------------------------------------------------------ the output rows

  lemma FindDistinct(running: seq<ActiveSequence>, k: nat)
    requires Distinct(running) && k < |running|
    ensures FindSeq(running, running[k].seqId) == Some(k)
  {
  }

  /**
   What the rows of a step are processed from: who runs, the blocks that are free, and a token or
   a failed sampling for each row.
   */
  datatype Turn = Turn(bs: nat, eos: TokenId, running: seq<ActiveSequence>, free: seq<BlockId>,
                       next: nat -> Option<TokenId>) {
    /** Row i goes on after its token, and its table has no room for one more. */
    ghost predicate Wants(i: nat)
      requires i < |running|
    {
      && next(i).Some? && !Advance(running[i], eos, next(i).value).1
      && |running[i].tokenHistory| + 1 >= |running[i].blockTable| * bs
    }

    /** How many of the first n rows want a block. */
    ghost function Wanting(n: nat): nat
      requires n <= |running|
    {
      if n == 0 then 0 else Wanting(n - 1) + if Wants(n - 1) then 1 else 0
    }

    /** Row i wants a block, and the rows before it have taken all there are. */
    ghost predicate Starved(i: nat)
      requires i < |running|
    {
      Wants(i) && Wanting(i) >= |free|
    }

    /** The block row i is given, if it wants one and there is one left. */
    ghost function Given(i: nat): seq<BlockId>
      requires i < |running|
    {
      if Wants(i) && Wanting(i) < |free| then [free[Wanting(i)]] else []
    }

    /** The blocks left after n rows. */
    ghost function Left(n: nat): seq<BlockId>
      requires n <= |running|
    {
      if Wanting(n) < |free| then free[Wanting(n)..] else []
    }

    /** Row i after its token. */
    ghost function After(i: nat): ActiveSequence
      requires i < |running| && next(i).Some?
    {
      var s := Advance(running[i], eos, next(i).value).0;
      s.(blockTable := s.blockTable + Given(i))
    }

    ghost function EventOf(i: nat): Event
      requires i < |running| && next(i).Some?
    {
      Event(running[i].seqId, next(i).value, Advance(running[i], eos, next(i).value).1)
    }

    /** Whether, and why, row i is to leave. */
    ghost function Leaves(i: nat): Option<Leave>
      requires i < |running| && next(i).Some?
    {
      if Advance(running[i], eos, next(i).value).1 then Some(Finished)
      else if Starved(i) then Some(Preempted)
      else None
    }

    /** Those of the first n rows that are to leave, in the order of the rows, and why. */
    ghost function Leaving(n: nat): seq<(SeqId, Leave)>
      requires n <= |running|
    {
      if n == 0 then []
      else
        Leaving(n - 1) +
        if next(n - 1).Some? && Leaves(n - 1).Some? then [(running[n - 1].seqId, Leaves(n - 1).value)] else []
    }
  }

  /** The outcome after n good rows, told by what they were processed from. */
  ghost predicate RowsDone(t: Turn, n: nat, o: Outcome)
    requires n <= |t.running|
  {
    && |o.st.running| == |t.running| && |o.events| == n && o.st.pool.free == t.Left(n)
    && (forall i :: n <= i < |t.running| ==> o.st.running[i] == t.running[i])
    && (forall i :: 0 <= i < n ==>
          t.next(i).Some? && o.st.running[i] == t.After(i) && o.events[i] == t.EventOf(i))
    && LeftAre(t, n, o.left) && o.left == t.Leaving(n)
  }

  /** Exactly the rows with a reason are marked to leave, for that reason. */
  ghost predicate LeftAre(t: Turn, n: nat, left: seq<(SeqId, Leave)>)
    requires n <= |t.running|
  {
    && (forall l :: l in left ==> exists i :: 0 <= i < n && RowLeaves(t, i, l))
    && (forall i :: 0 <= i < n && t.next(i).Some? && t.Leaves(i).Some? ==>
          (t.running[i].seqId, t.Leaves(i).value) in left)
  }

  ghost predicate RowLeaves(t: Turn, i: nat, l: (SeqId, Leave))
    requires i < |t.running|
  {
    t.next(i).Some? && l.0 == t.running[i].seqId && t.Leaves(i) == Some(l.1)
  }

  /** Rows never change the waiting queue or who is running. */
  lemma {:induction false} PostRowsShape(bs: nat, eos: TokenId, st: State, ids: seq<SeqId>,
                                         next: nat -> Option<TokenId>, n: nat)
    requires st.pool.Valid() && n <= |ids|
    ensures var o := PostRows(bs, eos, st, ids, next, n);
      && o.st.waiting == st.waiting && |o.st.running| == |st.running|
      && forall i :: 0 <= i < |st.running| ==> o.st.running[i].seqId == st.running[i].seqId
    decreases n
  {
    hide Pool.Valid, PostRow;
    if n > 0 {
      PostRowsShape(bs, eos, st, ids, next, n - 1);
      var o := PostRows(bs, eos, st, ids, next, n - 1);
      if o.ok && FindSeq(o.st.running, ids[n - 1]).Some? && next(n - 1).Some? {
        PostRowShape(bs, eos, o, FindSeq(o.st.running, ids[n - 1]).value, next(n - 1).value);
      }
    }
  }

  lemma PostRowShape(bs: nat, eos: TokenId, o: Outcome, k: nat, token: TokenId)
    requires k < |o.st.running| && o.st.pool.Valid()
    ensures var p := PostRow(bs, eos, o, k, token);
      && p.ok && p.st.waiting == o.st.waiting && |p.st.running| == |o.st.running|
      && forall i :: 0 <= i < |o.st.running| ==> p.st.running[i].seqId == o.st.running[i].seqId
  {
  }

  /** With distinct ids, row n - 1 finds its own sequence. */
  lemma PostRowsStep(bs: nat, eos: TokenId, st: State, ids: seq<SeqId>, next: nat -> Option<TokenId>, n: nat)
    requires st.pool.Valid() && Distinct(st.running) && 0 < n <= |ids|
    requires |ids| == |st.running| && (forall i :: 0 <= i < |ids| ==> ids[i] == st.running[i].seqId)
    ensures var o := PostRows(bs, eos, st, ids, next, n - 1);
      && |o.st.running| == |st.running|
      && PostRows(bs, eos, st, ids, next, n) ==
           if !o.ok then o
           else match next(n - 1) case None => o.(ok := false) case Some(token) => PostRow(bs, eos, o, n - 1, token)
  {
    hide Pool.Valid, PostRow, FindSeq;
    PostRowsShape(bs, eos, st, ids, next, n - 1);
    FindOwn(PostRows(bs, eos, st, ids, next, n - 1).st.running, st.running, n - 1);
  }

  lemma FindOwn(running: seq<ActiveSequence>, was: seq<ActiveSequence>, k: nat)
    requires Distinct(was) && k < |running| == |was|
    requires forall i :: 0 <= i < |running| ==> running[i].seqId == was[i].seqId
    ensures FindSeq(running, was[k].seqId) == Some(k)
  {
    FindDistinct(running, k);
  }

  /**
   Each row's own sequence gets that row's token; blocks are given out in the order of the rows to
   those that want one, and a row that wants one when none is left is to leave.
   */
  lemma {:induction false} PostRowsEach(t: Turn, st: State, ids: seq<SeqId>, n: nat)
    requires st.pool.Valid() && Distinct(st.running) && t.running == st.running && t.free == st.pool.free
    requires |ids| == |st.running| && (forall i :: 0 <= i < |ids| ==> ids[i] == st.running[i].seqId)
    requires n <= |ids|
    ensures var o := PostRows(t.bs, t.eos, st, ids, t.next, n);
      && (o.ok <==> forall i :: 0 <= i < n ==> t.next(i).Some?)
      && (o.ok ==> RowsDone(t, n, o))
    decreases n
  {
    hide RowsDone, Pool.Valid, Distinct;
    if n > 0 {
      PostRowsEach(t, st, ids, n - 1);
      PostRowsStep(t.bs, t.eos, st, ids, t.next, n);
      hide PostRows, PostRow;
      var o := PostRows(t.bs, t.eos, st, ids, t.next, n - 1);
      if o.ok && t.next(n - 1).Some? {
        PostRowEach(t, n - 1, o);
      }
    } else {
      NoRowsDone(t, st);
    }
  }

  lemma NoRowsDone(t: Turn, st: State)
    requires t.running == st.running && t.free == st.pool.free
    ensures RowsDone(t, 0, Outcome(st, [], [], true))
  {
  }

  /** One row more. */
  lemma PostRowEach(t: Turn, k: nat, o: Outcome)
    requires k < |t.running| && o.st.pool.Valid() && RowsDone(t, k, o) && t.next(k).Some?
    ensures var p := PostRow(t.bs, t.eos, o, k, t.next(k).value); p.ok && RowsDone(t, k + 1, p)
  {
    hide RowStep, Turn.After, Turn.Leaves, Turn.Left, Pool.Valid, LeftAre;
    RowIs(t, k, o.st);
    LeavesOneMore(t, k, o.left);
  }

  /** Those to leave after one row more. */
  lemma LeavesOneMore(t: Turn, k: nat, left: seq<(SeqId, Leave)>)
    requires k < |t.running| && t.next(k).Some? && LeftAre(t, k, left)
    ensures LeftAre(t, k + 1, left + if t.Leaves(k).Some? then [(t.running[k].seqId, t.Leaves(k).value)] else [])
  {
    hide Turn.Leaves;
    var more := left + if t.Leaves(k).Some? then [(t.running[k].seqId, t.Leaves(k).value)] else [];
    forall l | l in more
      ensures exists i :: 0 <= i < k + 1 && RowLeaves(t, i, l)
    {
      if l in left {
        var i :| 0 <= i < k && RowLeaves(t, i, l);
      } else {
        assert RowLeaves(t, k, l);
      }
    }
  }

  /** What one row does is told by the rows that wanted a block before it. */
  lemma RowIs(t: Turn, k: nat, st: State)
    requires k < |t.running| && k < |st.running| && st.running[k] == t.running[k] && st.pool.Valid()
    requires st.pool.free == t.Left(k) && t.next(k).Some?
    ensures var (s, event, leave) := RowStep(t.bs, t.eos, st, k, t.next(k).value);
      && s.running == st.running[k := t.After(k)] && s.pool.free == t.Left(k + 1)
      && event == t.EventOf(k) && leave == t.Leaves(k)
  {
    var s := Advance(t.running[k], t.eos, t.next(k).value).0;
    assert s.blockTable + [] == s.blockTable;
  }
}

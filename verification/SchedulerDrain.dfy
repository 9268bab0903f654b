/**
 Progress: good steps retire exactly the rows marked to leave, keep the rest ready, and use up
 the work that is left.  Repeated good steps empty both queues exactly when every waiting
 request fits the pool.
 */
module SchedulerDrain {
  import opened Types
  import opened BlockAllocators
  import opened SchedulerSpec
  import opened SchedulerOwnership
  import opened SchedulerSteps

  // ------------------------------------------------------------------ retiring rows

  /** The rows whose id is not gone. */
  ghost function Keep(running: seq<ActiveSequence>, gone: set<SeqId>): (r: seq<ActiveSequence>)
    ensures forall s :: s in r <==> s in running && s.seqId !in gone
  {
    if running == [] then []
    else
      assert forall s :: s in running <==> s == running[0] || s in running[1..];
      (if running[0].seqId in gone then [] else [running[0]]) + Keep(running[1..], gone)
  }

  ghost function Gone(left: seq<(SeqId, Leave)>, n: nat): set<SeqId>
    requires n <= |left|
  {
    set i | 0 <= i < n :: left[i].0
  }

  lemma {:induction false} KeepDistinct(running: seq<ActiveSequence>, gone: set<SeqId>)
    requires Distinct(running)
    ensures Distinct(Keep(running, gone))
  {
    if running != [] {
      KeepDistinct(running[1..], gone);
      forall s | s in Keep(running[1..], gone)
        ensures s.seqId != running[0].seqId
      {
        assert s in running[1..];
      }
    }
  }

  lemma {:induction false} KeepAll(running: seq<ActiveSequence>, gone: set<SeqId>)
    requires forall s :: s in running ==> s.seqId !in gone
    ensures Keep(running, gone) == running
  {
    if running != [] {
      assert running[0] in running;
      assert forall s :: s in running[1..] ==> s in running;
      KeepAll(running[1..], gone);
    }
  }

  lemma {:induction false} KeepTwice(running: seq<ActiveSequence>, a: set<SeqId>, b: set<SeqId>)
    ensures Keep(Keep(running, a), b) == Keep(running, a + b)
  {
    if running != [] {
      KeepTwice(running[1..], a, b);
      var k := Keep(running[1..], a);
      if running[0].seqId !in a {
        assert ([running[0]] + k)[1..] == k;
      } else {
        assert [] + k == k;
      }
    }
  }

  lemma {:induction false} KeepNone(running: seq<ActiveSequence>, gone: set<SeqId>)
    requires forall s :: s in running ==> s.seqId in gone
    ensures Keep(running, gone) == []
  {
    if running != [] {
      assert running[0] in running;
      assert forall s :: s in running[1..] ==> s in running;
      KeepNone(running[1..], gone);
    }
  }

  lemma KeepFirst(running: seq<ActiveSequence>, gone: set<SeqId>)
    requires running != []
    ensures Keep(running, gone) == (if running[0].seqId in gone then [] else [running[0]]) + Keep(running[1..], gone)
  {
  }

  lemma RetireFirst(running: seq<ActiveSequence>)
    requires Distinct(running) && running != []
    ensures Keep(running, {running[0].seqId}) == running[1..]
  {
    var rest := running[1..];
    forall s | s in rest
      ensures s.seqId != running[0].seqId
    {
      var j :| 0 <= j < |rest| && rest[j] == s;
      assert rest[j] == running[j + 1];
    }
    hide Keep;
    KeepFirst(running, {running[0].seqId});
    KeepAll(rest, {running[0].seqId});
    assert [] + rest == rest;
  }

  /** The rows without the first one of this id. */
  ghost function Without(running: seq<ActiveSequence>, id: SeqId): seq<ActiveSequence> {
    match FindSeq(running, id) case None => running case Some(k) => WithoutAt(running, k)
  }

  lemma WithoutFirst(running: seq<ActiveSequence>, id: SeqId)
    requires running != []
    ensures Without(running, id) ==
      if running[0].seqId == id then running[1..] else [running[0]] + Without(running[1..], id)
  {
    var rest := running[1..];
    if running[0].seqId == id {
      assert WithoutAt(running, 0) == rest;
    } else {
      match FindSeq(rest, id)
      case None => assert running == [running[0]] + rest;
      case Some(k) => assert WithoutAt(running, k + 1) == [running[0]] + WithoutAt(rest, k);
    }
  }

  lemma DistinctRest(running: seq<ActiveSequence>)
    requires Distinct(running) && running != []
    ensures Distinct(running[1..])
  {
  }

  /** Retiring one id removes its row and no other. */
  lemma {:induction false} RetireKeeps(running: seq<ActiveSequence>, id: SeqId)
    requires Distinct(running)
    ensures Keep(running, {id}) == Without(running, id)
  {
    if running != [] {
      hide Keep, Without, Distinct;
      WithoutFirst(running, id);
      if running[0].seqId == id {
        RetireFirst(running);
      } else {
        DistinctRest(running);
        RetireKeeps(running[1..], id);
        KeepFirst(running, {id});
      }
    }
  }

  lemma RetireRunning(st: State, id: SeqId)
    ensures Retire(st, id).0.running == Without(st.running, id) && Retire(st, id).0.waiting == st.waiting
  {
    hide FreeAll, WithoutAt;
  }

  lemma GoneMore(left: seq<(SeqId, Leave)>, n: nat)
    requires n < |left|
    ensures Gone(left, n + 1) == Gone(left, n) + {left[n].0}
  {
  }

  lemma {:induction false} RetireAllKeeps(st: State, left: seq<(SeqId, Leave)>, n: nat)
    requires Distinct(st.running) && n <= |left| && RetireAll(st, left, n).1
    ensures RetireAll(st, left, n).0.running == Keep(st.running, Gone(left, n))
    ensures RetireAll(st, left, n).0.waiting == st.waiting
  {
    if n == 0 {
      KeepAll(st.running, Gone(left, 0));
    } else {
      hide Keep, Without, Gone, Retire, Distinct;
      RetireAllKeeps(st, left, n - 1);
      var s := RetireAll(st, left, n - 1).0;
      KeepDistinct(st.running, Gone(left, n - 1));
      RetireRunning(s, left[n - 1].0);
      RetireKeeps(s.running, left[n - 1].0);
      KeepTwice(st.running, Gone(left, n - 1), {left[n - 1].0});
      GoneMore(left, n - 1);
    }
  }

  // ------------------------------------------------------------------ a good step

  /** No id occurs twice among waiting and running sequences. */
  ghost predicate Unique(st: State) {
    && Distinct(st.running)
    && (forall i, j :: 0 <= i < j < |st.waiting| ==> st.waiting[i].seqId != st.waiting[j].seqId)
    && forall i, j :: 0 <= i < |st.waiting| && 0 <= j < |st.running| ==> st.waiting[i].seqId != st.running[j].seqId
  }

  ghost predicate Inv(bs: nat, cap: nat, st: State) {
    bs > 0 && Owns(cap, st) && Unique(st) && AllReady(bs, st)
  }

  lemma UniqueRunning(st: State)
    requires Unique(st)
    ensures Distinct(st.running)
  {
  }

  lemma InvCanStep(bs: nat, cap: nat, st: State)
    requires Inv(bs, cap, st)
    ensures bs > 0 && st.pool.Valid()
  {
  }

  lemma ActivatesId(bs: nat, s: ActiveSequence, req: Request)
    requires bs > 0 && Activates(bs, s, req)
    ensures s.seqId == req.seqId
  {
    hide Needed;
  }

  /** The id of row i once the first k waiting requests have joined. */
  ghost predicate IdAfterJoining(st: State, a: State, i: nat)
    requires i < |a.running| && |a.running| <= |st.running| + |st.waiting|
  {
    a.running[i].seqId == if i < |st.running| then st.running[i].seqId else st.waiting[i - |st.running|].seqId
  }

  lemma JoinedId(bs: nat, st: State, a: State, k: nat, i: nat)
    requires bs > 0 && Joined(bs, st, a, k) && i < |a.running|
    ensures IdAfterJoining(st, a, i)
  {
    hide Activates;
    var n := |st.running|;
    if i < n {
      assert a.running[i] == a.running[..n][i];
    } else {
      var m := i - n;
      assert Activates(bs, a.running[n + m], st.waiting[m]);
      ActivatesId(bs, a.running[i], st.waiting[m]);
    }
  }

  /** Moving the first waiting ids to the end of the running ones repeats none. */
  lemma MovedUnique(st: State, a: State, k: nat)
    requires Unique(st) && k <= |st.waiting| && a.waiting == st.waiting[k..] && |a.running| == |st.running| + k
    requires forall i :: 0 <= i < |a.running| ==> IdAfterJoining(st, a, i)
    ensures Unique(a)
  {
    forall i | 0 <= i < |a.running|
      ensures a.running[i].seqId ==
        if i < |st.running| then st.running[i].seqId else st.waiting[i - |st.running|].seqId
    {
      assert IdAfterJoining(st, a, i);
    }
  }

  lemma AdmitUnique(bs: nat, st: State)
    requires bs > 0 && st.pool.Valid() && Unique(st)
    ensures Unique(Admit(bs, st))
  {
    hide Admit, Unique, Pool.Valid, IdAfterJoining, Needed, Activates;
    var k := AdmitFifo(bs, st);
    forall i | 0 <= i < |Admit(bs, st).running|
      ensures IdAfterJoining(st, Admit(bs, st), i)
    {
      JoinedId(bs, st, Admit(bs, st), k, i);
    }
    MovedUnique(st, Admit(bs, st), k);
  }

  /** The rows of a good step, before cleanup. */
  ghost function Rows(bs: nat, eos: TokenId, st: State, fwd: Forward): Outcome
    requires bs > 0 && st.pool.Valid() && fwd.Output?
  {
    var a := Admit(bs, st);
    var ids := Batch(a.running).seqIds;
    PostRows(bs, eos, a, ids, fwd.next, |ids|)
  }

  /** What the rows of a step are processed from, once admission is done. */
  function TurnOf(bs: nat, eos: TokenId, a: State, fwd: Forward): Turn {
    Turn(bs, eos, a.running, a.pool.free, if fwd.Output? then fwd.next else (_ => None))
  }

  /** What a good step amounts to: rows, then cleanup of those marked to leave. */
  lemma StepShape(bs: nat, eos: TokenId, cap: nat, st: State, fwd: Forward)
    requires Inv(bs, cap, st)
    ensures var a := Admit(bs, st);
      var o := Step(bs, eos, st, fwd);
      && Unique(a) && AllRunnable(bs, a.running)
      && (o.ok <==> a.running == [] || (fwd.Output? && forall i :: 0 <= i < |a.running| ==> fwd.next(i).Some?))
      && (o.ok && a.running == [] ==> o == Outcome(a, [], [], true))
      && (o.ok && a.running != [] ==>
            var p := Rows(bs, eos, st, fwd);
            && RowsDone(TurnOf(bs, eos, a, fwd), |a.running|, p)
            && o.st.running == Keep(p.st.running, Gone(p.left, |p.left|))
            && o.st.waiting == a.waiting && o.events == p.events && o.left == p.left)
  {
    AdmitUnique(bs, st);
    AdmitRunnable(bs, st);
    StepOwns(bs, eos, cap, st, fwd);
    var a := Admit(bs, st);
    if a.running != [] && fwd.Output? {
      GoodRows(bs, eos, a, fwd);
      var p := Rows(bs, eos, st, fwd);
      if p.ok {
        RowsCleanup(bs, eos, cap, st, fwd);
      }
    }
  }

  lemma GoodRows(bs: nat, eos: TokenId, a: State, fwd: Forward)
    requires bs > 0 && a.pool.Valid() && Unique(a) && fwd.Output?
    ensures var ids := Batch(a.running).seqIds;
      var p := PostRows(bs, eos, a, ids, fwd.next, |ids|);
      && (p.ok <==> forall i :: 0 <= i < |a.running| ==> fwd.next(i).Some?)
      && (p.ok ==> RowsDone(TurnOf(bs, eos, a, fwd), |a.running|, p))
  {
    var ids := Batch(a.running).seqIds;
    forall i | 0 <= i < |ids|
      ensures ids[i] == a.running[i].seqId
    {
      BatchRows(a.running, i);
    }
    PostRowsEach(TurnOf(bs, eos, a, fwd), a, ids, |ids|);
  }

  lemma RowsCleanup(bs: nat, eos: TokenId, cap: nat, st: State, fwd: Forward)
    requires bs > 0 && Owns(cap, st) && Unique(Admit(bs, st)) && fwd.Output? && Rows(bs, eos, st, fwd).ok
    ensures var p := Rows(bs, eos, st, fwd);
      var (c, ok) := RetireAll(p.st, p.left, |p.left|);
      && ok && c.running == Keep(p.st.running, Gone(p.left, |p.left|)) && c.waiting == Admit(bs, st).waiting
  {
    AdmitOwns(bs, cap, st);
    var a := Admit(bs, st);
    var ids := Batch(a.running).seqIds;
    PostRowsOwns(bs, eos, cap, a, ids, fwd.next, |ids|);
    PostRowsShape(bs, eos, a, ids, fwd.next, |ids|);
    var p := Rows(bs, eos, st, fwd);
    RetireAllOwns(cap, p.st, p.left, |p.left|);
    RetireAllKeeps(p.st, p.left, |p.left|);
  }

  /** A row that stays is ready for the next step. */
  lemma StayingReady(t: Turn, i: nat)
    requires t.bs > 0 && i < |t.running| && (Ready(t.bs, t.running[i]) || Fresh(t.bs, t.running[i]))
    requires t.next(i).Some? && t.Leaves(i).None?
    ensures Ready(t.bs, t.After(i))
  {
    var s, s2 := t.running[i], t.After(i);
    if t.Wants(i) {
      assert |s2.blockTable| * t.bs == |s.blockTable| * t.bs + t.bs;
    }
  }

  /** Who stays: exactly the rows without a reason to leave. */
  lemma Stayers(t: Turn, p: Outcome, i: nat)
    requires Distinct(t.running) && RowsDone(t, |t.running|, p) && i < |t.running|
    ensures t.running[i].seqId in Gone(p.left, |p.left|) <==> t.Leaves(i).Some?
    ensures forall why :: (t.running[i].seqId, why) in p.left <==> t.Leaves(i) == Some(why)
  {
    forall l | l in p.left && l.0 == t.running[i].seqId
      ensures t.Leaves(i) == Some(l.1)
    {
      var j :| 0 <= j < |t.running| && RowLeaves(t, j, l);
      assert j == i;
    }
    if t.running[i].seqId in Gone(p.left, |p.left|) {
      var j :| 0 <= j < |p.left| && p.left[j].0 == t.running[i].seqId;
      assert p.left[j] in p.left;
    }
    if t.Leaves(i).Some? {
      var l := (t.running[i].seqId, t.Leaves(i).value);
      assert l in p.left;
      var j :| 0 <= j < |p.left| && p.left[j] == l;
      assert p.left[j].0 in Gone(p.left, |p.left|);
    }
  }

  /**
   Who leaves without being done, told before the pass: in a good step a sequence is thrown out
   if and only if its token neither ends it nor uses up its allowance, its table has no room for
   another token, and the rows before it that are in the same position use up the free blocks.
   */
  lemma ThrownOutWhen(bs: nat, eos: TokenId, cap: nat, st: State, fwd: Forward, i: nat)
    requires Inv(bs, cap, st) && Step(bs, eos, st, fwd).ok && fwd.Output? && i < |Admit(bs, st).running|
    ensures var a := Admit(bs, st);
      var s := a.running[i];
      fwd.next(i).Some? &&
      ((s.seqId, Preempted) in Step(bs, eos, st, fwd).left <==>
        && fwd.next(i).value != eos && s.tokensGenerated + 1 < s.maxNewTokens
        && |s.tokenHistory| + 1 >= |s.blockTable| * bs
        && TurnOf(bs, eos, a, fwd).Wanting(i) >= |a.pool.free|)
  {
    StepShape(bs, eos, cap, st, fwd);
    Stayers(TurnOf(bs, eos, Admit(bs, st), fwd), Rows(bs, eos, st, fwd), i);
  }

  /**
   What ends a sequence: in a good step row i emits its token, flagged if and only if that is the
   end token or uses up what the request allows, and then, and only then, it leaves as finished.
   */
  lemma FlaggedWhen(bs: nat, eos: TokenId, cap: nat, st: State, fwd: Forward, i: nat)
    requires Inv(bs, cap, st) && Step(bs, eos, st, fwd).ok && fwd.Output? && i < |Admit(bs, st).running|
    ensures var s, o := Admit(bs, st).running[i], Step(bs, eos, st, fwd);
      && fwd.next(i).Some? && |o.events| == |Admit(bs, st).running|
      && var token := fwd.next(i).value;
         var ends := token == eos || s.tokensGenerated + 1 >= s.maxNewTokens;
         && o.events[i] == Event(s.seqId, token, ends)
         && ((s.seqId, Finished) in o.left <==> ends)
  {
    StepShape(bs, eos, cap, st, fwd);
    var t := TurnOf(bs, eos, Admit(bs, st), fwd);
    Stayers(t, Rows(bs, eos, st, fwd), i);
    assert Rows(bs, eos, st, fwd).events[i] == t.EventOf(i);
  }

  /** Exactly the rows without a reason to leave go on, each with its token and, if it wanted one, a block. */
  lemma GoesOnAs(bs: nat, eos: TokenId, cap: nat, st: State, fwd: Forward, s2: ActiveSequence) returns (i: nat)
    requires Inv(bs, cap, st) && Step(bs, eos, st, fwd).ok && s2 in Step(bs, eos, st, fwd).st.running
    ensures i < |Admit(bs, st).running| && fwd.Output? && fwd.next(i).Some?
    ensures var s, token := Admit(bs, st).running[i], fwd.next(i).value;
      && token != eos && s.tokensGenerated + 1 < s.maxNewTokens
      && s2.seqId == s.seqId && s2.maxNewTokens == s.maxNewTokens && !s2.isPrefill
      && s2.tokenHistory == s.tokenHistory + [token] && s2.tokensGenerated == s.tokensGenerated + 1
      && s.blockTable <= s2.blockTable
      && |s2.blockTable| == |s.blockTable| + if |s.tokenHistory| + 1 >= |s.blockTable| * bs then 1 else 0
  {
    i := StayedFrom(bs, eos, cap, st, fwd, s2);
  }

  /** The sequence was row i, and the row had no reason to leave. */
  lemma StayedFrom(bs: nat, eos: TokenId, cap: nat, st: State, fwd: Forward, s: ActiveSequence) returns (i: nat)
    requires Inv(bs, cap, st) && Step(bs, eos, st, fwd).ok && s in Step(bs, eos, st, fwd).st.running
    ensures var a := Admit(bs, st);
      && i < |a.running| && s.seqId == a.running[i].seqId && (Ready(bs, a.running[i]) || Fresh(bs, a.running[i]))
      && fwd.Output? && fwd.next(i).Some?
      && s == TurnOf(bs, eos, a, fwd).After(i) && TurnOf(bs, eos, a, fwd).Leaves(i).None?
  {
    StepShape(bs, eos, cap, st, fwd);
    var a := Admit(bs, st);
    var p := Rows(bs, eos, st, fwd);
    i :| 0 <= i < |p.st.running| && p.st.running[i] == s;
    Stayers(TurnOf(bs, eos, a, fwd), p, i);
  }

  /** Dropping rows repeats no id. */
  lemma KeptUnique(a: State, rows: seq<ActiveSequence>, gone: set<SeqId>, st: State)
    requires Unique(a) && |rows| == |a.running| && st.running == Keep(rows, gone) && st.waiting == a.waiting
    requires forall i :: 0 <= i < |rows| ==> rows[i].seqId == a.running[i].seqId
    ensures Unique(st)
  {
    KeepDistinct(rows, gone);
    forall j | 0 <= j < |st.running|
      ensures exists i :: 0 <= i < |a.running| && st.running[j].seqId == a.running[i].seqId
    {
      assert st.running[j] in rows;
    }
  }

  lemma DoneLeft(t: Turn, o: Outcome)
    requires RowsDone(t, |t.running|, o)
    ensures o.left == t.Leaving(|t.running|)
  {
  }

  lemma DoneIds(t: Turn, o: Outcome)
    requires RowsDone(t, |t.running|, o)
    ensures |o.st.running| == |t.running|
    ensures forall i :: 0 <= i < |t.running| ==> o.st.running[i].seqId == t.running[i].seqId
  {
  }

  lemma StepUnique(bs: nat, eos: TokenId, cap: nat, st: State, fwd: Forward)
    requires Inv(bs, cap, st) && Step(bs, eos, st, fwd).ok
    ensures Unique(Step(bs, eos, st, fwd).st)
  {
    StepShape(bs, eos, cap, st, fwd);
    hide Inv, Unique, Step, RowsDone, Keep, Gone, Rows, Admit;
    var a := Admit(bs, st);
    if a.running != [] {
      var p := Rows(bs, eos, st, fwd);
      DoneIds(TurnOf(bs, eos, a, fwd), p);
      KeptUnique(a, p.st.running, Gone(p.left, |p.left|), Step(bs, eos, st, fwd).st);
    }
  }

  /**
   A good step keeps the invariant: blocks owned, ids unique, and every running sequence past
   prefill, unfinished, and with room for its history.
   */
  lemma StepInv(bs: nat, eos: TokenId, cap: nat, st: State, fwd: Forward)
    requires Inv(bs, cap, st) && Step(bs, eos, st, fwd).ok
    ensures Inv(bs, cap, Step(bs, eos, st, fwd).st)
  {
    StepUnique(bs, eos, cap, st, fwd);
    StepOwns(bs, eos, cap, st, fwd);
    hide Owns, Unique, Step;
    var o := Step(bs, eos, st, fwd);
    forall j | 0 <= j < |o.st.running|
      ensures Ready(bs, o.st.running[j])
    {
      var s := o.st.running[j];
      var i := StayedFrom(bs, eos, cap, st, fwd, s);
      StayingReady(TurnOf(bs, eos, Admit(bs, st), fwd), i);
    }
  }

  // ------------------------------------------------------------------ work left

  ghost function WaitingWork(waiting: seq<Request>): nat {
    if waiting == [] then 0 else Budget(waiting[0].maxNewTokens) + WaitingWork(waiting[1..])
  }

  /** Tokens the sequence may still emit. */
  ghost function Remaining(s: ActiveSequence): nat {
    if s.tokensGenerated < Budget(s.maxNewTokens) then Budget(s.maxNewTokens) - s.tokensGenerated else 0
  }

  ghost function RunningWork(running: seq<ActiveSequence>): nat {
    if running == [] then 0 else Remaining(running[0]) + RunningWork(running[1..])
  }

  /** The sum over all requests of the tokens they may still emit. */
  ghost function Work(st: State): nat {
    WaitingWork(st.waiting) + RunningWork(st.running)
  }

  lemma {:induction false} RunningWorkAppend(running: seq<ActiveSequence>, s: ActiveSequence)
    ensures RunningWork(running + [s]) == RunningWork(running) + Remaining(s)
  {
    if running == [] {
      assert running + [s] == [s];
    } else {
      assert (running + [s])[1..] == running[1..] + [s];
      RunningWorkAppend(running[1..], s);
    }
  }

  /** Admission moves work from one queue to the other. */
  lemma {:induction false} AdmitWork(bs: nat, st: State)
    requires bs > 0 && st.pool.Valid()
    ensures Work(Admit(bs, st)) == Work(st)
    decreases |st.waiting|
  {
    hide Pool.Valid;
    if st.waiting != [] {
      var req := st.waiting[0];
      var n := Needed(bs, |req.promptTokens|);
      if |st.pool.free| >= n {
        var (t, p) := TakeBlocks(st.pool, n);
        RunningWorkAppend(st.running, Activate(req, t));
        AdmitWork(bs, State(st.waiting[1..], st.running + [Activate(req, t)], p));
      }
    }
  }

  /** Each row spends one unit. */
  lemma {:induction false} RowsWork(running: seq<ActiveSequence>, after: seq<ActiveSequence>)
    requires |running| == |after|
    requires forall i :: 0 <= i < |running| ==> Remaining(after[i]) + 1 == Remaining(running[i])
    ensures RunningWork(after) + |running| == RunningWork(running)
  {
    if running != [] {
      forall i | 0 <= i < |running[1..]|
        ensures Remaining(after[1..][i]) + 1 == Remaining(running[1..][i])
      {
        assert Remaining(after[i + 1]) + 1 == Remaining(running[i + 1]);
      }
      RowsWork(running[1..], after[1..]);
    }
  }

  lemma {:induction false} KeepWork(running: seq<ActiveSequence>, gone: set<SeqId>)
    ensures RunningWork(Keep(running, gone)) <= RunningWork(running)
  {
    if running != [] {
      KeepWork(running[1..], gone);
      if running[0].seqId !in gone {
        assert ([running[0]] + Keep(running[1..], gone))[1..] == Keep(running[1..], gone);
      } else {
        assert [] + Keep(running[1..], gone) == Keep(running[1..], gone);
      }
    }
  }

  /** Each row that is processed spends one unit. */
  lemma RowSpends(t: Turn, i: nat)
    requires i < |t.running| && t.next(i).Some? && (Ready(t.bs, t.running[i]) || Fresh(t.bs, t.running[i]))
    ensures Remaining(t.After(i)) + 1 == Remaining(t.running[i])
  {
  }

  /** A good step with somebody running uses up work: one unit for each row at least. */
  lemma StepWork(bs: nat, eos: TokenId, cap: nat, st: State, fwd: Forward)
    requires Inv(bs, cap, st) && Step(bs, eos, st, fwd).ok
    ensures Work(Step(bs, eos, st, fwd).st) + |Admit(bs, st).running| <= Work(st)
  {
    StepShape(bs, eos, cap, st, fwd);
    InvCanStep(bs, cap, st);
    AdmitWork(bs, st);
    hide Inv, Unique, Step, Keep, Gone, Rows, Admit, Remaining, Ready, Fresh, Turn.After;
    var a := Admit(bs, st);
    if a.running != [] {
      var p, t := Rows(bs, eos, st, fwd), TurnOf(bs, eos, a, fwd);
      forall i | 0 <= i < |a.running|
        ensures Remaining(p.st.running[i]) + 1 == Remaining(a.running[i])
      {
        assert p.st.running[i] == t.After(i);
        RowSpends(t, i);
      }
      RowsWork(a.running, p.st.running);
      KeepWork(p.st.running, Gone(p.left, |p.left|));
    }
  }

  // ------------------------------------------------------------------ draining

  ghost predicate FitsPool(bs: nat, cap: nat, req: Request)
    requires bs > 0
  {
    Needed(bs, |req.promptTokens|) <= cap
  }

  ghost predicate AllFit(bs: nat, cap: nat, waiting: seq<Request>)
    requires bs > 0
  {
    forall i :: 0 <= i < |waiting| ==> FitsPool(bs, cap, waiting[i])
  }

  ghost predicate Empty(st: State) {
    st.waiting == [] && st.running == []
  }

  /** Good steps, one after the other. */
  ghost predicate GoodRun(bs: nat, eos: TokenId, cap: nat, st: State, fwds: seq<Forward>)
    requires Inv(bs, cap, st)
    decreases |fwds|
  {
    fwds != [] ==>
      var o := Step(bs, eos, st, fwds[0]);
      o.ok && (StepInv(bs, eos, cap, st, fwds[0]); GoodRun(bs, eos, cap, o.st, fwds[1..]))
  }

  ghost function AfterRun(bs: nat, eos: TokenId, cap: nat, st: State, fwds: seq<Forward>): State
    requires Inv(bs, cap, st) && GoodRun(bs, eos, cap, st, fwds)
    decreases |fwds|
  {
    if fwds == [] then st
    else
      StepInv(bs, eos, cap, st, fwds[0]);
      AfterRun(bs, eos, cap, Step(bs, eos, st, fwds[0]).st, fwds[1..])
  }

  /** If every waiting request fits the pool, somebody runs as long as somebody waits. */
  lemma SomebodyRuns(bs: nat, cap: nat, st: State)
    requires Inv(bs, cap, st) && AllFit(bs, cap, st.waiting) && !Empty(st)
    ensures Admit(bs, st).running != []
  {
    var k := AdmitFifo(bs, st);
    if st.running == [] {
      assert FitsPool(bs, cap, st.waiting[0]);
      assert Tables(st.running) == multiset{};
      AllBlocksSize(cap);
      assert |multiset(st.pool.free)| == |multiset(st.pool.free) + multiset{}| == cap;
      AdmitHead(bs, st);
    }
  }

  lemma AdmitHead(bs: nat, st: State)
    requires bs > 0 && st.pool.Valid() && st.waiting != []
    requires Needed(bs, |st.waiting[0].promptTokens|) <= |st.pool.free|
    ensures Admit(bs, st).running != []
  {
    var req := st.waiting[0];
    var (t, p) := TakeBlocks(st.pool, Needed(bs, |req.promptTokens|));
    var st' := State(st.waiting[1..], st.running + [Activate(req, t)], p);
    var k := AdmitFifo(bs, st');
    assert |Admit(bs, st').running| >= |st'.running|;
  }

  lemma StepWaiting(bs: nat, eos: TokenId, cap: nat, st: State, fwd: Forward) returns (k: nat)
    requires Inv(bs, cap, st) && Step(bs, eos, st, fwd).ok
    ensures k <= |st.waiting| && Step(bs, eos, st, fwd).st.waiting == st.waiting[k..]
    ensures forall i :: 0 <= i < k ==> FitsPool(bs, cap, st.waiting[i])
  {
    StepShape(bs, eos, cap, st, fwd);
    AdmitOwns(bs, cap, st);
    k := AdmitFifo(bs, st);
    hide Owns, Unique, AllReady, Step, Admit, FitsPool;
    forall i | 0 <= i < k
      ensures FitsPool(bs, cap, st.waiting[i])
    {
      JoinedFits(bs, cap, st, Admit(bs, st), k, i);
    }
  }

  /** A request that was admitted fits the pool. */
  lemma JoinedFits(bs: nat, cap: nat, st: State, a: State, k: nat, i: nat)
    requires bs > 0 && Joined(bs, st, a, k) && Owns(cap, a) && i < k
    ensures FitsPool(bs, cap, st.waiting[i])
  {
    var s := a.running[|st.running| + i];
    assert Activates(bs, s, st.waiting[i]);
    TablesSplit(a.running, |st.running| + i);
    AllBlocksSize(cap);
    assert |multiset(a.pool.free) + Tables(a.running)| == cap;
    assert |multiset(s.blockTable)| <= |Tables(a.running)|;
  }

  /**
   Draining: after as many good steps as there is work, both queues are empty if and only if
   every waiting request fits the pool.  A request larger than the pool blocks admission forever.
   */
  lemma {:induction false} Drains(bs: nat, eos: TokenId, cap: nat, st: State, fwds: seq<Forward>)
    requires Inv(bs, cap, st) && GoodRun(bs, eos, cap, st, fwds) && |fwds| >= Work(st)
    ensures Empty(AfterRun(bs, eos, cap, st, fwds)) <==> AllFit(bs, cap, st.waiting)
    decreases |fwds|
  {
    if !AllFit(bs, cap, st.waiting) {
      StaysBlocked(bs, eos, cap, st, fwds);
    } else if Empty(st) {
      StaysEmpty(bs, eos, cap, st, fwds);
    } else {
      SomebodyRuns(bs, cap, st);
      WorkPositive(bs, cap, st);
      var st' := Step(bs, eos, st, fwds[0]).st;
      StepInv(bs, eos, cap, st, fwds[0]);
      StepWork(bs, eos, cap, st, fwds[0]);
      var k := StepWaiting(bs, eos, cap, st, fwds[0]);
      Drains(bs, eos, cap, st', fwds[1..]);
    }
  }

  lemma WorkPositive(bs: nat, cap: nat, st: State)
    requires Inv(bs, cap, st) && !Empty(st)
    ensures Work(st) > 0
  {
    if st.waiting == [] {
      assert Ready(bs, st.running[0]);
    }
  }

  lemma {:induction false} StaysEmpty(bs: nat, eos: TokenId, cap: nat, st: State, fwds: seq<Forward>)
    requires Inv(bs, cap, st) && GoodRun(bs, eos, cap, st, fwds) && Empty(st)
    ensures Empty(AfterRun(bs, eos, cap, st, fwds))
    decreases |fwds|
  {
    if fwds != [] {
      StepInv(bs, eos, cap, st, fwds[0]);
      StaysEmpty(bs, eos, cap, Step(bs, eos, st, fwds[0]).st, fwds[1..]);
    }
  }

  lemma {:induction false} StaysBlocked(bs: nat, eos: TokenId, cap: nat, st: State, fwds: seq<Forward>)
    requires Inv(bs, cap, st) && GoodRun(bs, eos, cap, st, fwds) && !AllFit(bs, cap, st.waiting)
    ensures !AllFit(bs, cap, AfterRun(bs, eos, cap, st, fwds).waiting)
    decreases |fwds|
  {
    if fwds != [] {
      StepInv(bs, eos, cap, st, fwds[0]);
      var k := StepWaiting(bs, eos, cap, st, fwds[0]);
      var i :| 0 <= i < |st.waiting| && !FitsPool(bs, cap, st.waiting[i]);
      assert st.waiting[k..][i - k] == st.waiting[i];
      StaysBlocked(bs, eos, cap, Step(bs, eos, st, fwds[0]).st, fwds[1..]);
    }
  }
}

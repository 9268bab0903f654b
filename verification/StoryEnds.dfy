/**
 How stories end, over whole runs: the end token never occurs before a request's last event, and a
 story that ends flagged and unaborted ends with the end token or has used up the allowance.
 */
module StoryEnds {
  import opened Types
  import opened BlockAllocators
  import opened SchedulerSpec
  import opened SchedulerOwnership
  import opened SchedulerSteps
  import opened SchedulerDrain
  import opened EngineRuns

  /** Why the last event of a request that has left is flagged, or is not. */
  ghost predicate EndedBy(eos: TokenId, r: Request, l: seq<Event>, aborted: bool) {
    && l != []
    && var last := l[|l| - 1];
       && (last.done && !aborted ==> last.token == eos || |l| == Budget(r.maxNewTokens))
       && (!last.done ==> last.token != eos && |l| < Budget(r.maxNewTokens))
  }

  ghost predicate Over(e: Engine, j: nat) {
    j < |e.added| && j < Admitted(e) && FindSeq(e.st.running, e.added[j].seqId).None?
  }

  ghost predicate EndAt(eos: TokenId, e: Engine, j: nat)
    requires j < |e.added|
  {
    EndedBy(eos, e.added[j], Of(e.log, e.added[j].seqId), e.added[j].seqId in e.ends.aborted)
  }

  /** Every end token is flagged, and every story that is over has ended for its reason. */
  ghost predicate EndsRight(eos: TokenId, e: Engine) {
    && EosFlagged(eos, e.log)
    && forall j: nat :: Over(e, j) ==> EndAt(eos, e, j)
  }

  ghost predicate EosFlagged(eos: TokenId, log: seq<Event>) {
    forall k :: 0 <= k < |log| && log[k].token == eos ==> log[k].done
  }

  // ------------------------------------------------------------------ a good step

  /** A row that leaves has ended for its reason. */
  lemma RowEnded(t: Turn, i: nat, r: Request, l: seq<Event>, ends: Endings)
    requires i < |t.running| && t.next(i).Some? && t.Leaves(i).Some?
    requires Live(r, t.running[i], l, ends) && (Ready(t.bs, t.running[i]) || Fresh(t.bs, t.running[i]))
    ensures EndedBy(t.eos, r, l + [t.EventOf(i)], false)
  {
  }

  lemma RowsFlagged(e: Engine, t: Turn, p: Outcome)
    requires GoodRowsAt(e, t, p)
    ensures EosFlagged(t.eos, p.events)
  {
    hide Trace, Unique, AllRunnable, Turn.After, Turn.Leaves;
  }

  /** Who was a row of the step and is no longer running has ended. */
  lemma LeaverEnds(e: Engine, t: Turn, p: Outcome, st: State, j: nat, i: nat)
    requires GoodRowsAt(e, t, p) && Cleaned(p, st) && j < |e.added| && j < Admitted(e)
    requires i < |e.st.running| && e.st.running[i].seqId == e.added[j].seqId
    requires FindSeq(st.running, e.added[j].seqId).None?
    ensures EndAt(t.eos, AfterRows(e, t, p, st), j)
  {
    hide Trace, Of, Turn.After, Turn.EventOf, Turn.Leaves, Turn.Starved, Keep, Gone, Ready, Fresh, Live,
         RowsDone, EndedBy, AllRunnable, Histories, Starving;
    RowEnds(e, t, p, i);
    RowLog(e, t, p, i);
    RunningIsLive(e, j, i);
    StillThere(e, t, p, st, i);
    RowEnded(t, i, e.added[j], Of(e.log, e.added[j].seqId), e.ends);
    LiveUnended(e.added[j], e.st.running[i], Of(e.log, e.added[j].seqId), e.ends);
  }

  lemma LiveUnended(r: Request, s: ActiveSequence, l: seq<Event>, ends: Endings)
    requires Live(r, s, l, ends)
    ensures r.seqId !in ends.aborted
  {
  }

  lemma RunningIsLive(e: Engine, j: nat, i: nat)
    requires Trace(e) && Distinct(e.st.running) && j < |e.added| && j < Admitted(e)
    requires i < |e.st.running| && e.st.running[i].seqId == e.added[j].seqId
    ensures Live(e.added[j], e.st.running[i], Of(e.log, e.added[j].seqId), e.ends)
  {
    hide Of, Live, Closed;
    FindDistinct(e.st.running, i);
    assert Told(e, e.added[j], true);
  }

  /** A row without a reason to leave is still running. */
  lemma StillThere(e: Engine, t: Turn, p: Outcome, st: State, i: nat)
    requires GoodRowsAt(e, t, p) && Cleaned(p, st) && i < |e.st.running|
    requires FindSeq(st.running, e.st.running[i].seqId).None?
    ensures t.next(i).Some? && t.Leaves(i).Some?
  {
    RowIds(e, t, p);
    Stayers(t, p, i);
    hide Trace, AllRunnable, Unique, Turn.After, Turn.EventOf, Turn.Leaves, Gone;
    NotRunning(st.running, p.st.running[i]);
  }

  lemma NotRunning(running: seq<ActiveSequence>, s: ActiveSequence)
    requires FindSeq(running, s.seqId).None?
    ensures s !in running
  {
  }

  lemma RowsEndRight(e: Engine, t: Turn, p: Outcome, st: State)
    requires GoodRowsAt(e, t, p) && Cleaned(p, st) && EndsRight(t.eos, e)
    ensures EndsRight(t.eos, AfterRows(e, t, p, st))
  {
    hide Trace, AllRunnable, Unique, RowsDone, Of, EndedBy, Keep, Gone, Starving, Histories;
    var f := AfterRows(e, t, p, st);
    RowsFlagged(e, t, p);
    assert EosFlagged(t.eos, f.log);
    forall j: nat | Over(f, j)
      ensures EndAt(t.eos, f, j)
    {
      match FindSeq(e.st.running, e.added[j].seqId)
      case Some(i) => LeaverEnds(e, t, p, st, j, i);
      case None =>
        assert Over(e, j);
        AbsentLog(e, t, p, e.added[j].seqId);
    }
  }

  // ------------------------------------------------------------------ arrivals, admission, aborts

  lemma ArrivalsEndRight(eos: TokenId, e: Engine, incoming: seq<Request>)
    requires EndsRight(eos, e)
    ensures EndsRight(eos, Adding(e, incoming))
  {
    hide EndedBy, Of, EosFlagged;
    var f := Adding(e, incoming);
    forall j: nat | Over(f, j)
      ensures EndAt(eos, f, j)
    {
      assert Over(e, j);
    }
  }

  /** Whoever is admitted runs. */
  lemma AdmittedEndRight(bs: nat, eos: TokenId, cap: nat, e: Engine)
    requires EngineInv(bs, cap, e) && EndsRight(eos, e)
    ensures EndsRight(eos, e.(st := Admit(bs, e.st)))
  {
    hide EndedBy, Of, EosFlagged, Inv, Trace, Admit, Unique, Pool.Valid;
    EngineParts(bs, cap, e);
    var k := AdmitFifo(bs, e.st);
    AdmittedEngine(bs, cap, e);
    var a := Admit(bs, e.st);
    var f := e.(st := a);
    UniqueRunning(a);
    forall j: nat | Over(f, j)
      ensures EndAt(eos, f, j)
    {
      NotJoined(bs, e, a, k, j);
      assert Over(e, j);
    }
  }

  /** Who has been admitted and does not run was not admitted just now. */
  lemma NotJoined(bs: nat, e: Engine, a: State, k: nat, j: nat)
    requires bs > 0 && Trace(e) && Joined(bs, e.st, a, k) && Distinct(a.running) && Over(e.(st := a), j)
    ensures j < Admitted(e) && FindSeq(e.st.running, e.added[j].seqId).None?
  {
    hide Told, Known, Activates;
    var n := |e.st.running|;
    if j >= Admitted(e) {
      var i := n + (j - Admitted(e));
      JoinerIs(bs, e, a, k, i);
      ActivatesId(bs, a.running[i], e.added[j]);
    }
    forall i | 0 <= i < n
      ensures e.st.running[i].seqId != e.added[j].seqId
    {
      assert a.running[i] == a.running[..n][i] == e.st.running[i];
    }
  }

  lemma {:induction false} FlagsAppend(eos: TokenId, a: seq<Event>, b: seq<Event>)
    requires EosFlagged(eos, a) && EosFlagged(eos, b)
    ensures EosFlagged(eos, a + b)
  {
    forall k | 0 <= k < |a + b| && (a + b)[k].token == eos
      ensures (a + b)[k].done
    {
      assert (a + b)[k] == if k < |a| then a[k] else b[k - |a|];
    }
  }

  /** An abort ends every story that was still going on. */
  lemma AbortEndsRight(eos: TokenId, e: Engine, st: State, rows: seq<ActiveSequence>)
    requires Distinct(e.st.running) && Further(e.st.running, rows) && EndsRight(eos, e)
    requires st.running == [] && st.waiting == e.st.waiting
    ensures EndsRight(eos, AfterAbort(e, st, rows))
  {
    hide Of, FurtherBy, Histories;
    var f := AfterAbort(e, st, rows);
    var events := AbortEvents(rows);
    assert EosFlagged(eos, events);
    FlagsAppend(eos, e.log, events);
    FurtherIds(e.st.running, rows);
    forall j: nat | Over(f, j)
      ensures EndAt(eos, f, j)
    {
      var id := e.added[j].seqId;
      OfAppend(e.log, events, id);
      match FindSeq(e.st.running, id)
      case Some(i) =>
        OfOne(events, i);
        assert rows[i].seqId in Ids(rows);
      case None =>
        assert Over(e, j);
        OfNone(events, id);
        assert Of(e.log, id) + [] == Of(e.log, id);
    }
  }

  // ------------------------------------------------------------------ the loop

  lemma StepEndsRight(bs: nat, eos: TokenId, cap: nat, f: Engine, fwd: Forward)
    requires EngineInv(bs, cap, f) && EndsRight(eos, f)
    ensures f.st.pool.Valid() && bs > 0 && EndsRight(eos, Stepped(bs, eos, f, fwd))
  {
    hide EngineInv, Inv, Trace, Unique, AllRunnable, Step, Admit, Starving, Histories, EndsRight, Pool.Valid, AbortFrom;
    EngineParts(bs, cap, f);
    AdmittedEngine(bs, cap, f);
    AdmittedEndRight(bs, eos, cap, f);
    var a, o := Admit(bs, f.st), Step(bs, eos, f.st, fwd);
    var g, t := f.(st := a), TurnOf(bs, eos, a, fwd);
    UniqueRunning(a);
    if o.ok {
      StepShape(bs, eos, cap, f.st, fwd);
      if a.running == [] {
        NothingAdded(f.ends, t, RowsAfter(bs, eos, f.st, fwd));
        assert f.log + [] == f.log;
        assert Stepped(bs, eos, f, fwd) == g;
      } else {
        var p := Rows(bs, eos, f.st, fwd);
        RowsWaiting(bs, eos, cap, f, fwd);
        RowsEndRight(g, t, p, o.st);
        assert AfterRows(g, t, p, o.st) == Stepped(bs, eos, f, fwd);
      }
    } else {
      FailedStep(bs, eos, cap, f.st, fwd);
      AbortShape(o.st);
      AbortEndsRight(eos, g, AbortFrom(o.st), o.st.running);
    }
  }

  /** Every round, with any arrivals and any answer of the backend, keeps the endings right. */
  lemma TickEndsRight(bs: nat, eos: TokenId, cap: nat, e: Engine, incoming: seq<Request>, fwd: Forward)
    requires EngineInv(bs, cap, e) && UniqueRequests(e.added + incoming) && EndsRight(eos, e)
    ensures bs > 0 && e.st.pool.Valid() && EndsRight(eos, Tick(bs, eos, e, incoming, fwd))
  {
    hide EngineInv, UniqueRequests, EndsRight, Stepped, Pool.Valid;
    EngineParts(bs, cap, e);
    ArrivalsKeep(bs, cap, e, incoming);
    ArrivalsEndRight(eos, e, incoming);
    if !Empty(Adding(e, incoming).st) {
      StepEndsRight(bs, eos, cap, Adding(e, incoming), fwd);
    }
  }

  lemma {:induction false} RunEndsRight(bs: nat, eos: TokenId, cap: nat, e: Engine, rounds: seq<Round>)
    requires EngineInv(bs, cap, e) && UniqueRequests(e.added + Arrivals(rounds)) && EndsRight(eos, e)
    ensures EndsRight(eos, Run(bs, eos, cap, e, rounds))
    decreases |rounds|
  {
    hide EngineInv, UniqueRequests, EndsRight, Tick, Pool.Valid;
    EngineParts(bs, cap, e);
    if rounds != [] {
      ArrivalsSplit(e.added, rounds);
      TickKeeps(bs, eos, cap, e, rounds[0].incoming, rounds[0].fwd);
      TickEndsRight(bs, eos, cap, e, rounds[0].incoming, rounds[0].fwd);
      TickAdds(bs, eos, e, rounds[0].incoming, rounds[0].fwd);
      RunEndsRight(bs, eos, cap, Tick(bs, eos, e, rounds[0].incoming, rounds[0].fwd), rounds[1..]);
    }
  }

  lemma {:induction false} OfFlagged(eos: TokenId, log: seq<Event>, id: SeqId)
    requires EosFlagged(eos, log)
    ensures EosFlagged(eos, Of(log, id))
  {
    if log != [] {
      var init, last := log[..|log| - 1], log[|log| - 1];
      assert EosFlagged(eos, init);
      OfFlagged(eos, init, id);
      FlagsAppend(eos, Of(init, id), if last.seqId == id then [last] else []);
    }
  }

  /**
   In every run from the start: no event of a request before its last bears the end token; and once
   it has left unaborted, its last event is flagged only if it bears the end token or is the last
   one the request allows, and is unflagged only if neither is so.
   */
  lemma StoriesEndFor(bs: nat, eos: TokenId, cap: nat, pool: Pool, rounds: seq<Round>, r: Request)
    requires bs > 0 && Owns(cap, State([], [], pool)) && UniqueRequests(Arrivals(rounds))
    ensures EngineInv(bs, cap, Started(pool)) && Started(pool).added + Arrivals(rounds) == Arrivals(rounds)
    ensures var e := Run(bs, eos, cap, Started(pool), rounds);
      r in e.added && r !in e.st.waiting ==>
        var l := Of(e.log, r.seqId);
        && (forall i :: 0 <= i < |l| - 1 ==> l[i].token != eos)
        && (FindSeq(e.st.running, r.seqId).None? && r.seqId !in e.ends.aborted ==>
              && 1 <= |l| <= Budget(r.maxNewTokens)
              && (l[|l| - 1].done <==> l[|l| - 1].token == eos || |l| == Budget(r.maxNewTokens)))
  {
    hide EngineInv, UniqueRequests, EndsRight, Owns, Run, Started, Of;
    StartedEndsRight(bs, eos, cap, pool, rounds);
    RunEndsRight(bs, eos, cap, Started(pool), rounds);
    var e := Run(bs, eos, cap, Started(pool), rounds);
    if r in e.added && r !in e.st.waiting {
      StoryOf(bs, eos, cap, e, r);
    }
  }

  lemma StartedEndsRight(bs: nat, eos: TokenId, cap: nat, pool: Pool, rounds: seq<Round>)
    requires bs > 0 && Owns(cap, State([], [], pool))
    ensures EngineInv(bs, cap, Started(pool)) && EndsRight(eos, Started(pool))
    ensures Started(pool).added + Arrivals(rounds) == Arrivals(rounds)
  {
    InitialEngine(bs, cap, pool);
  }

  lemma StoryOf(bs: nat, eos: TokenId, cap: nat, e: Engine, r: Request)
    requires EngineInv(bs, cap, e) && EndsRight(eos, e) && r in e.added && r !in e.st.waiting
    ensures var l := Of(e.log, r.seqId);
      && (forall i :: 0 <= i < |l| - 1 ==> l[i].token != eos)
      && (FindSeq(e.st.running, r.seqId).None? && r.seqId !in e.ends.aborted ==>
            && 1 <= |l| <= Budget(r.maxNewTokens)
            && (l[|l| - 1].done <==> l[|l| - 1].token == eos || |l| == Budget(r.maxNewTokens)))
  {
    hide Inv, Of, Known, CutShort;
    var l := Of(e.log, r.seqId);
    OfFlagged(eos, e.log, r.seqId);
    var j :| 0 <= j < |e.added| && e.added[j] == r;
    assert forall i :: Admitted(e) <= i < |e.added| ==> e.added[i] == e.st.waiting[i - Admitted(e)];
    assert j < Admitted(e) && Told(e, e.added[j], true);
    if FindSeq(e.st.running, r.seqId).None? {
      assert Over(e, j);
      assert EndAt(eos, e, j);
    }
  }
}

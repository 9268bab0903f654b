/**
 When a sequence is thrown out for lack of a block, and when that cannot happen: in no run whose
 requests together, each with all the tokens it may generate, fit the pool.
 */
module Preemption {
  import opened Types
  import opened Blocks
  import opened BlockAllocators
  import opened SchedulerSpec
  import opened SchedulerOwnership
  import opened SchedulerSteps
  import opened SchedulerDrain
  import opened EngineRuns

  // ------------------------------------------------------------------ one step

  lemma {:induction false} WantingGrows(t: Turn, i: nat, n: nat)
    requires i <= n <= |t.running|
    ensures t.Wanting(i) <= t.Wanting(n)
    decreases n
  {
    hide Turn.Wants;
    if i < n {
      WantingGrows(t, i, n - 1);
    }
  }

  /** Nobody is thrown out in a step if and only if there is a free block for everybody who wants one. */
  lemma NobodyStarves(t: Turn)
    ensures Starving(t) == {} <==> t.Wanting(|t.running|) <= |t.free|
  {
    hide Turn.Wants;
    if t.Wanting(|t.running|) <= |t.free| {
      forall i | 0 <= i < |t.running|
        ensures !t.Starved(i)
      {
        WantingGrows(t, i + 1, |t.running|);
      }
    } else {
      var i := LastWanting(t, |t.running|);
      assert t.running[i].seqId in Starving(t);
    }
  }

  /** If more rows want a block than there are, the last of them goes without. */
  lemma {:induction false} LastWanting(t: Turn, n: nat) returns (i: nat)
    requires n <= |t.running| && t.Wanting(n) > |t.free|
    ensures i < n && t.Starved(i)
    decreases n
  {
    hide Turn.Wants;
    i := n - 1;
    if !t.Wants(n - 1) {
      i := LastWanting(t, n - 1);
    }
  }

  // ------------------------------------------------------------------ how much a sequence can need

  /** Blocks for the prompt and all the tokens that may be generated. */
  function RequestNeed(bs: nat, r: Request): nat
    requires bs > 0
  {
    Needed(bs, |r.promptTokens| + Budget(r.maxNewTokens))
  }

  function Need(bs: nat, s: ActiveSequence): nat
    requires bs > 0 && s.tokensGenerated <= |s.tokenHistory|
  {
    Needed(bs, |s.tokenHistory| - s.tokensGenerated + Budget(s.maxNewTokens))
  }

  /** The table has not outgrown what the sequence can need. */
  ghost predicate WithinNeed(bs: nat, s: ActiveSequence) {
    bs > 0 && s.tokensGenerated <= |s.tokenHistory| && |s.blockTable| <= Need(bs, s)
  }

  ghost predicate AllWithin(bs: nat, running: seq<ActiveSequence>) {
    forall i :: 0 <= i < |running| ==> WithinNeed(bs, running[i])
  }

  /** The least number of blocks that hold the tokens. */
  lemma NeededIsLeast(bs: nat, tokens: nat, n: nat)
    requires bs > 0
    ensures Needed(bs, tokens) <= n <==> tokens <= n * bs
  {
    var q := Needed(bs, tokens);
    BlockStart(bs, tokens + bs - 1);
    assert tokens <= q * bs < tokens + bs;
    if q <= n {
      FactorLe(q, n, bs);
    } else {
      FactorLe(n + 1, q, bs);
      assert (n + 1) * bs == n * bs + bs;
    }
  }

  lemma NeededGrows(bs: nat, a: nat, b: nat)
    requires bs > 0 && a <= b
    ensures Needed(bs, a) <= Needed(bs, b)
  {
    hide Needed;
    NeededIsLeast(bs, b, Needed(bs, b));
    NeededIsLeast(bs, a, Needed(bs, b));
  }

  /** A row that wants a block can still use one. */
  lemma WantsWithin(t: Turn, i: nat)
    requires i < |t.running| && t.Wants(i) && WithinNeed(t.bs, t.running[i])
    ensures |t.running[i].blockTable| + 1 <= Need(t.bs, t.running[i])
  {
    hide Needed;
    var s := t.running[i];
    NeededIsLeast(t.bs, |s.tokenHistory| - s.tokensGenerated + Budget(s.maxNewTokens), |s.blockTable|);
  }

  /** A row that stays has not outgrown its need either. */
  lemma StaysWithin(t: Turn, i: nat)
    requires i < |t.running| && t.next(i).Some? && WithinNeed(t.bs, t.running[i])
    ensures WithinNeed(t.bs, t.After(i))
  {
    hide Needed;
    if t.Wants(i) {
      WantsWithin(t, i);
    }
  }

  ghost function NeedSum(bs: nat, running: seq<ActiveSequence>): nat
    requires bs > 0 && AllWithin(bs, running)
  {
    if running == [] then 0
    else NeedSum(bs, running[..|running| - 1]) + Need(bs, running[|running| - 1])
  }

  /** What all these requests can need together. */
  ghost function Demand(bs: nat, requests: seq<Request>): nat
    requires bs > 0
  {
    if requests == [] then 0
    else Demand(bs, requests[..|requests| - 1]) + RequestNeed(bs, requests[|requests| - 1])
  }

  /** The blocks held and those wanted by the first n rows are within what these rows can need. */
  lemma {:induction false} WantedWithin(t: Turn, n: nat)
    requires t.bs > 0 && n <= |t.running| && AllWithin(t.bs, t.running)
    ensures |Tables(t.running[..n])| + t.Wanting(n) <= NeedSum(t.bs, t.running[..n])
    decreases n
  {
    hide Need, Turn.Wants;
    if n > 0 {
      var before, row := t.running[..n - 1], t.running[n - 1];
      WantedWithin(t, n - 1);
      assert t.running[..n] == before + [row] && t.running[..n][..n - 1] == before;
      TablesAppend(before, [row]);
      assert Tables([row]) == multiset(row.blockTable) by {
        assert [row][1..] == [];
      }
      assert |multiset(row.blockTable)| == |row.blockTable|;
      assert WithinNeed(t.bs, row);
      if t.Wants(n - 1) {
        WantsWithin(t, n - 1);
      }
    }
  }

  // ------------------------------------------------------------------ running sequences and requests

  ghost predicate Serves(bs: nat, s: ActiveSequence, r: Request)
    requires bs > 0
  {
    s.seqId == r.seqId && s.tokensGenerated <= |s.tokenHistory| && Need(bs, s) == RequestNeed(bs, r)
  }

  ghost predicate ServesOne(bs: nat, s: ActiveSequence, added: seq<Request>)
    requires bs > 0
  {
    exists j :: 0 <= j < |added| && Serves(bs, s, added[j])
  }

  /** Every running sequence serves a request. */
  ghost predicate AllServe(bs: nat, running: seq<ActiveSequence>, added: seq<Request>)
    requires bs > 0
  {
    forall k :: 0 <= k < |running| ==> ServesOne(bs, running[k], added)
  }

  lemma {:induction false} DemandWithout(bs: nat, requests: seq<Request>, j: nat)
    requires bs > 0 && j < |requests|
    ensures Demand(bs, requests) == Demand(bs, WithoutAt(requests, j)) + RequestNeed(bs, requests[j])
    decreases |requests|
  {
    hide RequestNeed;
    var n := |requests| - 1;
    if j < n {
      DemandWithout(bs, requests[..n], j);
      assert WithoutAt(requests, j)[..n - 1] == WithoutAt(requests[..n], j);
    } else {
      assert WithoutAt(requests, j) == requests[..n];
    }
  }

  lemma ServesAnother(bs: nat, s: ActiveSequence, id: SeqId, added: seq<Request>, j: nat)
    requires bs > 0 && ServesOne(bs, s, added) && j < |added| && added[j].seqId == id != s.seqId
    ensures ServesOne(bs, s, WithoutAt(added, j))
  {
    hide Need, RequestNeed;
    var rest := WithoutAt(added, j);
    var m :| 0 <= m < |added| && Serves(bs, s, added[m]);
    assert added[m] == rest[if m < j then m else m - 1];
    assert Serves(bs, s, rest[if m < j then m else m - 1]);
  }

  /** Distinct running sequences need no more than the requests they serve. */
  lemma {:induction false} ServedWithin(bs: nat, running: seq<ActiveSequence>, added: seq<Request>)
    requires bs > 0 && Distinct(running) && AllWithin(bs, running) && AllServe(bs, running, added)
    ensures NeedSum(bs, running) <= Demand(bs, added)
    decreases |running|
  {
    hide Need, RequestNeed;
    if running != [] {
      var n := |running| - 1;
      assert WithinNeed(bs, running[n]);
      assert ServesOne(bs, running[n], added);
      var j :| 0 <= j < |added| && Serves(bs, running[n], added[j]);
      var rest := WithoutAt(added, j);
      forall k | 0 <= k < n
        ensures ServesOne(bs, running[..n][k], rest)
      {
        assert ServesOne(bs, running[k], added);
        ServesAnother(bs, running[k], running[n].seqId, added, j);
      }
      hide ServesOne, Distinct;
      ServedWithin(bs, running[..n], rest);
      DemandWithout(bs, added, j);
    }
  }

  /** After admission every running sequence serves a request that was added. */
  lemma RunningServe(bs: nat, e: Engine)
    requires bs > 0 && Trace(e) && Distinct(e.st.running)
    ensures AllServe(bs, e.st.running, e.added)
  {
    hide Trace, ServesOne, Distinct;
    forall k | 0 <= k < |e.st.running|
      ensures ServesOne(bs, e.st.running[k], e.added)
    {
      RunningServes(bs, e, k);
    }
  }

  lemma RunningServes(bs: nat, e: Engine, k: nat)
    requires bs > 0 && Trace(e) && Distinct(e.st.running) && k < |e.st.running|
    ensures ServesOne(bs, e.st.running[k], e.added)
  {
    hide Of, Closed, Unended;
    assert Known(e, e.st.running[k].seqId);
    var j :| 0 <= j < Admitted(e) && j < |e.added| && e.added[j].seqId == e.st.running[k].seqId;
    FindDistinct(e.st.running, k);
    assert Told(e, e.added[j], true);
    assert Serves(bs, e.st.running[k], e.added[j]);
  }

  // ------------------------------------------------------------------ runs with room for everybody

  /** Nobody has gone without a block, and no table has outgrown its need. */
  ghost predicate Roomy(bs: nat, e: Engine) {
    e.ends.starved == {} && AllWithin(bs, e.st.running)
  }

  lemma JoinerWithin(bs: nat, s: ActiveSequence, r: Request)
    requires bs > 0 && Activates(bs, s, r)
    ensures WithinNeed(bs, s)
  {
    hide Needed;
    NeededGrows(bs, |r.promptTokens|, |r.promptTokens| + Budget(r.maxNewTokens));
  }

  lemma AdmittedWithin(bs: nat, cap: nat, st: State)
    requires Inv(bs, cap, st) && AllWithin(bs, st.running)
    ensures AllWithin(bs, Admit(bs, st).running)
  {
    hide Inv, Admit, Needed, Activates, WithinNeed, Pool.Valid;
    InvParts(bs, cap, st);
    var k := AdmitFifo(bs, st);
    var a := Admit(bs, st);
    var n := |st.running|;
    forall i | 0 <= i < |a.running|
      ensures WithinNeed(bs, a.running[i])
    {
      if i < n {
        assert a.running[i] == a.running[..n][i] == st.running[i];
      } else {
        assert Activates(bs, a.running[n + (i - n)], st.waiting[i - n]);
        JoinerWithin(bs, a.running[i], st.waiting[i - n]);
      }
    }
  }

  /** With room for all requests together, a step throws nobody out. */
  lemma NobodyThrownOut(bs: nat, cap: nat, f: Engine, t: Turn)
    requires EngineInv(bs, cap, f) && AllWithin(bs, f.st.running) && Demand(bs, f.added) <= cap
    requires var a := Admit(bs, f.st); t.bs == bs && t.running == a.running && t.free == a.pool.free
    ensures Starving(t) == {} && AllWithin(bs, t.running)
  {
    hide EngineInv, Trace, Inv, Owns, Unique, AllRunnable, Admit, Demand, Need;
    EngineParts(bs, cap, f);
    InvParts(bs, cap, f.st);
    AdmittedWithin(bs, cap, f.st);
    AdmittedEngine(bs, cap, f);
    AdmitOwns(bs, cap, f.st);
    var a := Admit(bs, f.st);
    UniqueRunning(a);
    RunningServe(bs, f.(st := a));
    ServedWithin(bs, a.running, f.added);
    assert t.running[..|t.running|] == t.running;
    WantedWithin(t, |t.running|);
    HeldAndFree(cap, a);
    NobodyStarves(t);
  }

  lemma HeldAndFree(cap: nat, st: State)
    requires Owns(cap, st)
    ensures |st.pool.free| + |Tables(st.running)| == cap
  {
    AllBlocksSize(cap);
    assert |multiset(st.pool.free) + Tables(st.running)| == cap;
  }

  lemma StepStaysRoomy(bs: nat, eos: TokenId, cap: nat, f: Engine, fwd: Forward)
    requires EngineInv(bs, cap, f) && Roomy(bs, f) && Demand(bs, f.added) <= cap
    ensures Roomy(bs, Stepped(bs, eos, f, fwd))
  {
    hide EngineInv, Trace, Inv, Admit, Demand, Step, WithinNeed, Starving, Histories, Tables, Owns;
    EngineParts(bs, cap, f);
    InvParts(bs, cap, f.st);
    var a, o := Admit(bs, f.st), Step(bs, eos, f.st, fwd);
    var t := TurnOf(bs, eos, a, fwd);
    NobodyThrownOut(bs, cap, f, t);
    if o.ok {
      forall k | 0 <= k < |o.st.running|
        ensures WithinNeed(bs, o.st.running[k])
      {
        var i := StayedFrom(bs, eos, cap, f.st, fwd, o.st.running[k]);
        StaysWithin(t, i);
      }
    } else {
      AbortShape(o.st);
    }
  }

  lemma TickStaysRoomy(bs: nat, eos: TokenId, cap: nat, e: Engine, incoming: seq<Request>, fwd: Forward)
    requires EngineInv(bs, cap, e) && UniqueRequests(e.added + incoming)
    requires Roomy(bs, e) && Demand(bs, e.added + incoming) <= cap
    ensures Roomy(bs, Tick(bs, eos, e, incoming, fwd))
  {
    ArrivalsKeep(bs, cap, e, incoming);
    hide EngineInv, UniqueRequests, Demand, Stepped, AllWithin;
    if !Empty(Adding(e, incoming).st) {
      StepStaysRoomy(bs, eos, cap, Adding(e, incoming), fwd);
    }
  }

  lemma {:induction false} DemandAppend(bs: nat, a: seq<Request>, b: seq<Request>)
    requires bs > 0
    ensures Demand(bs, a + b) == Demand(bs, a) + Demand(bs, b)
    decreases |b|
  {
    if b == [] {
      assert a + b == a;
    } else {
      assert (a + b)[..|a + b| - 1] == a + b[..|b| - 1];
      DemandAppend(bs, a, b[..|b| - 1]);
    }
  }

  /** Rounds of the loop throw nobody out if all requests together fit the pool. */
  lemma {:induction false} RunStaysRoomy(bs: nat, eos: TokenId, cap: nat, e: Engine, rounds: seq<Round>)
    requires EngineInv(bs, cap, e) && UniqueRequests(e.added + Arrivals(rounds))
    requires Roomy(bs, e) && Demand(bs, e.added + Arrivals(rounds)) <= cap
    ensures Roomy(bs, Run(bs, eos, cap, e, rounds))
    decreases |rounds|
  {
    hide EngineInv, Trace, Inv, Roomy, Demand, Tick, UniqueRequests;
    EngineParts(bs, cap, e);
    InvParts(bs, cap, e.st);
    if rounds != [] {
      var r, rest := rounds[0], rounds[1..];
      assert e.added + Arrivals(rounds) == e.added + r.incoming + Arrivals(rest);
      DemandAppend(bs, e.added + r.incoming, Arrivals(rest));
      ArrivalsSplit(e.added, rounds);
      TickKeeps(bs, eos, cap, e, r.incoming, r.fwd);
      TickStaysRoomy(bs, eos, cap, e, r.incoming, r.fwd);
      TickAdds(bs, eos, e, r.incoming, r.fwd);
      RunStaysRoomy(bs, eos, cap, Tick(bs, eos, e, r.incoming, r.fwd), rest);
    }
  }

  /** The request has not left, or its last event is flagged. */
  ghost predicate EndsFlagged(e: Engine, r: Request) {
    var l := Of(e.log, r.seqId);
    r in e.st.waiting || FindSeq(e.st.running, r.seqId).Some? || (l != [] && l[|l| - 1].done)
  }

  lemma RoomyEndsFlagged(bs: nat, cap: nat, e: Engine, r: Request)
    requires EngineInv(bs, cap, e) && Roomy(bs, e) && r in e.added
    ensures EndsFlagged(e, r)
  {
    hide EngineInv, Of, AllWithin, CutShort, Tokens;
    if r !in e.st.waiting && FindSeq(e.st.running, r.seqId).None? {
      StoriesEnd(bs, cap, e, r);
    }
  }

  lemma StartedRoomy(bs: nat, cap: nat, pool: Pool, rounds: seq<Round>)
    requires bs > 0 && Owns(cap, State([], [], pool))
    ensures EngineInv(bs, cap, Started(pool)) && Roomy(bs, Started(pool))
    ensures Started(pool).added + Arrivals(rounds) == Arrivals(rounds)
  {
    InitialEngine(bs, cap, pool);
  }

  /**
   If all requests of a run, each with its prompt and all the tokens it may generate, fit the pool
   together, every request that has left has ended with a flagged event.
   */
  lemma AllStoriesFlagged(bs: nat, eos: TokenId, cap: nat, pool: Pool, rounds: seq<Round>, r: Request)
    requires bs > 0 && Owns(cap, State([], [], pool)) && UniqueRequests(Arrivals(rounds))
    requires Demand(bs, Arrivals(rounds)) <= cap
    ensures EngineInv(bs, cap, Started(pool)) && Started(pool).added + Arrivals(rounds) == Arrivals(rounds)
    ensures var e := Run(bs, eos, cap, Started(pool), rounds);
      e.ends.starved == {} && (r in e.added ==> EndsFlagged(e, r))
  {
    hide EngineInv, Demand, Owns, UniqueRequests, AllWithin, EndsFlagged, Run, Started;
    StartedRoomy(bs, cap, pool, rounds);
    RunStaysRoomy(bs, eos, cap, Started(pool), rounds);
    var e := Run(bs, eos, cap, Started(pool), rounds);
    if r in e.added {
      RoomyEndsFlagged(bs, cap, e, r);
    }
  }

  // ------------------------------------------------------------------ a sequence that is thrown out

  const TIGHT_POOL: Pool := Pool([0], [0])
  const LONG_REQUEST: Request := Request(7, [5], 3)

  lemma OneAdmitted(r: Request, st: State)
    requires st == State([r], [], Pool([0], [0])) && |r.promptTokens| == 1 && st.pool.Valid()
    ensures Admit(1, st).running == [Activate(r, [0])] && Admit(1, st).waiting == [] && Admit(1, st).pool.free == []
  {
    var (t, p) := TakeBlocks(st.pool, 1);
    assert t == [0] && p.free == [];
    assert Admit(1, st) == Admit(1, State([], [Activate(r, t)], p));
  }

  /** A starved row that runs alone leaves nobody running. */
  lemma StarvedRowLeaves(bs: nat, eos: TokenId, cap: nat, f: Engine, fwd: Forward)
    requires EngineInv(bs, cap, f) && fwd.Output? && fwd.next(0).Some?
    requires var a := Admit(bs, f.st); |a.running| == 1 && TurnOf(bs, eos, a, fwd).Starved(0)
    ensures var t := TurnOf(bs, eos, Admit(bs, f.st), fwd);
      var o := Step(bs, eos, f.st, fwd);
      && o.ok && o.st.running == [] && o.st.waiting == Admit(bs, f.st).waiting && o.events == [t.EventOf(0)]
  {
    hide Inv, Trace, Admit, Step, Turn.Starved, Turn.EventOf, Pool.Valid, AllRunnable, Turn.After;
    EngineParts(bs, cap, f);
    InvParts(bs, cap, f.st);
    StepShape(bs, eos, cap, f.st, fwd);
    var a := Admit(bs, f.st);
    var t, o, p := TurnOf(bs, eos, a, fwd), Step(bs, eos, f.st, fwd), Rows(bs, eos, f.st, fwd);
    Stayers(t, p, 0);
    DoneIds(t, p);
    hide RowsDone, Keep, Gone;
    assert forall s :: s in p.st.running ==> s == p.st.running[0];
    KeepNone(p.st.running, Gone(p.left, |p.left|));
    DoneEvents(t, p);
  }

  lemma DoneEvents(t: Turn, o: Outcome)
    requires |t.running| == 1 && RowsDone(t, 1, o)
    ensures t.next(0).Some? && o.events == [t.EventOf(0)]
  {
  }

  /** The only row of the tight engine wants a block and there is none. */
  lemma TightRow(t: Turn)
    requires t.bs == 1 && t.running == [Activate(LONG_REQUEST, [0])] && t.free == []
    requires t.next(0).Some? && t.next(0).value != t.eos
    ensures t.Starved(0) && Starving(t) == {7} && t.EventOf(0) == Event(7, t.next(0).value, false)
  {
    assert t.Wants(0) && t.Starved(0);
    assert forall i :: 0 <= i < |t.running| && t.Starved(i) ==> t.running[i].seqId == 7;
    assert t.running[0].seqId in Starving(t);
  }

  lemma TightArrival()
    ensures var f := Adding(Started(TIGHT_POOL), [LONG_REQUEST]);
      EngineInv(1, 1, Started(TIGHT_POOL)) && EngineInv(1, 1, f) && !Empty(f.st)
      && f.st == State([LONG_REQUEST], [], TIGHT_POOL) && f.log == [] && f.ends == NOBODY
  {
    InitialEngine(1, 1, TIGHT_POOL);
    ArrivalsKeep(1, 1, Started(TIGHT_POOL), [LONG_REQUEST]);
  }

  /**
   A pool of one block of one token: a request with a prompt of one token, admitted and served by
   the engine, is thrown out after its first token, and that token's event bears no flag.
   */
  lemma ThrownOutUnflagged(eos: TokenId, token: TokenId, fwd: Forward)
    requires fwd.Output? && fwd.next(0) == Some(token) && token != eos
    ensures EngineInv(1, 1, Started(TIGHT_POOL))
    ensures var e := Tick(1, eos, Started(TIGHT_POOL), [LONG_REQUEST], fwd);
      && EngineInv(1, 1, e) && e.ends.starved == {7} && Empty(e.st)
      && Of(e.log, 7) == [Event(7, token, false)]
  {
    hide EngineInv, Step, Admit, Of, Started, Starving, Histories, AbortFrom, RowsAfter, Turn.Starved, Turn.EventOf,
         Adding, Pool.Valid;
    TightArrival();
    var f := Adding(Started(TIGHT_POOL), [LONG_REQUEST]);
    EngineParts(1, 1, f);
    InvParts(1, 1, f.st);
    OneAdmitted(LONG_REQUEST, f.st);
    var t := TurnOf(1, eos, Admit(1, f.st), fwd);
    TightRow(t);
    StarvedRowLeaves(1, eos, 1, f, fwd);
    StepKeeps(1, eos, 1, f, fwd);
    assert f.log + [t.EventOf(0)] == [Event(7, token, false)];
    OfOne([Event(7, token, false)], 0);
  }
}

/**
 Whole runs of the engine loop: requests arrive, the scheduler steps, events are published, and
 after an error everything running is aborted.  The event log tells each request's story: its
 tokens in history order, between one and as many as it may have, and the done flag on the last
 event only, which is missing exactly when no block was left for the sequence.
 */
module EngineRuns {
  import opened Types
  import opened BlockAllocators
  import opened SchedulerSpec
  import opened SchedulerOwnership
  import opened SchedulerSteps
  import opened SchedulerDrain

  /**
   How sequences came to leave: those for which no block was left, those that were aborted, and
   each sequence's token history as of its last step.
   */
  datatype Endings = Endings(starved: set<SeqId>, aborted: set<SeqId>, histories: map<SeqId, seq<TokenId>>) {
    ghost function AddRows(t: Turn, rows: seq<ActiveSequence>): Endings {
      Endings(starved + Starving(t), aborted, histories + Histories(rows))
    }

    ghost function AddAbort(running: seq<ActiveSequence>): Endings {
      Endings(starved, aborted + Ids(running), histories + Histories(running))
    }
  }

  const NOBODY: Endings := Endings({}, {}, map[])

  /** The scheduler's state and the history of the run so far. */
  datatype Engine = Engine(st: State, log: seq<Event>, added: seq<Request>, ends: Endings)

  /** The rows of a step that want a block when the rows before them have taken all there are. */
  ghost function Starving(t: Turn): set<SeqId> {
    set i | 0 <= i < |t.running| && t.Starved(i) :: t.running[i].seqId
  }

  ghost function Ids(running: seq<ActiveSequence>): set<SeqId> {
    set i | 0 <= i < |running| :: running[i].seqId
  }

  ghost function Histories(running: seq<ActiveSequence>): map<SeqId, seq<TokenId>> {
    map id | id in Ids(running) :: HistoryOf(running, id)
  }

  ghost function HistoryOf(running: seq<ActiveSequence>, id: SeqId): seq<TokenId> {
    match FindSeq(running, id) case None => [] case Some(k) => running[k].tokenHistory
  }

  function AbortEvents(running: seq<ActiveSequence>): (r: seq<Event>)
    ensures |r| == |running| && forall i :: 0 <= i < |r| ==> r[i] == Event(running[i].seqId, 0, true)
  {
    seq(|running|, i requires 0 <= i < |running| => Event(running[i].seqId, 0, true))
  }

  ghost function Adding(e: Engine, incoming: seq<Request>): Engine {
    e.(st := e.st.(waiting := e.st.waiting + incoming), added := e.added + incoming)
  }

  /** The rows of a step once they have been processed; none if the backend has failed. */
  ghost function RowsAfter(bs: nat, eos: TokenId, st: State, fwd: Forward): seq<ActiveSequence>
    requires bs > 0 && st.pool.Valid()
  {
    if fwd.Output? then Rows(bs, eos, st, fwd).st.running else []
  }

  /** A step and its publication; after an error, a final event for everything running, and the abort. */
  ghost function Stepped(bs: nat, eos: TokenId, e: Engine, fwd: Forward): Engine
    requires bs > 0 && e.st.pool.Valid()
  {
    var o := Step(bs, eos, e.st, fwd);
    if o.ok then
      Engine(o.st, e.log + o.events, e.added,
             e.ends.AddRows(TurnOf(bs, eos, Admit(bs, e.st), fwd), RowsAfter(bs, eos, e.st, fwd)))
    else AfterAbort(e, AbortFrom(o.st), o.st.running)
  }

  ghost function AfterAbort(e: Engine, st: State, running: seq<ActiveSequence>): Engine {
    Engine(st, e.log + AbortEvents(running), e.added, e.ends.AddAbort(running))
  }

  /** One round of the loop: add what has arrived, step, publish; after an error, abort. */
  ghost function Tick(bs: nat, eos: TokenId, e: Engine, incoming: seq<Request>, fwd: Forward): Engine
    requires bs > 0 && e.st.pool.Valid()
  {
    var f := Adding(e, incoming);
    if Empty(f.st) then f else Stepped(bs, eos, f, fwd)
  }

  // ------------------------------------------------------------------ the log of one request

  /** The events of one sequence, in order. */
  ghost function Of(log: seq<Event>, id: SeqId): seq<Event> {
    if log == [] then []
    else Of(log[..|log| - 1], id) + (if log[|log| - 1].seqId == id then [log[|log| - 1]] else [])
  }

  lemma {:induction false} OfAppend(a: seq<Event>, b: seq<Event>, id: SeqId)
    ensures Of(a + b, id) == Of(a, id) + Of(b, id)
    decreases |b|
  {
    if b == [] {
      assert a + b == a;
    } else {
      assert (a + b)[..|a + b| - 1] == a + b[..|b| - 1];
      OfAppend(a, b[..|b| - 1], id);
    }
  }

  ghost predicate DistinctIds(events: seq<Event>) {
    forall i, j :: 0 <= i < j < |events| ==> events[i].seqId != events[j].seqId
  }

  lemma {:induction false} OfNone(events: seq<Event>, id: SeqId)
    requires forall i :: 0 <= i < |events| ==> events[i].seqId != id
    ensures Of(events, id) == []
  {
    if events != [] {
      OfNone(events[..|events| - 1], id);
    }
  }

  lemma {:induction false} OfOne(events: seq<Event>, i: nat)
    requires DistinctIds(events) && i < |events|
    ensures Of(events, events[i].seqId) == [events[i]]
  {
    var init := events[..|events| - 1];
    if i == |events| - 1 {
      OfNone(init, events[i].seqId);
    } else {
      OfOne(init, i);
    }
  }

  ghost function Tokens(events: seq<Event>): seq<TokenId> {
    seq(|events|, i requires 0 <= i < |events| => events[i].token)
  }

  /** The story so far of a running request: its tokens, none of them flagged. */
  ghost predicate Live(r: Request, s: ActiveSequence, l: seq<Event>, ends: Endings) {
    && s.seqId == r.seqId && s.maxNewTokens == r.maxNewTokens
    && s.tokenHistory == r.promptTokens + Tokens(l) && s.tokensGenerated == |l|
    && (forall i :: 0 <= i < |l| ==> !l[i].done)
    && Unended(r.seqId, ends)
  }

  ghost predicate Unended(id: SeqId, ends: Endings) {
    id !in ends.starved && id !in ends.aborted
  }

  /** The whole story of a request that has left. */
  ghost predicate Closed(r: Request, l: seq<Event>, ends: Endings) {
    && 1 <= |l| <= Budget(r.maxNewTokens)
    && (forall i :: 0 <= i < |l| - 1 ==> !l[i].done)
    && (l[|l| - 1].done <==> r.seqId !in ends.starved)
    && r.seqId in ends.histories
    && if r.seqId in ends.aborted then CutShort(r, l, ends.histories[r.seqId])
       else ends.histories[r.seqId] == r.promptTokens + Tokens(l)
  }

  /**
   An aborted request's last event bears the token 0 and belongs to no token; the others are its
   tokens, and at most one token of its history has not been published.
   */
  ghost predicate CutShort(r: Request, l: seq<Event>, history: seq<TokenId>)
    requires l != []
  {
    var published := r.promptTokens + Tokens(l[..|l| - 1]);
    && l[|l| - 1].token == 0 && published <= history && |history| <= |published| + 1
  }

  ghost predicate Told(e: Engine, r: Request, admitted: bool) {
    var l := Of(e.log, r.seqId);
    if !admitted then l == [] && Unended(r.seqId, e.ends)
    else match FindSeq(e.st.running, r.seqId)
      case Some(k) => Live(r, e.st.running[k], l, e.ends)
      case None => Closed(r, l, e.ends)
  }

  ghost predicate UniqueRequests(added: seq<Request>) {
    forall i, j :: 0 <= i < j < |added| ==> added[i].seqId != added[j].seqId
  }

  ghost function Admitted(e: Engine): int {
    |e.added| - |e.st.waiting|
  }

  /** Waiting requests are the latest ones, in order of arrival; everybody's story is right. */
  ghost predicate Trace(e: Engine) {
    && UniqueRequests(e.added) && Admitted(e) >= 0
    && e.st.waiting == e.added[Admitted(e)..]
    && (forall j :: 0 <= j < |e.added| ==> Told(e, e.added[j], j < Admitted(e)))
    && (forall k :: 0 <= k < |e.st.running| ==> Known(e, e.st.running[k].seqId))
    && (forall id :: id in e.ends.starved + e.ends.aborted ==> Known(e, id))
    && (forall i :: 0 <= i < |e.log| ==> Known(e, e.log[i].seqId))
  }

  /** The id of a request admitted at some time. */
  ghost predicate Known(e: Engine, id: SeqId) {
    exists j :: 0 <= j < Admitted(e) && j < |e.added| && e.added[j].seqId == id
  }

  ghost predicate EngineInv(bs: nat, cap: nat, e: Engine) {
    Inv(bs, cap, e.st) && Trace(e)
  }

  lemma EngineParts(bs: nat, cap: nat, e: Engine)
    requires EngineInv(bs, cap, e)
    ensures bs > 0 && Inv(bs, cap, e.st) && e.st.pool.Valid() && Trace(e)
  {
  }

  // ------------------------------------------------------------------ arrivals and admission

  lemma KnownAdding(e: Engine, incoming: seq<Request>, id: SeqId)
    requires Known(e, id)
    ensures Known(Adding(e, incoming), id)
  {
    var j :| 0 <= j < Admitted(e) && j < |e.added| && e.added[j].seqId == id;
    assert Adding(e, incoming).added[j].seqId == id;
  }

  lemma PrefixUnique(a: seq<Request>, b: seq<Request>)
    requires UniqueRequests(a + b)
    ensures UniqueRequests(a)
  {
    assert forall i :: 0 <= i < |a| ==> a[i] == (a + b)[i];
  }

  /** New requests with new ids keep the invariant. */
  lemma ArrivalsKeep(bs: nat, cap: nat, e: Engine, incoming: seq<Request>)
    requires EngineInv(bs, cap, e) && UniqueRequests(e.added + incoming)
    ensures EngineInv(bs, cap, Adding(e, incoming))
  {
    hide Told, Known, Owned, Unique, UniqueRequests, Ready;
    var f := Adding(e, incoming);
    ArrivalsUnique(e, incoming);
    assert f.st.waiting == f.added[Admitted(f)..];
    forall id | Known(e, id)
      ensures Known(f, id)
    {
      KnownAdding(e, incoming, id);
    }
    forall j | 0 <= j < |f.added|
      ensures Told(f, f.added[j], j < Admitted(f))
    {
      ArrivalTold(e, incoming, j);
    }
  }

  lemma ArrivalTold(e: Engine, incoming: seq<Request>, j: nat)
    requires Trace(e) && UniqueRequests(e.added + incoming) && j < |e.added + incoming|
    ensures Told(Adding(e, incoming), (e.added + incoming)[j], j < Admitted(e))
  {
    hide Live, Closed, Of;
    var f := Adding(e, incoming);
    assert f.log == e.log && f.ends == e.ends && f.st.running == e.st.running;
    if j < |e.added| {
      assert Told(e, e.added[j], j < Admitted(e));
      assert Told(f, e.added[j], j < Admitted(e));
      assert (e.added + incoming)[j] == e.added[j];
    } else {
      NotKnown(e, e.added + incoming, j);
    }
  }

  /** A request that has just arrived has no events and has not left. */
  lemma NotKnown(e: Engine, added: seq<Request>, j: nat)
    requires Trace(e) && UniqueRequests(added) && e.added <= added && |e.added| <= j < |added|
    ensures !Known(e, added[j].seqId)
    ensures Of(e.log, added[j].seqId) == [] && Unended(added[j].seqId, e.ends)
  {
    OfNone(e.log, added[j].seqId);
  }

  lemma ArrivalsUnique(e: Engine, incoming: seq<Request>)
    requires Trace(e) && Unique(e.st) && UniqueRequests(e.added + incoming)
    ensures Unique(e.st.(waiting := e.st.waiting + incoming))
  {
    var added := e.added + incoming;
    var waiting := e.st.waiting + incoming;
    assert forall i :: 0 <= i < |waiting| ==> waiting[i] == added[Admitted(e) + i];
    forall i, k | 0 <= i < |waiting| && 0 <= k < |e.st.running|
      ensures waiting[i].seqId != e.st.running[k].seqId
    {
      assert Known(e, e.st.running[k].seqId);
      var j :| 0 <= j < Admitted(e) && j < |e.added| && e.added[j].seqId == e.st.running[k].seqId;
      assert added[j] == e.added[j] && waiting[i] == added[Admitted(e) + i];
    }
  }

  /** Admission tells nobody's story differently. */
  lemma AdmitTrace(bs: nat, e: Engine, a: State, k: nat)
    requires bs > 0 && Trace(e) && Joined(bs, e.st, a, k) && Unique(a)
    ensures Trace(e.(st := a)) && Admitted(e.(st := a)) == Admitted(e) + k
  {
    hide Told;
    var f := e.(st := a);
    var n := Admitted(e);
    assert a.waiting == e.added[n + k..];
    forall id | Known(e, id)
      ensures Known(f, id)
    {
    }
    forall j | 0 <= j < |e.added|
      ensures Told(f, e.added[j], j < Admitted(f))
    {
      assert Told(e, e.added[j], j < n);
      if j < n {
        EarlierTold(bs, e, a, k, j);
      } else if j < n + k {
        JoinerTold(bs, e, a, k, j);
      } else {
        WaiterTold(e, f, e.added[j]);
      }
    }
    forall i | 0 <= i < |a.running|
      ensures Known(f, a.running[i].seqId)
    {
      if i < |e.st.running| {
        assert a.running[i] == a.running[..|e.st.running|][i];
        assert Known(e, e.st.running[i].seqId);
      } else {
        JoinerIs(bs, e, a, k, i);
        assert e.added[n + (i - |e.st.running|)].seqId == a.running[i].seqId;
      }
    }
  }

  lemma WaiterTold(e: Engine, f: Engine, r: Request)
    requires Told(e, r, false) && f.log == e.log && f.ends == e.ends
    ensures Told(f, r, false)
  {
  }

  /** Row i, past the earlier ones, activates the request that arrived in that place. */
  lemma JoinerIs(bs: nat, e: Engine, a: State, k: nat, i: nat)
    requires bs > 0 && Trace(e) && Joined(bs, e.st, a, k) && |e.st.running| <= i < |a.running|
    ensures var m := i - |e.st.running|;
      && Admitted(e) + m < |e.added| && Activates(bs, a.running[i], e.added[Admitted(e) + m])
  {
    hide Told, Known;
    var m := i - |e.st.running|;
    assert Activates(bs, a.running[|e.st.running| + m], e.st.waiting[m]);
    assert e.added[Admitted(e)..][m] == e.added[Admitted(e) + m];
  }

  lemma JoinerTold(bs: nat, e: Engine, a: State, k: nat, j: nat)
    requires bs > 0 && Trace(e) && Joined(bs, e.st, a, k) && Distinct(a.running)
    requires Admitted(e) <= j < Admitted(e) + k && j < |e.added|
    ensures Told(e.(st := a), e.added[j], true)
  {
    var i := |e.st.running| + (j - Admitted(e));
    JoinerIs(bs, e, a, k, i);
    FindDistinct(a.running, i);
    assert Told(e, e.added[j], false);
    assert e.added[j].promptTokens + Tokens([]) == e.added[j].promptTokens;
  }

  lemma EarlierTold(bs: nat, e: Engine, a: State, k: nat, j: nat)
    requires bs > 0 && Trace(e) && Joined(bs, e.st, a, k) && Distinct(a.running)
    requires j < Admitted(e)
    ensures Told(e.(st := a), e.added[j], true)
  {
    hide Live, Closed;
    var m := |e.st.running|;
    var id := e.added[j].seqId;
    assert Told(e, e.added[j], true);
    assert forall i :: 0 <= i < m ==> a.running[i] == a.running[..m][i] == e.st.running[i];
    match FindSeq(e.st.running, id)
    case Some(i) =>
      FindDistinct(a.running, i);
    case None =>
      if FindSeq(a.running, id).Some? && FindSeq(a.running, id).value >= m {
        JoinerIs(bs, e, a, k, FindSeq(a.running, id).value);
      }
  }

  // ------------------------------------------------------------------ a good step

  /** The engine after rows and cleanup. */
  ghost function AfterRows(e: Engine, t: Turn, p: Outcome, st: State): Engine {
    Engine(st, e.log + p.events, e.added, e.ends.AddRows(t, p.st.running))
  }

  /** Cleanup has dropped exactly the rows marked to leave. */
  ghost predicate Cleaned(p: Outcome, st: State) {
    st.running == Keep(p.st.running, Gone(p.left, |p.left|)) && st.waiting == p.st.waiting
  }

  /** All rows have been processed. */
  ghost predicate GoodRowsAt(e: Engine, t: Turn, p: Outcome) {
    && t.bs > 0 && Trace(e) && Unique(e.st) && AllRunnable(t.bs, e.st.running)
    && t.running == e.st.running && RowsDone(t, |t.running|, p) && p.st.waiting == e.st.waiting
  }

  lemma RowIds(e: Engine, t: Turn, p: Outcome)
    requires GoodRowsAt(e, t, p)
    ensures |p.st.running| == |p.events| == |e.st.running|
    ensures forall i :: 0 <= i < |e.st.running| ==>
      p.st.running[i].seqId == e.st.running[i].seqId && p.events[i].seqId == e.st.running[i].seqId
    ensures Distinct(p.st.running) && DistinctIds(p.events)
  {
    hide Trace, AllRunnable;
    forall i | 0 <= i < |e.st.running|
      ensures p.st.running[i].seqId == e.st.running[i].seqId && p.events[i].seqId == e.st.running[i].seqId
    {
      assert p.st.running[i] == t.After(i) && p.events[i] == t.EventOf(i);
    }
  }

  /** A row's story grows by its event, and ends there if the row leaves. */
  lemma RowTold(e: Engine, t: Turn, p: Outcome, st: State, r: Request, i: nat)
    requires GoodRowsAt(e, t, p) && Cleaned(p, st)
    requires i < |e.st.running| && e.st.running[i].seqId == r.seqId && Told(e, r, true)
    ensures Told(AfterRows(e, t, p, st), r, true)
  {
    hide Trace, Of, Turn.After, Turn.EventOf, Turn.Leaves, Live, Closed, Keep, Gone, Endings.AddRows, AllRunnable,
         Noted, Ready, Fresh, RowsDone, Turn.Starved, FindSeq;
    RowIds(e, t, p);
    Stayers(t, p, i);
    FindDistinct(e.st.running, i);
    RowEnds(e, t, p, i);
    RowLog(e, t, p, i);
    var l, ends := Of(e.log, r.seqId), e.ends.AddRows(t, p.st.running);
    KeepDistinct(p.st.running, Gone(p.left, |p.left|));
    if t.Leaves(i).None? {
      assert p.st.running[i] in p.st.running && p.st.running[i] in st.running;
      var k :| 0 <= k < |st.running| && st.running[k] == p.st.running[i];
      FindDistinct(st.running, k);
      StillLive(t, i, r, l, e.ends, ends);
    } else {
      GoneNotFound(p, st, r.seqId);
      NowClosed(t, i, r, l, e.ends, ends);
    }
  }

  lemma RowLog(e: Engine, t: Turn, p: Outcome, i: nat)
    requires GoodRowsAt(e, t, p) && i < |e.st.running|
    ensures t.next(i).Some? && Of(e.log + p.events, e.st.running[i].seqId) ==
      Of(e.log, e.st.running[i].seqId) + [t.EventOf(i)]
  {
    RowIds(e, t, p);
    hide Trace, AllRunnable, Unique, Turn.After, Turn.EventOf, Turn.Leaves, Of;
    OfAppend(e.log, p.events, e.st.running[i].seqId);
    OfOne(p.events, i);
  }

  /** What is noted of row i, once it has been processed. */
  ghost predicate Noted(t: Turn, i: nat, was: Endings, ends: Endings)
    requires i < |t.running| && t.next(i).Some?
  {
    var id := t.running[i].seqId;
    && (id in ends.starved <==> id in was.starved || t.Starved(i)) && ends.aborted == was.aborted
    && id in ends.histories && ends.histories[id] == t.After(i).tokenHistory
  }

  lemma RowEnds(e: Engine, t: Turn, p: Outcome, i: nat)
    requires GoodRowsAt(e, t, p) && i < |e.st.running|
    ensures t.next(i).Some? && p.st.running[i] == t.After(i)
    ensures Ready(t.bs, t.running[i]) || Fresh(t.bs, t.running[i])
    ensures Noted(t, i, e.ends, e.ends.AddRows(t, p.st.running))
  {
    hide Trace, Turn.After, Turn.EventOf, Turn.Leaves, Turn.Starved, FindSeq, Ready, Fresh, DistinctIds;
    RowIds(e, t, p);
    assert t.next(i).Some? && p.st.running[i] == t.After(i);
    hide RowsDone, Distinct;
    RowHistory(p.st.running, i);
    StarvedAlone(t, i);
  }

  lemma RowHistory(rows: seq<ActiveSequence>, i: nat)
    requires Distinct(rows) && i < |rows|
    ensures rows[i].seqId in Histories(rows) && Histories(rows)[rows[i].seqId] == rows[i].tokenHistory
  {
    FindDistinct(rows, i);
  }

  lemma StarvedAlone(t: Turn, i: nat)
    requires Distinct(t.running) && i < |t.running|
    ensures t.running[i].seqId in Starving(t) <==> t.Starved(i)
  {
    hide Turn.Starved;
  }

  lemma GoneNotFound(p: Outcome, st: State, id: SeqId)
    requires Cleaned(p, st) && id in Gone(p.left, |p.left|)
    ensures FindSeq(st.running, id) == None
  {
    forall k | 0 <= k < |st.running|
      ensures st.running[k].seqId != id
    {
      assert st.running[k] in st.running;
    }
  }

  lemma StillLive(t: Turn, i: nat, r: Request, l: seq<Event>, was: Endings, ends: Endings)
    requires i < |t.running| && t.next(i).Some? && t.Leaves(i).None?
    requires Live(r, t.running[i], l, was) && Noted(t, i, was, ends)
    ensures Live(r, t.After(i), l + [t.EventOf(i)], ends)
  {
    var token := t.next(i).value;
    assert Tokens(l + [t.EventOf(i)]) == Tokens(l) + [token];
    assert t.running[i].tokenHistory + [token] == r.promptTokens + (Tokens(l) + [token]);
  }

  lemma NowClosed(t: Turn, i: nat, r: Request, l: seq<Event>, was: Endings, ends: Endings)
    requires i < |t.running| && t.next(i).Some? && t.Leaves(i).Some?
    requires Live(r, t.running[i], l, was) && (Ready(t.bs, t.running[i]) || Fresh(t.bs, t.running[i]))
    requires Noted(t, i, was, ends)
    ensures Closed(r, l + [t.EventOf(i)], ends)
  {
    var token := t.next(i).value;
    assert Tokens(l + [t.EventOf(i)]) == Tokens(l) + [token];
    assert t.running[i].tokenHistory + [token] == r.promptTokens + (Tokens(l) + [token]);
  }

  lemma RowsTrace(e: Engine, t: Turn, p: Outcome, st: State)
    requires GoodRowsAt(e, t, p) && Cleaned(p, st)
    ensures Trace(AfterRows(e, t, p, st))
  {
    hide Told, RowsDone, Turn.Starved, AllRunnable, Keep, Gone;
    var f := AfterRows(e, t, p, st);
    RowIds(e, t, p);
    forall id | Known(e, id)
      ensures Known(f, id)
    {
    }
    forall j | 0 <= j < |f.added|
      ensures Told(f, f.added[j], j < Admitted(f))
    {
      OtherTold(e, t, p, st, j);
    }
    forall k | 0 <= k < |st.running|
      ensures Known(f, st.running[k].seqId)
    {
      assert st.running[k] in p.st.running;
      var i :| 0 <= i < |p.st.running| && p.st.running[i] == st.running[k];
      assert Known(e, e.st.running[i].seqId);
    }
    forall i | 0 <= i < |f.log|
      ensures Known(f, f.log[i].seqId)
    {
      if i < |e.log| {
        assert Known(e, e.log[i].seqId);
      } else {
        assert Known(e, e.st.running[i - |e.log|].seqId);
      }
    }
  }

  lemma OtherTold(e: Engine, t: Turn, p: Outcome, st: State, j: nat)
    requires GoodRowsAt(e, t, p) && Cleaned(p, st) && j < |e.added|
    ensures Told(AfterRows(e, t, p, st), e.added[j], j < Admitted(e))
  {
    hide RowsDone;
    var r := e.added[j];
    assert Told(e, r, j < Admitted(e));
    var found := FindSeq(e.st.running, r.seqId);
    if found.Some? {
      assert Known(e, e.st.running[found.value].seqId);
      RowTold(e, t, p, st, r, found.value);
    } else {
      AbsentTold(e, t, p, st, r, j < Admitted(e));
    }
  }

  /** Who did not run in this step has no new events. */
  lemma AbsentTold(e: Engine, t: Turn, p: Outcome, st: State, r: Request, admitted: bool)
    requires Told(e, r, admitted) && FindSeq(e.st.running, r.seqId).None?
    requires GoodRowsAt(e, t, p) && Cleaned(p, st)
    ensures Told(AfterRows(e, t, p, st), r, admitted)
  {
    hide GoodRowsAt, Cleaned, Of, Closed, Starving, Histories;
    AbsentLog(e, t, p, r.seqId);
    AbsentEnds(e, t, p, st, r.seqId);
    if admitted {
      SameClosed(r, Of(e.log, r.seqId), e.ends, e.ends.AddRows(t, p.st.running));
    }
  }

  lemma AbsentLog(e: Engine, t: Turn, p: Outcome, id: SeqId)
    requires GoodRowsAt(e, t, p) && FindSeq(e.st.running, id).None?
    ensures Of(e.log + p.events, id) == Of(e.log, id)
  {
    RowIds(e, t, p);
    hide Of, GoodRowsAt, Distinct, DistinctIds;
    OfAppend(e.log, p.events, id);
    OfNone(p.events, id);
    assert Of(e.log, id) + [] == Of(e.log, id);
  }

  lemma AbsentEnds(e: Engine, t: Turn, p: Outcome, st: State, id: SeqId)
    requires GoodRowsAt(e, t, p) && Cleaned(p, st) && FindSeq(e.st.running, id).None?
    ensures id !in Starving(t) && id !in Histories(p.st.running) && FindSeq(st.running, id).None?
  {
    hide Trace, RowsDone, Unique, AllRunnable, Distinct, DistinctIds, Turn.Starved, Cleaned;
    RowIds(e, t, p);
    AbsentIds(e.st.running, id);
    AbsentIds(p.st.running, id);
    AbsentRuns(p, st, id);
  }

  lemma AbsentIds(running: seq<ActiveSequence>, id: SeqId)
    ensures FindSeq(running, id).None? <==> id !in Ids(running)
  {
  }

  lemma AbsentRuns(p: Outcome, st: State, id: SeqId)
    requires Cleaned(p, st) && id !in Ids(p.st.running)
    ensures FindSeq(st.running, id).None?
  {
    hide Cleaned;
    KeepSubset(p, st);
  }

  lemma KeepSubset(p: Outcome, st: State)
    requires Cleaned(p, st)
    ensures forall k :: 0 <= k < |st.running| ==>
      exists i :: 0 <= i < |p.st.running| && p.st.running[i].seqId == st.running[k].seqId
  {
    forall k | 0 <= k < |st.running|
      ensures exists i :: 0 <= i < |p.st.running| && p.st.running[i].seqId == st.running[k].seqId
    {
      assert st.running[k] in p.st.running;
    }
  }

  // ------------------------------------------------------------------ an error

  /** These rows are the running ones, some of them with one more token. */
  ghost predicate Further(running: seq<ActiveSequence>, rows: seq<ActiveSequence>) {
    && |rows| == |running|
    && forall i :: 0 <= i < |rows| ==> FurtherBy(running[i], rows[i])
  }

  ghost predicate FurtherBy(s: ActiveSequence, s2: ActiveSequence) {
    s2.seqId == s.seqId && s.tokenHistory <= s2.tokenHistory && |s2.tokenHistory| <= |s.tokenHistory| + 1
  }

  /** After an abort each running sequence's story ends with one flagged event. */
  lemma AbortTrace(bs: nat, e: Engine, st: State, rows: seq<ActiveSequence>)
    requires Trace(e) && Unique(e.st) && AllRunnable(bs, e.st.running) && Further(e.st.running, rows)
    requires st.running == [] && st.waiting == e.st.waiting
    ensures Trace(AfterAbort(e, st, rows))
  {
    hide Told;
    var f := AfterAbort(e, st, rows);
    forall i | 0 <= i < |rows|
      ensures rows[i].seqId == e.st.running[i].seqId && Known(e, rows[i].seqId)
    {
      assert FurtherBy(e.st.running[i], rows[i]) && Known(e, e.st.running[i].seqId);
    }
    forall id | Known(e, id)
      ensures Known(f, id)
    {
    }
    forall j | 0 <= j < |f.added|
      ensures Told(f, f.added[j], j < Admitted(f))
    {
      assert Told(e, e.added[j], j < Admitted(e));
      var found := FindSeq(e.st.running, e.added[j].seqId);
      if found.Some? {
        assert Known(e, e.st.running[found.value].seqId);
      }
      AbortTold(bs, e, st, rows, e.added[j], j < Admitted(e));
    }
    forall i | 0 <= i < |f.log|
      ensures Known(f, f.log[i].seqId)
    {
      if i < |e.log| {
        assert Known(e, e.log[i].seqId);
      }
    }
  }

  lemma AbortTold(bs: nat, e: Engine, st: State, rows: seq<ActiveSequence>, r: Request, admitted: bool)
    requires Distinct(e.st.running) && AllRunnable(bs, e.st.running) && st.running == [] && Further(e.st.running, rows)
    requires Told(e, r, admitted) && (FindSeq(e.st.running, r.seqId).Some? ==> admitted)
    ensures Told(AfterAbort(e, st, rows), r, admitted)
  {
    hide Of, Closed, FurtherBy, Ready, Fresh;
    var events := AbortEvents(rows);
    FurtherIds(e.st.running, rows);
    OfAppend(e.log, events, r.seqId);
    match FindSeq(e.st.running, r.seqId)
    case Some(i) =>
      OfOne(events, i);
      FindDistinct(rows, i);
      assert FurtherBy(e.st.running[i], rows[i]) && (Ready(bs, e.st.running[i]) || Fresh(bs, e.st.running[i]));
      AbortCloses(bs, r, e.st.running[i], rows[i], Of(e.log, r.seqId), e.ends, e.ends.AddAbort(rows));
    case None =>
      OfNone(events, r.seqId);
      assert Of(e.log, r.seqId) + [] == Of(e.log, r.seqId);
      if admitted {
        SameClosed(r, Of(e.log, r.seqId), e.ends, e.ends.AddAbort(rows));
      }
  }

  lemma FurtherIds(running: seq<ActiveSequence>, rows: seq<ActiveSequence>)
    requires Distinct(running) && Further(running, rows)
    ensures Distinct(rows) && DistinctIds(AbortEvents(rows))
    ensures forall i :: 0 <= i < |rows| ==> rows[i].seqId == running[i].seqId
  {
    assert forall i :: 0 <= i < |rows| ==> FurtherBy(running[i], rows[i]);
  }

  lemma SameClosed(r: Request, l: seq<Event>, was: Endings, ends: Endings)
    requires Closed(r, l, was) && (r.seqId in was.starved <==> r.seqId in ends.starved)
    requires (r.seqId in was.aborted <==> r.seqId in ends.aborted)
    requires r.seqId in was.histories ==> r.seqId in ends.histories && ends.histories[r.seqId] == was.histories[r.seqId]
    ensures Closed(r, l, ends)
  {
  }

  lemma AbortCloses(bs: nat, r: Request, s: ActiveSequence, s2: ActiveSequence, l: seq<Event>, was: Endings,
                    ends: Endings)
    requires Live(r, s, l, was) && (Ready(bs, s) || Fresh(bs, s)) && FurtherBy(s, s2)
    requires ends.starved == was.starved && r.seqId in ends.aborted
    requires r.seqId in ends.histories && ends.histories[r.seqId] == s2.tokenHistory
    ensures Closed(r, l + [Event(r.seqId, 0, true)], ends)
  {
    assert (l + [Event(r.seqId, 0, true)])[..|l|] == l;
  }

  // ------------------------------------------------------------------ the loop

  /**
   Every round of the loop keeps the invariant, whether the step succeeds or fails: blocks are
   owned, running sequences are ready and have room, waiting requests are in order of arrival,
   and every request's events tell its story.
   */
  lemma TickKeeps(bs: nat, eos: TokenId, cap: nat, e: Engine, incoming: seq<Request>, fwd: Forward)
    requires EngineInv(bs, cap, e) && UniqueRequests(e.added + incoming)
    ensures EngineInv(bs, cap, Tick(bs, eos, e, incoming, fwd))
  {
    ArrivalsKeep(bs, cap, e, incoming);
    if !Empty(Adding(e, incoming).st) {
      StepKeeps(bs, eos, cap, Adding(e, incoming), fwd);
    }
  }

  lemma StepKeeps(bs: nat, eos: TokenId, cap: nat, f: Engine, fwd: Forward)
    requires EngineInv(bs, cap, f)
    ensures EngineInv(bs, cap, Stepped(bs, eos, f, fwd))
  {
    if Step(bs, eos, f.st, fwd).ok {
      GoodStepTrace(bs, eos, cap, f, fwd);
      StepInv(bs, eos, cap, f.st, fwd);
    } else {
      BadStepTrace(bs, eos, cap, f, fwd);
      StepOwns(bs, eos, cap, f.st, fwd);
      AbortOwns(cap, Step(bs, eos, f.st, fwd).st);
      BadStepUnique(bs, eos, cap, f, fwd);
    }
  }

  /** The engine once admission is done. */
  lemma AdmittedEngine(bs: nat, cap: nat, f: Engine)
    requires EngineInv(bs, cap, f)
    ensures var g := f.(st := Admit(bs, f.st));
      Trace(g) && Unique(g.st) && AllRunnable(bs, g.st.running)
  {
    var k := AdmitFifo(bs, f.st);
    AdmitUnique(bs, f.st);
    AdmitRunnable(bs, f.st);
    AdmitTrace(bs, f, Admit(bs, f.st), k);
  }

  lemma GoodStepTrace(bs: nat, eos: TokenId, cap: nat, f: Engine, fwd: Forward)
    requires EngineInv(bs, cap, f) && Step(bs, eos, f.st, fwd).ok
    ensures Trace(Stepped(bs, eos, f, fwd))
  {
    AdmittedEngine(bs, cap, f);
    StepShape(bs, eos, cap, f.st, fwd);
    hide EngineInv, Trace, Unique, AllRunnable, Step, Starving, Histories;
    var a := Admit(bs, f.st);
    var g, t := f.(st := a), TurnOf(bs, eos, a, fwd);
    var o := Step(bs, eos, f.st, fwd);
    if a.running == [] {
      NothingAdded(f.ends, t, RowsAfter(bs, eos, f.st, fwd));
      assert f.log + [] == f.log;
      assert Stepped(bs, eos, f, fwd) == g;
    } else {
      var p := Rows(bs, eos, f.st, fwd);
      RowsWaiting(bs, eos, cap, f, fwd);
      RowsTrace(g, t, p, o.st);
      assert AfterRows(g, t, p, o.st) == Stepped(bs, eos, f, fwd);
    }
  }

  lemma NothingAdded(ends: Endings, t: Turn, rows: seq<ActiveSequence>)
    requires t.running == rows == []
    ensures ends.AddRows(t, rows) == ends
  {
  }

  lemma BadStepTrace(bs: nat, eos: TokenId, cap: nat, f: Engine, fwd: Forward)
    requires EngineInv(bs, cap, f) && !Step(bs, eos, f.st, fwd).ok
    ensures Trace(Stepped(bs, eos, f, fwd))
  {
    AdmittedEngine(bs, cap, f);
    FailedStep(bs, eos, cap, f.st, fwd);
    var o := Step(bs, eos, f.st, fwd);
    AbortShape(o.st);
    hide EngineInv, Trace, Unique, AllRunnable, Step;
    AbortTrace(bs, f.(st := Admit(bs, f.st)), AbortFrom(o.st), o.st.running);
  }

  lemma {:induction false} AbortShape(st: State)
    ensures AbortFrom(st).running == [] && AbortFrom(st).waiting == st.waiting
    decreases |st.running|
  {
    if st.running != [] {
      AbortShape(st.(running := st.running[1..], pool := FreeEach(st.pool, st.running[0].blockTable)));
    }
  }

  lemma BadStepUnique(bs: nat, eos: TokenId, cap: nat, f: Engine, fwd: Forward)
    requires EngineInv(bs, cap, f) && !Step(bs, eos, f.st, fwd).ok
    ensures Unique(AbortFrom(Step(bs, eos, f.st, fwd).st)) && AbortFrom(Step(bs, eos, f.st, fwd).st).running == []
  {
    AdmittedEngine(bs, cap, f);
    FailedStep(bs, eos, cap, f.st, fwd);
    AbortShape(Step(bs, eos, f.st, fwd).st);
  }

  lemma RowsWaiting(bs: nat, eos: TokenId, cap: nat, f: Engine, fwd: Forward)
    requires EngineInv(bs, cap, f) && fwd.Output?
    ensures Rows(bs, eos, f.st, fwd).st.waiting == Admit(bs, f.st).waiting
  {
    var a := Admit(bs, f.st);
    var ids := Batch(a.running).seqIds;
    PostRowsShape(bs, eos, a, ids, fwd.next, |ids|);
  }

  /** A failed step leaves the admitted sequences in place, with one more token for rows processed. */
  lemma FailedStep(bs: nat, eos: TokenId, cap: nat, st: State, fwd: Forward)
    requires Inv(bs, cap, st) && !Step(bs, eos, st, fwd).ok
    ensures var o := Step(bs, eos, st, fwd);
      o.st.waiting == Admit(bs, st).waiting && Further(Admit(bs, st).running, o.st.running)
  {
    hide Inv, Unique, Owns, AllReady, Distinct, Pool.Valid, PostRows, FurtherBy;
    InvParts(bs, cap, st);
    StepOwns(bs, eos, cap, st, fwd);
    AdmitUnique(bs, st);
    var a := Admit(bs, st);
    UniqueRunning(a);
    if Packable(a.running) && fwd.Output? && a.running != [] {
      var ids := Batch(a.running).seqIds;
      BatchIdsAre(a.running);
      PostRowsShape(bs, eos, a, ids, fwd.next, |ids|);
      PostRowsFurther(bs, eos, a, ids, fwd.next, |ids|);
    } else {
      SameFurther(a.running);
    }
  }

  lemma InvParts(bs: nat, cap: nat, st: State)
    requires Inv(bs, cap, st)
    ensures bs > 0 && st.pool.Valid() && Unique(st) && Owns(cap, st)
  {
  }

  lemma BatchIdsAre(running: seq<ActiveSequence>)
    ensures forall i :: 0 <= i < |running| ==> Batch(running).seqIds[i] == running[i].seqId
  {
    forall i | 0 <= i < |running|
      ensures Batch(running).seqIds[i] == running[i].seqId
    {
      BatchRows(running, i);
    }
  }

  lemma SameFurther(running: seq<ActiveSequence>)
    ensures Further(running, running)
  {
  }

  /** However far the rows have got, none has more than one new token. */
  lemma {:induction false} PostRowsFurther(bs: nat, eos: TokenId, st: State, ids: seq<SeqId>,
                                           next: nat -> Option<TokenId>, n: nat)
    requires st.pool.Valid() && Distinct(st.running) && n <= |ids| == |st.running|
    requires forall i :: 0 <= i < |ids| ==> ids[i] == st.running[i].seqId
    ensures var o := PostRows(bs, eos, st, ids, next, n);
      && Further(st.running, o.st.running)
      && forall i :: n <= i < |ids| ==> o.st.running[i] == st.running[i]
    decreases n
  {
    hide Pool.Valid, PostRow, Distinct, FurtherBy;
    if n == 0 {
      SameFurther(st.running);
    } else {
      PostRowsFurther(bs, eos, st, ids, next, n - 1);
      PostRowsStep(bs, eos, st, ids, next, n);
      hide PostRows, Further;
      var o := PostRows(bs, eos, st, ids, next, n - 1);
      if o.ok && next(n - 1).Some? {
        PostRowFurther(bs, eos, o, n - 1, next(n - 1).value);
        FurtherOne(st.running, o.st.running, PostRow(bs, eos, o, n - 1, next(n - 1).value).st.running, n - 1);
      }
    }
  }

  lemma FurtherOne(running: seq<ActiveSequence>, rows: seq<ActiveSequence>, more: seq<ActiveSequence>, k: nat)
    requires Further(running, rows) && k < |rows| == |more| && FurtherBy(rows[k], more[k])
    requires forall i :: k <= i < |rows| ==> rows[i] == running[i]
    requires forall i :: 0 <= i < |rows| && i != k ==> more[i] == rows[i]
    ensures Further(running, more) && forall i :: k < i < |rows| ==> more[i] == running[i]
  {
    hide FurtherBy;
  }

  lemma PostRowFurther(bs: nat, eos: TokenId, o: Outcome, k: nat, token: TokenId)
    requires k < |o.st.running| && o.st.pool.Valid()
    ensures var p := PostRow(bs, eos, o, k, token);
      && |p.st.running| == |o.st.running| && FurtherBy(o.st.running[k], p.st.running[k])
      && forall i :: 0 <= i < |o.st.running| && i != k ==> p.st.running[i] == o.st.running[i]
  {
  }

  /** An engine that has just started, with all blocks free. */
  function Started(pool: Pool): Engine {
    Engine(State([], [], pool), [], [], NOBODY)
  }

  /** An engine that has just started. */
  lemma InitialEngine(bs: nat, cap: nat, pool: Pool)
    requires bs > 0 && Owns(cap, State([], [], pool))
    ensures EngineInv(bs, cap, Engine(State([], [], pool), [], [], NOBODY))
  {
  }

  datatype Round = Round(incoming: seq<Request>, fwd: Forward)

  ghost function Arrivals(rounds: seq<Round>): seq<Request> {
    if rounds == [] then [] else rounds[0].incoming + Arrivals(rounds[1..])
  }

  /** Rounds of the loop, one after the other. */
  ghost function Run(bs: nat, eos: TokenId, cap: nat, e: Engine, rounds: seq<Round>): (r: Engine)
    requires EngineInv(bs, cap, e) && UniqueRequests(e.added + Arrivals(rounds))
    ensures EngineInv(bs, cap, r)
    decreases |rounds|
  {
    if rounds == [] then e
    else
      ArrivalsSplit(e.added, rounds);
      TickKeeps(bs, eos, cap, e, rounds[0].incoming, rounds[0].fwd);
      Run(bs, eos, cap, Tick(bs, eos, e, rounds[0].incoming, rounds[0].fwd), rounds[1..])
  }

  lemma TickAdds(bs: nat, eos: TokenId, e: Engine, incoming: seq<Request>, fwd: Forward)
    requires bs > 0 && e.st.pool.Valid()
    ensures Tick(bs, eos, e, incoming, fwd).added == e.added + incoming
  {
  }

  lemma ArrivalsSplit(added: seq<Request>, rounds: seq<Round>)
    requires rounds != [] && UniqueRequests(added + Arrivals(rounds))
    ensures UniqueRequests(added + rounds[0].incoming)
    ensures UniqueRequests(added + rounds[0].incoming + Arrivals(rounds[1..]))
  {
    hide UniqueRequests;
    assert added + Arrivals(rounds) == added + rounds[0].incoming + Arrivals(rounds[1..]);
    PrefixUnique(added + rounds[0].incoming, Arrivals(rounds[1..]));
  }

  /**
   What subscribers can rely on in every run: the events of a request that is no longer waiting
   or running number between one and max(1, max_new_tokens) and, but for an abort's, bear the
   tokens of its history in order; none but the last is flagged as done; and the last one is
   flagged unless no block was left for the sequence.
   */
  lemma StoriesEnd(bs: nat, cap: nat, e: Engine, r: Request)
    requires EngineInv(bs, cap, e) && r in e.added
    requires r !in e.st.waiting && FindSeq(e.st.running, r.seqId).None?
    ensures Closed(r, Of(e.log, r.seqId), e.ends)
  {
    var j :| 0 <= j < |e.added| && e.added[j] == r;
    assert forall i :: Admitted(e) <= i < |e.added| ==> e.added[i] == e.st.waiting[i - Admitted(e)];
    assert Told(e, e.added[j], j < Admitted(e));
  }
}

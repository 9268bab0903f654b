/**
 What one scheduling step does, as functions on values: admission, batch packing, the
 treatment of each output row, and cleanup.  The scheduler object is proved to compute these
 functions; the theorems about whole runs are about them.
 */
module SchedulerSpec {
  import opened Types
  import opened BlockAllocators

  datatype Request = Request(seqId: SeqId, promptTokens: seq<TokenId>, maxNewTokens: nat)

  datatype ActiveSequence = ActiveSequence(
    seqId: SeqId, tokenHistory: seq<TokenId>, blockTable: seq<BlockId>,
    maxNewTokens: nat, tokensGenerated: nat, isPrefill: bool)

  datatype BatchInput = BatchInput(
    seqIds: seq<SeqId>, tokenIds: seq<TokenId>, cuSeqlens: seq<nat>,
    blockTables: seq<seq<BlockId>>, isPrefill: seq<bool>)

  datatype Event = Event(seqId: SeqId, token: TokenId, done: bool)

  /** What the backend answers: a failed pass, or a token per row, where sampling may fail. */
  datatype Forward = Failed | Output(next: nat -> Option<TokenId>)

  /** Why a sequence is to leave the running queue: finished, or out of blocks. */
  datatype Leave = Finished | Preempted

  datatype State = State(waiting: seq<Request>, running: seq<ActiveSequence>, pool: Pool)

  /** The state after a step or a part of it, what was emitted, and who is to leave. */
  datatype Outcome = Outcome(st: State, events: seq<Event>, left: seq<(SeqId, Leave)>, ok: bool)

  // ------------------------------------------------------------------ admission

  /** Blocks for that many tokens, rounded up. */
  function Needed(bs: nat, tokens: nat): nat
    requires bs > 0
  {
    (tokens + bs - 1) / bs
  }

  function TakeBlocks(pool: Pool, n: nat): (r: (seq<BlockId>, Pool))
    requires pool.Valid() && n <= |pool.free|
    ensures r.0 == pool.free[..n] && r.1.free == pool.free[n..] && |r.1.refs| == |pool.refs|
    ensures r.1.Valid()
    decreases n
  {
    if n == 0 then ([], pool)
    else
      pool.AllocateOk();
      var (r, p) := pool.Allocate();
      var (t, p') := TakeBlocks(p, n - 1);
      ([r.value] + t, p')
  }

  function Activate(req: Request, table: seq<BlockId>): ActiveSequence {
    ActiveSequence(req.seqId, req.promptTokens, table, req.maxNewTokens, 0, true)
  }

  /** Takes waiting requests in order for as long as the next one's prompt fits. */
  function Admit(bs: nat, st: State): (r: State)
    requires bs > 0 && st.pool.Valid()
    ensures r.pool.Valid() && |r.pool.refs| == |st.pool.refs|
    decreases |st.waiting|
  {
    if st.waiting == [] then st
    else
      var req := st.waiting[0];
      var n := Needed(bs, |req.promptTokens|);
      if |st.pool.free| >= n then
        var (t, p) := TakeBlocks(st.pool, n);
        Admit(bs, State(st.waiting[1..], st.running + [Activate(req, t)], p))
      else st
  }

  // ------------------------------------------------------------------ batch packing

  /** A prefill row carries the whole history, a decode row the last token. */
  function RowTokens(s: ActiveSequence): seq<TokenId> {
    if s.isPrefill || s.tokenHistory == [] then s.tokenHistory else [s.tokenHistory[|s.tokenHistory| - 1]]
  }

  /** Every decode row has a last token. */
  predicate Packable(running: seq<ActiveSequence>) {
    forall i :: 0 <= i < |running| && !running[i].isPrefill ==> running[i].tokenHistory != []
  }

  function Batch(running: seq<ActiveSequence>): (b: BatchInput)
    ensures |b.seqIds| == |b.blockTables| == |b.isPrefill| == |running| && |b.cuSeqlens| == |running| + 1
    ensures b.cuSeqlens[|running|] == |b.tokenIds|
  {
    if running == [] then BatchInput([], [], [0], [], [])
    else
      var n := |running| - 1;
      var b := Batch(running[..n]);
      var s := running[n];
      BatchInput(b.seqIds + [s.seqId], b.tokenIds + RowTokens(s),
                 b.cuSeqlens + [|b.tokenIds| + |RowTokens(s)|],
                 b.blockTables + [s.blockTable], b.isPrefill + [s.isPrefill])
  }

  // ------------------------------------------------------------------ output rows

  function FindSeq(running: seq<ActiveSequence>, id: SeqId): (r: Option<nat>)
    ensures r.Some? ==> r.value < |running| && running[r.value].seqId == id
    ensures r.None? ==> forall i :: 0 <= i < |running| ==> running[i].seqId != id
  {
    if running == [] then None
    else if running[0].seqId == id then Some(0)
    else match FindSeq(running[1..], id) case None => None case Some(k) => Some(k + 1)
  }

  /** The sequence after one more token; a sequence that goes on leaves prefill. */
  function Advance(s: ActiveSequence, eos: TokenId, token: TokenId): (ActiveSequence, bool) {
    var gen := s.tokensGenerated + 1;
    var done := token == eos || gen >= s.maxNewTokens;
    (s.(tokenHistory := s.tokenHistory + [token], tokensGenerated := gen, isPrefill := s.isPrefill && done), done)
  }

  /** Row k receives a token: it is done, or grows if its table is full, or runs out of blocks. */
  function RowStep(bs: nat, eos: TokenId, st: State, k: nat, token: TokenId): (State, Event, Option<Leave>)
    requires k < |st.running| && st.pool.Valid()
  {
    var (s, done) := Advance(st.running[k], eos, token);
    var event := Event(s.seqId, token, done);
    if done then (st.(running := st.running[k := s]), event, Some(Finished))
    else if |s.tokenHistory| >= |s.blockTable| * bs then
      if |st.pool.free| > 0 then
        var (b, p) := st.pool.Allocate();
        (st.(running := st.running[k := s.(blockTable := s.blockTable + [b.value])], pool := p), event, None)
      else
        (st.(running := st.running[k := s]), event, Some(Preempted))
    else
      (st.(running := st.running[k := s]), event, None)
  }

  /** Adds row k to the outcome so far. */
  function PostRow(bs: nat, eos: TokenId, o: Outcome, k: nat, token: TokenId): Outcome
    requires k < |o.st.running| && o.st.pool.Valid()
  {
    var (st, event, leave) := RowStep(bs, eos, o.st, k, token);
    Outcome(st, o.events + [event], o.left + (if leave.Some? then [(event.seqId, leave.value)] else []), true)
  }

  /** The first n output rows, in order; sampling may fail on any of them. */
  function PostRows(bs: nat, eos: TokenId, st: State, ids: seq<SeqId>, next: nat -> Option<TokenId>, n: nat)
      : (r: Outcome)
    requires st.pool.Valid() && n <= |ids|
    ensures r.st.pool.Valid() && |r.st.pool.refs| == |st.pool.refs|
  {
    if n == 0 then Outcome(st, [], [], true)
    else
      var o := PostRows(bs, eos, st, ids, next, n - 1);
      if !o.ok then o
      else match FindSeq(o.st.running, ids[n - 1])
        case None => o
        case Some(k) =>
          match next(n - 1)
          case None => o.(ok := false)
          case Some(token) =>
            o.st.pool.AllocateOk();
            PostRow(bs, eos, o, k, token)
  }

  // ------------------------------------------------------------------ cleanup

  /** Frees the blocks in order, stopping at the first that cannot be freed. */
  function FreeAll(pool: Pool, blocks: seq<BlockId>): (bool, Pool)
    decreases |blocks|
  {
    if blocks == [] then (true, pool)
    else
      var (r, p) := pool.Free(blocks[0]);
      if r.Err? then (false, p) else FreeAll(p, blocks[1..])
  }

  function WithoutAt<T>(s: seq<T>, k: nat): seq<T>
    requires k < |s|
  {
    s[..k] + s[k + 1..]
  }

  function Retire(st: State, id: SeqId): (State, bool) {
    match FindSeq(st.running, id)
    case None => (st, true)
    case Some(k) =>
      var (ok, p) := FreeAll(st.pool, st.running[k].blockTable);
      (st.(running := WithoutAt(st.running, k), pool := p), ok)
  }

  function RetireAll(st: State, left: seq<(SeqId, Leave)>, n: nat): (State, bool)
    requires n <= |left|
  {
    if n == 0 then (st, true)
    else
      var (s, ok) := RetireAll(st, left, n - 1);
      if ok then Retire(s, left[n - 1].0) else (s, false)
  }

  // ------------------------------------------------------------------ the step

  function Step(bs: nat, eos: TokenId, st: State, fwd: Forward): Outcome
    requires bs > 0 && st.pool.Valid()
  {
    var a := Admit(bs, st);
    if a.running == [] then Outcome(a, [], [], true)
    else if !Packable(a.running) || fwd.Failed? then Outcome(a, [], [], false)
    else
      var ids := Batch(a.running).seqIds;
      var p := PostRows(bs, eos, a, ids, fwd.next, |ids|);
      if !p.ok then p
      else
        var (c, ok) := RetireAll(p.st, p.left, |p.left|);
        Outcome(c, p.events, p.left, ok)
  }

  /** Everything running leaves; blocks that cannot be freed are skipped. */
  function AbortFrom(st: State): State
    decreases |st.running|
  {
    if st.running == [] then st
    else AbortFrom(st.(running := st.running[1..], pool := FreeEach(st.pool, st.running[0].blockTable)))
  }

  function FreeEach(pool: Pool, blocks: seq<BlockId>): Pool
    decreases |blocks|
  {
    if blocks == [] then pool else FreeEach(pool.Free(blocks[0]).1, blocks[1..])
  }
}

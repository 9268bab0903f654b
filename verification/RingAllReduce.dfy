/**
 Ring all-reduce: n ranks in a ring, each sending to the next one over a FIFO link.  A rank
 alternates sends and receives; the first n - 1 messages are accumulated (scatter-reduce), the
 next n - 1 overwrite (all-gather).  Whatever the interleaving, the protocol never gets stuck
 and leaves the same term in each chunk of every rank, even when the operation does not
 associate.
 */
module RingAllReduce {
  import opened Types
  import opened Blocks

  /** The ring's size, each rank's input and the accumulation operation. */
  datatype Ring<!E> = Ring(n: nat, inputs: seq<seq<E>>, op: (E, E) -> E) {
    /** Two ranks or more; all buffers have the same length. */
    ghost predicate Valid() {
      n >= 2 && |inputs| == n && forall r :: 0 <= r < n ==> |inputs[r]| == |inputs[0]|
    }

    function Len(): nat
      requires |inputs| > 0
    {
      |inputs[0]|
    }

    function ChunkSize(): nat
      requires n > 0 && |inputs| > 0
    {
      Len() / n
    }

    /** Messages each rank sends, and receives. */
    function Messages(): int {
      2 * (n - 1)
    }

    function Next(r: nat): nat {
      if r + 1 == n then 0 else r + 1
    }

    function Prev(r: nat): int {
      if r == 0 then n - 1 else r - 1
    }
  }

  // ------------------------------------------------------------------ indices

  /** r - k modulo n, for k up to 2n. */
  function Back(n: nat, r: nat, k: nat): int {
    if k <= r then r - k else if k <= r + n then r - k + n else r - k + 2 * n
  }

  const USIZE: int := 0x1_0000_0000_0000_0000

  /** Machine addition and subtraction that wrap around. */
  function WrapAdd(a: int, b: int): int {
    (a + b) % USIZE
  }

  function WrapSub(a: int, b: int): int {
    (a - b) % USIZE
  }

  function ScatterSend(rank: nat, step: nat, n: nat): int
    requires n > 0
  {
    WrapSub(WrapAdd(rank, n), step) % n
  }

  function ScatterRecv(rank: nat, step: nat, n: nat): int
    requires n > 0
  {
    WrapSub(WrapSub(WrapAdd(rank, n), step), 1) % n
  }

  function GatherSend(rank: nat, step: nat, n: nat): int
    requires n > 0
  {
    WrapAdd(WrapSub(WrapAdd(rank, 1), step), n) % n
  }

  function GatherRecv(rank: nat, step: nat, n: nat): int
    requires n > 0
  {
    WrapAdd(WrapSub(rank, step), n) % n
  }

  lemma InRange(a: int, b: int)
    ensures 0 <= a + b < USIZE ==> WrapAdd(a, b) == a + b
    ensures 0 <= a - b < USIZE ==> WrapSub(a, b) == a - b
  {
  }

  /** An intermediate result below zero does no harm if the end is in range. */
  lemma WrapBack(a: int, b: int, c: int)
    requires -USIZE <= a - b < USIZE && 0 <= a - b + c < USIZE
    ensures WrapAdd(WrapSub(a, b), c) == a - b + c
  {
  }

  lemma ModIs(a: nat, n: nat, q: nat)
    requires n > 0 && q * n <= a < q * n + n
    ensures a % n == a - q * n
  {
    BlockIs(n, a, q);
  }

  lemma Residue(a: nat, n: nat)
    requires n > 0 && a <= 2 * n
    ensures a % n == if a < n then a else if a < 2 * n then a - n else 0
  {
    ModIs(a, n, if a < n then 0 else if a < 2 * n then 1 else 2);
  }

  /**
   With wrapping arithmetic the four index expressions are the residues r - k and r - k - 1
   where k counts the steps of both phases.
   */
  lemma IndicesAreResidues(n: nat, rank: nat, step: nat)
    requires 2 <= n < USIZE / 4 && rank < n && step < n - 1
    ensures ScatterSend(rank, step, n) == Back(n, rank, step)
    ensures ScatterRecv(rank, step, n) == Back(n, rank, step + 1)
    ensures GatherSend(rank, step, n) == Back(n, rank, n - 1 + step)
    ensures GatherRecv(rank, step, n) == Back(n, rank, n + step)
  {
    hide WrapAdd, WrapSub;
    InRange(rank, n);
    InRange(rank, 1);
    InRange(rank + n, step);
    InRange(rank + n - step, 1);
    WrapBack(rank + 1, step, n);
    WrapBack(rank, step, n);
    Residue(rank + n - step, n);
    Residue(rank + n - step - 1, n);
    Residue(rank + 1 - step + n, n);
    Residue(rank - step + n, n);
  }

  /** Whether the expression's intermediate results stay in range, as checked arithmetic wants. */
  predicate GatherInRange(rank: nat, step: nat) {
    rank + 1 - step >= 0 && rank - step >= 0
  }

  /**
   Checked arithmetic stops a rank in the gather phase exactly when two or more ranks follow
   it, although the residues are right.
   */
  lemma CheckedGatherTraps(n: nat, rank: nat)
    requires n >= 2 && rank < n
    ensures (exists step: nat :: step < n - 1 && !GatherInRange(rank, step)) <==> rank + 2 < n
  {
    if rank + 2 < n {
      assert !GatherInRange(rank, rank + 1);
    }
  }

  // ------------------------------------------------------------------ chunks

  function Start(cs: nat, c: nat): nat {
    c * cs
  }

  lemma ChunkFits(len: nat, n: nat, c: nat)
    requires c < n
    ensures Start(len / n, c) + len / n <= Start(len / n, n) <= len
  {
    var cs := len / n;
    BlockStart(n, len);
    FactorLe(c + 1, n, cs);
  }

  /** An element is in a chunk exactly if it is between where the chunk starts and ends. */
  lemma InChunk(cs: nat, e: nat, c: nat)
    requires cs > 0
    ensures BlockOf(cs, e) == c <==> Start(cs, c) <= e < Start(cs, c) + cs
  {
    BlockStart(cs, e);
    if Start(cs, c) <= e < Start(cs, c) + cs {
      BlockIs(cs, e, c);
    }
  }

  // ------------------------------------------------------------------ one rank

  /** The slice that message k of rank r carries. */
  function Sent<E>(n: nat, cs: nat, r: nat, k: nat, data: seq<E>): seq<E>
    requires r < n && k < 2 * n && cs == |data| / n
  {
    ChunkFits(|data|, n, Back(n, r, k));
    data[Start(cs, Back(n, r, k))..Start(cs, Back(n, r, k)) + cs]
  }

  /** The buffer of rank r once message k is in: accumulated at first, overwritten later. */
  function Receive<E>(n: nat, cs: nat, op: (E, E) -> E, r: nat, k: nat, data: seq<E>, message: seq<E>): (d: seq<E>)
    requires r < n && k + 1 < 2 * n && |message| == cs
    ensures |d| == |data|
  {
    var start := Start(cs, Back(n, r, k + 1));
    seq(|data|, e requires 0 <= e < |data| =>
      if start <= e < start + cs then
        if k < n - 1 then op(data[e], message[e - start]) else message[e - start]
      else data[e])
  }

  // ------------------------------------------------------------------ the terms

  /** What element e of chunk c has become after the ranks c, c + 1, ..., c + j added theirs. */
  ghost function Partial<E>(ring: Ring<E>, c: nat, j: nat, e: nat): E
    requires ring.Valid() && c < ring.n && j < ring.n && e < ring.Len()
  {
    var mine := ring.inputs[if c + j < ring.n then c + j else c + j - ring.n][e];
    if j == 0 then mine else ring.op(mine, Partial(ring, c, j - 1, e))
  }

  /** The complete term of an element of chunk c. */
  ghost function Full<E>(ring: Ring<E>, c: nat, e: nat): E
    requires ring.Valid() && c < ring.n && e < ring.Len()
  {
    Partial(ring, c, ring.n - 1, e)
  }

  /** Element e of rank r after m messages: its input, then a partial term, then the full one. */
  ghost function Value<E>(ring: Ring<E>, r: nat, m: nat, c: nat, e: nat): E
    requires ring.Valid() && r < ring.n && c < ring.n && e < ring.Len()
  {
    var d := Back(ring.n, r, c);
    if m < d then ring.inputs[r][e]
    else if m < d + ring.n then Partial(ring, c, d, e)
    else Full(ring, c, e)
  }

  /** The buffer of rank r after m messages. */
  ghost function Expected<E>(ring: Ring<E>, r: nat, m: nat): (d: seq<E>)
    requires ring.Valid() && r < ring.n
    ensures |d| == ring.Len()
  {
    var cs := ring.ChunkSize();
    seq(ring.Len(), e requires 0 <= e < ring.Len() =>
      if cs > 0 && BlockOf(cs, e) < ring.n then Value(ring, r, m, BlockOf(cs, e), e) else ring.inputs[r][e])
  }

  /** Message k of rank r. */
  ghost function Payload<E>(ring: Ring<E>, r: nat, k: nat): (message: seq<E>)
    requires ring.Valid() && r < ring.n && k < 2 * ring.n
    ensures |message| == ring.ChunkSize()
  {
    var cs, c := ring.ChunkSize(), Back(ring.n, r, k);
    ChunkFits(ring.Len(), ring.n, c);
    seq(cs, i requires 0 <= i < cs =>
      Partial(ring, c, if k < ring.n then k else ring.n - 1, Start(cs, c) + i))
  }

  /** What a rank sends is the expected message, when it has received as many as it has sent. */
  lemma SendsExpected<E>(ring: Ring<E>, r: nat, k: nat)
    requires ring.Valid() && r < ring.n && k < ring.Messages()
    ensures Sent(ring.n, ring.ChunkSize(), r, k, Expected(ring, r, k)) == Payload(ring, r, k)
  {
    var cs, c := ring.ChunkSize(), Back(ring.n, r, k);
    ChunkFits(ring.Len(), ring.n, c);
    var sent := Sent(ring.n, cs, r, k, Expected(ring, r, k));
    forall i | 0 <= i < cs
      ensures sent[i] == Payload(ring, r, k)[i]
    {
      InChunk(cs, Start(cs, c) + i, c);
      hide BlockOf, Start, Partial;
      assert sent[i] == Expected(ring, r, k)[Start(cs, c) + i];
    }
  }

  /** The next message turns the expected buffer into the next expected buffer. */
  lemma ReceivesExpected<E>(ring: Ring<E>, r: nat, k: nat)
    requires ring.Valid() && r < ring.n && k < ring.Messages()
    ensures Receive(ring.n, ring.ChunkSize(), ring.op, r, k, Expected(ring, r, k), Payload(ring, ring.Prev(r), k))
         == Expected(ring, r, k + 1)
  {
    var cs, c := ring.ChunkSize(), Back(ring.n, r, k + 1);
    ChunkFits(ring.Len(), ring.n, c);
    assert Back(ring.n, ring.Prev(r), k) == c;
    var got := Receive(ring.n, cs, ring.op, r, k, Expected(ring, r, k), Payload(ring, ring.Prev(r), k));
    forall e | 0 <= e < ring.Len()
      ensures got[e] == Expected(ring, r, k + 1)[e]
    {
      if cs > 0 {
        InChunk(cs, e, c);
        hide BlockOf, Start;
        if BlockOf(cs, e) == c {
          NextValue(ring, r, k, e);
        }
      }
    }
  }

  /** In the chunk that message k carries, the value moves on. */
  lemma NextValue<E>(ring: Ring<E>, r: nat, k: nat, e: nat)
    requires ring.Valid() && r < ring.n && k < ring.Messages() && e < ring.Len()
    ensures var c := Back(ring.n, r, k + 1);
      Value(ring, r, k + 1, c, e) ==
        if k < ring.n - 1 then ring.op(Value(ring, r, k, c, e), Partial(ring, c, k, e)) else Full(ring, c, e)
  {
  }

  // ------------------------------------------------------------------ the ring in motion

  datatype Node<E> = Node(data: seq<E>, sent: nat, received: nat)

  /** The ranks, and the messages on the link out of each rank, oldest first. */
  datatype State<E> = State(nodes: seq<Node<E>>, links: seq<seq<seq<E>>>)

  datatype Action = Send(r: nat) | Recv(r: nat)

  ghost predicate Enabled<E>(ring: Ring<E>, s: State<E>, a: Action) {
    && |s.nodes| == |s.links| == ring.n && a.r < ring.n
    && var node := s.nodes[a.r];
      match a
      case Send(r) => node.sent == node.received < ring.Messages()
      case Recv(r) => node.sent == node.received + 1 && s.links[ring.Prev(r)] != []
  }


  /** A rank is at most one message ahead of what it has received; its buffer is as expected. */
  ghost predicate NodeOk<E>(ring: Ring<E>, s: State<E>, r: int)
    requires ring.Valid() && |s.nodes| == ring.n && 0 <= r < ring.n
  {
    var node := s.nodes[r];
    && node.received <= node.sent <= node.received + 1 && node.sent <= ring.Messages()
    && node.data == Expected(ring, r, node.received)
  }

  /** A link holds the messages sent and not yet received, in order. */
  ghost predicate LinkOk<E>(ring: Ring<E>, s: State<E>, r: int)
    requires ring.Valid() && |s.nodes| == |s.links| == ring.n && 0 <= r < ring.n
  {
    var first := s.nodes[ring.Next(r)].received;
    && s.nodes[r].sent == first + |s.links[r]| && s.nodes[r].sent <= ring.Messages()
    && forall j {:trigger s.links[r][j]} :: 0 <= j < |s.links[r]| ==> s.links[r][j] == Payload(ring, r, first + j)
  }

  ghost predicate Inv<E>(ring: Ring<E>, s: State<E>)
    requires ring.Valid()
  {
    && |s.nodes| == |s.links| == ring.n
    && (forall r {:trigger NodeOk(ring, s, r)} :: 0 <= r < ring.n ==> NodeOk(ring, s, r))
    && (forall r {:trigger LinkOk(ring, s, r)} :: 0 <= r < ring.n ==> LinkOk(ring, s, r))
  }

  ghost function Step<E>(ring: Ring<E>, s: State<E>, a: Action): State<E>
    requires ring.Valid() && Inv(ring, s) && Enabled(ring, s, a)
  {
    var node, cs := s.nodes[a.r], ring.ChunkSize();
    assert NodeOk(ring, s, a.r) && LinkOk(ring, s, ring.Prev(a.r));
    match a
    case Send(r) =>
      var message := Sent(ring.n, cs, r, node.sent, node.data);
      State(s.nodes[r := node.(sent := node.sent + 1)], s.links[r := s.links[r] + [message]])
    case Recv(r) =>
      var link := s.links[ring.Prev(r)];
      assert link[0] == Payload(ring, ring.Prev(r), node.received + 0);
      var data := Receive(ring.n, cs, ring.op, r, node.received, node.data, link[0]);
      State(s.nodes[r := node.(data := data, received := node.received + 1)], s.links[ring.Prev(r) := link[1..]])
  }

  ghost function Init<E>(ring: Ring<E>): (s: State<E>)
    requires ring.Valid()
    ensures Inv(ring, s) && Work(s.nodes) == 0
  {
    var s := State(seq(ring.n, r requires 0 <= r < ring.n => Node(ring.inputs[r], 0, 0)),
                   seq(ring.n, r requires 0 <= r < ring.n => []));
    StartsOk(ring, s);
    s
  }

  lemma StartsOk<E>(ring: Ring<E>, s: State<E>)
    requires ring.Valid() && |s.nodes| == |s.links| == ring.n
    requires forall r :: 0 <= r < ring.n ==> s.nodes[r] == Node(ring.inputs[r], 0, 0) && s.links[r] == []
    ensures Inv(ring, s) && Work(s.nodes) == 0
  {
    forall r | 0 <= r < ring.n
      ensures NodeOk(ring, s, r)
    {
      ExpectedAtFirst(ring, r);
    }
    IdleWork(s.nodes);
  }

  lemma ExpectedAtFirst<E>(ring: Ring<E>, r: nat)
    requires ring.Valid() && r < ring.n
    ensures Expected(ring, r, 0) == ring.inputs[r]
  {
  }

  /**
   A rank reads, as its k-th message, the chunk it expects at its k-th step: the ranks before
   it in the ring have added theirs to it, or the complete term when it is to be overwritten.
   */
  lemma ReadsExpected<E>(ring: Ring<E>, s: State<E>, r: nat)
    requires ring.Valid() && Inv(ring, s) && Enabled(ring, s, Recv(r))
    ensures var k := s.nodes[r].received;
      && k < ring.Messages()
      && s.links[ring.Prev(r)][0] == Payload(ring, ring.Prev(r), k)
      && Back(ring.n, ring.Prev(r), k) == Back(ring.n, r, k + 1)
      && Receive(ring.n, ring.ChunkSize(), ring.op, r, k, s.nodes[r].data, s.links[ring.Prev(r)][0]) ==
        Expected(ring, r, k + 1)
  {
    assert NodeOk(ring, s, r) && LinkOk(ring, s, ring.Prev(r));
    var k := s.nodes[r].received;
    assert s.links[ring.Prev(r)][0] == Payload(ring, ring.Prev(r), k + 0);
    ReceivesExpected(ring, r, k);
  }

  /** Every step of every rank keeps the invariant. */
  lemma StepKeeps<E>(ring: Ring<E>, s: State<E>, a: Action)
    requires ring.Valid() && Inv(ring, s) && Enabled(ring, s, a)
    ensures Inv(ring, Step(ring, s, a)) && Work(Step(ring, s, a).nodes) == Work(s.nodes) + 1
  {
    hide Payload, Expected, Sent, Receive, NodeOk, LinkOk, Work;
    if a.Send? {
      SendKeeps(ring, s, a.r);
    } else {
      RecvKeeps(ring, s, a.r);
    }
  }

  lemma SendKeeps<E>(ring: Ring<E>, s: State<E>, r: nat)
    requires ring.Valid() && Inv(ring, s) && Enabled(ring, s, Send(r))
    ensures Inv(ring, Step(ring, s, Send(r))) && Work(Step(ring, s, Send(r)).nodes) == Work(s.nodes) + 1
  {
    hide Payload, Expected, Sent, Work;
    var s2 := Step(ring, s, Send(r));
    assert NodeOk(ring, s, r) && LinkOk(ring, s, r);
    SendsExpected(ring, r, s.nodes[r].sent);
    MoreWork(s.nodes, r, s2.nodes[r]);
    forall q | 0 <= q < ring.n
      ensures NodeOk(ring, s2, q) && LinkOk(ring, s2, q)
    {
      assert NodeOk(ring, s, q) && LinkOk(ring, s, q);
    }
  }

  lemma RecvKeeps<E>(ring: Ring<E>, s: State<E>, r: nat)
    requires ring.Valid() && Inv(ring, s) && Enabled(ring, s, Recv(r))
    ensures Inv(ring, Step(ring, s, Recv(r))) && Work(Step(ring, s, Recv(r)).nodes) == Work(s.nodes) + 1
  {
    hide Payload, Expected, Receive, Work;
    var s2, p := Step(ring, s, Recv(r)), ring.Prev(r);
    assert NodeOk(ring, s, r) && LinkOk(ring, s, p);
    ReadsExpected(ring, s, r);
    MoreWork(s.nodes, r, s2.nodes[r]);
    forall q | 0 <= q < ring.n
      ensures NodeOk(ring, s2, q) && LinkOk(ring, s2, q)
    {
      assert NodeOk(ring, s, q) && LinkOk(ring, s, q);
      if q == p {
        var first := s2.nodes[r].received;
        forall j | 0 <= j < |s2.links[p]|
          ensures s2.links[p][j] == Payload(ring, p, first + j)
        {
          assert s2.links[p][j] == s.links[p][j + 1];
        }
      }
    }
  }

  // ------------------------------------------------------------------ progress

  /** Messages sent and received so far. */
  ghost function Work<E>(nodes: seq<Node<E>>): nat {
    if nodes == [] then 0 else nodes[0].sent + nodes[0].received + Work(nodes[1..])
  }

  lemma {:induction false} MoreWork<E>(nodes: seq<Node<E>>, r: nat, node: Node<E>)
    requires r < |nodes| && node.sent + node.received == nodes[r].sent + nodes[r].received + 1
    ensures Work(nodes[r := node]) == Work(nodes) + 1
  {
    var after := nodes[r := node];
    if r == 0 {
      assert after[1..] == nodes[1..];
    } else {
      assert after[1..] == nodes[1..][r - 1 := node];
      MoreWork(nodes[1..], r - 1, node);
    }
  }

  lemma {:induction false} IdleWork<E>(nodes: seq<Node<E>>)
    requires forall r :: 0 <= r < |nodes| ==> nodes[r].sent == nodes[r].received == 0
    ensures Work(nodes) == 0
  {
    if nodes != [] {
      IdleWork(nodes[1..]);
    }
  }

  lemma {:induction false} WorkBound<E>(nodes: seq<Node<E>>, most: nat)
    requires forall r :: 0 <= r < |nodes| ==> nodes[r].received <= most && nodes[r].sent <= most
    ensures Work(nodes) <= 2 * most * |nodes|
    ensures Work(nodes) == 2 * most * |nodes| <==>
      forall r :: 0 <= r < |nodes| ==> nodes[r].received == nodes[r].sent == most
  {
    if nodes != [] {
      var rest := nodes[1..];
      assert forall r :: 0 <= r < |rest| ==> rest[r] == nodes[r + 1];
      WorkBound(rest, most);
      hide Work;
      WorkFirst(nodes, most);
      OneMoreFactor(2 * most, |rest|);
      assert forall r :: 1 <= r < |nodes| ==> nodes[r] == rest[r - 1];
    }
  }

  lemma OneMoreFactor(k: nat, n: nat)
    ensures k * (n + 1) == k * n + k
  {
  }

  lemma WorkFirst<E>(nodes: seq<Node<E>>, most: nat)
    requires nodes != [] && nodes[0].received <= most && nodes[0].sent <= most
    ensures Work(nodes) <= 2 * most + Work(nodes[1..])
    ensures Work(nodes) == 2 * most + Work(nodes[1..]) <==> nodes[0].received == nodes[0].sent == most
  {
  }

  /** Every rank has sent and received all its messages. */
  ghost predicate Done<E>(ring: Ring<E>, s: State<E>)
    requires |s.nodes| == ring.n
  {
    forall r :: 0 <= r < ring.n ==> s.nodes[r].sent == s.nodes[r].received == ring.Messages()
  }

  /** The rank before r that is furthest behind, looking at ranks below n. */
  lemma {:induction false} Slowest<E>(nodes: seq<Node<E>>) returns (r: nat)
    requires nodes != []
    ensures r < |nodes| && forall q :: 0 <= q < |nodes| ==> nodes[r].received <= nodes[q].received
  {
    r := 0;
    if |nodes| > 1 {
      var q := Slowest(nodes[1..]);
      assert forall i :: 1 <= i < |nodes| ==> nodes[i] == nodes[1..][i - 1];
      r := if nodes[0].received <= nodes[q + 1].received then 0 else q + 1;
    }
  }

  /** The protocol is never stuck: some rank can act unless all are done. */
  lemma NeverStuck<E>(ring: Ring<E>, s: State<E>)
    requires ring.Valid() && Inv(ring, s)
    ensures Done(ring, s) <==> forall a :: !Enabled(ring, s, a)
  {
    if Done(ring, s) {
      assert forall a :: !Enabled(ring, s, a);
    } else {
      var r := Slowest(s.nodes);
      assert NodeOk(ring, s, r) && NodeOk(ring, s, ring.Prev(r)) && LinkOk(ring, s, ring.Prev(r));
      assert s.nodes[r].received < ring.Messages() by {
        var q :| 0 <= q < ring.n && !(s.nodes[q].sent == s.nodes[q].received == ring.Messages());
        assert NodeOk(ring, s, q);
      }
      if s.nodes[r].sent == s.nodes[r].received {
        assert Enabled(ring, s, Send(r));
      } else if s.nodes[ring.Prev(r)].sent > s.nodes[r].received {
        assert Enabled(ring, s, Recv(r));
      } else {
        assert Enabled(ring, s, Send(ring.Prev(r)));
      }
    }
  }

  // ------------------------------------------------------------------ every interleaving

  /** The state after these actions in this order, if each can be taken. */
  ghost function Run<E>(ring: Ring<E>, s: State<E>, actions: seq<Action>): (r: Option<State<E>>)
    requires ring.Valid() && Inv(ring, s)
    ensures r.Some? ==> Inv(ring, r.value) && Work(r.value.nodes) == Work(s.nodes) + |actions|
    decreases |actions|
  {
    if actions == [] then Some(s)
    else if !Enabled(ring, s, actions[0]) then None
    else
      StepKeeps(ring, s, actions[0]);
      Run(ring, Step(ring, s, actions[0]), actions[1..])
  }

  /** What all ranks are to end with: the complete terms, then their own remainder. */
  ghost predicate Reduced<E>(ring: Ring<E>, r: nat, data: seq<E>)
    requires ring.Valid() && r < ring.n
  {
    var cs := ring.ChunkSize();
    && |data| == ring.Len()
    && (forall e, c :: 0 <= e < ring.Len() && 0 <= c < ring.n && Start(cs, c) <= e < Start(cs, c) + cs ==>
          data[e] == Full(ring, c, e))
    && (forall e :: Start(cs, ring.n) <= e < ring.Len() ==> data[e] == ring.inputs[r][e])
  }

  lemma ExpectedAtLast<E>(ring: Ring<E>, r: nat)
    requires ring.Valid() && r < ring.n
    ensures Reduced(ring, r, Expected(ring, r, ring.Messages()))
  {
    hide Start, BlockOf, Value, Full;
    var cs, last := ring.ChunkSize(), Expected(ring, r, ring.Messages());
    forall e, c | 0 <= e < ring.Len() && 0 <= c < ring.n && Start(cs, c) <= e < Start(cs, c) + cs
      ensures last[e] == Full(ring, c, e)
    {
      InChunk(cs, e, c);
      LastValue(ring, r, c, e);
    }
    forall e | Start(cs, ring.n) <= e < ring.Len()
      ensures last[e] == ring.inputs[r][e]
    {
      if cs > 0 {
        PastChunks(cs, e, ring.n);
      }
    }
  }

  lemma LastValue<E>(ring: Ring<E>, r: nat, c: nat, e: nat)
    requires ring.Valid() && r < ring.n && c < ring.n && e < ring.Len()
    ensures Value(ring, r, ring.Messages(), c, e) == Full(ring, c, e)
  {
  }

  lemma PastChunks(cs: nat, e: nat, n: nat)
    requires cs > 0 && Start(cs, n) <= e
    ensures BlockOf(cs, e) >= n
  {
    BlockStart(cs, e);
    if BlockOf(cs, e) < n {
      FactorLe(BlockOf(cs, e) + 1, n, cs);
    }
  }

  /**
   All-reduce is correct in every interleaving.  A run has at most 4n(n-1) actions; it cannot
   be continued exactly when it has that many, and then all ranks hold the same term in every
   chunk and have left the rest of their buffers alone.
   */
  lemma {:induction false} AllReduceCorrect<E>(ring: Ring<E>, actions: seq<Action>)
    requires ring.Valid() && Run(ring, Init(ring), actions).Some?
    ensures var s := Run(ring, Init(ring), actions).value;
      && |actions| <= 2 * ring.Messages() * ring.n
      && (|actions| == 2 * ring.Messages() * ring.n <==> forall a :: !Enabled(ring, s, a))
      && (|actions| == 2 * ring.Messages() * ring.n ==>
            forall r :: 0 <= r < ring.n ==> Reduced(ring, r, s.nodes[r].data))
  {
    var s := Run(ring, Init(ring), actions).value;
    hide Expected, Reduced, Run, LinkOk;
    forall r | 0 <= r < ring.n
      ensures s.nodes[r].received <= s.nodes[r].sent <= ring.Messages()
    {
      assert NodeOk(ring, s, r);
    }
    WorkBound(s.nodes, ring.Messages());
    NeverStuck(ring, s);
    if |actions| == 2 * ring.Messages() * ring.n {
      forall r | 0 <= r < ring.n
        ensures Reduced(ring, r, s.nodes[r].data)
      {
        assert NodeOk(ring, s, r);
        ExpectedAtLast(ring, r);
      }
    }
  }

  // ------------------------------------------------------------------ the sum

  /** The rank j places after c on the ring. */
  function RankAfter(n: nat, c: nat, j: nat): int {
    if c + j < n then c + j else c + j - n
  }

  /**
   In which order contributions are combined, told by an operation that lists them: each rank puts
   its own in front of what it receives, so chunk c lists the ranks backwards round the ring, from
   the one before c down to c itself.
   */
  lemma {:induction false} FoldOrder(ring: Ring<seq<nat>>, c: nat, j: nat, e: nat)
    requires ring.Valid() && c < ring.n && j < ring.n && e < ring.Len()
    requires (forall a, b :: ring.op(a, b) == a + b) && forall r :: 0 <= r < ring.n ==> ring.inputs[r][e] == [r]
    ensures var list := Partial(ring, c, j, e);
      |list| == j + 1 && forall i :: 0 <= i <= j ==> list[i] == RankAfter(ring.n, c, j - i)
  {
    if j > 0 {
      FoldOrder(ring, c, j - 1, e);
      assert Partial(ring, c, j, e) == [RankAfter(ring.n, c, j)] + Partial(ring, c, j - 1, e);
    }
  }

  /** Chunks are as long as they can be: fewer entries than there are ranks stay out of the reduction. */
  lemma LeftOut<E>(ring: Ring<E>)
    requires ring.Valid()
    ensures Start(ring.ChunkSize(), ring.n) <= ring.Len() < Start(ring.ChunkSize(), ring.n) + ring.n
  {
    BlockStart(ring.n, ring.Len());
  }


  /** What the ranks from lo up to hi hold in element e, added up. */
  ghost function Sum(ring: Ring<real>, lo: nat, hi: nat, e: nat): real
    requires ring.Valid() && lo <= hi <= ring.n && e < ring.Len()
  {
    if lo == hi then 0.0 else Sum(ring, lo, hi - 1, e) + ring.inputs[hi - 1][e]
  }

  lemma {:induction false} SumSplit(ring: Ring<real>, lo: nat, mid: nat, hi: nat, e: nat)
    requires ring.Valid() && lo <= mid <= hi <= ring.n && e < ring.Len()
    ensures Sum(ring, lo, hi, e) == Sum(ring, lo, mid, e) + Sum(ring, mid, hi, e)
  {
    if mid < hi {
      SumSplit(ring, lo, mid, hi - 1, e);
    }
  }

  lemma {:induction false} PartialIsSum(ring: Ring<real>, c: nat, j: nat, e: nat)
    requires ring.Valid() && c < ring.n && j < ring.n && e < ring.Len()
    requires forall x, y :: ring.op(x, y) == x + y
    ensures Partial(ring, c, j, e) ==
      if c + j < ring.n then Sum(ring, c, c + j + 1, e)
      else Sum(ring, c, ring.n, e) + Sum(ring, 0, c + j + 1 - ring.n, e)
  {
    if j > 0 {
      PartialIsSum(ring, c, j - 1, e);
    }
  }

  /** With exact addition every chunk ends as the sum over all ranks. */
  lemma FullIsSum(ring: Ring<real>, c: nat, e: nat)
    requires ring.Valid() && c < ring.n && e < ring.Len()
    requires forall x, y :: ring.op(x, y) == x + y
    ensures Full(ring, c, e) == Sum(ring, 0, ring.n, e)
  {
    PartialIsSum(ring, c, ring.n - 1, e);
    SumSplit(ring, 0, c, ring.n, e);
  }

  // ------------------------------------------------------------------ one rank's program

  /** A rank's buffer after the first k messages of its inbox. */
  ghost function After<E>(n: nat, op: (E, E) -> E, r: nat, data: seq<E>, inbox: seq<seq<E>>, k: nat): (d: seq<E>)
    requires r < n && k <= |inbox| && k < 2 * n
    requires forall i :: 0 <= i < |inbox| ==> |inbox[i]| == |data| / n
    ensures |d| == |data|
  {
    if k == 0 then data
    else Receive(n, |data| / n, op, r, k - 1, After(n, op, r, data, inbox, k - 1), inbox[k - 1])
  }

  /** Each message sent is the slice due at that step, of the buffer as it then is. */
  ghost predicate OutboxOk<E>(n: nat, op: (E, E) -> E, r: nat, data: seq<E>, inbox: seq<seq<E>>, outbox: seq<seq<E>>)
    requires r < n && |outbox| <= |inbox| < 2 * n
    requires forall i :: 0 <= i < |inbox| ==> |inbox[i]| == |data| / n
  {
    forall k :: 0 <= k < |outbox| ==>
      outbox[k] == Sent(n, |data| / n, r, k, After(n, op, r, data, inbox, k))
  }

  /** Each inbox has a full chunk for every step. */
  ghost predicate Complete<E>(ring: Ring<E>, inboxes: seq<seq<seq<E>>>)
    requires ring.Valid()
  {
    && |inboxes| == ring.n
    && (forall r :: 0 <= r < ring.n ==> |inboxes[r]| == ring.Messages())
    && (forall r, k :: 0 <= r < ring.n && 0 <= k < ring.Messages() ==> |inboxes[r][k]| == ring.ChunkSize())
  }

  /** The inbox of each rank is the outbox of the rank before it. */
  ghost predicate Linked<E>(ring: Ring<E>, inboxes: seq<seq<seq<E>>>)
    requires ring.Valid()
  {
    && Complete(ring, inboxes)
    && (forall r {:trigger inboxes[r]} :: 0 <= r < ring.n ==>
          var p := ring.Prev(r);
          OutboxOk(ring.n, ring.op, p, ring.inputs[p], inboxes[p], inboxes[r]))
  }

  lemma {:induction false} LinkedAsExpected<E>(ring: Ring<E>, inboxes: seq<seq<seq<E>>>, r: nat, k: nat)
    requires ring.Valid() && Linked(ring, inboxes) && r < ring.n && k <= ring.Messages()
    ensures After(ring.n, ring.op, r, ring.inputs[r], inboxes[r], k) == Expected(ring, r, k)
    decreases k
  {
    hide Sent, Receive, Expected;
    if k == 0 {
      ExpectedAtFirst(ring, r);
    } else {
      var p := ring.Prev(r);
      LinkedAsExpected(ring, inboxes, r, k - 1);
      LinkedAsExpected(ring, inboxes, p, k - 1);
      assert OutboxOk(ring.n, ring.op, p, ring.inputs[p], inboxes[p], inboxes[r]);
      SendsExpected(ring, p, k - 1);
      ReceivesExpected(ring, r, k - 1);
    }
  }

  /** When every rank's program reads what its predecessor's program sends, the ring is reduced. */
  lemma ProgramsReduce<E>(ring: Ring<E>, inboxes: seq<seq<seq<E>>>, r: nat)
    requires ring.Valid() && Linked(ring, inboxes) && r < ring.n
    ensures Reduced(ring, r, After(ring.n, ring.op, r, ring.inputs[r], inboxes[r], ring.Messages()))
  {
    LinkedAsExpected(ring, inboxes, r, ring.Messages());
    ExpectedAtLast(ring, r);
  }

  /** What each rank reads in the ring: the messages of the rank before it. */
  ghost function RingInboxes<E>(ring: Ring<E>): (inboxes: seq<seq<seq<E>>>)
    requires ring.Valid()
    ensures Complete(ring, inboxes)
  {
    seq(ring.n, r requires 0 <= r < ring.n =>
      seq(ring.Messages(), k requires 0 <= k < ring.Messages() => Payload(ring, ring.Prev(r), k)))
  }

  lemma {:induction false} InboxesAsExpected<E>(ring: Ring<E>, r: nat, k: nat)
    requires ring.Valid() && r < ring.n && k <= ring.Messages()
    ensures After(ring.n, ring.op, r, ring.inputs[r], RingInboxes(ring)[r], k) == Expected(ring, r, k)
    decreases k
  {
    hide Receive, Expected, Payload;
    if k == 0 {
      ExpectedAtFirst(ring, r);
    } else {
      InboxesAsExpected(ring, r, k - 1);
      ReceivesExpected(ring, r, k - 1);
    }
  }

  /** There are such inboxes, whatever the ring. */
  lemma InboxesLinked<E>(ring: Ring<E>)
    requires ring.Valid()
    ensures Linked(ring, RingInboxes(ring))
  {
    hide Sent, Receive, Expected, Payload;
    var inboxes := RingInboxes(ring);
    forall r | 0 <= r < ring.n
      ensures var p := ring.Prev(r); OutboxOk(ring.n, ring.op, p, ring.inputs[p], inboxes[p], inboxes[r])
    {
      var p := ring.Prev(r);
      forall k | 0 <= k < |inboxes[r]|
        ensures inboxes[r][k] == Sent(ring.n, ring.ChunkSize(), p, k,
          After(ring.n, ring.op, p, ring.inputs[p], inboxes[p], k))
      {
        InboxesAsExpected(ring, p, k);
        SendsExpected(ring, p, k);
      }
    }
  }

  lemma AfterNone<E>(n: nat, op: (E, E) -> E, r: nat, data: seq<E>, inbox: seq<seq<E>>)
    requires r < n && forall i :: 0 <= i < |inbox| ==> |inbox[i]| == |data| / n
    ensures After(n, op, r, data, inbox, 0) == data
  {
  }

  lemma AfterNext<E>(n: nat, op: (E, E) -> E, r: nat, data: seq<E>, inbox: seq<seq<E>>, k: nat)
    requires r < n && k < |inbox| && k + 1 < 2 * n
    requires forall i :: 0 <= i < |inbox| ==> |inbox[i]| == |data| / n
    ensures After(n, op, r, data, inbox, k + 1) ==
      Receive(n, |data| / n, op, r, k, After(n, op, r, data, inbox, k), inbox[k])
  {
  }

  class CollectiveComm {
    const rank: nat
    const worldSize: nat

    constructor (rank: nat, worldSize: nat)
      requires rank < worldSize
      ensures this.rank == rank && this.worldSize == worldSize
    {
      this.rank, this.worldSize := rank, worldSize;
    }

    /** The slice that goes out, element by element. */
    method Outgoing<E>(data: array<E>, chunk: nat, chunkSize: nat) returns (message: seq<E>)
      requires Start(chunkSize, chunk) + chunkSize <= data.Length
      ensures message == data[Start(chunkSize, chunk)..Start(chunkSize, chunk) + chunkSize]
    {
      var start := chunk * chunkSize;
      message := [];
      for i := start to start + chunkSize
        invariant message == data[start..i]
      {
        message := message + [data[i]];
      }
    }

    /** The message is added to the chunk, element by element, or takes its place. */
    method Incoming<E>(data: array<E>, op: (E, E) -> E, chunk: nat, message: seq<E>, accumulate: bool)
      requires Start(|message|, chunk) + |message| <= data.Length
      modifies data
      ensures var start := Start(|message|, chunk);
        forall e :: 0 <= e < data.Length ==>
          data[e] == (if start <= e < start + |message| then
                        if accumulate then op(old(data[e]), message[e - start]) else message[e - start]
                      else old(data[e]))
    {
      var start := chunk * |message|;
      for i := 0 to |message|
        invariant forall e :: 0 <= e < data.Length ==>
          data[e] == (if start <= e < start + i then
                        if accumulate then op(old(data[e]), message[e - start]) else message[e - start]
                      else old(data[e]))
      {
        data[start + i] := if accumulate then op(data[start + i], message[i]) else message[i];
      }
    }

    /**
     The program of one rank; message k of `inbox` is the one it reads at its k-th step, and
     `outbox` is what it sends.
     */
    method AllReduce<E>(data: array<E>, op: (E, E) -> E, inbox: seq<seq<E>>) returns (outbox: seq<seq<E>>)
      requires rank < worldSize < USIZE / 4
      requires |inbox| == 2 * (worldSize - 1)
      requires forall k :: 0 <= k < |inbox| ==> |inbox[k]| == data.Length / worldSize
      modifies data
      ensures data[..] == After(worldSize, op, rank, old(data[..]), inbox, |inbox|)
      ensures |outbox| == |inbox| && OutboxOk(worldSize, op, rank, old(data[..]), inbox, outbox)
    {
      hide Sent, Receive, After, ScatterSend, ScatterRecv, GatherSend, GatherRecv;
      outbox := [];
      AfterNone(worldSize, op, rank, data[..], inbox);
      if worldSize <= 1 {
        return;
      }
      var chunkSize := data.Length / worldSize;
      ghost var input := data[..];
      for step := 0 to worldSize - 1
        invariant |outbox| == step && data[..] == After(worldSize, op, rank, input, inbox, step)
        invariant OutboxOk(worldSize, op, rank, input, inbox, outbox)
      {
        IndicesAreResidues(worldSize, rank, step);
        AfterNext(worldSize, op, rank, input, inbox, step);
        var sendChunk, recvChunk := ScatterSend(rank, step, worldSize), ScatterRecv(rank, step, worldSize);
        var message := Exchange(data, op, chunkSize, step, sendChunk, recvChunk, inbox[step], true);
        outbox := outbox + [message];
      }
      for step := 0 to worldSize - 1
        invariant |outbox| == worldSize - 1 + step
        invariant data[..] == After(worldSize, op, rank, input, inbox, worldSize - 1 + step)
        invariant OutboxOk(worldSize, op, rank, input, inbox, outbox)
      {
        IndicesAreResidues(worldSize, rank, step);
        AfterNext(worldSize, op, rank, input, inbox, worldSize - 1 + step);
        var sendChunk, recvChunk := GatherSend(rank, step, worldSize), GatherRecv(rank, step, worldSize);
        var message := Exchange(data, op, chunkSize, worldSize - 1 + step, sendChunk, recvChunk,
                                inbox[worldSize - 1 + step], false);
        outbox := outbox + [message];
      }
    }

    /** Step k: one chunk out, one in. */
    method Exchange<E>(data: array<E>, op: (E, E) -> E, chunkSize: nat, ghost k: nat,
                       sendChunk: nat, recvChunk: nat, message: seq<E>, accumulate: bool) returns (sent: seq<E>)
      requires rank < worldSize && k + 1 < 2 * worldSize && accumulate == (k < worldSize - 1)
      requires chunkSize == |message| == data.Length / worldSize
      requires sendChunk == Back(worldSize, rank, k) && recvChunk == Back(worldSize, rank, k + 1)
      modifies data
      ensures sent == Sent(worldSize, chunkSize, rank, k, old(data[..]))
      ensures data[..] == Receive(worldSize, chunkSize, op, rank, k, old(data[..]), message)
    {
      ChunkFits(data.Length, worldSize, sendChunk);
      ChunkFits(data.Length, worldSize, recvChunk);
      hide Start, Back;
      sent := Outgoing(data, sendChunk, chunkSize);
      Incoming(data, op, recvChunk, message, accumulate);
    }
  }
}

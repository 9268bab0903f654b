/**
 The prefix cache over a whole step: prompts are stored as requests are admitted, matched
 sequences come off the recycling list, and those that leave queue up on it, the oldest going
 for good when it is full.
 */
module Recycling {
  import opened Types
  import opened PrefixCaches
  import opened SchedulerSpec

  /** The number of finished sequences kept in the prefix cache. */
  const MAX_RECYCLING: nat := 64

  /** The stored paths and the recycling list once these sequences, in order, have been handed over. */
  function AllRecycled(paths: Paths, recycling: seq<SeqId>, ids: seq<SeqId>): (Paths, seq<SeqId>)
    decreases |ids|
  {
    if ids == [] then (paths, recycling)
    else
      var (p, r) := Recycled(paths, recycling, MAX_RECYCLING, ids[0]);
      AllRecycled(p, r, ids[1..])
  }

  lemma {:induction false} RecycledMore(paths: Paths, recycling: seq<SeqId>, ids: seq<SeqId>, id: SeqId)
    ensures var (p, r) := AllRecycled(paths, recycling, ids);
      AllRecycled(paths, recycling, ids + [id]) == Recycled(p, r, MAX_RECYCLING, id)
    decreases |ids|
  {
    hide Recycled;
    if ids == [] {
      assert [] + [id] == [id] && [id][1..] == [];
    } else {
      var (p, r) := Recycled(paths, recycling, MAX_RECYCLING, ids[0]);
      assert (ids + [id])[1..] == ids[1..] + [id];
      RecycledMore(p, r, ids[1..], id);
    }
  }

  /** How many of the oldest do not fit on the list. */
  function Overflow(recycling: seq<SeqId>, ids: seq<SeqId>): (n: nat)
    ensures n <= |recycling + ids|
  {
    if |recycling| + |ids| > MAX_RECYCLING then |recycling| + |ids| - MAX_RECYCLING else 0
  }

  ghost function Oldest(s: seq<SeqId>, n: nat): set<SeqId>
    requires n <= |s|
  {
    set i | 0 <= i < n :: s[i]
  }

  /** A queue of the last 64: the oldest that do not fit are off the list and no longer stored. */
  ghost function QueuedUp(paths: Paths, recycling: seq<SeqId>, ids: seq<SeqId>): (Paths, seq<SeqId>) {
    var all, d := recycling + ids, Overflow(recycling, ids);
    (paths - Oldest(all, d), all[d..])
  }

  /** Those on the list and those handed over are stored, and none is named twice. */
  ghost predicate CanQueue(paths: Paths, recycling: seq<SeqId>, ids: seq<SeqId>) {
    && NoDup(recycling + ids) && |recycling| <= MAX_RECYCLING
    && forall x :: x in recycling + ids ==> x in paths
  }

  /** The last one handed over is at the end of the list, and stored. */
  lemma LastQueued(paths: Paths, recycling: seq<SeqId>, ids: seq<SeqId>)
    requires CanQueue(paths, recycling, ids) && ids != []
    ensures var (p, r) := QueuedUp(paths, recycling, ids);
      r != [] && r[|r| - 1] == ids[|ids| - 1] && ids[|ids| - 1] in p
  {
    var all, d := recycling + ids, Overflow(recycling, ids);
    assert all[|all| - 1] == ids[|ids| - 1] && d < |all|;
    assert forall i :: 0 <= i < d ==> all[i] != all[|all| - 1];
  }

  /** Handing sequences over one by one makes the list a queue of the last 64. */
  lemma {:induction false} QueueOfRecycled(paths: Paths, recycling: seq<SeqId>, ids: seq<SeqId>)
    requires CanQueue(paths, recycling, ids)
    ensures AllRecycled(paths, recycling, ids) == QueuedUp(paths, recycling, ids)
    decreases |ids|
  {
    var all := recycling + ids;
    if ids == [] {
      assert all == recycling && all[0..] == recycling && Overflow(recycling, ids) == 0;
      assert Oldest(all, 0) == {} && paths - {} == paths;
    } else {
      var (p, r) := Recycled(paths, recycling, MAX_RECYCLING, ids[0]);
      OneQueued(paths, recycling, ids);
      hide Recycled, NoDup;
      QueueOfRecycled(p, r, ids[1..]);
      QueueShifts(paths, recycling, ids, p, r);
    }
  }

  /** The first of those handed over joins the end of the list. */
  lemma OneQueued(paths: Paths, recycling: seq<SeqId>, ids: seq<SeqId>)
    requires NoDup(recycling + ids) && |recycling| <= MAX_RECYCLING && ids != []
    requires forall x :: x in recycling + ids ==> x in paths
    ensures var (p, r) := Recycled(paths, recycling, MAX_RECYCLING, ids[0]);
      var all := recycling + ids;
      && NoDup(r + ids[1..]) && |r| <= MAX_RECYCLING && (forall x :: x in r + ids[1..] ==> x in p)
      && (|recycling| < MAX_RECYCLING ==> p == paths && r + ids[1..] == all)
      && (|recycling| == MAX_RECYCLING ==> p == paths - {all[0]} && r + ids[1..] == all[1..])
  {
    var all, full := recycling + ids, |recycling| == MAX_RECYCLING;
    var (p, r) := Recycled(paths, recycling, MAX_RECYCLING, ids[0]);
    NewcomerNotListed(recycling, ids);
    NoDupFirst(all);
    hide NoDup;
    assert ids == [ids[0]] + ids[1..] && all[|recycling|] == ids[0];
    var kept := if full then recycling[1..] else recycling;
    assert r == kept + [ids[0]];
    assert r + ids[1..] == if full then all[1..] else all;
  }

  lemma NewcomerNotListed(recycling: seq<SeqId>, ids: seq<SeqId>)
    requires NoDup(recycling + ids) && ids != []
    ensures ids[0] !in recycling && (recycling != [] ==> recycling[0] != ids[0] && (recycling + ids)[0] == recycling[0])
    ensures recycling != [] ==> (recycling + ids)[0] !in (recycling + ids)[1..]
  {
    var all := recycling + ids;
    assert all[|recycling|] == ids[0] && forall i :: 0 <= i < |recycling| ==> all[i] == recycling[i];
  }

  lemma QueueShifts(paths: Paths, recycling: seq<SeqId>, ids: seq<SeqId>, p: Paths, r: seq<SeqId>)
    requires ids != [] && |recycling| <= MAX_RECYCLING && |r| <= MAX_RECYCLING
    requires |recycling| < MAX_RECYCLING ==> p == paths && r + ids[1..] == recycling + ids
    requires |recycling| == MAX_RECYCLING ==>
      p == paths - {(recycling + ids)[0]} && r + ids[1..] == (recycling + ids)[1..]
    ensures var d, d2 := Overflow(recycling, ids), Overflow(r, ids[1..]);
      && p - Oldest(r + ids[1..], d2) == paths - Oldest(recycling + ids, d)
      && (r + ids[1..])[d2..] == (recycling + ids)[d..]
  {
    var all, d := recycling + ids, Overflow(recycling, ids);
    if |recycling| == MAX_RECYCLING {
      assert d == Overflow(r, ids[1..]) + 1;
      assert forall i :: 0 <= i < d - 1 ==> all[1..][i] == all[i + 1];
      OldestFirst(all, d);
    }
  }

  lemma OldestFirst(s: seq<SeqId>, n: nat)
    requires 0 < n <= |s|
    ensures Oldest(s, n) == {s[0]} + Oldest(s[1..], n - 1)
  {
    forall x | x in Oldest(s, n)
      ensures x in {s[0]} + Oldest(s[1..], n - 1)
    {
      var i :| 0 <= i < n && s[i] == x;
      assert i == 0 || s[1..][i - 1] == x;
    }
  }

  // ------------------------------------------------------------------ admission

  /** No stored path shares more of these tokens, and it shares some. */
  ghost predicate Closest(paths: Paths, tokens: seq<TokenId>, x: SeqId) {
    && x in paths && Lcp(paths[x], tokens) > 0
    && forall y :: y in paths ==> Lcp(paths[y], tokens) <= Lcp(paths[x], tokens)
  }

  /**
   The sequence reused for a prompt is a closest one and on the list; none is reused when no stored
   path shares a token, or when a closest one is not on the list.
   */
  ghost predicate Reuses(paths: Paths, recycling: seq<SeqId>, prompt: seq<TokenId>, reuse: Option<SeqId>) {
    match reuse
    case Some(x) => x in recycling && Closest(paths, prompt, x)
    case None =>
      || (forall x :: x in paths ==> Lcp(paths[x], prompt) == 0)
      || exists x :: x !in recycling && Closest(paths, prompt, x)
  }

  /** Paths and list once these requests' prompts are stored and these sequences reused, one by one. */
  function AllStored(paths: Paths, recycling: seq<SeqId>, requests: seq<Request>, reuses: seq<Option<SeqId>>):
      (Paths, seq<SeqId>)
    requires |requests| == |reuses|
    decreases |requests|
  {
    if requests == [] then (paths, recycling)
    else
      var n := |requests| - 1;
      var (p, r) := AllStored(paths, recycling, requests[..n], reuses[..n]);
      (p[requests[n].seqId := requests[n].promptTokens], WithoutOption(r, reuses[n]))
  }

  /** Each of them was right at its turn, and no request was stored before. */
  ghost predicate AllReuse(paths: Paths, recycling: seq<SeqId>, requests: seq<Request>, reuses: seq<Option<SeqId>>) {
    |requests| == |reuses| &&
    forall i :: 0 <= i < |requests| ==> ReusesAt(paths, recycling, requests, reuses, i)
  }

  ghost predicate ReusesAt(paths: Paths, recycling: seq<SeqId>, requests: seq<Request>, reuses: seq<Option<SeqId>>,
                           i: nat)
    requires |requests| == |reuses| && i < |requests|
  {
    var (p, r) := AllStored(paths, recycling, requests[..i], reuses[..i]);
    requests[i].seqId !in p && Reuses(p, r, requests[i].promptTokens, reuses[i])
  }

  lemma OneMoreStored(paths: Paths, recycling: seq<SeqId>, requests: seq<Request>, reuses: seq<Option<SeqId>>,
                      req: Request, reuse: Option<SeqId>)
    requires AllReuse(paths, recycling, requests, reuses)
    requires var (p, r) := AllStored(paths, recycling, requests, reuses);
      req.seqId !in p && Reuses(p, r, req.promptTokens, reuse)
    ensures AllReuse(paths, recycling, requests + [req], reuses + [reuse])
    ensures var (p, r) := AllStored(paths, recycling, requests, reuses);
      AllStored(paths, recycling, requests + [req], reuses + [reuse]) ==
        (p[req.seqId := req.promptTokens], WithoutOption(r, reuse))
  {
    hide Reuses;
    var qs, us := requests + [req], reuses + [reuse];
    assert qs[..|requests|] == requests && us[..|requests|] == reuses;
    forall i | 0 <= i < |qs|
      ensures ReusesAt(paths, recycling, qs, us, i)
    {
      if i < |requests| {
        assert ReusesAt(paths, recycling, requests, reuses, i);
        assert qs[..i] == requests[..i] && us[..i] == reuses[..i];
      }
    }
  }

  // What admission leaves on the list: those not reused, in their order.

  /** The list without these. */
  function Minus(s: seq<SeqId>, taken: set<SeqId>): (r: seq<SeqId>)
    ensures forall x :: x in r <==> x in s && x !in taken
  {
    if s == [] then []
    else
      assert s == [s[0]] + s[1..];
      (if s[0] in taken then [] else [s[0]]) + Minus(s[1..], taken)
  }

  lemma {:induction false} MinusNone(s: seq<SeqId>)
    ensures Minus(s, {}) == s
  {
    if s != [] {
      MinusNone(s[1..]);
    }
  }

  lemma MinusFirst(s: seq<SeqId>, taken: set<SeqId>)
    requires s != []
    ensures Minus(s, taken) == (if s[0] in taken then [] else [s[0]]) + Minus(s[1..], taken)
  {
  }

  lemma RemoveFromHead(head: SeqId, rest: seq<SeqId>, x: SeqId)
    requires head !in rest
    ensures RemoveFirst([head] + rest, x) == (if head == x then [] else [head]) + RemoveFirst(rest, x)
  {
    assert ([head] + rest)[1..] == rest;
  }

  lemma {:induction false} MinusOneMore(s: seq<SeqId>, taken: set<SeqId>, x: SeqId)
    requires NoDup(s)
    ensures RemoveFirst(Minus(s, taken), x) == Minus(s, taken + {x})
  {
    hide NoDup;
    if s != [] {
      hide Minus, RemoveFirst;
      NoDupFirst(s);
      MinusOneMore(s[1..], taken, x);
      MinusFirst(s, taken);
      MinusFirst(s, taken + {x});
      if s[0] !in taken {
        RemoveFromHead(s[0], Minus(s[1..], taken), x);
      } else {
        assert [] + Minus(s[1..], taken) == Minus(s[1..], taken);
        assert [] + Minus(s[1..], taken + {x}) == Minus(s[1..], taken + {x});
      }
    }
  }

  ghost function Named(reuses: seq<Option<SeqId>>): set<SeqId> {
    set i | 0 <= i < |reuses| && reuses[i].Some? :: reuses[i].value
  }

  lemma NamedMore(reuses: seq<Option<SeqId>>, reuse: Option<SeqId>)
    ensures Named(reuses + [reuse]) == Named(reuses) + (if reuse.Some? then {reuse.value} else {})
  {
    var more := reuses + [reuse];
    forall x | x in Named(reuses) || reuse == Some(x)
      ensures x in Named(more)
    {
      var i := if reuse == Some(x) then |reuses| else var i :| 0 <= i < |reuses| && reuses[i] == Some(x); i;
      assert more[i] == Some(x);
    }
  }

  /** What was stored still is, under the same path, and so are these prompts. */
  ghost predicate AlsoStored(was: Paths, requests: seq<Request>, p: Paths) {
    && (forall x :: x in was ==> x in p && p[x] == was[x])
    && forall i :: 0 <= i < |requests| ==> StoredUnder(requests[i], p)
  }

  ghost predicate StoredUnder(req: Request, p: Paths) {
    req.seqId in p && p[req.seqId] == req.promptTokens
  }

  lemma OneMoreAlsoStored(was: Paths, requests: seq<Request>, p: Paths, req: Request)
    requires AlsoStored(was, requests, p) && req.seqId !in p
    ensures AlsoStored(was, requests + [req], p[req.seqId := req.promptTokens])
  {
    var qs, p' := requests + [req], p[req.seqId := req.promptTokens];
    forall i | 0 <= i < |qs|
      ensures StoredUnder(qs[i], p')
    {
      assert i < |requests| ==> StoredUnder(requests[i], p);
    }
  }

  /** Admission keeps what was stored, adds the prompts, and takes the reused off the list, keeping its order. */
  lemma {:induction false} ListAfter(paths: Paths, recycling: seq<SeqId>, requests: seq<Request>,
                                     reuses: seq<Option<SeqId>>)
    requires AllReuse(paths, recycling, requests, reuses) && NoDup(recycling)
    ensures var (p, r) := AllStored(paths, recycling, requests, reuses);
      r == Minus(recycling, Named(reuses)) && AlsoStored(paths, requests, p)
    decreases |requests|
  {
    assert |requests| == |reuses|;
    hide Reuses, NoDup, Minus, RemoveFirst, AllReuse, AlsoStored, Named, AllStored;
    if requests == [] {
      ListUnused(paths, recycling);
      assert reuses == [];
    } else {
      FewerReuse(paths, recycling, requests, reuses);
      ListAfter(paths, recycling, requests[..|requests| - 1], reuses[..|requests| - 1]);
      ListOneMore(paths, recycling, requests, reuses);
    }
  }

  lemma ListUnused(paths: Paths, recycling: seq<SeqId>)
    ensures var (p, r) := AllStored(paths, recycling, [], []);
      r == Minus(recycling, Named([])) && AlsoStored(paths, [], p)
  {
    MinusNone(recycling);
    assert Named([]) == {};
  }

  lemma ListOneMore(paths: Paths, recycling: seq<SeqId>, requests: seq<Request>, reuses: seq<Option<SeqId>>)
    requires AllReuse(paths, recycling, requests, reuses) && NoDup(recycling) && requests != []
    requires var n := |requests| - 1;
      var (p, r) := AllStored(paths, recycling, requests[..n], reuses[..n]);
      r == Minus(recycling, Named(reuses[..n])) && AlsoStored(paths, requests[..n], p)
    ensures var (p, r) := AllStored(paths, recycling, requests, reuses);
      r == Minus(recycling, Named(reuses)) && AlsoStored(paths, requests, p)
  {
    hide Reuses, NoDup, Minus, RemoveFirst, AlsoStored, Named;
    var n := |requests| - 1;
    assert ReusesAt(paths, recycling, requests, reuses, n);
    var (p, r) := AllStored(paths, recycling, requests[..n], reuses[..n]);
    assert requests[..n] + [requests[n]] == requests && reuses[..n] + [reuses[n]] == reuses;
    OneMoreAlsoStored(paths, requests[..n], p, requests[n]);
    OneMoreOff(recycling, reuses[..n], reuses[n]);
  }

  lemma OneMoreOff(recycling: seq<SeqId>, reuses: seq<Option<SeqId>>, reuse: Option<SeqId>)
    requires NoDup(recycling)
    ensures WithoutOption(Minus(recycling, Named(reuses)), reuse) == Minus(recycling, Named(reuses + [reuse]))
  {
    hide NoDup, Minus, RemoveFirst, Named;
    NamedMore(reuses, reuse);
    match reuse
    case None => assert Named(reuses) + {} == Named(reuses);
    case Some(x) => MinusOneMore(recycling, Named(reuses), x);
  }

  lemma FewerReuse(paths: Paths, recycling: seq<SeqId>, requests: seq<Request>, reuses: seq<Option<SeqId>>)
    requires AllReuse(paths, recycling, requests, reuses) && requests != []
    ensures AllReuse(paths, recycling, requests[..|requests| - 1], reuses[..|requests| - 1])
  {
    hide Reuses, AllStored;
    var n := |requests| - 1;
    forall i | 0 <= i < n
      ensures ReusesAt(paths, recycling, requests[..n], reuses[..n], i)
    {
      assert ReusesAt(paths, recycling, requests, reuses, i);
      assert requests[..n][..i] == requests[..i] && reuses[..n][..i] == reuses[..i];
    }
  }
}

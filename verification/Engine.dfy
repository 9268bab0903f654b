/**
 The engine loop as an object: one round adds the requests that have arrived, steps the
 scheduler if there is work, publishes its events, and after an error publishes a final event
 for everything running and aborts it.
 */
module Engines {
  import opened Types
  import opened BlockAllocators
  import opened SchedulerSpec
  import opened SchedulerOwnership
  import opened SchedulerSteps
  import opened SchedulerDrain
  import opened EngineRuns
  import opened PrefixCaches
  import opened Schedulers

  class EngineLoop {
    const scheduler: Scheduler
    var published: seq<Event>
    ghost var added: seq<Request>
    ghost var ends: Endings

    constructor (blockSize: nat, eosTokenId: TokenId, blockPoolSize: nat)
      requires blockSize > 0
      ensures Abs() == Engine(State([], [], scheduler.blockAllocator.Abs()), [], [], NOBODY)
      ensures scheduler.blockSize == blockSize && scheduler.eosTokenId == eosTokenId
      ensures scheduler.blockAllocator.capacity == blockPoolSize
      ensures Valid()
    {
      scheduler := new Scheduler(blockSize, eosTokenId, blockPoolSize);
      published, added, ends := [], [], NOBODY;
      new;
      InitialEngine(blockSize, blockPoolSize, scheduler.blockAllocator.Abs());
    }

    ghost function Abs(): Engine
      reads this, scheduler, scheduler.blockAllocator
    {
      Engine(scheduler.Abs(), published, added, ends)
    }

    ghost predicate Valid()
      reads this, scheduler, scheduler.blockAllocator, scheduler.prefixCache
      reads scheduler.prefixCache.tree, scheduler.prefixCache.tree.nodes
    {
      && scheduler.Valid() && EngineInv(scheduler.blockSize, scheduler.blockAllocator.capacity, Abs())
      && scheduler.used == IdsOf(added)
    }

    /** Hands the requests that have arrived to the scheduler, in order. */
    method AddAll(incoming: seq<Request>)
      requires scheduler.Valid() && scheduler.used == IdsOf(added) && UniqueRequests(added + incoming)
      modifies scheduler
      ensures scheduler.Abs() == old(scheduler.Abs()).(waiting := old(scheduler.waitingQueue) + incoming)
      ensures scheduler.used == IdsOf(added + incoming)
      ensures scheduler.Valid()
    {
      hide Scheduler.Valid, UniqueRequests;
      assert added + incoming[..0] == added;
      for i := 0 to |incoming|
        invariant scheduler.Valid() && scheduler.used == IdsOf(added + incoming[..i])
        invariant scheduler.Abs() == old(scheduler.Abs()).(waiting := old(scheduler.waitingQueue) + incoming[..i])
      {
        NextIsNew(added, incoming, i);
        scheduler.AddRequest(incoming[i]);
      }
      assert incoming[..|incoming|] == incoming;
    }

    /** After an error: a final event for everything running, then the abort. */
    method AbortRound()
      requires scheduler.Valid()
      modifies this`published, scheduler`runningQueue, scheduler.blockAllocator
      modifies scheduler.prefixCache, scheduler.prefixCache.tree, scheduler.prefixCache.tree.nodes
      ensures scheduler.Abs() == AbortFrom(old(scheduler.Abs()))
      ensures published == old(published) + AbortEvents(old(scheduler.runningQueue))
      ensures scheduler.Valid()
    {
      hide Scheduler.Valid, AbortFrom;
      var ids := scheduler.RunningSequenceIds();
      var events := seq(|ids|, i requires 0 <= i < |ids| => Event(ids[i], 0, true));
      assert events == AbortEvents(scheduler.runningQueue);
      published := published + events;
      scheduler.AbortAllRunning();
    }

    /** One step with its publication; `fwd` is the backend's answer. */
    method StepRound(fwd: Forward)
      requires scheduler.Valid()
      modifies this`published, this`ends, scheduler`waitingQueue, scheduler`runningQueue, scheduler.blockAllocator
      modifies scheduler.prefixCache, scheduler.prefixCache.tree, scheduler.prefixCache.tree.nodes
      ensures Abs() == Stepped(scheduler.blockSize, scheduler.eosTokenId, old(Abs()), fwd)
      ensures scheduler.Valid()
    {
      hide Scheduler.Valid, SchedulerSpec.Step, AbortFrom, AbortEvents, Pool.Valid, Endings.AddRows, Endings.AddAbort,
           Admit, RowsAfter, TurnOf;
      scheduler.CanStep();
      ghost var bs, eos, st := scheduler.blockSize, scheduler.eosTokenId, scheduler.Abs();
      ghost var o := SchedulerSpec.Step(bs, eos, st, fwd);
      var results, reuses := scheduler.Step(fwd);
      if results.Some? {
        published := published + results.value;
        ends := ends.AddRows(TurnOf(bs, eos, Admit(bs, st), fwd), RowsAfter(bs, eos, st, fwd));
      } else {
        ends := ends.AddAbort(scheduler.runningQueue);
        AbortRound();
      }
    }

    /** One round of the loop. */
    method Round(incoming: seq<Request>, fwd: Forward)
      requires Valid() && UniqueRequests(added + incoming)
      modifies this, scheduler, scheduler.blockAllocator
      modifies scheduler.prefixCache, scheduler.prefixCache.tree, scheduler.prefixCache.tree.nodes
      ensures Abs() == Tick(scheduler.blockSize, scheduler.eosTokenId, old(Abs()), incoming, fwd)
      ensures Valid()
    {
      hide Scheduler.Valid, EngineInv, UniqueRequests, Stepped, IdsOf, Pool.Valid, Scheduler.Queues;
      TickKeeps(scheduler.blockSize, scheduler.eosTokenId, scheduler.blockAllocator.capacity, Abs(), incoming, fwd);
      AddAll(incoming);
      added := added + incoming;
      if |scheduler.runningQueue| > 0 || |scheduler.waitingQueue| > 0 {
        StepRound(fwd);
      }
    }
  }

  ghost function IdsOf(added: seq<Request>): set<SeqId> {
    set i | 0 <= i < |added| :: added[i].seqId
  }

  lemma NextIsNew(added: seq<Request>, incoming: seq<Request>, i: nat)
    requires UniqueRequests(added + incoming) && i < |incoming|
    ensures incoming[i].seqId !in IdsOf(added + incoming[..i])
    ensures IdsOf(added + incoming[..i + 1]) == IdsOf(added + incoming[..i]) + {incoming[i].seqId}
  {
    var all, n := added + incoming, |added| + i;
    var some := added + incoming[..i];
    assert forall k :: 0 <= k < |some| ==> some[k] == all[k];
    assert all[n] == incoming[i];
    var more := added + incoming[..i + 1];
    assert more == some + [incoming[i]];
    assert more[|some|] == incoming[i];
    assert forall k :: 0 <= k < |some| ==> more[k] == some[k];
  }
}

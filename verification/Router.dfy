/** Routing: which worker a request goes to, and what a broadcast leaves in the queues. */
module Routing {
  import opened Domains
  import opened Workers
  import opened Sharding

  /** `Sent` carries the number of replies to wait for. */
  datatype SendResult = Sent(replies: nat) | MemoryFull | WorkerGone

  /** The messages an event turns into, one for each entity it concerns. */
  function EventMessages<S, E>(d: Domain<S, E>, e: E, initials: seq<S>): (r: seq<Inbound<S, E>>)
    ensures |r| == |initials|
    ensures forall i | 0 <= i < |r| :: r[i] == EventIn(d.snapshotId(initials[i]), e, initials[i])
  {
    if initials == [] then [] else
      var n := |initials| - 1;
      EventMessages(d, e, initials[..n]) + [EventIn(d.snapshotId(initials[n]), e, initials[n])]
  }

  /** The part of a message sequence that is routed to worker `w`. */
  function Share<S, E>(c: Config<S, E>, messages: seq<Inbound<S, E>>, w: nat): seq<Inbound<S, E>>
    requires c.workers > 0
  {
    if messages == [] then [] else
      var n := |messages| - 1;
      Share(c, messages[..n], w) + if Routed(c, messages[n], w) then [messages[n]] else []
  }

  lemma ShareSnoc<S, E>(c: Config<S, E>, messages: seq<Inbound<S, E>>, msg: Inbound<S, E>, w: nat)
    requires c.workers > 0
    ensures Share(c, messages + [msg], w) == Share(c, messages, w) + if Routed(c, msg, w) then [msg] else []
  {
  }

  /** Shares of a whole send sequence are what the step system calls a worker's indices. */
  lemma {:induction false} ShareIsIndices<S, E>(c: Config<S, E>, n: nat, w: nat)
    requires c.workers > 0 && n <= |c.messages|
    ensures var r := Indices(c, n, w);
      && |Share(c, c.messages[..n], w)| == |r|
      && forall j | 0 <= j < |r| :: Share(c, c.messages[..n], w)[j] == c.messages[r[j]]
  {
    hide Routed;
    if n > 0 {
      ShareIsIndices(c, n - 1, w);
      assert c.messages[..n] == c.messages[..n - 1] + [c.messages[n - 1]];
      ShareSnoc(c, c.messages[..n - 1], c.messages[n - 1], w);
    }
  }

  class Router<S, E> {
    const c: Config<S, E>
    var queues: seq<seq<Inbound<S, E>>>
    var alive: seq<bool>
    var memoryUsage: nat
    var memoryBudget: nat

    ghost predicate Valid()
      reads this
    {
      c.workers > 0 && |queues| == c.workers && |alive| == c.workers
    }

    /** The queues after these messages have been routed on top of `before`. */
    ghost predicate Extended(before: seq<seq<Inbound<S, E>>>, messages: seq<Inbound<S, E>>)
      requires c.workers > 0
      reads this
    {
      |queues| == |before| == c.workers
      && forall w | 0 <= w < c.workers :: queues[w] == before[w] + Share(c, messages, w)
    }

    constructor (c: Config<S, E>, memoryBudget: nat)
      requires c.workers > 0
      ensures Valid() && this.c == c && memoryUsage == 0 && this.memoryBudget == memoryBudget
      ensures forall w | 0 <= w < c.workers :: queues[w] == [] && alive[w]
    {
      this.c := c;
      this.queues := seq(c.workers, _ => []);
      this.alive := seq(c.workers, _ => true);
      this.memoryUsage := 0;
      this.memoryBudget := memoryBudget;
    }

    /** Puts one message into its owner's queue, unless that worker has stopped. */
    method Enqueue(w: nat, msg: Inbound<S, E>) returns (ok: bool)
      requires Valid() && w < c.workers
      modifies this`queues
      ensures Valid() && ok == alive[w]
      ensures queues == if alive[w] then old(queues)[w := old(queues)[w] + [msg]] else old(queues)
    {
      ok := alive[w];
      if ok {
        queues := queues[w := queues[w] + [msg]];
      }
    }

    /**
     * Routes an event to the owner of each entity it concerns. Refused without any effect when the
     * budget is exhausted; cut short, with the earlier messages already delivered, when an owner is gone.
     */
    method SendEvent(e: E) returns (result: SendResult, ghost sent: nat)
      requires Valid()
      modifies this`queues
      ensures Valid()
      ensures var initials := c.d.snapshots(e); var messages := EventMessages(c.d, e, initials);
        && sent <= |messages|
        && Extended(old(queues), messages[..sent])
        && (result == MemoryFull <==> memoryUsage + c.d.eventSize(e) >= memoryBudget)
        && (result == MemoryFull ==> sent == 0)
        && (result.Sent? ==> sent == |messages| == result.replies)
        && (result == WorkerGone ==> sent < |messages| && !alive[OwnerOf(c, TargetOf(c.d, messages[sent]))])
    {
      hide Share, OwnerOf;
      sent := 0;
      ghost var messages := EventMessages(c.d, e, c.d.snapshots(e));
      ExtendedByNothing(queues);
      assert messages[..0] == [];
      if memoryUsage + c.d.eventSize(e) >= memoryBudget {
        return MemoryFull, 0;
      }
      var initials := c.d.snapshots(e);
      var replies := 0;
      while replies < |initials|
        invariant 0 <= replies <= |initials| == |messages| && sent == replies
        invariant Valid() && Extended(old(queues), messages[..replies])
      {
        var id := c.d.snapshotId(initials[replies]);
        var msg := EventIn(id, e, initials[replies]);
        var index := OwnerOf(c, id);
        assert messages[replies] == msg;
        ghost var before := queues;
        var ok := Enqueue(index, msg);
        if !ok {
          return WorkerGone, replies;
        }
        assert messages[..replies + 1] == messages[..replies] + [msg];
        ExtendedByOne(old(queues), before, messages[..replies], msg);
        replies := replies + 1;
        sent := replies;
      }
      result := Sent(replies);
    }

    lemma ExtendedByNothing(before: seq<seq<Inbound<S, E>>>)
      requires c.workers > 0 && queues == before && |before| == c.workers
      ensures Extended(before, [])
    {
    }

    lemma ExtendedByOne(
        start: seq<seq<Inbound<S, E>>>, before: seq<seq<Inbound<S, E>>>,
        messages: seq<Inbound<S, E>>, msg: Inbound<S, E>)
      requires c.workers > 0 && !msg.AdvanceIn? && |start| == |before| == c.workers
      requires forall w | 0 <= w < c.workers :: before[w] == start[w] + Share(c, messages, w)
      requires var w := OwnerOf(c, TargetOf(c.d, msg)); queues == before[w := before[w] + [msg]]
      ensures Extended(start, messages + [msg])
    {
      hide Share, OwnerOf;
      forall w | 0 <= w < c.workers
        ensures queues[w] == start[w] + Share(c, messages + [msg], w)
      {
        ShareSnoc(c, messages, msg, w);
        if w == OwnerOf(c, TargetOf(c.d, msg)) {
          assert (start[w] + Share(c, messages, w)) + [msg] == start[w] + (Share(c, messages, w) + [msg]);
        } else {
          assert Share(c, messages, w) + [] == Share(c, messages, w);
        }
      }
    }

    method SendSnapshot(s: S) returns (result: SendResult)
      requires Valid()
      modifies this`queues
      ensures Valid()
      ensures result == MemoryFull <==> memoryUsage + c.d.snapshotSize(s) >= memoryBudget
      ensures result.Sent? ==> result.replies == 1 && Extended(old(queues), [SnapshotIn(s)])
      ensures !result.Sent? ==> queues == old(queues)
      ensures result == WorkerGone ==> !alive[OwnerOf(c, c.d.snapshotId(s))]
    {
      if memoryUsage + c.d.snapshotSize(s) >= memoryBudget {
        return MemoryFull;
      }
      result := SendOne(SnapshotIn(s));
    }

    /** Queries are never refused for lack of memory. */
    method QueryAt(time: int, id: nat) returns (result: SendResult)
      requires Valid()
      modifies this`queues
      ensures Valid()
      ensures result.Sent? ==> result.replies == 1 && Extended(old(queues), [SnapshotAtIn(id, time)])
      ensures !result.Sent? ==> result == WorkerGone && queues == old(queues) && !alive[OwnerOf(c, id)]
    {
      result := SendOne(SnapshotAtIn(id, time));
    }

    method SendOne(msg: Inbound<S, E>) returns (result: SendResult)
      requires Valid() && !msg.AdvanceIn?
      modifies this`queues
      ensures Valid()
      ensures result == if alive[OwnerOf(c, TargetOf(c.d, msg))] then Sent(1) else WorkerGone
      ensures result.Sent? ==> Extended(old(queues), [msg])
      ensures !result.Sent? ==> queues == old(queues)
    {
      hide Share, OwnerOf;
      ghost var before := queues;
      ExtendedByNothing(queues);
      var ok := Enqueue(OwnerOf(c, TargetOf(c.d, msg)), msg);
      if !ok {
        return WorkerGone;
      }
      ExtendedByOne(before, before, [], msg);
      assert [] + [msg] == [msg];
      result := Sent(1);
    }

    /** Broadcasts an advance, worker by worker; a stopped worker cuts it short. */
    method SendAdvance(time: int) returns (result: SendResult, ghost reached: nat)
      requires Valid()
      modifies this`queues
      ensures Valid() && reached <= c.workers
      ensures forall w | 0 <= w < c.workers ::
        queues[w] == if w < reached then old(queues)[w] + [AdvanceIn(time)] else old(queues)[w]
      ensures result.Sent? ==> reached == result.replies == c.workers && Extended(old(queues), [AdvanceIn(time)])
      ensures !result.Sent? ==> result == WorkerGone && reached < c.workers && !alive[reached]
    {
      hide OwnerOf;
      reached := 0;
      var w := 0;
      while w < c.workers
        invariant 0 <= w <= c.workers && reached == w && Valid()
        invariant forall v | 0 <= v < c.workers ::
          queues[v] == if v < w then old(queues)[v] + [AdvanceIn(time)] else old(queues)[v]
      {
        var ok := Enqueue(w, AdvanceIn(time));
        if !ok {
          return WorkerGone, w;
        }
        w := w + 1;
        reached := w;
      }
      forall v | 0 <= v < c.workers
        ensures queues[v] == old(queues)[v] + Share(c, [AdvanceIn(time)], v)
      {
        ShareSnoc(c, [], AdvanceIn(time), v);
        var msg: Inbound<S, E> := AdvanceIn(time);
        assert [] + [msg] == [msg];
      }
      result := Sent(w);
    }
  }
}

/** Completion handles: consuming one reply per receiver, by waiting or by polling. */
module Handles {

  /** What a receiver shows when it is polled. */
  datatype Probe = Ready | Empty | Disconnected

  datatype PollResult = Complete | Incomplete | WorkerDropped

  /** Replies arrive while a scan is under way: what a receiver shows depends on the moment it is polled. */
  type World = (nat, nat) -> Probe

  /** The polled receivers that showed `p`; the j-th poll happens at time `start + j`. */
  function Showing(world: World, start: nat, polled: seq<nat>, p: Probe): (r: seq<nat>)
    ensures forall x | x in r :: x in polled
  {
    if polled == [] then [] else
      var n := |polled| - 1;
      Showing(world, start, polled[..n], p) + if world(start + n, polled[n]) == p then [polled[n]] else []
  }

  lemma ShowingSnoc(world: World, start: nat, polled: seq<nat>, x: nat, p: Probe)
    ensures Showing(world, start, polled + [x], p)
         == Showing(world, start, polled, p) + if world(start + |polled|, x) == p then [x] else []
  {
  }

  /** All polls showed `p` exactly when nothing showed anything else. */
  lemma {:induction false} ShowingAll(world: World, start: nat, polled: seq<nat>, p: Probe)
    ensures |Showing(world, start, polled, p)| <= |polled|
    ensures |Showing(world, start, polled, p)| == |polled|
       <==> forall j | 0 <= j < |polled| :: world(start + j, polled[j]) == p
  {
    if polled != [] {
      var n := |polled| - 1;
      ShowingAll(world, start, polled[..n], p);
      assert forall j | 0 <= j < n :: polled[..n][j] == polled[j];
    }
  }

  /** `Vec::swap_remove`: the last element takes the place of the removed one. */
  function SwapRemove(xs: seq<nat>, i: nat): seq<nat>
    requires i < |xs|
  {
    var last := |xs| - 1;
    if i == last then xs[..last] else xs[..last][i := xs[last]]
  }

  lemma SwapRemoveContents(xs: seq<nat>, i: nat)
    requires i < |xs|
    ensures var r := SwapRemove(xs, i);
      && |r| == |xs| - 1 && r[..i] == xs[..i]
      && multiset(xs[i..]) == multiset(r[i..]) + multiset{xs[i]}
  {
    var r, last := SwapRemove(xs, i), |xs| - 1;
    if i == last {
      assert xs[i..] == [xs[i]] && r[i..] == [];
    } else {
      assert xs[i..] == [xs[i]] + xs[i + 1..last] + [xs[last]];
      assert r[i..] == [xs[last]] + xs[i + 1..last];
    }
  }

  ghost predicate Accounted(rxs: seq<nat>, consumed: seq<nat>, receivers: seq<nat>) {
    multiset(rxs) + multiset(consumed) == multiset(receivers)
  }

  class Handle {
    /** One receiver per worker the request was sent to. */
    const receivers: seq<nat>
    var rxs: seq<nat>
    var consumed: seq<nat>

    /** Every receiver is still waiting or has been consumed, counted with multiplicity. */
    ghost predicate Valid()
      reads this
    {
      Accounted(rxs, consumed, receivers)
    }

    constructor (receivers: seq<nat>)
      ensures Valid() && this.receivers == receivers && rxs == receivers && consumed == []
    {
      this.receivers := receivers;
      this.rxs := receivers;
      this.consumed := [];
    }

    /**
     * The non-blocking check, started at time `start`. Whatever arrives during the scan, each waiting
     * receiver is polled at most once; those that showed a reply are consumed, those that showed none
     * stay, and the scan says it is complete exactly when every poll showed a reply. It stops at the
     * first receiver whose worker is gone.
     */
    method TryRecv(world: World, start: nat) returns (result: PollResult, ghost polled: seq<nat>)
      requires Valid()
      modifies this`rxs, this`consumed
      ensures Valid()
      ensures consumed == old(consumed) + Showing(world, start, polled, Ready)
      ensures !result.WorkerDropped? ==>
        && multiset(polled) == multiset(old(rxs))
        && multiset(rxs) == multiset(Showing(world, start, polled, Empty))
      ensures result.Complete? <==>
        multiset(polled) == multiset(old(rxs)) && forall j | 0 <= j < |polled| :: world(start + j, polled[j]) == Ready
      ensures !result.WorkerDropped? ==> (result.Complete? <==> rxs == [])
      ensures result.Complete? ==> multiset(consumed) == multiset(receivers)
      ensures result.WorkerDropped? ==>
        exists x :: x in rxs && world(start + |polled|, x) == Disconnected
                 && multiset(polled) + multiset{x} <= multiset(old(rxs))
    {
      hide Showing, SwapRemove, Scanned, Accounted;
      var i, t := 0, start;
      polled := [];
      ScanStart(world, start, rxs);
      while i < |rxs|
        invariant 0 <= i <= |rxs| && t == start + |polled|
        invariant Valid() && Scanned(world, start, polled, rxs, i, old(rxs))
        invariant consumed == old(consumed) + Showing(world, start, polled, Ready)
        decreases |rxs| - i
      {
        var x := rxs[i];
        match world(t, x) {
          case Ready =>
            ScanReady(world, start, polled, rxs, i, old(rxs));
            RemoveKeepsTotal(rxs, consumed, receivers, i);
            consumed := consumed + [x];
            rxs := SwapRemove(rxs, i);
          case Empty =>
            ScanEmpty(world, start, polled, rxs, i, old(rxs));
            i := i + 1;
          case Disconnected =>
            ScanDropped(world, start, polled, rxs, i, old(rxs));
            return WorkerDropped, polled;
        }
        polled := polled + [x];
        t := t + 1;
      }
      ScanEnd(world, start, polled, rxs, old(rxs));
      if rxs == [] {
        AllConsumed(consumed, receivers);
      }
      result := if rxs == [] then Complete else Incomplete;
    }
  }

  /** The blocking form: reads the receivers one after the other and stops at the first whose worker is gone. */
  method Wait(rxs: seq<nat>, replied: nat -> bool) returns (ok: bool, ghost read: nat)
    ensures ok <==> forall x | x in rxs :: replied(x)
    ensures read <= |rxs| && (forall x | x in rxs[..read] :: replied(x))
    ensures !ok ==> read < |rxs| && !replied(rxs[read])
  {
    read := 0;
    for i := 0 to |rxs|
      invariant read == i && forall x | x in rxs[..i] :: replied(x)
    {
      if !replied(rxs[i]) {
        return false, i;
      }
      read := i + 1;
    }
    ok := true;
  }

  /** In the middle of a scan: `i` receivers are known to be waiting, those from `i` on are still to be polled. */
  ghost predicate Scanned(world: World, start: nat, polled: seq<nat>, xs: seq<nat>, i: nat, all: seq<nat>) {
    && i <= |xs|
    && multiset(polled) + multiset(xs[i..]) == multiset(all)
    && multiset(xs[..i]) == multiset(Showing(world, start, polled, Empty))
    && Showing(world, start, polled, Disconnected) == []
  }

  lemma ScanStart(world: World, start: nat, xs: seq<nat>)
    ensures Scanned(world, start, [], xs, 0, xs) && Showing(world, start, [], Ready) == []
  {
  }

  /** One iteration, when the polled receiver shows a reply ... */
  lemma ScanReady(world: World, start: nat, polled: seq<nat>, xs: seq<nat>, i: nat, all: seq<nat>)
    requires Scanned(world, start, polled, xs, i, all) && i < |xs| && world(start + |polled|, xs[i]) == Ready
    ensures i <= |SwapRemove(xs, i)| < |xs|
    ensures Scanned(world, start, polled + [xs[i]], SwapRemove(xs, i), i, all)
    ensures Showing(world, start, polled + [xs[i]], Ready) == Showing(world, start, polled, Ready) + [xs[i]]
  {
    hide Showing, SwapRemove;
    ShowingEach(world, start, polled, xs[i]);
    SwapRemoveContents(xs, i);
  }

  /** ... none yet ... */
  lemma ScanEmpty(world: World, start: nat, polled: seq<nat>, xs: seq<nat>, i: nat, all: seq<nat>)
    requires Scanned(world, start, polled, xs, i, all) && i < |xs| && world(start + |polled|, xs[i]) == Empty
    ensures Scanned(world, start, polled + [xs[i]], xs, i + 1, all)
    ensures Showing(world, start, polled + [xs[i]], Ready) == Showing(world, start, polled, Ready)
  {
    hide Showing;
    ShowingEach(world, start, polled, xs[i]);
    assert xs[i..] == [xs[i]] + xs[i + 1..];
    assert xs[..i + 1] == xs[..i] + [xs[i]];
  }

  /** ... or that its worker is gone. */
  lemma ScanDropped(world: World, start: nat, polled: seq<nat>, xs: seq<nat>, i: nat, all: seq<nat>)
    requires Scanned(world, start, polled, xs, i, all) && i < |xs|
    ensures multiset(polled) + multiset{xs[i]} <= multiset(all) && multiset(polled) != multiset(all)
  {
    hide Showing;
    StoppedEarly(polled, xs[i..], all);
  }

  lemma ShowingEach(world: World, start: nat, polled: seq<nat>, x: nat)
    ensures forall p :: Showing(world, start, polled + [x], p)
                     == Showing(world, start, polled, p) + if world(start + |polled|, x) == p then [x] else []
  {
    hide Showing;
    forall p
      ensures Showing(world, start, polled + [x], p)
           == Showing(world, start, polled, p) + if world(start + |polled|, x) == p then [x] else []
    {
      ShowingSnoc(world, start, polled, x, p);
    }
  }

  lemma RemoveKeepsTotal(xs: seq<nat>, consumed: seq<nat>, receivers: seq<nat>, i: nat)
    requires i < |xs| && Accounted(xs, consumed, receivers)
    ensures Accounted(SwapRemove(xs, i), consumed + [xs[i]], receivers)
  {
    hide SwapRemove;
    SwapRemoveContents(xs, i);
    var r := SwapRemove(xs, i);
    assert xs == xs[..i] + xs[i..] && r == r[..i] + r[i..];
  }

  lemma AllConsumed(consumed: seq<nat>, receivers: seq<nat>)
    requires Accounted([], consumed, receivers)
    ensures multiset(consumed) == multiset(receivers)
  {
  }

  lemma StoppedEarly(polled: seq<nat>, rest: seq<nat>, all: seq<nat>)
    requires rest != [] && multiset(polled) + multiset(rest) == multiset(all)
    ensures multiset(polled) + multiset{rest[0]} <= multiset(all) && multiset(polled) != multiset(all)
  {
  }

  /** At the end of a scan nothing is left exactly when every poll showed a reply. */
  lemma ScanEnd(world: World, start: nat, polled: seq<nat>, left: seq<nat>, all: seq<nat>)
    requires Scanned(world, start, polled, left, |left|, all)
    ensures multiset(polled) == multiset(all) && multiset(left) == multiset(Showing(world, start, polled, Empty))
    ensures left == [] <==> forall j | 0 <= j < |polled| :: world(start + j, polled[j]) == Ready
  {
    hide Showing;
    assert left[..|left|] == left && left[|left|..] == [];
    assert |left| == |multiset(left)| == |Showing(world, start, polled, Empty)|;
    ThreeWay(world, start, polled);
    ShowingAll(world, start, polled, Ready);
  }

  lemma {:induction false} ThreeWay(world: World, start: nat, polled: seq<nat>)
    ensures |polled| == |Showing(world, start, polled, Ready)| + |Showing(world, start, polled, Empty)|
                      + |Showing(world, start, polled, Disconnected)|
  {
    if polled != [] {
      ThreeWay(world, start, polled[..|polled| - 1]);
    }
  }
}

/** What can happen to a request that waits for an endpoint, and why. */
module WaiterFates {
  import opened Allocator
  import opened AllocatorTheorems

  /** The waiter has lost its place: no endpoint is left, or the queue is now
      limited to the waiters before it. */
  predicate LosesPlace(a: Alloc, b: Alloc, w: nat) {
    exists i :: 0 <= i < |a.queue| && a.queue[i] == w && (b.endpoints == map[] || i >= b.settings.queueSize)
  }

  /** Who the endpoint `e` comes from when it is handed to a waiter: a request that
      is done with it, a wake-up, or another waiter that gives up after it was
      served. */
  predicate Frees(a: Alloc, st: Step, e: nat) {
    || st == DoRelease(e)
    || st == DoWake(e)
    || (st.DoCancel? && st.waiter in a.chans && a.chans[st.waiter] == Served(e))
  }

  /** All that a step can do to the channel of `w`. */
  ghost predicate Fate(a: Alloc, st: Step, b: Alloc, w: nat)
    requires w in a.chans
  {
    && (w !in b.chans <==> st == DoCancel(w) || st == DoReceive(w))
    && (w in b.chans && a.chans[w] != Open ==> b.chans[w] == a.chans[w])
    && (w in b.chans && a.chans[w] == Open ==>
          && (b.chans[w] == Dropped <==> st.DoUnpublish? && LosesPlace(a, b, w))
          && (b.chans[w].Served? ==>
                a.queue != [] && w == a.queue[0] && b.chans[w].endpoint in a.endpoints && Frees(a, st, b.chans[w].endpoint)))
  }

  lemma ServeFate(a: Alloc, e: nat, w: nat)
    requires Lined(a) && a.queue != [] && w in a.chans
    ensures w in Serve(a, e).chans && Serve(a, e).endpoints == a.endpoints
    ensures Serve(a, e).chans[w] == if w == a.queue[0] then Served(e) else a.chans[w]
    ensures a.chans[w] != Open ==> Serve(a, e).chans[w] == a.chans[w]
  {
    assert a.queue[0] in a.queue && IsOpen(a, a.queue[0]);
  }

  lemma GiveBackFate(a: Alloc, e: nat, w: nat)
    requires Lined(a) && w in a.chans
    ensures w in GiveBack(a, e).chans
    ensures GiveBack(a, e).chans[w] ==
      if e in a.endpoints && a.queue != [] && w == a.queue[0] then Served(e) else a.chans[w]
    ensures a.chans[w] != Open ==> GiveBack(a, e).chans[w] == a.chans[w]
  {
    if e in a.endpoints && a.queue != [] { ServeFate(a, e, w); }
  }

  lemma CancelFate(a: Alloc, x: nat, w: nat)
    requires Inv(a) && x in a.chans && w in a.chans
    ensures Fate(a, DoCancel(x), Cancel(a, x), w)
  {
    if x !in a.queue && a.chans[x].Served? {
      var f := Forget(a, x);
      AllocatorProofs.ForgetKeeps(a, x);
      if w != x { GiveBackFate(f, a.chans[x].endpoint, w); } else { Unserved(f, a.chans[x].endpoint, w); }
    }
  }

  lemma Unserved(a: Alloc, e: nat, w: nat)
    requires Lined(a) && w !in a.chans
    ensures w !in GiveBack(a, e).chans
  {
    if a.queue != [] { assert a.queue[0] in a.queue && IsOpen(a, a.queue[0]); }
  }

  lemma ReleaseFate(a: Alloc, e: nat, w: nat)
    requires Inv(a) && w in a.chans
    ensures Fate(a, DoRelease(e), Release(a, e), w)
  {
    GiveBackFate(a.(held := a.held - multiset{e}), e, w);
  }

  lemma UnpublishFate(a: Alloc, e: nat, w: nat)
    requires Inv(a) && e in a.endpoints && w in a.chans
    ensures Fate(a, DoUnpublish(e), Unpublish(a, e), w)
  {
    var b := RemoveEndpoint(a, e);
    var keep := Room(b);
    assert w in a.queue <==> IsOpen(a, w);
    if i :| 0 <= i < |a.queue| && a.queue[i] == w {
      assert w in a.queue[keep..] <==> i >= keep by {
        if i >= keep { assert a.queue[keep..][i - keep] == w; }
        if w in a.queue[keep..] {
          var k :| 0 <= k < |a.queue[keep..]| && a.queue[keep..][k] == w;
          assert a.queue[keep + k] == w;
        }
      }
      assert forall k :: 0 <= k < |a.queue| && a.queue[k] == w ==> k == i;
    } else {
      assert w !in a.queue && w !in a.queue[keep..];
    }
  }

  lemma WakeFate(a: Alloc, e: nat, w: nat)
    requires Inv(a) && e in a.endpoints && a.queue != [] && a.waking > 0 && w in a.chans
    ensures Fate(a, DoWake(e), Wake(a, e), w)
  {
    assert a.queue[0] in a.queue && IsOpen(a, a.queue[0]);
  }

  lemma StepFate(a: Alloc, st: Step, w: nat)
    requires Inv(a) && Enabled(a, st) && w in a.chans
    ensures Fate(a, st, Next(a, st), w)
  {
    match st
    case DoTake(e) =>
    case DoEnqueue => assert a.nextWaiter !in a.chans;
    case DoReceive(x) =>
    case DoRelease(e) => ReleaseFate(a, e, w);
    case DoCancel(x) => CancelFate(a, x, w);
    case DoPublish(key, s) =>
    case DoWake(e) => WakeFate(a, e, w);
    case DoUnpublish(e) => UnpublishFate(a, e, w);
  }

  /** On every run: a channel is given up only by its own request; an open one is
      served only as the first in line, with an endpoint that was freed; and it is
      closed empty exactly when an endpoint is unpublished and there is no place
      left for it. */
  lemma WaiterFate(run: seq<Alloc>, steps: seq<Step>, k: nat, w: nat)
    requires IsRun(run, steps) && k < |steps| && w in run[k].chans
    ensures Fate(run[k], steps[k], run[k + 1], w)
  {
    RunKeeps(run, steps, k);
    assert Follows(run[k], steps[k], run[k + 1]);
    StepFate(run[k], steps[k], w);
  }

  /** What a request makes of its channel: an endpoint that is still published is
      its own; one that was unpublished meanwhile, or a publication without
      endpoints, makes it try again; and there is no room for it if the channel was
      closed while endpoints are left. */
  lemma WhatIsReceived(a: Alloc, w: nat)
    requires w in a.chans && a.chans[w] != Open
    ensures Outcome(a, w).Got? <==> a.chans[w].Served? && a.chans[w].endpoint in a.endpoints
    ensures Outcome(a, w).Got? ==> Outcome(a, w).endpoint == a.chans[w].endpoint
    ensures Outcome(a, w).Retry? <==>
      (a.chans[w].Served? && a.chans[w].endpoint !in a.endpoints) || (a.chans[w] == Dropped && a.endpoints == map[])
    ensures Outcome(a, w).OverCapacity? <==> a.chans[w] == Dropped && a.endpoints != map[]
    ensures var b := Receive(a, w);
            && b.chans == a.chans - {w} && b.endpoints == a.endpoints && b.queue == a.queue && b.ready == a.ready
            && b.held == if Outcome(a, w).Got? then a.held + multiset{a.chans[w].endpoint} else a.held
  {
  }
}

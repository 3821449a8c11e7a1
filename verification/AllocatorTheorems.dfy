/** What holds on every run of a publication. */
module AllocatorTheorems {
  import opened Allocator
  import opened AllocatorProofs

  ghost predicate Follows(a: Alloc, st: Step, b: Alloc) { Enabled(a, st) && b == Next(a, st) }

  ghost predicate IsRun(run: seq<Alloc>, steps: seq<Step>) {
    && |run| == |steps| + 1
    && run[0] == Empty()
    && forall i :: 0 <= i < |steps| ==> Follows(run[i], steps[i], run[i + 1])
  }

  ghost predicate Good(a: Alloc) { Inv(a) && Budgeted(a) && Keyed(a) }

  lemma EmptyInv()
    ensures Good(Empty())
  {
  }

  lemma GiveBackBudget(a: Alloc, e: nat)
    requires Keyed(a) && !Waking(a)
    ensures Keyed(GiveBack(a, e)) && !Waking(GiveBack(a, e))
  {
  }

  lemma AddBudget(a: Alloc, key: nat, s: Settings)
    requires Keyed(a) && Numbered(a) && MayPublish(a, key, s)
    ensures Keyed(AddEndpoint(a, key, s)) && Budgeted(AddEndpoint(a, key, s))
  {
  }

  lemma WakeBudget(a: Alloc, e: nat)
    requires Keyed(a) && Budgeted(a) && Waking(a) && e in a.endpoints && a.queue != []
    ensures Keyed(Wake(a, e)) && Budgeted(Wake(a, e))
  {
  }

  lemma StepBudget(a: Alloc, st: Step)
    requires Keyed(a) && Numbered(a) && Budgeted(a) && Enabled(a, st)
    ensures Keyed(Next(a, st)) && Budgeted(Next(a, st))
  {
    match st
    case DoRelease(e) => GiveBackBudget(a.(held := a.held - multiset{e}), e);
    case DoCancel(w) =>
      if w !in a.queue && a.chans[w].Served? { GiveBackBudget(Forget(a, w), a.chans[w].endpoint); }
    case DoPublish(key, s) => AddBudget(a, key, s);
    case DoWake(e) => WakeBudget(a, e);
    case _ =>
  }

  lemma FollowKeeps(a: Alloc, st: Step, b: Alloc)
    requires Good(a) && Follows(a, st, b)
    ensures Good(b)
  {
    StepKeeps(a, st);
    StepBudget(a, st);
  }

  lemma {:induction false} RunKeeps(run: seq<Alloc>, steps: seq<Step>, k: nat)
    requires IsRun(run, steps) && k <= |steps|
    ensures Good(run[k])
  {
    if k == 0 {
      EmptyInv();
    } else {
      RunKeeps(run, steps, k - 1);
      FollowKeeps(run[k - 1], steps[k - 1], run[k]);
    }
  }

  // ----- waking up

  lemma {:induction false} LeastExists(a: Alloc, among: set<nat>) returns (e: nat)
    requires among != {} && forall o :: o in among ==> o in a.endpoints
    ensures e in among && forall o :: o in among ==> a.endpoints[e].active <= a.endpoints[o].active
    decreases |among|
  {
    var one :| one in among;
    var rest := among - {one};
    e := one;
    if rest != {} {
      var o := LeastExists(a, rest);
      if a.endpoints[o].active < a.endpoints[one].active { e := o; }
      forall x | x in among ensures a.endpoints[e].active <= a.endpoints[x].active { assert x == one || x in rest; }
    } else {
      assert among == {one};
    }
  }

  /** The wake-up loop never finds itself without an endpoint or a waiter. */
  lemma WakingGoesOn(a: Alloc) returns (e: nat)
    requires Good(a) && Waking(a)
    ensures Enabled(a, DoWake(e))
  {
    assert a.nextEndpoint - 1 in a.ready;
    e := LeastExists(a, a.ready);
  }

  // ----- capacity

  /** The grants of `e` that are out: held by a request or sitting in a channel. */
  ghost function Outstanding(a: Alloc, e: nat): nat { a.held[e] + |Sitting(a, e)| }

  /** No endpoint ever serves more requests than its concurrency, its counter
      never drifts, and it is offered exactly while it has room. The
      publication's own limits are the exact sums, and its reach the exact
      maximum, of its endpoints; 32-bit arithmetic never wraps. */
  lemma CapacityAccounted(run: seq<Alloc>, steps: seq<Step>, k: nat)
    requires IsRun(run, steps) && k <= |steps|
    ensures var a := run[k];
            && (forall e :: e in a.endpoints ==>
                  && a.endpoints[e].active == Outstanding(a, e) <= a.endpoints[e].settings.concurrency
                  && (e in a.ready <==> a.endpoints[e].active < a.endpoints[e].settings.concurrency))
            && a.ready <= a.endpoints.Keys
            && a.settings.concurrency == Total(a.endpoints, Concurrency)
            && a.settings.queueSize == Total(a.endpoints, QueueSize)
            && (forall e :: e in a.endpoints ==> a.endpoints[e].settings.maxDistance <= a.settings.maxDistance)
            && (a.endpoints != map[] ==>
                  exists e :: e in a.endpoints && a.endpoints[e].settings.maxDistance == a.settings.maxDistance)
            && Keyed(a)
  {
    RunKeeps(run, steps, k);
    var a := run[k];
    forall e | e in a.endpoints ensures a.endpoints[e].settings.maxDistance <= a.settings.maxDistance {
      assert e in Reaching(a.endpoints, a.endpoints[e].settings.maxDistance);
    }
    NoneReached(a);
    if a.endpoints != map[] {
      assert Reaching(a.endpoints, a.settings.maxDistance) != {};
      var e :| e in Reaching(a.endpoints, a.settings.maxDistance);
    }
  }

  /** Publishing is refused exactly for a key in use and for totals of 2^32 or more. */
  lemma WhatMayBePublished(a: Alloc, key: nat, s: Settings)
    requires Summed(a) && (a.endpoints == map[] ==> a.nextEndpoint == 0)
    requires 0 < s.concurrency < 0x1_0000_0000 && s.queueSize < 0x1_0000_0000
    ensures MayPublish(a, key, s) <==>
      a.endpoints == map[]
      || ((forall e :: e in a.endpoints ==> a.endpoints[e].key != key)
          && a.settings.concurrency + s.concurrency < 0x1_0000_0000 && a.settings.queueSize + s.queueSize < 0x1_0000_0000)
  {
  }

  /** The new endpoint is ready and without grants, and adds its share; the first
      one also brings the priority. */
  lemma WhatIsPublished(a: Alloc, key: nat, s: Settings)
    requires Summed(a) && MayPublish(a, key, s)
    ensures var b, e := AddEndpoint(a, key, s), a.nextEndpoint;
      && b.endpoints == a.endpoints[e := Endpoint(0, key, s)] && b.ready == a.ready + {e}
      && b.settings.concurrency == a.settings.concurrency + s.concurrency
      && b.settings.queueSize == a.settings.queueSize + s.queueSize
      && b.settings.priority == (if a.endpoints == map[] then s.priority else a.settings.priority)
      && b.queue == a.queue && b.chans == a.chans && b.held == a.held
  {
  }

  /** A publication keeps the priority that its first endpoint brought. */
  lemma PriorityStays(a: Alloc, st: Step)
    requires Enabled(a, st) && (st.DoPublish? ==> a.endpoints != map[])
    ensures Next(a, st).settings.priority == a.settings.priority
  {
  }

  // ----- waiters

  /** The queue is bounded and empty without endpoints, exactly its waiters are
      unresolved, no channel is ever used after it was closed, and waiters are
      served at most once, in the order in which they arrived. */
  lemma WaitersInLine(run: seq<Alloc>, steps: seq<Step>, k: nat)
    requires IsRun(run, steps) && k <= |steps|
    ensures var a := run[k];
            && |a.queue| <= a.settings.queueSize
            && (a.endpoints == map[] ==> a.queue == [])
            && (forall w :: w in a.chans ==> (w in a.queue <==> a.chans[w] == Open))
            && !a.panicked
            && Increasing(a.queue) && Increasing(a.served)
            && (forall i, j :: 0 <= i < |a.served| && 0 <= j < |a.queue| ==> a.served[i] < a.queue[j])
  {
    RunKeeps(run, steps, k);
  }

  /** A resolved channel keeps its value. */
  ghost predicate Settled(a: Alloc, b: Alloc) {
    && a.nextWaiter <= b.nextWaiter
    && (forall w :: w in a.chans && a.chans[w] != Open && w in b.chans ==> b.chans[w] == a.chans[w])
    && (forall w :: w < a.nextWaiter && w !in a.chans ==> w !in b.chans)
  }

  lemma SettledTransitive(a: Alloc, b: Alloc, c: Alloc)
    requires Settled(a, b) && Settled(b, c) && Numbered(a)
    ensures Settled(a, c)
  {
  }

  lemma ServeSettles(a: Alloc, e: nat)
    requires Lined(a) && a.queue != []
    ensures Settled(a, Serve(a, e))
  {
    assert a.queue[0] in a.queue && IsOpen(a, a.queue[0]);
  }

  lemma WakeSettles(a: Alloc, e: nat)
    requires Lined(a) && a.queue != [] && e in a.endpoints && a.waking > 0
    ensures Settled(a, Wake(a, e))
  {
    assert a.queue[0] in a.queue && IsOpen(a, a.queue[0]);
  }

  lemma GiveBackSettles(a: Alloc, e: nat)
    requires Lined(a)
    ensures Settled(a, GiveBack(a, e))
  {
    if e in a.endpoints && a.queue != [] { ServeSettles(a, e); }
  }

  lemma ReleaseSettles(a: Alloc, e: nat)
    requires Inv(a)
    ensures Settled(a, Release(a, e))
  {
    var b := a.(held := a.held - multiset{e});
    assert Lined(b);
    GiveBackSettles(b, e);
    SettledTransitive(a, b, Release(a, e));
  }

  lemma CancelSettles(a: Alloc, w: nat)
    requires Inv(a) && w in a.chans
    ensures Settled(a, Cancel(a, w))
  {
    if w !in a.queue {
      var f := Forget(a, w);
      assert a.chans[w] != Open;
      ForgetKeeps(a, w);
      if a.chans[w].Served? {
        GiveBackSettles(f, a.chans[w].endpoint);
        SettledTransitive(a, f, Cancel(a, w));
      }
    }
  }

  lemma UnpublishSettles(a: Alloc, e: nat)
    requires Inv(a) && e in a.endpoints
    ensures Settled(a, Unpublish(a, e))
  {
    var b := RemoveEndpoint(a, e);
    TruncateSettles(b, Room(b));
  }

  lemma TruncateSettles(a: Alloc, keep: nat)
    requires keep <= |a.queue| && forall w :: w in a.queue ==> IsOpen(a, w)
    ensures Settled(a, Truncate(a, keep))
  {
    forall w | w in a.queue[keep..] ensures IsOpen(a, w) { assert w in a.queue; }
  }

  lemma StepSettles(a: Alloc, st: Step)
    requires Inv(a) && Enabled(a, st)
    ensures Settled(a, Next(a, st))
  {
    match st
    case DoTake(e) =>
    case DoEnqueue => assert a.nextWaiter !in a.chans;
    case DoReceive(w) =>
    case DoRelease(e) => ReleaseSettles(a, e);
    case DoCancel(w) => CancelSettles(a, w);
    case DoPublish(key, s) =>
    case DoWake(e) => WakeSettles(a, e);
    case DoUnpublish(e) => UnpublishSettles(a, e);
  }

  lemma FollowSettles(a: Alloc, st: Step, b: Alloc)
    requires Inv(a) && Follows(a, st, b)
    ensures Settled(a, b)
  {
    StepSettles(a, st);
  }

  /** Every waiter is resolved at most once: served, dropped or cancelled. */
  lemma {:induction false} ResolvedOnce(run: seq<Alloc>, steps: seq<Step>, i: nat, j: nat)
    requires IsRun(run, steps) && i <= j <= |steps|
    ensures Settled(run[i], run[j])
    decreases j - i
  {
    if i < j {
      RunKeeps(run, steps, i);
      FollowSettles(run[i], steps[i], run[i + 1]);
      ResolvedOnce(run, steps, i + 1, j);
    }
  }

  // ----- cancellation

  /** A waiter that was served and then cancelled gives its grant back: to the
      next waiter, or to the pool. */
  lemma CancelledGrantReturns(run: seq<Alloc>, steps: seq<Step>, k: nat, w: nat)
    requires IsRun(run, steps) && k <= |steps|
    requires w in run[k].chans && run[k].chans[w].Served? && run[k].chans[w].endpoint in run[k].endpoints
    ensures var a, e := run[k], run[k].chans[w].endpoint;
            var b := Cancel(a, w);
            if a.queue != []
            then a.queue[0] in b.chans && b.chans[a.queue[0]] == Served(e) && b.queue == a.queue[1..] && b.endpoints == a.endpoints
            else e in b.ready && b.endpoints[e].active == a.endpoints[e].active - 1
  {
    RunKeeps(run, steps, k);
    var a, e := run[k], run[k].chans[w].endpoint;
    assert w in Sitting(a, e);
    assert Cancel(a, w) == GiveBack(Forget(a, w), e);
  }

  // ----- waiting while an endpoint is ready

  predicate NoIdleWait(a: Alloc) { a.queue == [] || a.ready == {} }

  /** A request looks for an endpoint and enters the queue under separate
      locks, so it can come to wait although an endpoint is ready: the only
      endpoint is taken, a second request finds nothing, the first one
      releases, and only then the second one queues. It goes on waiting: a
      third request takes the endpoint past it. */
  lemma IdleWaitIsReachable() returns (run: seq<Alloc>, steps: seq<Step>)
    ensures IsRun(run, steps) && |steps| == 5
    ensures !NoIdleWait(run[4]) && !Waking(run[4]) && steps[4] == DoTake(0)
    ensures run[4].queue == run[5].queue == [0] && 0 in run[5].chans && run[5].chans[0] == Open && 0 in run[5].held
  {
    var s := Settings(0, 0, 1, 1);
    var a0 := Empty();
    var a1 := AddEndpoint(a0, 0, s);
    var a2 := Take(a1, 0);
    var a3 := Release(a2, 0);
    var a4 := Enqueue(a3);
    var a5 := Take(a4, 0);
    run := [a0, a1, a2, a3, a4, a5];
    steps := [DoPublish(0, s), DoTake(0), DoRelease(0), DoEnqueue, DoTake(0)];
    assert IsLeast(a1, 0);
    assert Follows(a0, steps[0], a1);
    assert Follows(a1, steps[1], a2);
    assert Follows(a2, steps[2], a3);
    assert Follows(a3, steps[3], a4);
    assert 0 in a4.ready && IsLeast(a4, 0);
    assert Follows(a4, steps[4], a5);
  }

  /** Nobody waits for a ready endpoint; while a new endpoint is handed to the
      waiters, it alone is ready and gets just as many as it can. */
  ghost predicate Prompt(a: Alloc) {
    if Waking(a) then exists e :: HandingOut(a, e) else NoIdleWait(a)
  }

  ghost predicate HandingOut(a: Alloc, e: nat) {
    && e in a.endpoints && a.ready == {e}
    && a.endpoints[e].active < a.endpoints[e].settings.concurrency
    && a.waking == Min(a.endpoints[e].settings.concurrency - a.endpoints[e].active, |a.queue|)
  }

  lemma GiveBackPrompt(a: Alloc, e: nat)
    requires NoIdleWait(a) && !Waking(a)
    ensures Prompt(GiveBack(a, e))
  {
  }

  lemma CancelPrompt(a: Alloc, w: nat)
    requires Inv(a) && NoIdleWait(a) && !Waking(a) && w in a.chans
    ensures Prompt(Cancel(a, w))
  {
    if w in a.queue {
      WithoutIsRest(a.queue, w);
    } else if a.chans[w].Served? {
      GiveBackPrompt(Forget(a, w), a.chans[w].endpoint);
    }
  }

  lemma PublishPrompt(a: Alloc, key: nat, s: Settings)
    requires NoIdleWait(a) && MayPublish(a, key, s)
    ensures Prompt(AddEndpoint(a, key, s))
  {
    if a.queue != [] {
      assert HandingOut(AddEndpoint(a, key, s), a.nextEndpoint);
    }
  }

  lemma WakePrompt(a: Alloc, e: nat)
    requires Waking(a) && Prompt(a) && IsLeast(a, e) && a.queue != []
    ensures Prompt(Wake(a, e))
  {
    var o :| HandingOut(a, o);
    assert o == e;
    if a.waking > 1 {
      assert HandingOut(Wake(a, e), e);
    }
  }

  /** Exactly one step breaks it: queueing while an endpoint is ready. */
  lemma StepPrompt(a: Alloc, st: Step)
    requires Inv(a) && Enabled(a, st) && Prompt(a)
    ensures Prompt(Next(a, st)) <==> !(st.DoEnqueue? && a.ready != {})
  {
    match st
    case DoRelease(e) => GiveBackPrompt(a.(held := a.held - multiset{e}), e);
    case DoCancel(w) => CancelPrompt(a, w);
    case DoPublish(key, s) => PublishPrompt(a, key, s);
    case DoWake(e) => WakePrompt(a, e);
    case _ =>
  }

  ghost predicate NeverJumpsIn(run: seq<Alloc>, steps: seq<Step>, n: nat)
    requires n <= |steps| && |run| == |steps| + 1
  {
    forall k :: 0 <= k < n && steps[k].DoEnqueue? ==> run[k].ready == {}
  }

  lemma FollowPrompt(a: Alloc, st: Step, b: Alloc)
    requires Inv(a) && Prompt(a) && Follows(a, st, b)
    ensures Prompt(b) <==> !(st.DoEnqueue? && a.ready != {})
  {
    StepPrompt(a, st);
  }

  lemma {:induction false} PromptSoFar(run: seq<Alloc>, steps: seq<Step>, n: nat)
    requires IsRun(run, steps) && n <= |steps| && NeverJumpsIn(run, steps, n)
    ensures Prompt(run[n])
  {
    if n > 0 {
      PromptSoFar(run, steps, n - 1);
      RunKeeps(run, steps, n - 1);
      FollowPrompt(run[n - 1], steps[n - 1], run[n]);
    }
  }

  lemma EnqueueIdles(a: Alloc, st: Step, b: Alloc)
    requires Follows(a, st, b) && st.DoEnqueue? && a.ready != {}
    ensures !Waking(b) && !NoIdleWait(b)
  {
  }

  /** On any run, nobody waits for a ready endpoint outside a wake-up, if and
      only if no request ever joined the queue while an endpoint was ready. */
  lemma IdleWaitExactly(run: seq<Alloc>, steps: seq<Step>)
    requires IsRun(run, steps)
    ensures (forall k :: 0 <= k < |run| && !Waking(run[k]) ==> NoIdleWait(run[k])) <==> NeverJumpsIn(run, steps, |steps|)
  {
    if NeverJumpsIn(run, steps, |steps|) {
      forall k | 0 <= k < |run| && !Waking(run[k]) ensures NoIdleWait(run[k]) {
        PromptSoFar(run, steps, k);
      }
    } else {
      var k :| 0 <= k < |steps| && steps[k].DoEnqueue? && run[k].ready != {};
      EnqueueIdles(run[k], steps[k], run[k + 1]);
    }
  }

  // ----- retries

  /** A request that is told to retry was given an endpoint that has been
      unpublished since, or waited at a publication that has none left. */
  lemma RetryMeansRemoved(a: Alloc, w: nat)
    requires w in a.chans && a.chans[w] != Open && Outcome(a, w) == Retry
    ensures (a.chans[w].Served? && a.chans[w].endpoint !in a.endpoints) || a.endpoints == map[]
  {
  }
}

/** The publication object: its fields are updated in place under its lock.
    Each method does what the function of Allocator.dfy says, and each call of a
    request or of the server is a step, or a segment, of the allocator's runs. */
module Publication {
  import opened Common
  import opened Allocator
  import A = Allocator
  import T = AllocatorTheorems

  class Publication {
    var endpoints: map<nat, Endpoint>
    var ready: set<nat>
    var queue: seq<nat>
    var settings: Settings
    var counts: map<nat, nat>
    // the channels of the waiters; closing or sending is an update
    var chans: map<nat, Chan>
    var nextEndpoint: nat
    var nextWaiter: nat
    // what the rest of the server knows about this publication
    ghost var rest: Alloc

    ghost function View(): Alloc
      reads this
    {
      rest.(endpoints := endpoints, ready := ready, queue := queue, settings := settings,
            counts := counts, chans := chans, nextEndpoint := nextEndpoint, nextWaiter := nextWaiter)
    }

    constructor ()
      ensures View() == Empty()
    {
      endpoints, ready, queue, settings := map[], {}, [], Settings(0, 0, 0, 0);
      counts, chans, nextEndpoint, nextWaiter := map[], map[], 0, 0;
      rest := Empty();
    }

    /** The loop over the ready set finds an endpoint with the fewest grants. */
    method TakeEndpoint() returns (best: Option<nat>)
      requires forall e :: e in ready ==> e in endpoints
      modifies this`endpoints, this`ready
      ensures best.None? <==> old(ready) == {}
      ensures best.None? ==> View() == old(View())
      ensures best.Some? ==> IsLeast(old(View()), best.value) && View() == Grant(old(View()), best.value)
      ensures best.Some? ==>
        && best.value in old(ready) && best.value in old(endpoints)
        && (forall o :: o in old(ready) ==> old(endpoints)[best.value].active <= old(endpoints)[o].active)
        && best.value in endpoints && endpoints[best.value].active == old(endpoints)[best.value].active + 1
    {
      best := None;
      var left, active := ready, 0;
      while left != {}
        invariant left <= ready
        invariant best.None? ==> left == ready
        invariant best.Some? ==> best.value in ready && active == endpoints[best.value].active
        invariant best.Some? ==> forall o :: o in ready && o !in left ==> active <= endpoints[o].active
        decreases left
      {
        var e :| e in left;
        left := left - {e};
        if best.None? || active > endpoints[e].active {
          best := Some(e);
          active := endpoints[e].active;
          if active == 0 {
            break;
          }
        }
      }
      if best.Some? {
        var e := best.value;
        endpoints := endpoints[e := endpoints[e].(active := endpoints[e].active + 1)];
        if endpoints[e].active == endpoints[e].settings.concurrency {
          ready := ready - {e};
        }
      }
    }

    /** takeEndpointRLocked: a request takes the endpoint for itself. */
    method Take() returns (best: Option<nat>)
      requires (forall e :: e in ready ==> e in endpoints) && !Waking(View())
      modifies this
      ensures best.None? <==> old(ready) == {}
      ensures best.None? ==> View() == old(View())
      ensures best.Some? ==> T.Follows(old(View()), DoTake(best.value), View())
    {
      best := TakeEndpoint();
      if best.Some? { rest := rest.(held := rest.held + multiset{best.value}); }
    }

    /** The request that holds the endpoint is done with it. */
    method Release(e: nat)
      requires e in View().held && !Waking(View())
      modifies this
      ensures T.Follows(old(View()), DoRelease(e), View())
    {
      rest := rest.(held := rest.held - multiset{e});
      ReleaseEndpoint(e);
    }

    /** Hand the endpoint to the first waiter, or make it ready again. */
    method ReleaseEndpoint(e: nat)
      modifies this
      ensures View() == GiveBack(old(View()), e)
    {
      if e in endpoints {
        if |queue| > 0 {
          var waiter := queue[0];
          rest := rest.(served := rest.served + [waiter], panicked := rest.panicked || !IsOpen(View(), waiter));
          queue := queue[1..];
          chans := chans[waiter := Served(e)];
        } else {
          var p := endpoints[e];
          endpoints := endpoints[e := p.(active := if p.active == 0 then UINT32 - 1 else p.active - 1)];
          ready := ready + {e};
        }
      }
    }

    method QueueWaiter() returns (waiter: Option<nat>)
      modifies this
      ensures waiter.None? <==> |old(queue)| >= old(settings.queueSize)
      ensures queue == if waiter.None? then old(queue) else old(queue) + [waiter.value]
      ensures View() == if waiter.None? then old(View()) else Enqueue(old(View()))
      ensures waiter.Some? ==> waiter.value == old(nextWaiter)
      ensures waiter.Some? && !Waking(old(View())) ==> T.Follows(old(View()), DoEnqueue, View())
    {
      if |queue| >= settings.queueSize {
        return None;
      }
      waiter := Some(nextWaiter);
      queue := queue + [nextWaiter];
      chans := chans[nextWaiter := Open];
      nextWaiter := nextWaiter + 1;
    }

    /** Remove the waiter from the queue; if it is not there any more, take
        what it was sent and release it. */
    method CancelWaiter(waiter: nat)
      requires waiter in chans
      modifies this
      ensures View() == Cancel(old(View()), waiter)
      ensures !Waking(old(View())) ==> T.Follows(old(View()), DoCancel(waiter), View())
    {
      var index := 0;
      while index < |queue| && queue[index] != waiter
        invariant index <= |queue|
        invariant waiter !in queue[..index]
      {
        index := index + 1;
      }
      assert queue == queue[..index] + queue[index..];
      if index < |queue| {
        RemoveAt(queue, index, waiter);
        queue := queue[..index] + queue[index + 1..];
        chans := chans - {waiter};
        return;
      }
      var chan := chans[waiter];
      chans := chans - {waiter};
      if chan.Served? {
        ReleaseEndpoint(chan.endpoint);
      }
    }

    /** One turn of the wake-up loop: the first waiter is sent an endpoint. */
    method ServeFirst(endpoint: nat)
      requires queue != []
      modifies this`queue, this`chans, this`rest
      ensures View() == Serve(old(View()), endpoint)
    {
      var waiter := queue[0];
      rest := rest.(served := rest.served + [waiter], panicked := rest.panicked || !IsOpen(View(), waiter));
      queue := queue[1..];
      chans := chans[waiter := Served(endpoint)];
    }

    method WakeOne() returns (e: nat)
      requires T.Good(View()) && Waking(View())
      modifies this
      ensures Woken(old(View()), e, View())
    {
      ghost var before := View();
      ghost var least := T.WakingGoesOn(before);
      var best := TakeEndpoint();
      e := best.value;
      rest := rest.(waking := rest.waking - 1);
      ServeFirst(e);
      WakeIsStep(before, e, View());
    }

    /** Serves `n` waiters, or all if there are fewer: the loop never runs out of
        ready endpoints, and is a sequence of wake-up steps of the allocator. */
    method WakeupWaiters(n: nat) returns (m: nat, ghost es: seq<nat>, ghost trace: seq<Alloc>)
      requires T.Good(View()) && View().waking == Min(n, |queue|)
      modifies this
      ensures m == Min(n, |old(queue)|) && |es| == m && WakeRun(trace, es)
      ensures trace[0] == old(View()) && trace[m] == View()
      ensures T.Good(View()) && !Waking(View())
    {
      var limit := if n > |queue| then |queue| else n;
      m, es, trace := 0, [], [View()];
      while m < limit
        invariant m <= limit == Min(n, |old(queue)|) && |es| == m && WakeRun(trace, es)
        invariant trace[0] == old(View()) && trace[m] == View()
        invariant T.Good(View()) && View().waking == limit - m
      {
        var e := WakeOne();
        WakeRunGrows(trace, es, e, View());
        trace, es, m := trace + [View()], es + [e], m + 1;
      }
    }

    function AddedSettings(s: Settings): Settings
      reads this
    {
      if endpoints == map[] then s
      else Settings(settings.priority, Max(settings.maxDistance, s.maxDistance),
                    (settings.concurrency + s.concurrency) % UINT32, (settings.queueSize + s.queueSize) % UINT32)
    }

    /** publishLocked up to the wake-up loop: the first endpoint brings the
        publication's settings, later ones add to them. */
    method AddEndpoint(key: nat, s: Settings)
      modifies this
      ensures View() == A.AddEndpoint(old(View()), key, s)
    {
      rest := rest.(waking := Min(s.concurrency, |queue|));
      settings := AddedSettings(s);
      counts := counts[s.maxDistance := (if s.maxDistance in counts then counts[s.maxDistance] else 0) + 1];
      endpoints := endpoints[nextEndpoint := Endpoint(0, key, s)];
      ready := ready + {nextEndpoint};
      nextEndpoint := nextEndpoint + 1;
    }

    /** The test of publishLocked: the key is new and no 32-bit total wraps around. */
    predicate Accepts(key: nat, s: Settings)
      reads this
    {
      && (forall e :: e in endpoints ==> endpoints[e].key != key)
      && (endpoints == map[] ||
          ((settings.concurrency + s.concurrency) % UINT32 >= settings.concurrency
           && (settings.queueSize + s.queueSize) % UINT32 >= settings.queueSize))
    }

    lemma AcceptsIs(key: nat, s: Settings)
      requires (endpoints == map[] ==> nextEndpoint == 0) && 0 < s.concurrency < UINT32 && s.queueSize < UINT32
      ensures Accepts(key, s) <==> MayPublish(View(), key, s)
    {
    }

    /** Refused, or the endpoint is added and as many waiters as it has room for
        are woken up: a publish step of the allocator followed by wake-ups until
        none is due. An object without endpoints is new: publishLocked does not
        find one that has lost its last endpoint. */
    method Publish(key: nat, s: Settings) returns (ok: bool, ghost steps: seq<Step>, ghost trace: seq<Alloc>)
      requires T.Good(View()) && !Waking(View()) && (endpoints == map[] ==> nextEndpoint == 0)
      requires 0 < s.concurrency < UINT32 && s.queueSize < UINT32
      modifies this
      ensures ok <==> MayPublish(old(View()), key, s)
      ensures !ok ==> View() == old(View())
      ensures T.Good(View()) && !Waking(View())
      ensures ok ==> Segment(trace, steps) && trace[0] == old(View()) && trace[|steps|] == View()
      ensures ok ==> |steps| == 1 + Min(s.concurrency, |old(queue)|) && steps[0] == DoPublish(key, s)
      ensures ok ==> forall i :: 1 <= i < |steps| ==> steps[i].DoWake?
    {
      steps, trace := [], [];
      ok := Accepts(key, s);
      AcceptsIs(key, s);
      if ok { steps, trace := PublishAccepted(key, s); }
    }

    method PublishAccepted(key: nat, s: Settings) returns (ghost steps: seq<Step>, ghost trace: seq<Alloc>)
      requires T.Good(View()) && !Waking(View()) && MayPublish(View(), key, s)
      modifies this
      ensures T.Good(View()) && !Waking(View())
      ensures Segment(trace, steps) && trace[0] == old(View()) && trace[|steps|] == View()
      ensures |steps| == 1 + Min(s.concurrency, |old(queue)|) && steps[0] == DoPublish(key, s)
      ensures forall i :: 1 <= i < |steps| ==> steps[i].DoWake?
    {
      ghost var before := View();
      AddFirst(key, s);
      ghost var es;
      var n;
      n, es, trace := WakeupWaiters(s.concurrency);
      steps := PublishSegment(before, key, s, trace, es);
      trace := [before] + trace;
    }

    method AddFirst(key: nat, s: Settings)
      requires T.Good(View()) && !Waking(View()) && MayPublish(View(), key, s)
      modifies this
      ensures T.Follows(old(View()), DoPublish(key, s), View()) && T.Good(View())
      ensures queue == old(queue) && View().waking == Min(s.concurrency, |queue|)
    {
      ghost var before := View();
      AddEndpoint(key, s);
      AddIsStep(before, key, s);
      T.FollowKeeps(before, DoPublish(key, s), View());
    }

    /** decrementCounterUint32, and the new maximum if the counter went. */
    method DropDistance(d: nat)
      modifies this`counts, this`settings
      ensures counts == Decrement(old(counts), d)
      ensures settings == old(settings).(maxDistance := if d in counts then old(settings).maxDistance else Largest(counts.Keys))
    {
      if d in counts && counts[d] > 1 {
        counts := counts[d := counts[d] - 1];
      } else {
        counts := counts - {d};
        var max: nat, left := 0, counts.Keys;
        while left != {}
          invariant counts == old(counts) - {d} && settings == old(settings)
          invariant left <= counts.Keys && IsLargest(counts.Keys - left, max)
        {
          var k :| k in left;
          LargestAdd(counts.Keys - left, max, k);
          assert counts.Keys - (left - {k}) == (counts.Keys - left) + {k};
          left := left - {k};
          if max < k { max := k; }
        }
        assert counts.Keys - {} == counts.Keys;
        LargestUnique(counts.Keys, max);
        settings := settings.(maxDistance := max);
      }
    }

    /** Close the channels of all waiters behind the first `keep`. */
    method CloseWaiters(keep: nat)
      requires keep <= |queue|
      modifies this
      ensures View() == Truncate(old(View()), keep)
    {
      ghost var used := Truncate(View(), keep).panicked;
      var closed := CloseAll(chans, queue[keep..]);
      rest := rest.(panicked := used);
      chans := closed;
      queue := queue[..keep];
    }

    /** unpublishLocked: the endpoint goes with its share of the limits. With
        endpoints left, the waiters that fit the new queue size stay in line, with
        their channels as they are; the others are let go. */
    method Unpublish(e: nat) returns (ok: bool)
      modifies this
      ensures ok <==> e in old(endpoints)
      ensures !ok ==> View() == old(View())
      ensures ok ==> View() == A.Unpublish(old(View()), e)
      ensures ok && !Waking(old(View())) ==> T.Follows(old(View()), DoUnpublish(e), View())
      ensures ok ==> endpoints == old(endpoints) - {e} && ready == old(ready) - {e}
      ensures ok && endpoints == map[] ==> queue == []
      ensures ok && endpoints != map[] ==> queue == old(queue)[..Min(|old(queue)|, settings.queueSize)]
      ensures ok ==> forall w :: w in old(chans) ==> w in chans && (w !in old(queue)[|queue|..] ==> chans[w] == old(chans)[w])
      ensures ok ==> forall i :: |queue| <= i < |old(queue)| && old(queue)[i] in old(chans) ==> chans[old(queue)[i]] == Dropped
    {
      ok := e in endpoints;
      if !ok { return; }
      RemoveEndpoint(e);
      if endpoints == map[] {
        CloseWaiters(0);
      } else if |queue| > settings.queueSize {
        CloseWaiters(settings.queueSize);
      } else {
        CloseWaiters(|queue|);
      }
    }

    method RemoveEndpoint(e: nat)
      requires e in endpoints
      modifies this
      ensures View() == A.RemoveEndpoint(old(View()), e)
    {
      var s := endpoints[e].settings;
      ready := ready - {e};
      DropDistance(s.maxDistance);
      settings := settings.(concurrency := (settings.concurrency - s.concurrency) % UINT32,
                            queueSize := (settings.queueSize - s.queueSize) % UINT32);
      endpoints := endpoints - {e};
    }
  }

  function Closed(chans: map<nat, Chan>, ws: seq<nat>): map<nat, Chan> {
    map w | w in chans :: if w in ws then Dropped else chans[w]
  }

  /** The loop over the waiters that are let go. */
  method CloseAll(chans: map<nat, Chan>, ws: seq<nat>) returns (r: map<nat, Chan>)
    ensures r == Closed(chans, ws)
  {
    r := chans;
    for i := 0 to |ws|
      invariant r == Closed(chans, ws[..i])
    {
      assert ws[..i + 1] == ws[..i] + [ws[i]];
      if ws[i] in r { r := r[ws[i] := Dropped]; }
    }
    assert ws[..|ws|] == ws;
  }

  lemma LargestAdd(ks: set<nat>, m: nat, k: nat)
    requires IsLargest(ks, m)
    ensures IsLargest(ks + {k}, Max(m, k))
  {
  }

  lemma LargestUnique(ks: set<nat>, m: nat)
    requires IsLargest(ks, m)
    ensures m == Largest(ks)
  {
    var n := Largest(ks);
    if ks != {} { assert m <= n && n <= m; }
  }

  // ----- segments of runs

  ghost predicate Segment(trace: seq<Alloc>, steps: seq<Step>) {
    |trace| == |steps| + 1 && forall i :: 0 <= i < |steps| ==> T.Follows(trace[i], steps[i], trace[i + 1])
  }

  /** One wake-up: the first waiter is served. */
  ghost predicate Woken(a: Alloc, e: nat, b: Alloc) {
    && T.Follows(a, DoWake(e), b) && T.Good(b) && b.waking == a.waking - 1
    && a.queue != [] && b.queue == a.queue[1..] && b.served == a.served + [a.queue[0]]
  }

  lemma WakeIsStep(a: Alloc, e: nat, b: Alloc)
    requires T.Good(a) && Waking(a) && IsLeast(a, e) && a.queue != [] && b == Wake(a, e)
    ensures Woken(a, e, b)
  {
    T.FollowKeeps(a, DoWake(e), b);
  }

  ghost predicate WakeRun(trace: seq<Alloc>, es: seq<nat>) {
    |trace| == |es| + 1 && forall i: nat :: WokenAt(trace, es, i)
  }

  ghost predicate WokenAt(trace: seq<Alloc>, es: seq<nat>, i: nat) {
    i < |es| && i + 1 < |trace| ==> Woken(trace[i], es[i], trace[i + 1])
  }

  lemma WakeRunGrows(trace: seq<Alloc>, es: seq<nat>, e: nat, b: Alloc)
    requires WakeRun(trace, es) && Woken(trace[|es|], e, b)
    ensures WakeRun(trace + [b], es + [e])
  {
    var trace', es' := trace + [b], es + [e];
    forall i: nat ensures WokenAt(trace', es', i) {
      if i < |es| {
        assert trace'[i] == trace[i] && es'[i] == es[i] && trace'[i + 1] == trace[i + 1];
        assert WokenAt(trace, es, i);
      }
    }
  }

  /** The waiters woken up are the first ones of the queue, in order. */
  lemma {:induction false} WakeRunServes(trace: seq<Alloc>, es: seq<nat>, k: nat)
    requires WakeRun(trace, es) && k <= |es|
    ensures k <= |trace[0].queue| && trace[k].queue == trace[0].queue[k..]
    ensures trace[k].served == trace[0].served + trace[0].queue[..k]
  {
    if k > 0 {
      WakeRunServes(trace, es, k - 1);
      assert WokenAt(trace, es, k - 1);
      assert trace[0].queue[..k] == trace[0].queue[..k - 1] + [trace[0].queue[k - 1]];
    }
  }

  function Wakes(es: seq<nat>): seq<Step> { seq(|es|, i requires 0 <= i < |es| => DoWake(es[i])) }

  lemma WakesSegment(trace: seq<Alloc>, es: seq<nat>)
    requires WakeRun(trace, es)
    ensures Segment(trace, Wakes(es))
  {
    forall i | 0 <= i < |es| ensures T.Follows(trace[i], Wakes(es)[i], trace[i + 1]) {
      assert WokenAt(trace, es, i);
    }
  }

  lemma AddIsStep(a: Alloc, key: nat, s: Settings)
    requires !Waking(a) && MayPublish(a, key, s)
    ensures T.Follows(a, DoPublish(key, s), A.AddEndpoint(a, key, s))
  {
  }

  lemma PublishSegment(a: Alloc, key: nat, s: Settings, trace: seq<Alloc>, es: seq<nat>) returns (steps: seq<Step>)
    requires WakeRun(trace, es) && T.Follows(a, DoPublish(key, s), trace[0])
    ensures Segment([a] + trace, steps) && |steps| == 1 + |es| && steps[0] == DoPublish(key, s)
    ensures forall i :: 1 <= i < |steps| ==> steps[i].DoWake?
  {
    WakesSegment(trace, es);
    SegmentPrecedes(a, DoPublish(key, s), trace, Wakes(es));
    steps := [DoPublish(key, s)] + Wakes(es);
  }

  lemma SegmentPrecedes(a: Alloc, st: Step, trace: seq<Alloc>, steps: seq<Step>)
    requires Segment(trace, steps) && T.Follows(a, st, trace[0])
    ensures Segment([a] + trace, [st] + steps)
  {
    var trace', steps' := [a] + trace, [st] + steps;
    forall i | 0 <= i < |steps'| ensures T.Follows(trace'[i], steps'[i], trace'[i + 1]) {
      if i > 0 { assert T.Follows(trace[i - 1], steps[i - 1], trace[i]); }
    }
  }

  /** A run of the allocator goes on with any segment that starts where it ends. */
  lemma SegmentContinues(run: seq<Alloc>, before: seq<Step>, trace: seq<Alloc>, steps: seq<Step>)
    requires T.IsRun(run, before) && Segment(trace, steps) && trace[0] == run[|before|]
    ensures T.IsRun(run + trace[1..], before + steps)
  {
    var run', steps' := run + trace[1..], before + steps;
    forall i | 0 <= i < |steps'| ensures T.Follows(run'[i], steps'[i], run'[i + 1]) {
      if i < |before| {
        assert T.Follows(run[i], before[i], run[i + 1]);
      } else {
        assert T.Follows(trace[i - |before|], steps[i - |before|], trace[i - |before| + 1]);
      }
    }
  }

  lemma {:induction false} RemoveAt(q: seq<nat>, k: nat, w: nat)
    requires k < |q| && q[k] == w && w !in q[..k]
    ensures Without(q, w) == q[..k] + q[k + 1..]
  {
    if k > 0 {
      assert q[0] == q[..k][0] && q[..k][1..] == q[1..][..k - 1];
      RemoveAt(q[1..], k - 1, w);
      assert q[1..][k..] == q[k + 1..];
    }
  }
}

/** Every step of the allocator keeps its invariant, on every run. */
module AllocatorProofs {
  import opened Allocator

  // ----- counting

  lemma SittingAdd(a: Alloc, b: Alloc, w: nat, e: nat)
    requires b.chans == a.chans[w := Served(e)] && (w !in a.chans || a.chans[w] != Served(e))
    ensures |Sitting(b, e)| == |Sitting(a, e)| + 1
  {
    assert Sitting(b, e) == Sitting(a, e) + {w};
  }

  lemma SittingSame(a: Alloc, b: Alloc, e: nat)
    requires forall w :: (w in a.chans && a.chans[w] == Served(e)) <==> (w in b.chans && b.chans[w] == Served(e))
    ensures Sitting(b, e) == Sitting(a, e)
  {
  }

  lemma SittingRemove(a: Alloc, w: nat, e: nat)
    requires w in a.chans && a.chans[w] == Served(e)
    ensures |Sitting(Forget(a, w), e)| == |Sitting(a, e)| - 1
  {
    assert Sitting(Forget(a, w), e) == Sitting(a, e) - {w};
  }

  lemma {:induction false} TotalPick(es: map<nat, Endpoint>, k: nat, f: Field)
    requires k in es
    ensures Total(es, f) == Of(es[k].settings, f) + Total(es - {k}, f)
    decreases |es|
  {
    var j :| j in es && Total(es, f) == Of(es[j].settings, f) + Total(es - {j}, f);
    if j != k {
      TotalPick(es - {j}, k, f);
      TotalPick(es - {k}, j, f);
      assert (es - {j}) - {k} == (es - {k}) - {j};
    }
  }

  lemma {:induction false} TotalSame(es: map<nat, Endpoint>, fs: map<nat, Endpoint>, f: Field)
    requires es.Keys == fs.Keys
    requires forall k :: k in es ==> es[k].settings == fs[k].settings
    ensures Total(es, f) == Total(fs, f)
    decreases |es|
  {
    if es != map[] {
      var k :| k in es;
      TotalPick(es, k, f);
      TotalPick(fs, k, f);
      assert (es - {k}).Keys == es.Keys - {k} && (fs - {k}).Keys == fs.Keys - {k};
      TotalSame(es - {k}, fs - {k}, f);
    } else {
      assert fs == map[];
    }
  }

  // ----- grants

  /** Only the counters of the endpoints change. */
  lemma SameTotals(a: Alloc, b: Alloc)
    requires Totalled(a)
    requires b.endpoints.Keys == a.endpoints.Keys && b.settings == a.settings && b.counts == a.counts
    requires forall k :: k in a.endpoints ==> b.endpoints[k].settings == a.endpoints[k].settings
    ensures Totalled(b)
  {
    TotalSame(a.endpoints, b.endpoints, Concurrency);
    TotalSame(a.endpoints, b.endpoints, QueueSize);
    forall d ensures Reaching(b.endpoints, d) == Reaching(a.endpoints, d) {
    }
  }

  lemma TakeKeeps(a: Alloc, e: nat)
    requires Inv(a) && IsLeast(a, e)
    ensures Inv(Take(a, e))
  {
    SameTotals(a, Take(a, e));
    TakeAccounts(a, e);
  }

  lemma TakeAccounts(a: Alloc, e: nat)
    requires Accounted(a) && IsLeast(a, e)
    ensures Accounted(Take(a, e))
  {
    var b := Take(a, e);
    forall o ensures Sitting(b, o) == Sitting(a, o) { SittingSame(a, b, o); }
  }

  lemma EnqueueLines(a: Alloc)
    requires Lined(a) && Numbered(a) && !QueueFull(a) && a.endpoints != map[]
    ensures Lined(Enqueue(a)) && Numbered(Enqueue(a))
  {
    var b := Enqueue(a);
    forall i | 0 <= i < |a.queue| ensures a.queue[i] < a.nextWaiter {
      assert a.queue[i] in a.queue && IsOpen(a, a.queue[i]);
    }
    forall w ensures w in b.queue <==> IsOpen(b, w) {
      assert w in b.queue <==> w in a.queue || w == a.nextWaiter;
    }
  }

  lemma EnqueueKeeps(a: Alloc)
    requires Inv(a) && !QueueFull(a)
    ensures Inv(Enqueue(a))
  {
    var b := Enqueue(a);
    SameTotals(a, b);
    forall o ensures Sitting(b, o) == Sitting(a, o) { SittingSame(a, b, o); }
    EnqueueLines(a);
  }

  /** A waiter is served: what was counted for `e` elsewhere now sits in its channel. */
  lemma ServeLines(a: Alloc, e: nat)
    requires Lined(a) && Numbered(a) && a.queue != [] && e < a.nextEndpoint
    ensures Lined(Serve(a, e)) && Numbered(Serve(a, e))
  {
    var b, w := Serve(a, e), a.queue[0];
    assert w in a.queue && IsOpen(a, w);
    assert forall i :: 0 <= i < |b.queue| ==> b.queue[i] == a.queue[i + 1];
    forall v ensures v in b.queue <==> IsOpen(b, v) {
      if v in b.queue {
        assert v in a.queue && v != w;
      } else if v != w {
        assert v in a.queue ==> v in b.queue;
      }
    }
  }

  lemma ServeCounts(a: Alloc, e: nat, o: nat)
    requires Lined(a) && a.queue != []
    ensures |Sitting(Serve(a, e), o)| == |Sitting(a, o)| + (if o == e then 1 else 0)
  {
    var w := a.queue[0];
    assert w in a.queue && IsOpen(a, w);
    if o == e { SittingAdd(a, Serve(a, e), w, e); } else { SittingSame(a, Serve(a, e), o); }
  }

  lemma WakeAccounts(a: Alloc, e: nat)
    requires Accounted(a) && Lined(a) && IsLeast(a, e) && a.queue != []
    ensures Accounted(Serve(Grant(a, e), e))
  {
    var g := Grant(a, e);
    forall o ensures |Sitting(Serve(g, e), o)| == |Sitting(a, o)| + (if o == e then 1 else 0) {
      SittingSame(a, g, o);
      ServeCounts(g, e, o);
    }
  }

  /** One turn of the wake-up loop, but for its own counter. */
  lemma ServeGrantKeeps(a: Alloc, e: nat)
    requires Inv(a) && IsLeast(a, e) && a.queue != []
    ensures Inv(Serve(Grant(a, e), e))
  {
    SameTotals(a, Serve(Grant(a, e), e));
    WakeAccounts(a, e);
    assert Lined(Grant(a, e)) && Numbered(Grant(a, e));
    ServeLines(Grant(a, e), e);
  }

  lemma WakingIsFree(a: Alloc, waking: nat)
    requires Inv(a)
    ensures Inv(a.(waking := waking))
  {
    var b := a.(waking := waking);
    SameTotals(a, b);
    forall e ensures Sitting(b, e) == Sitting(a, e) { SittingSame(a, b, e); }
  }

  lemma WakeKeeps(a: Alloc, e: nat)
    requires Inv(a) && IsLeast(a, e) && a.queue != [] && a.waking > 0
    ensures Inv(Wake(a, e))
  {
    ServeGrantKeeps(a, e);
    WakingIsFree(Serve(Grant(a, e), e), a.waking - 1);
  }

  /** Accounted for, except for one grant of `e` that nobody holds any more. */
  ghost predicate OneLoose(a: Alloc, e: nat) {
    && (forall o :: o in a.ready ==> o in a.endpoints)
    && (forall o :: o in a.endpoints ==>
          var p := a.endpoints[o];
          && p.active == a.held[o] + |Sitting(a, o)| + (if o == e then 1 else 0)
          && 0 < p.settings.concurrency < UINT32 && p.settings.queueSize < UINT32
          && p.active <= p.settings.concurrency
          && (o in a.ready <==> p.active < p.settings.concurrency))
  }

  lemma HandOverKeeps(a: Alloc, e: nat)
    requires Numbered(a) && Lined(a) && OneLoose(a, e) && e in a.endpoints && a.queue != []
    ensures Accounted(Serve(a, e))
  {
    forall o ensures |Sitting(Serve(a, e), o)| == |Sitting(a, o)| + (if o == e then 1 else 0) { ServeCounts(a, e, o); }
  }

  lemma PutBackKeeps(a: Alloc, e: nat)
    requires Numbered(a) && Lined(a) && OneLoose(a, e) && e in a.endpoints && a.queue == []
    ensures var b := PutBack(a, e); Accounted(b) && Numbered(b) && Lined(b)
  {
    forall o ensures Sitting(PutBack(a, e), o) == Sitting(a, o) { SittingSame(a, PutBack(a, e), o); }
  }

  lemma GiveBackKeeps(a: Alloc, e: nat)
    requires Numbered(a) && Lined(a) && Totalled(a) && OneLoose(a, e) && e < a.nextEndpoint
    ensures Inv(GiveBack(a, e))
  {
    if e !in a.endpoints {
      LooseGone(a, e);
    } else if a.queue != [] {
      SameTotals(a, Serve(a, e));
      ServeLines(a, e);
      HandOverKeeps(a, e);
    } else {
      SameTotals(a, PutBack(a, e));
      PutBackKeeps(a, e);
    }
  }

  lemma ReleaseLoosens(a: Alloc, e: nat)
    requires Accounted(a) && e in a.held
    ensures OneLoose(a.(held := a.held - multiset{e}), e)
  {
    var b := a.(held := a.held - multiset{e});
    forall o ensures Sitting(b, o) == Sitting(a, o) { SittingSame(a, b, o); }
  }

  lemma ReleaseKeeps(a: Alloc, e: nat)
    requires Inv(a) && e in a.held
    ensures Inv(Release(a, e))
  {
    var b := a.(held := a.held - multiset{e});
    SameTotals(a, b);
    ReleaseLoosens(a, e);
    assert Lined(b) && Numbered(b);
    GiveBackKeeps(b, e);
  }

  // ----- channels

  lemma ForgetCounts(a: Alloc, w: nat, o: nat)
    requires w in a.chans
    ensures |Sitting(Forget(a, w), o)| == |Sitting(a, o)| - (if a.chans[w] == Served(o) then 1 else 0)
  {
    if a.chans[w] == Served(o) { SittingRemove(a, w, o); } else { SittingSame(a, Forget(a, w), o); }
  }

  lemma ForgetKeeps(a: Alloc, w: nat)
    requires Numbered(a) && Lined(a) && Totalled(a) && w in a.chans && a.chans[w] != Open
    ensures var b := Forget(a, w); Numbered(b) && Lined(b) && Totalled(b)
  {
    SameTotals(a, Forget(a, w));
  }

  lemma ForgetAccounts(a: Alloc, w: nat)
    requires Inv(a) && w in a.chans && !a.chans[w].Served?
    ensures Accounted(Forget(a, w))
  {
    forall o ensures |Sitting(Forget(a, w), o)| == |Sitting(a, o)| { ForgetCounts(a, w, o); }
  }

  lemma ForgetLoosens(a: Alloc, w: nat)
    requires Inv(a) && w in a.chans && a.chans[w].Served?
    ensures OneLoose(Forget(a, w), a.chans[w].endpoint)
  {
    forall o ensures |Sitting(Forget(a, w), o)| == |Sitting(a, o)| - (if a.chans[w] == Served(o) then 1 else 0) {
      ForgetCounts(a, w, o);
    }
  }

  /** A loose grant is taken over by a request. */
  lemma HoldAccounts(a: Alloc, e: nat)
    requires OneLoose(a, e)
    ensures Accounted(a.(held := a.held + multiset{e}))
  {
    var b := a.(held := a.held + multiset{e});
    forall o ensures Sitting(b, o) == Sitting(a, o) { SittingSame(a, b, o); }
  }

  lemma HoldKeeps(a: Alloc, e: nat)
    requires Numbered(a) && Lined(a) && Totalled(a) && OneLoose(a, e) && e < a.nextEndpoint
    ensures Inv(a.(held := a.held + multiset{e}))
  {
    var b := a.(held := a.held + multiset{e});
    SameTotals(a, b);
    HoldAccounts(a, e);
    assert Numbered(b);
    assert Lined(b);
  }

  /** A loose grant of an endpoint that is gone needs no owner. */
  lemma LooseGone(a: Alloc, e: nat)
    requires OneLoose(a, e) && e !in a.endpoints
    ensures Accounted(a)
  {
  }

  lemma ReceiveKeeps(a: Alloc, w: nat)
    requires Inv(a) && w in a.chans && a.chans[w] != Open
    ensures Inv(Receive(a, w))
  {
    ForgetKeeps(a, w);
    if a.chans[w].Served? { ReceiveServedKeeps(a, w); } else { ForgetAccounts(a, w); }
  }

  lemma ReceiveServedKeeps(a: Alloc, w: nat)
    requires Inv(a) && w in a.chans && a.chans[w].Served?
    ensures Inv(Receive(a, w))
  {
    var b, e := Forget(a, w), a.chans[w].endpoint;
    ServedIsLoose(a, w);
    if e in a.endpoints {
      HoldKeeps(b, e);
      assert Receive(a, w) == b.(held := b.held + multiset{e});
    } else {
      LooseGone(b, e);
      assert Receive(a, w) == b;
    }
  }

  lemma ServedIsLoose(a: Alloc, w: nat)
    requires Inv(a) && w in a.chans && a.chans[w].Served?
    ensures var b, e := Forget(a, w), a.chans[w].endpoint;
            Numbered(b) && Lined(b) && Totalled(b) && OneLoose(b, e) && e < b.nextEndpoint
  {
    ForgetKeeps(a, w);
    ForgetLoosens(a, w);
  }

  lemma {:induction false} WithoutIsRest(q: seq<nat>, w: nat)
    requires Increasing(q) && w in q
    ensures var r := Without(q, w);
            Increasing(r) && |r| == |q| - 1 && forall v :: v in r <==> v in q && v != w
  {
    if q[0] == w {
      assert forall v :: v in q <==> v == w || v in q[1..];
    } else {
      assert w in q[1..];
      WithoutIsRest(q[1..], w);
      var r := Without(q[1..], w);
      forall i | 0 <= i < |r| ensures q[0] < r[i] {
        assert r[i] in q[1..];
      }
      assert forall v :: v in q <==> v == q[0] || v in q[1..];
    }
  }

  lemma LeaveLines(a: Alloc, w: nat)
    requires Lined(a) && Numbered(a) && w in a.chans && w in a.queue
    ensures var b := Forget(a.(queue := Without(a.queue, w)), w); Lined(b) && Numbered(b)
  {
    WithoutIsRest(a.queue, w);
    var b := Forget(a.(queue := Without(a.queue, w)), w);
    forall i, j | 0 <= i < |b.served| && 0 <= j < |b.queue| ensures b.served[i] < b.queue[j] {
      assert b.queue[j] in a.queue;
    }
  }

  lemma LeaveKeeps(a: Alloc, w: nat)
    requires Inv(a) && w in a.chans && w in a.queue
    ensures Inv(Forget(a.(queue := Without(a.queue, w)), w))
  {
    LeaveLines(a, w);
    var b := Forget(a.(queue := Without(a.queue, w)), w);
    SameTotals(a, b);
    assert IsOpen(a, w);
    ForgetAccounts(a, w);
    forall o ensures Sitting(b, o) == Sitting(Forget(a, w), o) { SittingSame(Forget(a, w), b, o); }
  }

  lemma CancelKeeps(a: Alloc, w: nat)
    requires Inv(a) && w in a.chans
    ensures Inv(Cancel(a, w))
  {
    if w in a.queue {
      LeaveKeeps(a, w);
    } else {
      assert a.chans[w] != Open;
      ForgetKeeps(a, w);
      if a.chans[w].Served? {
        ForgetLoosens(a, w);
        GiveBackKeeps(Forget(a, w), a.chans[w].endpoint);
      } else {
        ForgetAccounts(a, w);
      }
    }
  }

  // ----- publishing

  lemma AddSums(a: Alloc, key: nat, s: Settings)
    requires Summed(a) && Numbered(a) && MayPublish(a, key, s)
    ensures Summed(AddEndpoint(a, key, s))
    ensures AddEndpoint(a, key, s).settings.queueSize >= a.settings.queueSize
  {
    var b, e := AddEndpoint(a, key, s), a.nextEndpoint;
    assert e !in a.endpoints && b.endpoints - {e} == a.endpoints;
    TotalPick(b.endpoints, e, Concurrency);
    TotalPick(b.endpoints, e, QueueSize);
  }

  lemma AddReaches(a: Alloc, key: nat, s: Settings, d: nat)
    requires Numbered(a)
    ensures var b := AddEndpoint(a, key, s);
            Reaching(b.endpoints, d) == Reaching(a.endpoints, d) + (if d == s.maxDistance then {a.nextEndpoint} else {})
    ensures a.nextEndpoint !in Reaching(a.endpoints, d)
  {
  }

  lemma NoneReached(a: Alloc)
    requires Ranged(a)
    ensures a.endpoints == map[] <==> a.counts == map[]
  {
    if a.endpoints != map[] {
      var o :| o in a.endpoints;
      assert o in Reaching(a.endpoints, a.endpoints[o].settings.maxDistance);
    } else {
      forall d ensures d !in a.counts { assert Reaching(a.endpoints, d) == {}; }
    }
  }

  lemma AddTallies(a: Alloc, key: nat, s: Settings, d: nat)
    requires Ranged(a) && Numbered(a)
    ensures var b := AddEndpoint(a, key, s);
            && (d in b.counts <==> Reaching(b.endpoints, d) != {})
            && (d in b.counts ==> b.counts[d] == |Reaching(b.endpoints, d)|)
  {
    AddReaches(a, key, s, d);
    var r, e := Reaching(a.endpoints, d), a.nextEndpoint;
    assert |r + {e}| == |r| + 1;
    assert d !in a.counts ==> r == {};
  }

  lemma AddRanges(a: Alloc, key: nat, s: Settings)
    requires Ranged(a) && Numbered(a)
    ensures Ranged(AddEndpoint(a, key, s))
  {
    var b := AddEndpoint(a, key, s);
    forall d
      ensures d in b.counts <==> Reaching(b.endpoints, d) != {}
      ensures d in b.counts ==> b.counts[d] == |Reaching(b.endpoints, d)|
    {
      AddTallies(a, key, s, d);
    }
    AddMaximum(a, key, s);
  }

  lemma AddMaximum(a: Alloc, key: nat, s: Settings)
    requires Ranged(a)
    ensures IsLargest(AddEndpoint(a, key, s).counts.Keys, AddEndpoint(a, key, s).settings.maxDistance)
  {
    NoneReached(a);
    assert AddEndpoint(a, key, s).counts.Keys == a.counts.Keys + {s.maxDistance};
    if a.endpoints != map[] {
      var d :| d in a.counts;
      assert IsLargest(a.counts.Keys, a.settings.maxDistance);
    }
  }

  lemma AddAccounts(a: Alloc, key: nat, s: Settings)
    requires Accounted(a) && Numbered(a) && MayPublish(a, key, s)
    ensures Accounted(AddEndpoint(a, key, s)) && Numbered(AddEndpoint(a, key, s))
  {
    var b, e := AddEndpoint(a, key, s), a.nextEndpoint;
    forall o ensures Sitting(b, o) == Sitting(a, o) { SittingSame(a, b, o); }
    assert e !in a.held;
    assert Sitting(a, e) == {};
  }

  lemma AddKeeps(a: Alloc, key: nat, s: Settings)
    requires Inv(a) && MayPublish(a, key, s)
    ensures Inv(AddEndpoint(a, key, s))
  {
    AddSums(a, key, s);
    AddRanges(a, key, s);
    AddAccounts(a, key, s);
  }

  // ----- unpublishing

  lemma RemoveSums(a: Alloc, e: nat)
    requires Summed(a) && e in a.endpoints
    ensures Summed(RemoveEndpoint(a, e))
  {
    TotalPick(a.endpoints, e, Concurrency);
    TotalPick(a.endpoints, e, QueueSize);
  }

  lemma RemoveReaches(es: map<nat, Endpoint>, e: nat, d: nat)
    requires e in es
    ensures Reaching(es - {e}, d) == Reaching(es, d) - {e}
    ensures e in Reaching(es, d) <==> d == es[e].settings.maxDistance
  {
  }

  /** The counter of one distance is the number of endpoints that reach it. */
  ghost predicate Tallied(counts: map<nat, nat>, es: map<nat, Endpoint>, d: nat) {
    (d in counts <==> Reaching(es, d) != {}) && (d in counts ==> counts[d] == |Reaching(es, d)|)
  }

  lemma RemoveTallies(counts: map<nat, nat>, es: map<nat, Endpoint>, e: nat, d: nat)
    requires e in es && Tallied(counts, es, d)
    ensures Tallied(Decrement(counts, es[e].settings.maxDistance), es - {e}, d)
  {
    RemoveReaches(es, e, d);
    var r := Reaching(es, d);
    if e in r {
      assert |r - {e}| == |r| - 1;
      assert r - {e} == {} <==> |r - {e}| == 0;
    } else {
      assert r - {e} == r;
    }
  }

  lemma RemoveRanges(a: Alloc, e: nat)
    requires Ranged(a) && e in a.endpoints
    ensures Ranged(RemoveEndpoint(a, e))
  {
    var b, m := RemoveEndpoint(a, e), a.endpoints[e].settings.maxDistance;
    forall d
      ensures d in b.counts <==> Reaching(b.endpoints, d) != {}
      ensures d in b.counts ==> b.counts[d] == |Reaching(b.endpoints, d)|
    {
      assert Tallied(a.counts, a.endpoints, d);
      RemoveTallies(a.counts, a.endpoints, e, d);
      assert Tallied(b.counts, b.endpoints, d);
    }
    RemoveReaches(a.endpoints, e, m);
    assert m in b.counts ==> b.counts.Keys == a.counts.Keys;
  }

  lemma RemoveAccounts(a: Alloc, e: nat)
    requires Accounted(a) && Numbered(a) && e in a.endpoints
    ensures Accounted(RemoveEndpoint(a, e)) && Numbered(RemoveEndpoint(a, e))
  {
    var b := RemoveEndpoint(a, e);
    forall o ensures Sitting(b, o) == Sitting(a, o) { SittingSame(a, b, o); }
  }

  /** `a` after an endpoint went away: the queue may be too long now. */
  ghost predicate Overdue(a: Alloc) {
    && !a.panicked
    && Increasing(a.queue) && Increasing(a.served)
    && (forall w :: w in a.queue <==> IsOpen(a, w))
    && (forall i, j :: 0 <= i < |a.served| && 0 <= j < |a.queue| ==> a.served[i] < a.queue[j])
    && (forall i :: 0 <= i < |a.served| ==> a.served[i] < a.nextWaiter)
  }

  lemma TruncateOpens(a: Alloc, keep: nat)
    requires Increasing(a.queue) && (forall w :: w in a.queue <==> IsOpen(a, w)) && keep <= |a.queue|
    ensures var c := Truncate(a, keep);
            (forall w :: w in c.queue <==> IsOpen(c, w)) && c.panicked == a.panicked
  {
    var c := Truncate(a, keep);
    forall i | 0 <= i < |a.queue| ensures IsOpen(a, a.queue[i]) {
      assert a.queue[i] in a.queue;
    }
    forall w ensures w in c.queue <==> IsOpen(c, w) {
      assert w in a.queue <==> w in a.queue[..keep] || w in a.queue[keep..];
    }
  }

  lemma TruncateLines(a: Alloc, keep: nat)
    requires Overdue(a) && keep <= |a.queue|
    requires keep <= a.settings.queueSize && (a.endpoints == map[] ==> keep == 0)
    ensures Lined(Truncate(a, keep))
  {
    TruncateOpens(a, keep);
  }

  lemma TruncateAccounts(a: Alloc, keep: nat)
    requires Accounted(a) && Numbered(a) && Overdue(a) && keep <= |a.queue|
    ensures Accounted(Truncate(a, keep)) && Numbered(Truncate(a, keep))
  {
    var c := Truncate(a, keep);
    forall w | w in a.queue[keep..] ensures w in a.chans && a.chans[w] == Open {
      assert w in a.queue && IsOpen(a, w);
    }
    forall o ensures Sitting(c, o) == Sitting(a, o) { SittingSame(a, c, o); }
  }

  lemma UnpublishKeeps(a: Alloc, e: nat)
    requires Inv(a) && e in a.endpoints
    ensures Inv(Unpublish(a, e))
  {
    var b := RemoveEndpoint(a, e);
    RemoveSums(a, e);
    RemoveRanges(a, e);
    RemoveAccounts(a, e);
    assert Overdue(b);
    TruncateLines(b, Room(b));
    TruncateAccounts(b, Room(b));
    SameTotals(b, Truncate(b, Room(b)));
  }

  // ----- runs

  lemma StepKeeps(a: Alloc, st: Step)
    requires Inv(a) && Enabled(a, st)
    ensures Inv(Next(a, st))
  {
    match st
    case DoTake(e) => TakeKeeps(a, e);
    case DoEnqueue => EnqueueKeeps(a);
    case DoReceive(w) => ReceiveKeeps(a, w);
    case DoRelease(e) => ReleaseKeeps(a, e);
    case DoCancel(w) => CancelKeeps(a, w);
    case DoPublish(key, s) => AddKeeps(a, key, s);
    case DoWake(e) => WakeKeeps(a, e);
    case DoUnpublish(e) => UnpublishKeeps(a, e);
  }
}

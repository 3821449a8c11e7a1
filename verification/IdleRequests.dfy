/** The idle wait of AllocatorTheorems.dfy as requests bring it about. */
module IdleRequests {
  import opened Allocator
  import opened Requests
  import Retry

  /** One publication and no remotes. */
  function Server(a: Alloc, requests: map<nat, Request>): State { State(map[0 := a], map[], map[], 0, requests) }

  /** Room for one request, and for one more in the queue. */
  function Single(): Settings { Settings(0, 0, 1, 1) }

  /** The publication when its endpoint is free, and when it is taken. */
  function Free(): Alloc { AddEndpoint(Empty(), 0, Single()) }

  function Taken(): Alloc { Take(Free(), 0) }

  lemma AllocSteps()
    ensures Enabled(Empty(), DoPublish(0, Single())) && Next(Empty(), DoPublish(0, Single())) == Free()
    ensures Free().endpoints != map[] && Enabled(Free(), DoTake(0)) && Next(Free(), DoTake(0)) == Taken()
    ensures Taken().endpoints != map[] && Taken().ready == {} && Enabled(Taken(), DoRelease(0))
    ensures Release(Taken(), 0) == Free()
    ensures !QueueFull(Free()) && Enabled(Free(), DoEnqueue)
    ensures Enqueue(Free()).ready == {0} && Enqueue(Free()).queue == [0] && Enqueue(Free()).endpoints != map[]
    ensures Enabled(Enqueue(Free()), DoTake(0))
    ensures Take(Enqueue(Free()), 0).queue == [0] && Take(Enqueue(Free()), 0).chans == map[0 := Open]
  {
    assert IsLeast(Free(), 0);
    assert Release(Taken(), 0).endpoints == Free().endpoints;
    assert 0 in Enqueue(Free()).ready && IsLeast(Enqueue(Free()), 0);
  }

  /** A piece of a run of requests, from one state to another. */
  ghost predicate Leads(s: State, events: seq<Event>, s': State) {
    exists run: seq<State> :: Chain(run, events) && run[0] == s && run[|events|] == s'
  }

  ghost predicate Chain(run: seq<State>, events: seq<Event>) {
    |run| == |events| + 1 && forall i :: 0 <= i < |events| ==> Retry.Follows(run[i], events[i], run[i + 1])
  }

  lemma LeadsOne(s: State, ev: Event, s': State)
    requires Retry.Follows(s, ev, s')
    ensures Leads(s, [ev], s')
  {
    var run := [s, s'];
    assert Chain(run, [ev]) && run[0] == s && run[1] == s';
  }

  lemma LeadsOn(s: State, events: seq<Event>, t: State, events': seq<Event>, u: State)
    requires Leads(s, events, t) && Leads(t, events', u)
    ensures Leads(s, events + events', u)
  {
    var run :| Chain(run, events) && run[0] == s && run[|events|] == t;
    var run' :| Chain(run', events') && run'[0] == t && run'[|events'|] == u;
    var all, evs := run + run'[1..], events + events';
    forall i | 0 <= i < |evs| ensures Retry.Follows(all[i], evs[i], all[i + 1]) {
      if i >= |events| { assert all[i] == run'[i - |events|] && all[i + 1] == run'[i + 1 - |events|]; }
    }
    assert Chain(all, evs) && all[0] == s && all[|evs|] == u;
  }

  lemma Publishes()
    ensures Leads(Start(), [Publish(0, 0, Single())], Server(Free(), map[]))
  {
    AllocSteps();
    LeadsOne(Start(), Publish(0, 0, Single()), Server(Free(), map[]));
  }

  lemma Begins(a: Alloc, rs: map<nat, Request>, q: nat) returns (r: Request)
    requires q !in rs
    ensures r.phase == Looping && Leads(Server(a, rs), [Begin(q)], Server(a, rs[q := r]))
  {
    var s := Server(a, rs);
    r := Request(Looping, 0, |Registered(s)|, 0, Registered(s));
    LeadsOne(s, Begin(q), Server(a, rs[q := r]));
  }

  /** A new request looks at the publication. */
  lemma Looks(a: Alloc, rs: map<nat, Request>, q: nat) returns (r: Request)
    requires q !in rs && a.endpoints != map[]
    ensures r.phase == Looking(0) && Leads(Server(a, rs), [Begin(q), PickPub(q, 0)], Server(a, rs[q := r]))
  {
    var b := Begins(a, rs, q);
    r := b.(phase := Looking(0));
    var t, u := Server(a, rs[q := b]), Server(a, rs[q := r]);
    assert rs[q := b][q := r] == rs[q := r];
    LeadsOne(t, PickPub(q, 0), u);
    LeadsOn(Server(a, rs), [Begin(q)], t, [PickPub(q, 0)], u);
    assert [Begin(q)] + [PickPub(q, 0)] == [Begin(q), PickPub(q, 0)];
  }

  lemma Takes(a: Alloc, rs: map<nat, Request>, q: nat) returns (r: Request)
    requires q !in rs && a.endpoints != map[] && Enabled(a, DoTake(0))
    ensures r.phase == Opening(0, 0)
    ensures Leads(Server(a, rs), [Begin(q), PickPub(q, 0), TakeReady(q, 0)], Server(Take(a, 0), rs[q := r]))
  {
    var l := Looks(a, rs, q);
    r := l.(phase := Opening(0, 0));
    TakesReady(a, rs[q := l], q);
    assert rs[q := l][q := r] == rs[q := r];
    LeadsOn(Server(a, rs), [Begin(q), PickPub(q, 0)], Server(a, rs[q := l]), [TakeReady(q, 0)], Server(Take(a, 0), rs[q := r]));
    assert [Begin(q), PickPub(q, 0)] + [TakeReady(q, 0)] == [Begin(q), PickPub(q, 0), TakeReady(q, 0)];
  }

  lemma TakesReady(a: Alloc, rs: map<nat, Request>, q: nat)
    requires q in rs && rs[q].phase == Looking(0) && Enabled(a, DoTake(0))
    ensures Leads(Server(a, rs), [TakeReady(q, 0)], Server(Take(a, 0), rs[q := rs[q].(phase := Opening(0, 0))]))
  {
    var s' := Server(Take(a, 0), rs[q := rs[q].(phase := Opening(0, 0))]);
    assert Server(a, rs).pubs[0 := Take(a, 0)] == s'.pubs;
    LeadsOne(Server(a, rs), TakeReady(q, 0), s');
  }

  lemma Misses(a: Alloc, rs: map<nat, Request>, q: nat) returns (r: Request)
    requires q !in rs && a.endpoints != map[] && a.ready == {}
    ensures r.phase == Unlucky(0)
    ensures Leads(Server(a, rs), [Begin(q), PickPub(q, 0), FindNone(q)], Server(a, rs[q := r]))
  {
    var l := Looks(a, rs, q);
    r := l.(phase := Unlucky(0));
    assert rs[q := l][q := r] == rs[q := r];
    LeadsOne(Server(a, rs[q := l]), FindNone(q), Server(a, rs[q := r]));
    LeadsOn(Server(a, rs), [Begin(q), PickPub(q, 0)], Server(a, rs[q := l]), [FindNone(q)], Server(a, rs[q := r]));
    assert [Begin(q), PickPub(q, 0)] + [FindNone(q)] == [Begin(q), PickPub(q, 0), FindNone(q)];
  }

  /** The stream is opened and served, and the endpoint given back. */
  lemma Finishes(a: Alloc, rs: map<nat, Request>, q: nat) returns (r: Request)
    requires q in rs && rs[q].phase == Opening(0, 0) && Enabled(a, DoRelease(0))
    ensures Leads(Server(a, rs), [Opened(q), GiveUp(q)], Server(Release(a, 0), rs[q := r]))
  {
    var b := rs[q].(phase := Serving(0, 0));
    r := b.(phase := Over(Done));
    var t, u := Server(a, rs[q := b]), Server(Release(a, 0), rs[q := r]);
    LeadsOne(Server(a, rs), Opened(q), t);
    assert rs[q := b][q := r] == rs[q := r] && t.pubs[0 := Release(a, 0)] == u.pubs;
    LeadsOne(t, GiveUp(q), u);
    LeadsOn(Server(a, rs), [Opened(q)], t, [GiveUp(q)], u);
    assert [Opened(q)] + [GiveUp(q)] == [Opened(q), GiveUp(q)];
  }

  lemma Joins(a: Alloc, rs: map<nat, Request>, q: nat) returns (r: Request)
    requires q in rs && rs[q].phase == Unlucky(0) && !QueueFull(a) && Enabled(a, DoEnqueue)
    ensures r.phase == Waiting(0, a.nextWaiter) && Leads(Server(a, rs), [Join(q)], Server(Enqueue(a), rs[q := r]))
  {
    r := rs[q].(phase := Waiting(0, a.nextWaiter));
    assert Server(a, rs).pubs[0 := Enqueue(a)] == map[0 := Enqueue(a)];
    LeadsOne(Server(a, rs), Join(q), Server(Enqueue(a), rs[q := r]));
  }

  function PubOf(s: State): Alloc { if 0 in s.pubs then s.pubs[0] else Empty() }

  /** On a run of requests that do nothing but what handleRequestRLocked does, the
      second one looks while the first has the only endpoint. */
  lemma FoundNone() returns (looked: State)
    ensures looked.pubs == map[0 := Taken()] && looked.requests.Keys == {0, 1}
    ensures PhaseOf(looked, 0) == Opening(0, 0) && PhaseOf(looked, 1) == Unlucky(0) && looked == Server(Taken(), looked.requests)
    ensures Leads(Start(), [Publish(0, 0, Single())] + [Begin(0), PickPub(0, 0), TakeReady(0, 0)]
                           + [Begin(1), PickPub(1, 0), FindNone(1)], looked)
  {
    AllocSteps();
    Publishes();
    var r0 := Takes(Free(), map[], 0);
    var r1 := Misses(Taken(), map[0 := r0], 1);
    looked := Server(Taken(), map[0 := r0][1 := r1]);
    assert map[][0 := r0] == map[0 := r0];
    var taken := Server(Taken(), map[0 := r0]);
    LeadsOn(Start(), [Publish(0, 0, Single())], Server(Free(), map[]), [Begin(0), PickPub(0, 0), TakeReady(0, 0)], taken);
    LeadsOn(Start(), [Publish(0, 0, Single())] + [Begin(0), PickPub(0, 0), TakeReady(0, 0)], taken,
            [Begin(1), PickPub(1, 0), FindNone(1)], looked);
  }

  /** The first request gives the endpoint back before the second joins the queue,
      so that the second waits although an endpoint is ready; and it waits on
      while a third one takes the endpoint past it. */
  lemma WaiterIsPassed() returns (looked: State, waiting: State, passed: State)
    ensures Leads(Start(), [Publish(0, 0, Single())] + [Begin(0), PickPub(0, 0), TakeReady(0, 0)]
                           + [Begin(1), PickPub(1, 0), FindNone(1)], looked)
    ensures PhaseOf(looked, 1) == Unlucky(0) && PubOf(looked).ready == {}
    ensures Leads(looked, [Opened(0), GiveUp(0)] + [Join(1)], waiting)
    ensures PhaseOf(waiting, 1) == Waiting(0, 0) && PubOf(waiting).ready == {0} && PubOf(waiting).queue == [0]
    ensures Leads(waiting, [Begin(2), PickPub(2, 0), TakeReady(2, 0)], passed)
    ensures PhaseOf(passed, 1) == Waiting(0, 0) && PhaseOf(passed, 2) == Opening(0, 0) && PubOf(passed).chans == map[0 := Open]
  {
    AllocSteps();
    looked := FoundNone();
    var rs := looked.requests;
    var r0 := Finishes(Taken(), rs, 0);
    var done := Server(Free(), rs[0 := r0]);
    var r1 := Joins(Free(), rs[0 := r0], 1);
    waiting := Server(Enqueue(Free()), rs[0 := r0][1 := r1]);
    LeadsOn(looked, [Opened(0), GiveUp(0)], done, [Join(1)], waiting);
    var r2 := Takes(Enqueue(Free()), waiting.requests, 2);
    passed := Server(Take(Enqueue(Free()), 0), waiting.requests[2 := r2]);
  }
}

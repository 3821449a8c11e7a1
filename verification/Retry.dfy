/** Why a request that is told to retry does not retry forever: every retry is
    paid for by a target that was registered during the attempt and is gone. */
module Retry {
  import opened Allocator
  import opened Requests
  import T = AllocatorTheorems

  // ----- one publication

  /** What a request may rely on while others use the publication: removed
      endpoints stay removed, and a waiter is only ever sent one that is
      registered at that moment. */
  ghost predicate Goes(a: Alloc, b: Alloc) {
    && a.nextEndpoint <= b.nextEndpoint && a.nextWaiter <= b.nextWaiter
    && (forall e :: e in b.endpoints && e < a.nextEndpoint ==> e in a.endpoints)
    && (forall w :: w in b.chans && w < a.nextWaiter && b.chans[w].Served? ==>
          (w in a.chans && a.chans[w] == b.chans[w]) || b.chans[w].endpoint in a.endpoints)
  }

  lemma GiveBackGoes(a: Alloc, e: nat)
    ensures Goes(a, GiveBack(a, e)) && GiveBack(a, e).endpoints.Keys == a.endpoints.Keys
    ensures GiveBack(a, e).nextEndpoint == a.nextEndpoint
  {
  }

  lemma UnpublishGoes(a: Alloc, e: nat)
    requires e in a.endpoints
    ensures Goes(a, Allocator.Unpublish(a, e)) && Allocator.Unpublish(a, e).endpoints.Keys == a.endpoints.Keys - {e}
    ensures Allocator.Unpublish(a, e).nextEndpoint == a.nextEndpoint
  {
  }

  lemma StepGoes(a: Alloc, st: Step)
    requires Enabled(a, st)
    ensures Goes(a, Next(a, st))
    ensures !st.DoPublish? ==> Next(a, st).endpoints.Keys <= a.endpoints.Keys && Next(a, st).nextEndpoint == a.nextEndpoint
    ensures st.DoPublish? ==> Next(a, st).endpoints.Keys == a.endpoints.Keys + {a.nextEndpoint}
  {
    match st
    case DoRelease(e) => GiveBackGoes(a.(held := a.held - multiset{e}), e);
    case DoCancel(w) =>
      if w !in a.queue && a.chans[w].Served? { GiveBackGoes(Forget(a, w), a.chans[w].endpoint); }
    case DoUnpublish(e) => UnpublishGoes(a, e);
    case _ =>
  }

  // ----- the requests around it

  lemma RegisteredMeans(s: State)
    ensures forall p, e :: Local(p, e) in Registered(s) <==> p in s.pubs && e in s.pubs[p].endpoints
    ensures forall r :: Far(r) in Registered(s) <==> r in s.remotes
  {
  }

  /** How the rest of the server may move on under a request. */
  ghost predicate Around(s: State, s': State) {
    && s.nextRemote <= s'.nextRemote
    && forall p :: p in s.pubs ==> p in s'.pubs && Goes(s.pubs[p], s'.pubs[p])
  }

  /** A request that does not act itself keeps what it has met. */
  lemma MetStays(s: State, s': State, r: Request, r': Request)
    requires Around(s, s') && Met(s, r) && Registered(s) <= r.seen
    requires r'.phase == r.phase && r.seen <= r'.seen
    ensures Met(s', r')
  {
    RegisteredMeans(s);
    match r.phase
    case Looking(p) => SomeStays(r.seen, r'.seen, p);
    case Unlucky(p) => SomeStays(r.seen, r'.seen, p);
    case Waiting(p, w) =>
      SomeStays(r.seen, r'.seen, p);
      SentStays(s.pubs[p], s'.pubs[p], p, w, r.seen, r'.seen);
    case _ =>
  }

  lemma SomeStays(seen: set<Target>, seen': set<Target>, p: nat)
    requires SeenSome(seen, p) && seen <= seen'
    ensures SeenSome(seen', p)
  {
    var e :| Local(p, e) in seen;
    assert Local(p, e) in seen';
  }

  lemma SentStays(a: Alloc, b: Alloc, p: nat, w: nat, seen: set<Target>, seen': set<Target>)
    requires Goes(a, b) && Sent(a, p, w, seen) && seen <= seen'
    requires forall e :: e in a.endpoints ==> Local(p, e) in seen
    ensures Sent(b, p, w, seen')
  {
  }

  // ----- a step of one publication

  lemma WithPubAround(s: State, p: nat, st: Step)
    requires p in s.pubs && Enabled(s.pubs[p], st)
    ensures Around(s, WithPub(s, p, st))
  {
    StepGoes(s.pubs[p], st);
    forall o | o in s.pubs && o != p ensures Goes(s.pubs[o], WithPub(s, p, st).pubs[o]) { }
  }

  lemma WithPubRegistered(s: State, p: nat, st: Step)
    requires p in s.pubs && Enabled(s.pubs[p], st) && !st.DoPublish?
    ensures Registered(WithPub(s, p, st)) <= Registered(s)
  {
    StepGoes(s.pubs[p], st);
    RegisteredMeans(s);
    RegisteredMeans(WithPub(s, p, st));
    forall x | x in Registered(WithPub(s, p, st)) ensures x in Registered(s) {
      match x
      case Local(o, e) => assert o == p ==> e in s.pubs[p].endpoints.Keys;
      case Far(_) =>
    }
  }

  lemma WithPubGood(s: State, p: nat, st: Step)
    requires PubsOk(s) && p in s.pubs && Enabled(s.pubs[p], st)
    ensures PubsOk(WithPub(s, p, st))
  {
    var s' := WithPub(s, p, st);
    assert PubOk(s, p);
    NextGood(s.pubs[p], st);
    forall o: nat ensures PubOk(s', o) { assert PubOk(s, o); }
  }

  /** The requests when something happens that registers nothing. */
  lemma AllStay(s: State, s': State)
    requires RequestsOk(s) && Around(s, s') && Registered(s') <= Registered(s) && s'.requests == s.requests
    ensures RequestsOk(s')
  {
    var reg := Registered(s');
    forall q: nat ensures RequestOk(s', reg, q) {
      assert RequestOk(s, Registered(s), q);
      if q in s.requests { MetStays(s, s', s.requests[q], s.requests[q]); }
    }
  }

  lemma WithPubKeeps(s: State, p: nat, st: Step)
    requires Sound(s) && p in s.pubs && Enabled(s.pubs[p], st) && !st.DoPublish?
    ensures Sound(WithPub(s, p, st))
  {
    WithPubAround(s, p, st);
    WithPubRegistered(s, p, st);
    WithPubGood(s, p, st);
    AllStay(s, WithPub(s, p, st));
    SameRemotes(s, WithPub(s, p, st));
  }

  lemma SameRemotes(s: State, s': State)
    requires RemotesOk(s) && s'.remotes == s.remotes && s'.clients == s.clients && s.nextRemote <= s'.nextRemote
    ensures RemotesOk(s')
  {
    forall r: nat ensures RemoteOk(s', r) { assert RemoteOk(s, r); }
  }

  lemma SamePubs(s: State, s': State)
    requires PubsOk(s) && s'.pubs == s.pubs
    ensures PubsOk(s')
  {
    forall p: nat ensures PubOk(s', p) { assert PubOk(s, p); }
  }

  // ----- peers

  lemma FewerRemotes(s: State, s': State)
    requires Sound(s) && s'.pubs == s.pubs && s'.requests == s.requests && s'.nextRemote == s.nextRemote
    requires s'.remotes.Keys <= s.remotes.Keys && RemotesOk(s')
    ensures Sound(s')
  {
    RegisteredMeans(s);
    RegisteredMeans(s');
    forall x | x in Registered(s') ensures x in Registered(s) {
      match x
      case Local(_, _) =>
      case Far(r) => assert r in s.remotes.Keys;
    }
    AllStay(s, s');
    SamePubs(s, s');
  }

  /** removeLocked really removes: a registered remote belongs to the current
      client of its peer. */
  lemma RemovedIsGone(s: State, r: nat)
    requires Sound(s)
    ensures Sound(Removed(s, r)) && r !in Removed(s, r).remotes
  {
    var s' := Removed(s, r);
    assert RemoteOk(s, r);
    forall x: nat ensures RemoteOk(s', x) { assert RemoteOk(s, x); }
    FewerRemotes(s, s');
  }

  lemma DetachKeeps(s: State, k: nat)
    requires Sound(s) && CanDo(s, Detach(k))
    ensures Sound(Do(s, Detach(k)))
  {
    var s' := Do(s, Detach(k));
    forall r: nat ensures RemoteOk(s', r) { assert RemoteOk(s, r); }
    FewerRemotes(s, s');
  }

  lemma AttachKeeps(s: State, k: nat, c: nat)
    requires Sound(s) && CanDo(s, Attach(k, c))
    ensures Sound(Do(s, Attach(k, c)))
  {
    var s' := Do(s, Attach(k, c));
    forall r: nat ensures RemoteOk(s', r) { assert RemoteOk(s, r); }
    FewerRemotes(s, s');
  }

  // ----- registrations

  lemma RegisterKeeps(s: State, s': State, x: Target)
    requires RequestsOk(s) && Around(s, s') && s'.requests == s.requests && Registered(s') == Registered(s) + {x}
    ensures RequestsOk(Noted(s', x))
  {
    var t := Noted(s', x);
    var reg := Registered(t);
    assert reg == Registered(s');
    forall q: nat ensures RequestOk(t, reg, q) {
      assert RequestOk(s, Registered(s), q);
      if q in s.requests {
        var r := s.requests[q];
        assert |r.seen + {x}| <= |r.seen| + 1;
        MetStays(s, t, r, Note(r, x));
      }
    }
  }

  lemma RemoteRegisters(s: State, k: nat, c: nat, s': State)
    requires s' == s.(remotes := s.remotes[s.nextRemote := Remote(k, c)], nextRemote := s.nextRemote + 1)
    ensures Around(s, s') && Registered(s') == Registered(s) + {Far(s.nextRemote)}
  {
    RegisteredMeans(s);
    RegisteredMeans(s');
    forall x ensures x in Registered(s') <==> x in Registered(s) + {Far(s.nextRemote)} {
      match x
      case Local(_, _) =>
      case Far(_) =>
    }
  }

  lemma AddRemoteKeeps(s: State, k: nat)
    requires Sound(s) && k in s.clients
    ensures Sound(Noted(s.(remotes := s.remotes[s.nextRemote := Remote(k, s.clients[k])], nextRemote := s.nextRemote + 1),
                        Far(s.nextRemote)))
  {
    var s' := s.(remotes := s.remotes[s.nextRemote := Remote(k, s.clients[k])], nextRemote := s.nextRemote + 1);
    RemoteRegisters(s, k, s.clients[k], s');
    RegisterKeeps(s, s', Far(s.nextRemote));
    var t := Noted(s', Far(s.nextRemote));
    SamePubs(s, t);
    forall r: nat ensures RemoteOk(t, r) { assert RemoteOk(s, r); }
  }

  lemma PublishRegisters(s: State, p: nat, key: nat, t: Settings, a: Alloc, s': State)
    requires a == (if p in s.pubs then s.pubs[p] else Empty()) && Enabled(a, DoPublish(key, t))
    requires s' == s.(pubs := s.pubs[p := Next(a, DoPublish(key, t))])
    ensures Around(s, s') && Registered(s') == Registered(s) + {Local(p, a.nextEndpoint)}
  {
    StepGoes(a, DoPublish(key, t));
    RegisteredMeans(s);
    RegisteredMeans(s');
    forall x ensures x in Registered(s') <==> x in Registered(s) + {Local(p, a.nextEndpoint)} {
      match x
      case Local(o, e) => assert o == p ==> (e in s'.pubs[p].endpoints <==> e in a.endpoints.Keys + {a.nextEndpoint});
      case Far(_) =>
    }
  }

  lemma PublishGood(s: State, p: nat, a: Alloc, st: Step)
    requires PubsOk(s) && a == (if p in s.pubs then s.pubs[p] else Empty()) && Enabled(a, st)
    ensures PubsOk(s.(pubs := s.pubs[p := Next(a, st)]))
  {
    assert T.Good(a) by {
      assert PubOk(s, p);
      T.EmptyInv();
    }
    NextGood(a, st);
    var b := Next(a, st);
    var s' := s.(pubs := s.pubs[p := b]);
    forall o: nat ensures PubOk(s', o) { assert PubOk(s, o); }
  }

  lemma NextGood(a: Alloc, st: Step)
    requires T.Good(a) && Enabled(a, st)
    ensures T.Good(Next(a, st))
  {
    T.FollowKeeps(a, st, Next(a, st));
  }

  lemma PublishKeeps(s: State, p: nat, key: nat, t: Settings, a: Alloc)
    requires Sound(s) && a == (if p in s.pubs then s.pubs[p] else Empty()) && Enabled(a, DoPublish(key, t))
    ensures Sound(Noted(s.(pubs := s.pubs[p := Next(a, DoPublish(key, t))]), Local(p, a.nextEndpoint)))
  {
    var s' := s.(pubs := s.pubs[p := Next(a, DoPublish(key, t))]);
    PublishGood(s, p, a, DoPublish(key, t));
    PublishRegisters(s, p, key, t, a, s');
    RegisterKeeps(s, s', Local(p, a.nextEndpoint));
    SamePubs(s', Noted(s', Local(p, a.nextEndpoint)));
    SameRemotes(s, Noted(s', Local(p, a.nextEndpoint)));
  }

  // ----- the acting request

  lemma MoveKeeps(s: State, q: nat, phase: Phase)
    requires Sound(s) && q in s.requests && Met(s, s.requests[q].(phase := phase))
    ensures Sound(Moved(s, q, phase))
  {
    var t := Moved(s, q, phase);
    var reg := Registered(t);
    assert reg == Registered(s);
    forall o: nat ensures RequestOk(t, reg, o) {
      assert RequestOk(s, reg, o);
      if o in t.requests { MetSame(s, t, t.requests[o]); }
    }
    SamePubs(s, t);
    SameRemotes(s, t);
  }

  lemma MetSame(s: State, t: State, r: Request)
    requires Met(s, r) && t.pubs == s.pubs && t.nextRemote == s.nextRemote
    ensures Met(t, r)
  {
  }

  /** Something that the attempt may have met is gone. */
  ghost predicate Lost(s: State, q: nat, x: Target)
    requires q in s.requests
  {
    x in s.requests[q].seen && x !in Registered(s)
  }

  lemma RetryKeeps(s: State, q: nat, x: Target)
    requires Sound(s) && q in s.requests && Lost(s, q, x)
    ensures Sound(Retried(s, q))
  {
    var t, r := Retried(s, q), s.requests[q];
    var reg := Registered(t);
    assert reg == Registered(s);
    assert RequestOk(s, reg, q);
    SubsetSize(reg, r.seen - {x});
    forall o: nat ensures RequestOk(t, reg, o) {
      assert RequestOk(s, reg, o);
      if o in t.requests && o != q { MetSame(s, t, t.requests[o]); }
    }
    SamePubs(s, t);
    SameRemotes(s, t);
  }

  lemma {:induction false} SubsetSize(a: set<Target>, b: set<Target>)
    requires a <= b
    ensures |a| <= |b|
  {
    if a != {} {
      var x :| x in a;
      SubsetSize(a - {x}, b - {x});
    }
  }

  // ----- what each event does to the acting request

  lemma MeetsRegistered(s: State, q: nat)
    requires Sound(s) && q in s.requests
    ensures forall x :: x in Registered(s) ==> x in s.requests[q].seen
  {
    assert RequestOk(s, Registered(s), q);
  }

  lemma PickPubKeeps(s: State, q: nat, p: nat)
    requires Sound(s) && q in s.requests && p in s.pubs && s.pubs[p].endpoints != map[]
    ensures Sound(Moved(s, q, Looking(p)))
  {
    RegisteredMeans(s);
    MeetsRegistered(s, q);
    var e :| e in s.pubs[p].endpoints;
    assert Local(p, e) in s.requests[q].seen;
    MoveKeeps(s, q, Looking(p));
  }

  lemma PickRemoteKeeps(s: State, q: nat, r: nat)
    requires Sound(s) && q in s.requests && r in s.remotes
    ensures Sound(Moved(s, q, Calling(r)))
  {
    RegisteredMeans(s);
    MeetsRegistered(s, q);
    assert RemoteOk(s, r);
    MoveKeeps(s, q, Calling(r));
  }

  lemma TakeKeeps(s: State, q: nat, p: nat, e: nat)
    requires Sound(s) && q in s.requests && p in s.pubs && Enabled(s.pubs[p], DoTake(e))
    ensures Sound(Moved(WithPub(s, p, DoTake(e)), q, Opening(p, e)))
  {
    var s' := WithPub(s, p, DoTake(e));
    RegisteredMeans(s);
    MeetsRegistered(s, q);
    assert Local(p, e) in Registered(s);
    WithPubKeeps(s, p, DoTake(e));
    assert e < s.pubs[p].nextEndpoint by { assert PubOk(s, p); }
    MoveKeeps(s', q, Opening(p, e));
  }

  lemma JoinKeeps(s: State, q: nat, p: nat)
    requires Sound(s) && q in s.requests && s.requests[q].phase == Unlucky(p) && p in s.pubs && Enabled(s.pubs[p], DoEnqueue)
    ensures Sound(Moved(WithPub(s, p, DoEnqueue), q, Waiting(p, s.pubs[p].nextWaiter)))
  {
    var s' := WithPub(s, p, DoEnqueue);
    assert RequestOk(s, Registered(s), q);
    WithPubKeeps(s, p, DoEnqueue);
    MoveKeeps(s', q, Waiting(p, s.pubs[p].nextWaiter));
  }

  lemma GotKeeps(s: State, q: nat, p: nat, w: nat, e: nat)
    requires Sound(s) && q in s.requests && p in s.pubs && Enabled(s.pubs[p], DoReceive(w)) && Outcome(s.pubs[p], w) == Got(e)
    ensures Sound(Moved(WithPub(s, p, DoReceive(w)), q, Opening(p, e)))
  {
    RegisteredMeans(s);
    MeetsRegistered(s, q);
    assert Local(p, e) in Registered(s);
    WithPubKeeps(s, p, DoReceive(w));
    assert e < s.pubs[p].nextEndpoint by { assert PubOk(s, p); }
    MoveKeeps(WithPub(s, p, DoReceive(w)), q, Opening(p, e));
  }

  /** Told to retry, the waiter has lost the endpoint it was sent, or every
      endpoint of the publication it had chosen. */
  lemma WaiterRetryLoses(s: State, q: nat, p: nat, w: nat) returns (x: Target)
    requires Sound(s) && q in s.requests && s.requests[q].phase == Waiting(p, w) && p in s.pubs
    requires Enabled(s.pubs[p], DoReceive(w)) && Outcome(s.pubs[p], w) == Allocator.Retry
    ensures Lost(s, q, x)
  {
    RegisteredMeans(s);
    assert RequestOk(s, Registered(s), q);
    T.RetryMeansRemoved(s.pubs[p], w);
    if s.pubs[p].chans[w].Served? && s.pubs[p].chans[w].endpoint !in s.pubs[p].endpoints {
      x := Local(p, s.pubs[p].chans[w].endpoint);
    } else {
      var e :| Local(p, e) in s.requests[q].seen;
      x := Local(p, e);
    }
  }

  lemma WaiterRetryKeeps(s: State, q: nat, p: nat, w: nat)
    requires Sound(s) && q in s.requests && s.requests[q].phase == Waiting(p, w) && p in s.pubs
    requires Enabled(s.pubs[p], DoReceive(w)) && Outcome(s.pubs[p], w) == Allocator.Retry
    ensures Sound(Retried(WithPub(s, p, DoReceive(w)), q))
  {
    var s' := WithPub(s, p, DoReceive(w));
    var x := WaiterRetryLoses(s, q, p, w);
    WithPubRegistered(s, p, DoReceive(w));
    WithPubKeeps(s, p, DoReceive(w));
    assert Lost(s', q, x);
    RetryKeeps(s', q, x);
  }

  /** A stream that cannot be opened takes its endpoint out of the publication. */
  lemma OpenFailsKeeps(s: State, q: nat, p: nat, e: nat, s': State)
    requires Sound(s) && q in s.requests && s.requests[q].phase == Opening(p, e) && p in s.pubs
    requires if e in s.pubs[p].endpoints then Enabled(s.pubs[p], DoUnpublish(e)) && s' == WithPub(s, p, DoUnpublish(e)) else s' == s
    ensures Sound(Moved(s', q, Failed(p, e)))
  {
    assert RequestOk(s, Registered(s), q);
    if e in s.pubs[p].endpoints {
      StepGoes(s.pubs[p], DoUnpublish(e));
      UnpublishGoes(s.pubs[p], e);
      WithPubKeeps(s, p, DoUnpublish(e));
      assert e !in s'.pubs[p].endpoints.Keys;
    }
    MoveKeeps(s', q, Failed(p, e));
  }

  lemma ReturnKeeps(s: State, q: nat, p: nat, e: nat)
    requires Sound(s) && q in s.requests && s.requests[q].phase == Failed(p, e) && p in s.pubs && Enabled(s.pubs[p], DoRelease(e))
    ensures Lost(s, q, Local(p, e)) && Sound(Retried(WithPub(s, p, DoRelease(e)), q))
  {
    var s' := WithPub(s, p, DoRelease(e));
    RegisteredMeans(s);
    assert RequestOk(s, Registered(s), q);
    WithPubRegistered(s, p, DoRelease(e));
    WithPubKeeps(s, p, DoRelease(e));
    RetryKeeps(s', q, Local(p, e));
  }

  /** A remote that cannot be reached is gone from the registry. */
  lemma CallFailsKeeps(s: State, q: nat, r: nat)
    requires Sound(s) && q in s.requests && s.requests[q].phase == Calling(r)
    ensures Lost(Removed(s, r), q, Far(r)) && Sound(Retried(Removed(s, r), q))
  {
    assert RequestOk(s, Registered(s), q);
    RemovedIsGone(s, r);
    RegisteredMeans(Removed(s, r));
    RetryKeeps(Removed(s, r), q, Far(r));
  }

  lemma ReceiveKeeps(s: State, q: nat, p: nat, w: nat)
    requires Sound(s) && q in s.requests && s.requests[q].phase == Waiting(p, w) && p in s.pubs && Enabled(s.pubs[p], DoReceive(w))
    ensures var s' := WithPub(s, p, DoReceive(w));
            match Outcome(s.pubs[p], w)
            case Got(e) => Sound(Moved(s', q, Opening(p, e)))
            case Retry => Sound(Retried(s', q))
            case OverCapacity => Sound(Moved(s', q, Over(Full)))
  {
    match Outcome(s.pubs[p], w)
    case Got(e) => GotKeeps(s, q, p, w, e);
    case Retry => WaiterRetryKeeps(s, q, p, w);
    case OverCapacity =>
      WithPubKeeps(s, p, DoReceive(w));
      MoveKeeps(WithPub(s, p, DoReceive(w)), q, Over(Full));
  }

  lemma LeaveKeeps(s: State, q: nat, p: nat, st: Step)
    requires Sound(s) && q in s.requests && p in s.pubs && Enabled(s.pubs[p], st) && !st.DoPublish?
    ensures Sound(Moved(WithPub(s, p, st), q, Over(Done)))
  {
    WithPubKeeps(s, p, st);
    MoveKeeps(WithPub(s, p, st), q, Over(Done));
  }

  lemma ServerKeeps(s: State, ev: Event)
    requires Sound(s) && CanDo(s, ev)
    requires ev.Publish? || ev.Wake? || ev.Unpublish? || ev.Attach? || ev.AddRemote? || ev.RemoveRemote? || ev.Detach?
    ensures Sound(Do(s, ev))
  {
    match ev
    case Publish(p, key, t) => PublishKeeps(s, p, key, t, if p in s.pubs then s.pubs[p] else Empty());
    case Wake(p, e) => WithPubKeeps(s, p, DoWake(e));
    case Unpublish(p, e) => WithPubKeeps(s, p, DoUnpublish(e));
    case Attach(k, c) => AttachKeeps(s, k, c);
    case AddRemote(k) => AddRemoteKeeps(s, k);
    case RemoveRemote(r) => RemovedIsGone(s, r);
    case Detach(k) => DetachKeeps(s, k);
  }

  lemma SearchKeeps(s: State, ev: Event)
    requires Sound(s) && CanDo(s, ev) && (ev.TakeReady? || ev.FindNone?)
    ensures Sound(Do(s, ev))
  {
    var ph := PhaseOf(s, ev.q);
    assert RequestOk(s, Registered(s), ev.q);
    match ev
    case TakeReady(q, e) => TakeKeeps(s, q, ph.pub, e);
    case FindNone(q) => MoveKeeps(s, q, Unlucky(ph.pub));
  }

  lemma JoinOrFullKeeps(s: State, q: nat)
    requires Sound(s) && CanDo(s, Join(q))
    ensures Sound(Do(s, Join(q)))
  {
    var p := PhaseOf(s, q).pub;
    if QueueFull(s.pubs[p]) { MoveKeeps(s, q, Over(Full)); } else { JoinKeeps(s, q, p); }
  }

  lemma GiveUpKeeps(s: State, q: nat)
    requires Sound(s) && CanDo(s, GiveUp(q))
    ensures Sound(Do(s, GiveUp(q)))
  {
    var ph := PhaseOf(s, q);
    if ph.Waiting? { LeaveKeeps(s, q, ph.pub, DoCancel(ph.waiter)); }
    else if ph.Unlucky? { MoveKeeps(s, q, Over(Done)); }
    else { LeaveKeeps(s, q, ph.pub, DoRelease(ph.endpoint)); }
  }

  lemma OpenedKeeps(s: State, q: nat)
    requires Sound(s) && CanDo(s, Opened(q))
    ensures Sound(Do(s, Opened(q)))
  {
    assert RequestOk(s, Registered(s), q);
    MoveKeeps(s, q, Serving(PhaseOf(s, q).pub, PhaseOf(s, q).endpoint));
  }

  lemma BeginKeeps(s: State, q: nat, reg: set<Target>)
    requires Sound(s) && q !in s.requests && reg == Registered(s)
    ensures Sound(s.(requests := s.requests[q := Request(Looping, 0, |reg|, 0, reg)]))
  {
    var t := s.(requests := s.requests[q := Request(Looping, 0, |reg|, 0, reg)]);
    assert Registered(t) == reg;
    forall o: nat ensures RequestOk(t, reg, o) {
      assert RequestOk(s, reg, o);
      if o in t.requests { MetSame(s, t, t.requests[o]); }
    }
    SamePubs(s, t);
    SameRemotes(s, t);
  }

  lemma PickKeeps(s: State, ev: Event)
    requires Sound(s) && CanDo(s, ev) && (ev.Begin? || ev.NoTarget? || ev.PickPub? || ev.PickRemote?)
    ensures Sound(Do(s, ev))
  {
    match ev
    case Begin(q) => BeginKeeps(s, q, Registered(s));
    case NoTarget(q) => MoveKeeps(s, q, Over(NoRoute));
    case PickPub(q, p) => PickPubKeeps(s, q, p);
    case PickRemote(q, r) => PickRemoteKeeps(s, q, r);
  }

  lemma FailureKeeps(s: State, ev: Event)
    requires Sound(s) && CanDo(s, ev) && (ev.OpenFails? || ev.Return? || ev.CallFails?)
    ensures Sound(Do(s, ev))
  {
    match ev
    case OpenFails(q) =>
      var ph := PhaseOf(s, q);
      OpenFailsKeeps(s, q, ph.pub, ph.endpoint,
                     if ph.endpoint in s.pubs[ph.pub].endpoints then WithPub(s, ph.pub, DoUnpublish(ph.endpoint)) else s);
    case Return(q) => ReturnKeeps(s, q, PhaseOf(s, q).pub, PhaseOf(s, q).endpoint);
    case CallFails(q) => CallFailsKeeps(s, q, PhaseOf(s, q).remote);
  }

  lemma AttemptKeeps(s: State, ev: Event)
    requires Sound(s) && CanDo(s, ev)
    requires ev.TakeReady? || ev.FindNone? || ev.Join? || ev.Receive? || ev.GiveUp? || ev.Opened? || ev.CallDone?
    ensures Sound(Do(s, ev))
  {
    match ev
    case TakeReady(_, _) => SearchKeeps(s, ev);
    case FindNone(_) => SearchKeeps(s, ev);
    case Join(q) => JoinOrFullKeeps(s, q);
    case Receive(q) => ReceiveKeeps(s, q, PhaseOf(s, q).pub, PhaseOf(s, q).waiter);
    case GiveUp(q) => GiveUpKeeps(s, q);
    case Opened(q) => OpenedKeeps(s, q);
    case CallDone(q) => MoveKeeps(s, q, Over(Done));
  }

  lemma StepKeeps(s: State, ev: Event)
    requires Sound(s) && CanDo(s, ev)
    ensures Sound(Do(s, ev))
  {
    if ev.Begin? || ev.NoTarget? || ev.PickPub? || ev.PickRemote? { PickKeeps(s, ev); }
    else if ev.OpenFails? || ev.Return? || ev.CallFails? { FailureKeeps(s, ev); }
    else if ByServer(ev) { ServerKeeps(s, ev); }
    else { AttemptKeeps(s, ev); }
  }

  lemma RetriedRegistered(s: State, q: nat)
    requires q in s.requests
    ensures Registered(Retried(s, q)) == Registered(s)
  {
    RegisteredMeans(s);
    RegisteredMeans(Retried(s, q));
  }

  lemma ReceiveLoses(s: State, q: nat, p: nat, w: nat) returns (x: Target)
    requires Sound(s) && q in s.requests && s.requests[q].phase == Waiting(p, w) && p in s.pubs
    requires Enabled(s.pubs[p], DoReceive(w)) && Outcome(s.pubs[p], w) == Allocator.Retry
    ensures x in s.requests[q].seen && x !in Registered(Retried(WithPub(s, p, DoReceive(w)), q))
  {
    x := WaiterRetryLoses(s, q, p, w);
    WithPubRegistered(s, p, DoReceive(w));
    RetriedRegistered(WithPub(s, p, DoReceive(w)), q);
  }

  lemma ReturnLoses(s: State, q: nat, p: nat, e: nat)
    requires Sound(s) && q in s.requests && s.requests[q].phase == Failed(p, e) && p in s.pubs && Enabled(s.pubs[p], DoRelease(e))
    ensures Local(p, e) in s.requests[q].seen && Local(p, e) !in Registered(Retried(WithPub(s, p, DoRelease(e)), q))
  {
    ReturnKeeps(s, q, p, e);
    WithPubRegistered(s, p, DoRelease(e));
    RetriedRegistered(WithPub(s, p, DoRelease(e)), q);
  }

  lemma CallLoses(s: State, q: nat)
    requires Sound(s) && CanDo(s, CallFails(q))
    ensures Far(PhaseOf(s, q).remote) in s.requests[q].seen && Far(PhaseOf(s, q).remote) !in Registered(Do(s, CallFails(q)))
  {
    var r := PhaseOf(s, q).remote;
    CallFailsKeeps(s, q, r);
    assert Registered(Do(s, CallFails(q))) == Registered(Removed(s, r));
  }

  /** Every retry means that a target which was registered when the attempt
      began, or has been registered since, is registered no more. */
  lemma RetryLoses(s: State, ev: Event, q: nat) returns (x: Target)
    requires Sound(s) && CanDo(s, ev) && q in s.requests && q in Do(s, ev).requests
    requires Do(s, ev).requests[q].retries > s.requests[q].retries
    ensures x in s.requests[q].seen && x !in Registered(Do(s, ev))
  {
    RetriesWhen(s, ev, q);
    if ev.Receive? {
      x := ReceiveLoses(s, q, PhaseOf(s, q).pub, PhaseOf(s, q).waiter);
    } else if ev.Return? {
      ReturnLoses(s, q, PhaseOf(s, q).pub, PhaseOf(s, q).endpoint);
      x := Local(PhaseOf(s, q).pub, PhaseOf(s, q).endpoint);
    } else {
      CallLoses(s, q);
      x := Far(PhaseOf(s, q).remote);
    }
  }

  lemma RetriesWhen(s: State, ev: Event, q: nat)
    requires CanDo(s, ev) && q in s.requests && q in Do(s, ev).requests
    requires Do(s, ev).requests[q].retries > s.requests[q].retries
    ensures (ev.Receive? || ev.Return? || ev.CallFails?) && ev.q == q
    ensures ev.Receive? ==> Outcome(s.pubs[PhaseOf(s, q).pub], PhaseOf(s, q).waiter) == Allocator.Retry
  {
    if ByServer(ev) && !Registers(ev) { ServerActs(s, ev); }
    else if !ByServer(ev) && !ev.Begin? { RequestActs(s, ev); }
  }

  // ----- whole runs

  ghost predicate Follows(s: State, ev: Event, s': State) { CanDo(s, ev) && s' == Do(s, ev) }

  ghost predicate IsRun(run: seq<State>, events: seq<Event>) {
    && |run| == |events| + 1
    && run[0] == Start()
    && forall i :: 0 <= i < |events| ==> Follows(run[i], events[i], run[i + 1])
  }

  lemma FollowKeeps(s: State, ev: Event, s': State)
    requires Sound(s) && Follows(s, ev, s')
    ensures Sound(s')
  {
    StepKeeps(s, ev);
  }

  /** What each of the steps keeps, they keep together. */
  lemma {:induction false} Induct(run: seq<State>, events: seq<Event>, rel: (State, Event, State) -> bool, good: State -> bool, i: nat, j: nat)
    requires i <= j <= |events| < |run| && good(run[i])
    requires forall k :: i <= k < j ==> rel(run[k], events[k], run[k + 1])
    requires forall s, ev, s' :: rel(s, ev, s') && good(s) ==> good(s')
    ensures good(run[j])
  {
    if i < j {
      Induct(run, events, rel, good, i, j - 1);
      assert rel(run[j - 1], events[j - 1], run[j]);
    }
  }

  lemma RunKeeps(run: seq<State>, events: seq<Event>, k: nat)
    requires IsRun(run, events) && k < |run|
    ensures Sound(run[k])
  {
    var rel := (s: State, ev: Event, s': State) => Follows(s, ev, s');
    var good := (s: State) => Sound(s);
    forall s, ev, s' | rel(s, ev, s') && good(s) ensures good(s') { FollowKeeps(s, ev, s'); }
    Induct(run, events, rel, good, 0, k);
  }

  /** How many targets were registered by the events from i up to j. */
  function Registrations(events: seq<Event>, i: nat, j: nat): nat
    requires i <= j <= |events|
  {
    if i == j then 0 else Registrations(events, i, j - 1) + (if Registers(events[j - 1]) then 1 else 0)
  }

  /** A request's history is kept by every event. */
  ghost predicate Tracks(s: State, ev: Event, s': State, q: nat) {
    q in s.requests ==>
      && q in s'.requests
      && s'.requests[q].begin == s.requests[q].begin
      && s'.requests[q].added == s.requests[q].added + (if Registers(ev) then 1 else 0)
      && s.requests[q].retries <= s'.requests[q].retries <= s.requests[q].retries + 1
  }

  /** All but one request are as before. */
  ghost predicate OnlyActs(s: State, q: nat, s': State) {
    && q in s.requests && q in s'.requests && s'.requests == s.requests[q := s'.requests[q]]
    && s'.requests[q].begin == s.requests[q].begin && s'.requests[q].added == s.requests[q].added
    && s.requests[q].retries <= s'.requests[q].retries <= s.requests[q].retries + 1
  }

  predicate ByServer(ev: Event) {
    ev.Publish? || ev.Wake? || ev.Unpublish? || ev.Attach? || ev.AddRemote? || ev.RemoveRemote? || ev.Detach?
  }

  lemma ServerActs(s: State, ev: Event)
    requires CanDo(s, ev) && ByServer(ev) && !Registers(ev)
    ensures Do(s, ev).requests == s.requests
  {
  }

  lemma ReceiveActs(s: State, q: nat)
    requires CanDo(s, Receive(q))
    ensures OnlyActs(s, q, Do(s, Receive(q)))
  {
  }

  lemma JoinActs(s: State, q: nat)
    requires CanDo(s, Join(q))
    ensures OnlyActs(s, q, Do(s, Join(q)))
  {
  }

  lemma LeaveActs(s: State, ev: Event)
    requires CanDo(s, ev) && (ev.GiveUp? || ev.OpenFails? || ev.Return? || ev.CallFails?)
    ensures OnlyActs(s, ev.q, Do(s, ev))
  {
  }

  lemma RequestActs(s: State, ev: Event)
    requires CanDo(s, ev) && !ByServer(ev) && !ev.Begin?
    ensures OnlyActs(s, ev.q, Do(s, ev))
  {
    match ev
    case Receive(q) => ReceiveActs(s, q);
    case Join(q) => JoinActs(s, q);
    case GiveUp(_) => LeaveActs(s, ev);
    case OpenFails(_) => LeaveActs(s, ev);
    case Return(_) => LeaveActs(s, ev);
    case CallFails(_) => LeaveActs(s, ev);
    case _ =>
  }

  lemma FollowTracks(s: State, ev: Event, s': State, q: nat)
    requires Follows(s, ev, s')
    ensures Tracks(s, ev, s', q)
  {
    if ByServer(ev) && !Registers(ev) { ServerActs(s, ev); }
    else if !ByServer(ev) && !ev.Begin? { RequestActs(s, ev); }
  }

  lemma BeginTracks(s: State, s': State, q: nat)
    requires Follows(s, Begin(q), s')
    ensures q in s'.requests && s'.requests[q].begin == |Registered(s)| && s'.requests[q].added == 0
  {
  }

  lemma AllTrack(run: seq<State>, events: seq<Event>, q: nat)
    requires IsRun(run, events)
    ensures forall k :: 0 <= k < |events| ==> Tracks(run[k], events[k], run[k + 1], q)
  {
    forall k | 0 <= k < |events| ensures Tracks(run[k], events[k], run[k + 1], q) {
      FollowTracks(run[k], events[k], run[k + 1], q);
    }
  }

  lemma {:induction false} Tracked(run: seq<State>, events: seq<Event>, i: nat, j: nat, q: nat)
    requires i < j <= |events| && |run| == |events| + 1
    requires forall k :: 0 <= k < |events| ==> Tracks(run[k], events[k], run[k + 1], q)
    requires q in run[i + 1].requests
    ensures q in run[j].requests && run[j].requests[q].begin == run[i + 1].requests[q].begin
    ensures run[j].requests[q].added == run[i + 1].requests[q].added + Registrations(events, i + 1, j)
  {
    if i + 1 < j {
      Tracked(run, events, i, j - 1, q);
      assert Tracks(run[j - 1], events[j - 1], run[j], q);
    }
  }

  /** On any run, the retries of a request that began at event i are at most the
      targets registered then plus those registered since, less those still
      registered. With nothing new, the retry loop ends after at most as many
      turns as there were targets. */
  lemma RetriesEnd(run: seq<State>, events: seq<Event>, i: nat, j: nat, q: nat)
    requires IsRun(run, events) && i < j <= |events| && events[i] == Begin(q)
    ensures q in run[j].requests
    ensures run[j].requests[q].retries + |Registered(run[j])| <= |Registered(run[i])| + Registrations(events, i + 1, j)
  {
    BeginTracks(run[i], run[i + 1], q);
    AllTrack(run, events, q);
    Tracked(run, events, i, j, q);
    RunKeeps(run, events, j);
    var r := run[j].requests[q];
    assert RequestOk(run[j], Registered(run[j]), q);
    SubsetSize(Registered(run[j]), r.seen);
  }
}

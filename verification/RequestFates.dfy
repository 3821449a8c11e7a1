/** How an attempt of a request ends: exactly when it is tried again, and exactly
    when it is refused. */
module RequestFates {
  import opened Allocator
  import opened Requests
  import Retry

  /** The waiter of `q` was let go because its publication has no endpoints, or was
      sent an endpoint that is unpublished by now. */
  ghost predicate LostWait(s: State, q: nat) {
    var ph := PhaseOf(s, q);
    ph.Waiting? && ph.pub in s.pubs && ph.waiter in s.pubs[ph.pub].chans &&
    var a, c := s.pubs[ph.pub], s.pubs[ph.pub].chans[ph.waiter];
    (c == Dropped && a.endpoints == map[]) || (c.Served? && c.endpoint !in a.endpoints)
  }

  /** Its publication has endpoints, but no place for it. */
  ghost predicate Refused(s: State, ev: Event, q: nat) {
    var ph := PhaseOf(s, q);
    || (ev == Join(q) && ph.Unlucky? && ph.pub in s.pubs && |s.pubs[ph.pub].queue| >= s.pubs[ph.pub].settings.queueSize)
    || (ev == Receive(q) && ph.Waiting? && ph.pub in s.pubs && ph.waiter in s.pubs[ph.pub].chans
        && s.pubs[ph.pub].chans[ph.waiter] == Dropped && s.pubs[ph.pub].endpoints != map[])
  }

  predicate OfRequest(ev: Event, q: nat) {
    match ev
    case NoTarget(x) => x == q
    case PickPub(x, _) => x == q
    case PickRemote(x, _) => x == q
    case TakeReady(x, _) => x == q
    case FindNone(x) => x == q
    case Join(x) => x == q
    case Receive(x) => x == q
    case GiveUp(x) => x == q
    case Opened(x) => x == q
    case OpenFails(x) => x == q
    case Return(x) => x == q
    case CallDone(x) => x == q
    case CallFails(x) => x == q
    case _ => false
  }

  lemma OthersStay(s: State, ev: Event, q: nat)
    requires CanDo(s, ev) && q in s.requests && !OfRequest(ev, q)
    ensures q in Do(s, ev).requests
    ensures Do(s, ev).requests[q].phase == s.requests[q].phase && Do(s, ev).requests[q].retries == s.requests[q].retries
  {
    if Retry.ByServer(ev) && !Registers(ev) { Retry.ServerActs(s, ev); }
    else if !Retry.ByServer(ev) && !ev.Begin? { Retry.RequestActs(s, ev); }
  }

  /** A request is tried again exactly when a wait was lost, its stream could not be
      opened and the endpoint has been given back, or a remote could not be reached;
      and it is refused for capacity exactly when there is no place in line. */
  ghost predicate Fate(s: State, ev: Event, q: nat, s': State) {
    q in s.requests && q in s'.requests &&
    var was, now := s.requests[q], s'.requests[q];
    && (now.retries != was.retries <==> ev == CallFails(q) || ev == Return(q) || (ev == Receive(q) && LostWait(s, q)))
    && (now.retries != was.retries ==> now.retries == was.retries + 1 && now.phase == Looping)
    && (now.phase == Over(Full) && was.phase != Over(Full) <==> Refused(s, ev, q))
    && (now.phase == Over(NoRoute) && was.phase != Over(NoRoute) <==> ev == NoTarget(q))
    && (now.phase == Over(Done) && was.phase != Over(Done) <==> ev == GiveUp(q) || ev == CallDone(q))
  }

  /** Every event, for any request. */
  lemma RequestFate(s: State, ev: Event, q: nat)
    requires CanDo(s, ev) && q in s.requests
    ensures Fate(s, ev, q, Do(s, ev))
  {
    if !OfRequest(ev, q) { OthersStay(s, ev, q); }
    else if ev.Receive? { ReceiveFate(s, q); }
    else if ev.Join? { JoinFate(s, q); }
    else if ev.GiveUp? || ev.OpenFails? { LeaveFate(s, ev, q); }
    else { OwnFate(s, ev, q); }
  }

  lemma ReceiveFate(s: State, q: nat)
    requires CanDo(s, Receive(q)) && q in s.requests
    ensures Fate(s, Receive(q), q, Do(s, Receive(q)))
  {
  }

  lemma JoinFate(s: State, q: nat)
    requires CanDo(s, Join(q)) && q in s.requests
    ensures Fate(s, Join(q), q, Do(s, Join(q)))
  {
  }

  lemma LeaveFate(s: State, ev: Event, q: nat)
    requires CanDo(s, ev) && q in s.requests && (ev == GiveUp(q) || ev == OpenFails(q))
    ensures Fate(s, ev, q, Do(s, ev))
  {
  }

  lemma OwnFate(s: State, ev: Event, q: nat)
    requires CanDo(s, ev) && q in s.requests && OfRequest(ev, q)
    requires !ev.Receive? && !ev.Join? && !ev.GiveUp? && !ev.OpenFails?
    ensures Fate(s, ev, q, Do(s, ev))
  {
  }
}

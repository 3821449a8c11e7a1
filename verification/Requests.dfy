/** Requests on their way through publications and remotes: what an attempt does,
    when it is told to retry, and what else happens meanwhile.

    Every publication object lives once: a name that is published again after
    its last endpoint went gets a new object. Dispatch chooses among what is
    registered; here a request may pick any registered target. */
module Requests {
  import opened Allocator
  import T = AllocatorTheorems

  /** What requests can be sent to. */
  datatype Target = Local(pub: nat, endpoint: nat) | Far(remote: nat)

  /** A remote and the client of its peer that brought it. */
  datatype Remote = Remote(peer: nat, client: nat)

  datatype Status = Done | NoRoute | Full

  datatype Phase =
    | Looping                             // at the head of the retry loop
    | Looking(pub: nat)                   // handleRequestRLocked of a publication with endpoints
    | Unlucky(pub: nat)                   // takeEndpoint found none; the queue comes next
    | Waiting(pub: nat, waiter: nat)
    | Opening(pub: nat, endpoint: nat)    // holds the endpoint; a stream is being opened
    | Serving(pub: nat, endpoint: nat)    // the callback runs
    | Failed(pub: nat, endpoint: nat)     // no stream: the endpoint was unpublished, and is yet to be released
    | Calling(remote: nat)                // a stream to the remote is being opened
    | Over(status: Status)

  /** `retries` counts the attempts that ended in a retry. The rest is history:
      how many targets were registered when the request began, how many have
      been registered since, and which ones the current attempt may meet. */
  datatype Request = Request(phase: Phase, retries: nat, begin: nat, added: nat, seen: set<Target>)

  datatype State = State(
    pubs: map<nat, Alloc>,       // every publication object there ever was
    remotes: map<nat, Remote>,   // registered remotes
    clients: map<nat, nat>,      // the current client of each connected peer
    nextRemote: nat,
    requests: map<nat, Request>)

  function Start(): State { State(map[], map[], map[], 0, map[]) }

  function Registered(s: State): set<Target> {
    (set p, e | p in s.pubs && e in s.pubs[p].endpoints :: Local(p, e)) + (set r | r in s.remotes :: Far(r))
  }

  // ----- parts of steps

  ghost function WithPub(s: State, p: nat, st: Step): State
    requires p in s.pubs && Enabled(s.pubs[p], st)
  {
    s.(pubs := s.pubs[p := Next(s.pubs[p], st)])
  }

  function Moved(s: State, q: nat, phase: Phase): State
    requires q in s.requests
  {
    s.(requests := s.requests[q := s.requests[q].(phase := phase)])
  }

  /** The attempt is over and the next one sees what is registered now. */
  function Retried(s: State, q: nat): State
    requires q in s.requests
  {
    var r := s.requests[q];
    s.(requests := s.requests[q := Request(Looping, r.retries + 1, r.begin, r.added, Registered(s))])
  }

  function Note(r: Request, x: Target): Request { r.(added := r.added + 1, seen := r.seen + {x}) }

  /** All requests may meet the new target. */
  function Noted(s: State, x: Target): State {
    s.(requests := map q | q in s.requests :: Note(s.requests[q], x))
  }

  /** removeLocked: nothing happens if the remote is gone, or its peer has another client. */
  function Removed(s: State, r: nat): State {
    if r in s.remotes && s.remotes[r].peer in s.clients && s.clients[s.remotes[r].peer] == s.remotes[r].client
    then s.(remotes := s.remotes - {r}) else s
  }

  // ----- steps

  datatype Event =
    // the server
    | Publish(pub: nat, key: nat, settings: Settings)
    | Wake(pub: nat, endpoint: nat)
    | Unpublish(pub: nat, endpoint: nat)
    | Attach(peer: nat, client: nat)
    | AddRemote(peer: nat)
    | RemoveRemote(remote: nat)
    | Detach(peer: nat)
    // a request
    | Begin(q: nat)
    | NoTarget(q: nat)
    | PickPub(q: nat, pub: nat)
    | PickRemote(q: nat, remote: nat)
    | TakeReady(q: nat, endpoint: nat)
    | FindNone(q: nat)
    | Join(q: nat)
    | Receive(q: nat)
    | GiveUp(q: nat)
    | Opened(q: nat)
    | OpenFails(q: nat)
    | Return(q: nat)
    | CallDone(q: nat)
    | CallFails(q: nat)

  predicate Registers(e: Event) { e.Publish? || e.AddRemote? }

  function PhaseOf(s: State, q: nat): Phase { if q in s.requests then s.requests[q].phase else Over(Done) }

  ghost predicate Live(s: State, p: nat, st: Step) { p in s.pubs && Enabled(s.pubs[p], st) }

  ghost predicate CanDo(s: State, ev: Event) {
    match ev
    case Publish(p, key, t) => Enabled(if p in s.pubs then s.pubs[p] else Empty(), DoPublish(key, t))
    case Wake(p, e) => Live(s, p, DoWake(e))
    case Unpublish(p, e) => Live(s, p, DoUnpublish(e))
    case Attach(k, _) => k !in s.clients
    case AddRemote(k) => k in s.clients
    case RemoveRemote(_) => true
    case Detach(k) => k in s.clients
    case Begin(q) => q !in s.requests
    case NoTarget(q) => PhaseOf(s, q).Looping?
    case PickPub(q, p) => PhaseOf(s, q).Looping? && p in s.pubs && s.pubs[p].endpoints != map[]
    case PickRemote(q, r) => PhaseOf(s, q).Looping? && r in s.remotes
    case TakeReady(q, e) => PhaseOf(s, q).Looking? && Live(s, PhaseOf(s, q).pub, DoTake(e))
    case FindNone(q) => PhaseOf(s, q).Looking? && PhaseOf(s, q).pub in s.pubs && s.pubs[PhaseOf(s, q).pub].ready == {}
    case Join(q) => PhaseOf(s, q).Unlucky? && PhaseOf(s, q).pub in s.pubs
                    && (QueueFull(s.pubs[PhaseOf(s, q).pub]) || Live(s, PhaseOf(s, q).pub, DoEnqueue))
    case Receive(q) => PhaseOf(s, q).Waiting? && Live(s, PhaseOf(s, q).pub, DoReceive(PhaseOf(s, q).waiter))
    case GiveUp(q) =>
      var ph := PhaseOf(s, q);
      || ph.Unlucky?
      || (ph.Waiting? && Live(s, ph.pub, DoCancel(ph.waiter)))
      || ((ph.Opening? || ph.Serving?) && Live(s, ph.pub, DoRelease(ph.endpoint)))
    case Opened(q) => PhaseOf(s, q).Opening?
    case OpenFails(q) =>
      var ph := PhaseOf(s, q);
      ph.Opening? && ph.pub in s.pubs && (ph.endpoint !in s.pubs[ph.pub].endpoints || Live(s, ph.pub, DoUnpublish(ph.endpoint)))
    case Return(q) => PhaseOf(s, q).Failed? && Live(s, PhaseOf(s, q).pub, DoRelease(PhaseOf(s, q).endpoint))
    case CallDone(q) => PhaseOf(s, q).Calling?
    case CallFails(q) => PhaseOf(s, q).Calling?
  }

  ghost function Do(s: State, ev: Event): State
    requires CanDo(s, ev)
  {
    match ev
    case Publish(p, key, t) =>
      var a := if p in s.pubs then s.pubs[p] else Empty();
      Noted(s.(pubs := s.pubs[p := Next(a, DoPublish(key, t))]), Local(p, a.nextEndpoint))
    case Wake(p, e) => WithPub(s, p, DoWake(e))
    case Unpublish(p, e) => WithPub(s, p, DoUnpublish(e))
    case Attach(k, c) => s.(clients := s.clients[k := c])
    case AddRemote(k) =>
      Noted(s.(remotes := s.remotes[s.nextRemote := Remote(k, s.clients[k])], nextRemote := s.nextRemote + 1), Far(s.nextRemote))
    case RemoveRemote(r) => Removed(s, r)
    case Detach(k) =>
      s.(remotes := map r | r in s.remotes && s.remotes[r] != Remote(k, s.clients[k]) :: s.remotes[r], clients := s.clients - {k})
    case Begin(q) => s.(requests := s.requests[q := Request(Looping, 0, |Registered(s)|, 0, Registered(s))])
    case NoTarget(q) => Moved(s, q, Over(NoRoute))
    case PickPub(q, p) => Moved(s, q, Looking(p))
    case PickRemote(q, r) => Moved(s, q, Calling(r))
    case TakeReady(q, e) => Moved(WithPub(s, PhaseOf(s, q).pub, DoTake(e)), q, Opening(PhaseOf(s, q).pub, e))
    case FindNone(q) => Moved(s, q, Unlucky(PhaseOf(s, q).pub))
    case Join(q) =>
      var p := PhaseOf(s, q).pub;
      if QueueFull(s.pubs[p]) then Moved(s, q, Over(Full))
      else Moved(WithPub(s, p, DoEnqueue), q, Waiting(p, s.pubs[p].nextWaiter))
    case Receive(q) =>
      var p, w := PhaseOf(s, q).pub, PhaseOf(s, q).waiter;
      var s' := WithPub(s, p, DoReceive(w));
      (match Outcome(s.pubs[p], w)
       case Got(e) => Moved(s', q, Opening(p, e))
       case Retry => Retried(s', q)
       case OverCapacity => Moved(s', q, Over(Full)))
    case GiveUp(q) =>
      var ph := PhaseOf(s, q);
      Moved(if ph.Waiting? then WithPub(s, ph.pub, DoCancel(ph.waiter))
            else if ph.Unlucky? then s
            else WithPub(s, ph.pub, DoRelease(ph.endpoint)), q, Over(Done))
    case Opened(q) => Moved(s, q, Serving(PhaseOf(s, q).pub, PhaseOf(s, q).endpoint))
    case OpenFails(q) =>
      var ph := PhaseOf(s, q);
      Moved(if ph.endpoint in s.pubs[ph.pub].endpoints then WithPub(s, ph.pub, DoUnpublish(ph.endpoint)) else s,
            q, Failed(ph.pub, ph.endpoint))
    case Return(q) => Retried(WithPub(s, PhaseOf(s, q).pub, DoRelease(PhaseOf(s, q).endpoint)), q)
    case CallDone(q) => Moved(s, q, Over(Done))
    case CallFails(q) => Retried(Removed(s, PhaseOf(s, q).remote), q)
  }

  // ----- invariants

  /** Everything registered is among what the attempt may meet, and each retry
      was paid for by a target that has gone. */
  ghost predicate Paid(r: Request, registered: set<Target>) {
    registered <= r.seen && r.retries + |r.seen| <= r.begin + r.added
  }

  ghost predicate SeenSome(seen: set<Target>, p: nat) { exists e :: Local(p, e) in seen }

  /** What the request has in hand was registered at some time of the attempt. */
  ghost predicate Met(s: State, r: Request) {
    match r.phase
    case Looking(p) => p in s.pubs && SeenSome(r.seen, p)
    case Unlucky(p) => p in s.pubs && SeenSome(r.seen, p)
    case Waiting(p, w) => p in s.pubs && SeenSome(r.seen, p) && Sent(s.pubs[p], p, w, r.seen)
    case Opening(p, e) => p in s.pubs && Local(p, e) in r.seen && e < s.pubs[p].nextEndpoint
    case Serving(p, e) => p in s.pubs && Local(p, e) in r.seen && e < s.pubs[p].nextEndpoint
    case Failed(p, e) => p in s.pubs && Local(p, e) in r.seen && e < s.pubs[p].nextEndpoint && e !in s.pubs[p].endpoints
    case Calling(x) => Far(x) in r.seen && x < s.nextRemote
    case _ => true
  }

  ghost predicate Sent(a: Alloc, p: nat, w: nat, seen: set<Target>) {
    w < a.nextWaiter && (w in a.chans && a.chans[w].Served? ==> Local(p, a.chans[w].endpoint) in seen)
  }

  // each of these says what holds of one entry; as wholes they are quantified over

  ghost predicate PubOk(s: State, p: nat) { p in s.pubs ==> T.Good(s.pubs[p]) }

  /** A registered remote comes from its peer's current client. */
  ghost predicate RemoteOk(s: State, r: nat) {
    r in s.remotes ==>
      r < s.nextRemote && s.remotes[r].peer in s.clients && s.clients[s.remotes[r].peer] == s.remotes[r].client
  }

  ghost predicate RequestOk(s: State, registered: set<Target>, q: nat) {
    q in s.requests ==> Paid(s.requests[q], registered) && Met(s, s.requests[q])
  }

  ghost predicate PubsOk(s: State) { forall p: nat :: PubOk(s, p) }

  ghost predicate RemotesOk(s: State) { forall r: nat :: RemoteOk(s, r) }

  ghost predicate RequestsOk(s: State) { forall q: nat :: RequestOk(s, Registered(s), q) }

  ghost predicate Sound(s: State) { PubsOk(s) && RemotesOk(s) && RequestsOk(s) }
}

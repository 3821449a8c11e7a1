/** A publication hands out its endpoints: grants, a bounded queue of waiters,
    hand-over on release, cancellation, and unpublishing while grants are out.

    The state has two halves: the publication object, and what the requests
    around it hold (waiter channels and granted endpoints). Endpoints and
    waiters are numbered in the order of their creation. */
module Allocator {

  const UINT32: nat := 0x1_0000_0000

  datatype Settings = Settings(priority: nat, maxDistance: nat, concurrency: nat, queueSize: nat)

  /** `key` stands for the client and target that published it. */
  datatype Endpoint = Endpoint(active: nat, key: nat, settings: Settings)

  /** A waiter channel: still queued, served with an endpoint, or closed empty. */
  datatype Chan = Open | Served(endpoint: nat) | Dropped

  datatype Alloc = Alloc(
    // the publication
    endpoints: map<nat, Endpoint>,
    ready: set<nat>,
    queue: seq<nat>,
    settings: Settings,
    counts: map<nat, nat>,      // maxDistanceCounts
    waking: nat,                // waiters that the running wakeupWaitersLocked has still to serve
    // the requests
    chans: map<nat, Chan>,      // channels that their request has not read yet
    held: multiset<nat>,        // endpoints granted to running requests
    // history
    served: seq<nat>,           // waiters in the order they were served
    nextEndpoint: nat,
    nextWaiter: nat,
    panicked: bool)             // a channel was used after it was closed

  function Empty(): Alloc {
    Alloc(map[], {}, [], Settings(0, 0, 0, 0), map[], 0, map[], multiset{}, [], 0, 0, false)
  }

  // ----- the operations, each under the publication's lock

  /** `e` is a ready endpoint with the fewest active grants. */
  predicate IsLeast(a: Alloc, e: nat) {
    && e in a.ready && e in a.endpoints
    && forall o :: o in a.ready && o in a.endpoints ==> a.endpoints[e].active <= a.endpoints[o].active
  }

  /** takeEndpointLocked once it has chosen `e`. */
  function Grant(a: Alloc, e: nat): Alloc
    requires e in a.endpoints
  {
    var p := a.endpoints[e];
    a.(endpoints := a.endpoints[e := p.(active := p.active + 1)],
       ready := if p.active + 1 == p.settings.concurrency then a.ready - {e} else a.ready)
  }

  /** A request takes `e` for itself. */
  function Take(a: Alloc, e: nat): Alloc
    requires e in a.endpoints
  {
    Grant(a, e).(held := a.held + multiset{e})
  }

  predicate IsOpen(a: Alloc, w: nat) { w in a.chans && a.chans[w] == Open }

  /** Send `e` to the first waiter and close its channel. */
  function Serve(a: Alloc, e: nat): Alloc
    requires a.queue != []
  {
    var w := a.queue[0];
    a.(queue := a.queue[1..],
       chans := a.chans[w := Served(e)],
       served := a.served + [w],
       panicked := a.panicked || !IsOpen(a, w))
  }

  /** The grant ends; the endpoint is ready again. */
  function PutBack(a: Alloc, e: nat): Alloc
    requires e in a.endpoints
  {
    var p := a.endpoints[e];
    a.(endpoints := a.endpoints[e := p.(active := if p.active == 0 then UINT32 - 1 else p.active - 1)],
       ready := a.ready + {e})
  }

  /** releaseEndpointRLocked: hand over to the first waiter, or put back. */
  function GiveBack(a: Alloc, e: nat): Alloc {
    if e !in a.endpoints then a else if a.queue != [] then Serve(a, e) else PutBack(a, e)
  }

  function Release(a: Alloc, e: nat): Alloc { GiveBack(a.(held := a.held - multiset{e}), e) }

  predicate QueueFull(a: Alloc) { |a.queue| >= a.settings.queueSize }

  function Enqueue(a: Alloc): Alloc
    requires !QueueFull(a)
  {
    a.(queue := a.queue + [a.nextWaiter], chans := a.chans[a.nextWaiter := Open], nextWaiter := a.nextWaiter + 1)
  }

  function Without(q: seq<nat>, w: nat): seq<nat> {
    if q == [] then [] else if q[0] == w then q[1..] else [q[0]] + Without(q[1..], w)
  }

  function Forget(a: Alloc, w: nat): Alloc { a.(chans := a.chans - {w}) }

  /** cancelWaiterRLocked: leave the queue, or give back what was served. */
  function Cancel(a: Alloc, w: nat): Alloc
    requires w in a.chans
  {
    if w in a.queue then Forget(a.(queue := Without(a.queue, w)), w)
    else if a.chans[w].Served? then GiveBack(Forget(a, w), a.chans[w].endpoint)
    else Forget(a, w)
  }

  datatype Received = Got(endpoint: nat) | Retry | OverCapacity

  /** What a request makes of its waiter channel. */
  function Outcome(a: Alloc, w: nat): Received
    requires w in a.chans && a.chans[w] != Open
  {
    match a.chans[w]
    case Served(e) => if e in a.endpoints then Got(e) else Retry
    case _ => if a.endpoints == map[] then Retry else OverCapacity
  }

  function Receive(a: Alloc, w: nat): Alloc
    requires w in a.chans && a.chans[w] != Open
  {
    var b := Forget(a, w);
    match Outcome(a, w)
    case Got(e) => b.(held := a.held + multiset{e})
    case _ => b
  }

  // ----- publishing

  /** The 32-bit sum overflows. */
  predicate Overflows(x: nat, y: nat) { (x + y) % UINT32 < x }

  /** No other endpoint has the key, no total wraps around, and the object is
      new or has endpoints: one that lost its last endpoint is never used for
      publishing again. */
  predicate MayPublish(a: Alloc, key: nat, s: Settings) {
    && 0 < s.concurrency < UINT32 && s.queueSize < UINT32
    && (a.endpoints == map[] ==> a.nextEndpoint == 0)
    && (forall e :: e in a.endpoints ==> a.endpoints[e].key != key)
    && (a.endpoints == map[] ||
        (!Overflows(a.settings.concurrency, s.concurrency) && !Overflows(a.settings.queueSize, s.queueSize)))
  }

  function Min(x: nat, y: nat): nat { if x < y then x else y }

  function Max(x: nat, y: nat): nat { if x < y then y else x }

  /** publishLocked, before it wakes waiters up. The first endpoint creates the
      publication with its own settings; others add theirs. */
  function AddEndpoint(a: Alloc, key: nat, s: Settings): Alloc {
    var first := a.endpoints == map[];
    var t := a.settings;
    a.(endpoints := a.endpoints[a.nextEndpoint := Endpoint(0, key, s)],
       ready := a.ready + {a.nextEndpoint},
       nextEndpoint := a.nextEndpoint + 1,
       waking := Min(s.concurrency, |a.queue|),
       counts := a.counts[s.maxDistance := (if s.maxDistance in a.counts then a.counts[s.maxDistance] else 0) + 1],
       settings := Settings(
         if first then s.priority else t.priority,
         if first then s.maxDistance else Max(t.maxDistance, s.maxDistance),
         if first then s.concurrency else (t.concurrency + s.concurrency) % UINT32,
         if first then s.queueSize else (t.queueSize + s.queueSize) % UINT32))
  }

  /** The loop of wakeupWaitersLocked goes on; publishLocked is not finished. */
  predicate Waking(a: Alloc) { a.waking > 0 }

  /** One turn of that loop: `e` is taken for the first waiter. */
  function Wake(a: Alloc, e: nat): Alloc
    requires e in a.endpoints && a.queue != [] && a.waking > 0
  {
    Serve(Grant(a, e), e).(waking := a.waking - 1)
  }

  /** Close the waiters behind the first `keep` without an endpoint. */
  function Truncate(a: Alloc, keep: nat): Alloc
    requires keep <= |a.queue|
  {
    a.(queue := a.queue[..keep],
       chans := map w | w in a.chans :: if w in a.queue[keep..] then Dropped else a.chans[w],
       panicked := a.panicked || exists i :: keep <= i < |a.queue| && !IsOpen(a, a.queue[i]))
  }

  /** decrementCounterUint32 */
  function Decrement(counts: map<nat, nat>, k: nat): map<nat, nat> {
    if k in counts && counts[k] > 1 then counts[k := counts[k] - 1] else counts - {k}
  }

  ghost predicate IsLargest(ks: set<nat>, m: nat) {
    if ks == {} then m == 0 else m in ks && forall k :: k in ks ==> k <= m
  }

  lemma {:induction false} LargestExists(ks: set<nat>)
    ensures exists m :: IsLargest(ks, m)
    decreases |ks|
  {
    if ks == {} {
      assert IsLargest(ks, 0);
    } else {
      var k :| k in ks;
      var rest := ks - {k};
      LargestExists(rest);
      var m :| IsLargest(rest, m);
      assert forall j :: j in ks ==> j == k || j in rest;
      assert IsLargest(ks, if rest == {} then k else Max(m, k));
    }
  }

  ghost function Largest(ks: set<nat>): (m: nat)
    ensures IsLargest(ks, m)
  {
    LargestExists(ks);
    var m :| IsLargest(ks, m);
    m
  }

  /** unpublishLocked, up to what happens to the waiters. */
  ghost function RemoveEndpoint(a: Alloc, e: nat): Alloc
    requires e in a.endpoints
  {
    var s, t := a.endpoints[e].settings, a.settings;
    var counts := Decrement(a.counts, s.maxDistance);
    a.(endpoints := a.endpoints - {e},
       ready := a.ready - {e},
       counts := counts,
       settings := t.(maxDistance := if s.maxDistance in counts then t.maxDistance else Largest(counts.Keys),
                      concurrency := (t.concurrency - s.concurrency) % UINT32,
                      queueSize := (t.queueSize - s.queueSize) % UINT32))
  }

  /** The queue shrinks to the new limit; without endpoints it is emptied. */
  function Room(a: Alloc): nat {
    if a.endpoints == map[] then 0
    else if |a.queue| > a.settings.queueSize then a.settings.queueSize else |a.queue|
  }

  ghost function Unpublish(a: Alloc, e: nat): Alloc
    requires e in a.endpoints
  {
    var b := RemoveEndpoint(a, e);
    Truncate(b, Room(b))
  }

  // ----- invariants

  /** The waiters that have been sent `e` and have not looked yet. */
  function Sitting(a: Alloc, e: nat): set<nat> {
    set w | w in a.chans && a.chans[w] == Served(e)
  }

  /** An endpoint's counter is its outstanding grants, within its concurrency. */
  ghost predicate Accounted(a: Alloc) {
    && (forall e :: e in a.ready ==> e in a.endpoints)
    && (forall e :: e in a.endpoints ==>
          var p := a.endpoints[e];
          && p.active == a.held[e] + |Sitting(a, e)|
          && 0 < p.settings.concurrency < UINT32 && p.settings.queueSize < UINT32
          && p.active <= p.settings.concurrency
          && (e in a.ready <==> p.active < p.settings.concurrency))
  }

  /** Identifiers are fresh when they are handed out. */
  ghost predicate Numbered(a: Alloc) {
    && (forall e :: e in a.endpoints ==> e < a.nextEndpoint)
    && (forall e :: e in a.held ==> e < a.nextEndpoint)
    && (forall w :: w in a.chans ==> w < a.nextWaiter && (a.chans[w].Served? ==> a.chans[w].endpoint < a.nextEndpoint))
  }

  ghost predicate Increasing(q: seq<nat>) { forall i, j :: 0 <= i < j < |q| ==> q[i] < q[j] }

  /** Exactly the queued waiters are unresolved, in order of arrival, and
      everyone served so far came before everyone still waiting. */
  ghost predicate Lined(a: Alloc) {
    && !a.panicked
    && Increasing(a.queue) && Increasing(a.served)
    && (forall w :: w in a.queue <==> IsOpen(a, w))
    && (forall i, j :: 0 <= i < |a.served| && 0 <= j < |a.queue| ==> a.served[i] < a.queue[j])
    && (forall i :: 0 <= i < |a.served| ==> a.served[i] < a.nextWaiter)
    && |a.queue| <= a.settings.queueSize
    && (a.endpoints == map[] ==> a.queue == [])
  }

  datatype Field = Concurrency | QueueSize

  function Of(s: Settings, f: Field): nat { if f == Concurrency then s.concurrency else s.queueSize }

  /** A sum over all endpoints. */
  ghost function Total(es: map<nat, Endpoint>, f: Field): nat
    decreases |es|
  {
    if es == map[] then 0 else
    var k :| k in es;
    Of(es[k].settings, f) + Total(es - {k}, f)
  }

  /** The endpoints that may be announced as far as `d`. */
  function Reaching(es: map<nat, Endpoint>, d: nat): set<nat> {
    set e | e in es && es[e].settings.maxDistance == d
  }

  /** The publication's own settings are exact sums and the exact maximum. */
  ghost predicate Totalled(a: Alloc) { Summed(a) && Ranged(a) }

  ghost predicate Summed(a: Alloc) {
    && a.settings.concurrency == Total(a.endpoints, Concurrency) < UINT32
    && a.settings.queueSize == Total(a.endpoints, QueueSize) < UINT32
  }

  ghost predicate Ranged(a: Alloc) {
    && (forall d :: d in a.counts <==> Reaching(a.endpoints, d) != {})
    && (forall d :: d in a.counts ==> a.counts[d] == |Reaching(a.endpoints, d)|)
    && IsLargest(a.counts.Keys, a.settings.maxDistance)
  }

  ghost predicate Inv(a: Alloc) { Accounted(a) && Numbered(a) && Lined(a) && Totalled(a) }

  /** While waiters are being woken up, there are enough of them, and the newest
      endpoint alone has room for all that are still to be served. */
  ghost predicate Budgeted(a: Alloc) {
    a.waking > 0 ==>
      && a.waking <= |a.queue|
      && a.nextEndpoint > 0 && a.nextEndpoint - 1 in a.endpoints
      && a.endpoints[a.nextEndpoint - 1].active + a.waking <= a.endpoints[a.nextEndpoint - 1].settings.concurrency
  }

  /** Endpoints have different keys. */
  ghost predicate Keyed(a: Alloc) {
    forall e, o :: e in a.endpoints && o in a.endpoints && a.endpoints[e].key == a.endpoints[o].key ==> e == o
  }

  // ----- steps

  datatype Step =
    | DoTake(endpoint: nat)
    | DoEnqueue
    | DoReceive(waiter: nat)
    | DoRelease(endpoint: nat)
    | DoCancel(waiter: nat)
    | DoPublish(key: nat, settings: Settings)
    | DoWake(endpoint: nat)
    | DoUnpublish(endpoint: nat)

  /** Nothing else runs while publishLocked wakes waiters up. */
  predicate Enabled(a: Alloc, st: Step) {
    && Waking(a) == st.DoWake?
    && match st
       case DoTake(e) => IsLeast(a, e)
       case DoEnqueue => !QueueFull(a)
       case DoReceive(w) => w in a.chans && a.chans[w] != Open
       case DoRelease(e) => e in a.held
       case DoCancel(w) => w in a.chans
       case DoPublish(key, s) => MayPublish(a, key, s)
       case DoWake(e) => IsLeast(a, e) && a.queue != []
       case DoUnpublish(e) => e in a.endpoints
  }

  ghost function Next(a: Alloc, st: Step): Alloc
    requires Enabled(a, st)
  {
    match st
    case DoTake(e) => Take(a, e)
    case DoEnqueue => Enqueue(a)
    case DoReceive(w) => Receive(a, w)
    case DoRelease(e) => Release(a, e)
    case DoCancel(w) => Cancel(a, w)
    case DoPublish(key, s) => AddEndpoint(a, key, s)
    case DoWake(e) => Wake(a, e)
    case DoUnpublish(e) => Unpublish(a, e)
  }
}

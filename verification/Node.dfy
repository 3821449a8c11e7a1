/** The registry, the publication objects and the watchers of one server, joined:
    publishing and unpublishing endpoints reaches the index exactly when a
    publication appears or goes, and every watcher each time. */
module Node {
  import opened Registry
  import opened RegistryFrames
  import A = Allocator
  import AllocatorProofs
  import T = AllocatorTheorems
  import P = Publication
  import C = Changes

  /** A watcher, and the table its client has from the batches read so far. */
  datatype Watch = Watch(w: C.Watcher, table: C.Table)

  datatype Node = Node(g: Reg, pubs: map<nat, A.Alloc>, watches: map<nat, Watch>)

  /** What is announced of a publication. */
  function EntryOf(pub: Pub, a: A.Alloc): C.Entry { C.Entry(pub.name, pub.priority, a.settings.maxDistance) }

  function TableOf(g: Reg, pubs: map<nat, A.Alloc>): C.Table {
    if pubs == map[] then map[] else map p | p in g.pubs && p in pubs :: EntryOf(g.pubs[p], pubs[p])
  }

  ghost predicate Alive(a: A.Alloc) { T.Good(a) && !A.Waking(a) && a.endpoints != map[] }

  /** The index lists exactly the publications with endpoints, and every watcher
      owes its client exactly what the client does not know. */
  ghost predicate Joined(n: Node) {
    && Indexed(n.g)
    && n.pubs.Keys == n.g.pubs.Keys
    && PubsAlive(n.pubs)
    && WatchesOwe(n.watches, TableOf(n.g, n.pubs))
  }

  ghost predicate AliveAt(pubs: map<nat, A.Alloc>, p: nat) { p in pubs ==> Alive(pubs[p]) }

  ghost predicate PubsAlive(pubs: map<nat, A.Alloc>) { forall p: nat :: AliveAt(pubs, p) }

  ghost predicate OwesAt(watches: map<nat, Watch>, t: C.Table, i: nat) {
    i in watches ==> C.Owes(watches[i].w, t, watches[i].table)
  }

  ghost predicate WatchesOwe(watches: map<nat, Watch>, t: C.Table) { forall i: nat :: OwesAt(watches, t, i) }

  // ----- steps

  function AllChanged(watches: map<nat, Watch>, p: nat): map<nat, Watch> {
    map i | i in watches :: Watch(C.NoteChanged(watches[i].w, p), watches[i].table)
  }

  function AllRemoved(watches: map<nat, Watch>, p: nat): map<nat, Watch> {
    map i | i in watches :: Watch(C.NoteRemoved(watches[i].w, p), watches[i].table)
  }

  /** One call of Publication.Publish. */
  ghost predicate Published(a: A.Alloc, key: nat, s: A.Settings, b: A.Alloc) {
    exists trace: seq<A.Alloc>, steps: seq<A.Step> ::
      && P.Segment(trace, steps) && |steps| > 0 && steps[0] == A.DoPublish(key, s)
      && (forall i :: 1 <= i < |steps| ==> steps[i].DoWake?)
      && trace[0] == a && trace[|steps|] == b && !A.Waking(b)
  }

  /** publishLocked: another endpoint of a publication that is there. */
  ghost predicate Adds(n: Node, p: nat, key: nat, s: A.Settings, n': Node) {
    && p in n.pubs && p in n'.pubs && n'.pubs == n.pubs[p := n'.pubs[p]]
    && Published(n.pubs[p], key, s, n'.pubs[p])
    && n'.g == n.g && n'.watches == AllChanged(n.watches, p)
  }

  /** publishLocked: the first endpoint of a name and priority. */
  ghost predicate Creates(n: Node, p: nat, name: string, priority: Priority, key: nat, s: A.Settings, n': Node) {
    && p !in n.pubs && p in n'.pubs && n'.pubs == n.pubs[p := n'.pubs[p]]
    && Published(A.Empty(), key, s, n'.pubs[p])
    && Indexed(n'.g) && EntriesOf(n'.g) == EntriesOf(n.g).(pubs := EntriesOf(n.g).pubs[p := Pub(name, priority, {})])
    && n'.watches == AllChanged(n.watches, p)
  }

  /** unpublishLocked: endpoints are left. */
  ghost predicate Drops(n: Node, p: nat, e: nat, n': Node) {
    && p in n.pubs && e in n.pubs[p].endpoints && A.Unpublish(n.pubs[p], e).endpoints != map[]
    && n'.pubs == n.pubs[p := A.Unpublish(n.pubs[p], e)]
    && n'.g == n.g && n'.watches == AllChanged(n.watches, p)
  }

  /** unpublishLocked: it was the last endpoint. */
  ghost predicate Ends(n: Node, p: nat, e: nat, n': Node) {
    && p in n.pubs && e in n.pubs[p].endpoints && A.Unpublish(n.pubs[p], e).endpoints == map[]
    && n'.pubs == n.pubs - {p}
    && Indexed(n'.g) && EntriesOf(n'.g) == EntriesOf(n.g).(pubs := EntriesOf(n.g).pubs - {p})
    && n'.watches == AllRemoved(n.watches, p)
  }

  /** A request uses a publication. */
  ghost predicate Uses(n: Node, p: nat, st: A.Step, n': Node) {
    && p in n.pubs && p in n'.pubs && n' == n.(pubs := n.pubs[p := n'.pubs[p]])
    && (st.DoTake? || st.DoEnqueue? || st.DoReceive? || st.DoRelease? || st.DoCancel?)
    && T.Follows(n.pubs[p], st, n'.pubs[p])
  }

  /** Any other operation of the registry: remotes, routes, subscriptions. */
  ghost predicate Rewires(n: Node, n': Node) {
    n' == n.(g := n'.g) && Indexed(n'.g) && PubInfo(n'.g.pubs) == PubInfo(n.g.pubs)
  }

  ghost predicate Opens(n: Node, i: nat, n': Node) {
    i !in n.watches && n' == n.(watches := n.watches[i := Watch(C.Opened(TableOf(n.g, n.pubs)), map[])])
  }

  ghost predicate Reads(n: Node, i: nat, b: C.Batch, w: C.Watcher, n': Node) {
    && i in n.watches && C.ReadStep(n.watches[i].w, TableOf(n.g, n.pubs), b, w)
    && n' == n.(watches := n.watches[i := Watch(w, C.Replay(n.watches[i].table, b))])
  }

  ghost predicate Stops(n: Node, i: nat, n': Node) { n' == n.(watches := n.watches - {i}) }

  datatype Event =
    | Add(p: nat, key: nat, s: A.Settings)
    | Create(p: nat, name: string, priority: Priority, key: nat, s: A.Settings)
    | Use(p: nat, st: A.Step)
    | Rewire
    | Drop(p: nat, e: nat)
    | End(p: nat, e: nat)
    | Open(i: nat)
    | Read(i: nat, b: C.Batch, w: C.Watcher)
    | Stop(i: nat)

  ghost predicate Next(n: Node, ev: Event, n': Node) {
    match ev
    case Add(p, key, s) => Adds(n, p, key, s, n')
    case Create(p, name, priority, key, s) => Creates(n, p, name, priority, key, s, n')
    case Use(p, st) => Uses(n, p, st, n')
    case Rewire => Rewires(n, n')
    case Drop(p, e) => Drops(n, p, e, n')
    case End(p, e) => Ends(n, p, e, n')
    case Open(i) => Opens(n, i, n')
    case Read(i, b, w) => Reads(n, i, b, w, n')
    case Stop(i) => Stops(n, i, n')
  }

  // ----- publication objects

  lemma {:induction false} SegmentAlive(trace: seq<A.Alloc>, steps: seq<A.Step>, k: nat)
    requires P.Segment(trace, steps) && 0 < k <= |steps| && T.Good(trace[0])
    requires steps[0].DoPublish? && forall i :: 1 <= i < |steps| ==> steps[i].DoWake?
    ensures T.Good(trace[k]) && trace[k].endpoints != map[]
  {
    if k == 1 {
      FirstAlive(trace[0], steps[0], trace[1]);
    } else {
      SegmentAlive(trace, steps, k - 1);
      WakeAlive(trace[k - 1], steps[k - 1], trace[k]);
    }
  }

  lemma FirstAlive(a: A.Alloc, st: A.Step, b: A.Alloc)
    requires T.Good(a) && T.Follows(a, st, b) && st.DoPublish?
    ensures T.Good(b) && b.endpoints != map[]
  {
    T.FollowKeeps(a, st, b);
    assert a.nextEndpoint in b.endpoints;
  }

  lemma WakeAlive(a: A.Alloc, st: A.Step, b: A.Alloc)
    requires T.Good(a) && T.Follows(a, st, b) && st.DoWake? && a.endpoints != map[]
    ensures T.Good(b) && b.endpoints != map[]
  {
    T.FollowKeeps(a, st, b);
    assert st.endpoint in b.endpoints;
  }

  lemma PublishedAlive(a: A.Alloc, key: nat, s: A.Settings, b: A.Alloc)
    requires T.Good(a) && Published(a, key, s, b)
    ensures Alive(b)
  {
    var trace: seq<A.Alloc>, steps: seq<A.Step> :|
      && P.Segment(trace, steps) && |steps| > 0 && steps[0] == A.DoPublish(key, s)
      && (forall i :: 1 <= i < |steps| ==> steps[i].DoWake?)
      && trace[0] == a && trace[|steps|] == b && !A.Waking(b);
    SegmentAlive(trace, steps, |steps|);
  }

  lemma UnpublishedAlive(a: A.Alloc, e: nat)
    requires Alive(a) && e in a.endpoints && A.Unpublish(a, e).endpoints != map[]
    ensures Alive(A.Unpublish(a, e))
  {
    UnpublishedGood(a, e, A.Unpublish(a, e));
    UnpublishWakesNone(a, e);
  }

  lemma UnpublishedGood(a: A.Alloc, e: nat, b: A.Alloc)
    requires T.Good(a) && T.Follows(a, A.DoUnpublish(e), b)
    ensures T.Good(b)
  {
    T.FollowKeeps(a, A.DoUnpublish(e), b);
  }

  lemma UnpublishWakesNone(a: A.Alloc, e: nat)
    requires e in a.endpoints
    ensures A.Unpublish(a, e).waking == a.waking
  {
  }

  // ----- watchers

  lemma AliveWith(pubs: map<nat, A.Alloc>, p: nat, a: A.Alloc)
    requires PubsAlive(pubs) && Alive(a)
    ensures PubsAlive(pubs[p := a])
  {
    var more := pubs[p := a];
    forall o: nat ensures AliveAt(more, o) { assert AliveAt(pubs, o); }
  }

  lemma AliveWithout(pubs: map<nat, A.Alloc>, p: nat)
    requires PubsAlive(pubs)
    ensures PubsAlive(pubs - {p})
  {
    var few := pubs - {p};
    forall o: nat ensures AliveAt(few, o) { assert AliveAt(pubs, o); }
  }

  lemma WatchersChanged(watches: map<nat, Watch>, t: C.Table, p: nat, entry: C.Entry)
    requires WatchesOwe(watches, t)
    ensures WatchesOwe(AllChanged(watches, p), t[p := entry])
  {
    var more, noted := t[p := entry], AllChanged(watches, p);
    forall i: nat ensures OwesAt(noted, more, i) {
      assert OwesAt(watches, t, i);
      if i in watches { C.OwesChanged(watches[i].w, t, watches[i].table, p, entry); }
    }
  }

  lemma WatchersRemoved(watches: map<nat, Watch>, t: C.Table, p: nat)
    requires WatchesOwe(watches, t)
    ensures WatchesOwe(AllRemoved(watches, p), t - {p})
  {
    var few, noted := t - {p}, AllRemoved(watches, p);
    forall i: nat ensures OwesAt(noted, few, i) {
      assert OwesAt(watches, t, i);
      if i in watches { C.OwesRemoved(watches[i].w, t, watches[i].table, p); }
    }
  }

  lemma WatchersWith(watches: map<nat, Watch>, t: C.Table, i: nat, x: Watch)
    requires WatchesOwe(watches, t) && C.Owes(x.w, t, x.table)
    ensures WatchesOwe(watches[i := x], t)
  {
    var more := watches[i := x];
    forall o: nat ensures OwesAt(more, t, o) { assert OwesAt(watches, t, o); }
  }

  lemma WatchersWithout(watches: map<nat, Watch>, t: C.Table, i: nat)
    requires WatchesOwe(watches, t)
    ensures WatchesOwe(watches - {i}, t)
  {
    var few := watches - {i};
    forall o: nat ensures OwesAt(few, t, o) { assert OwesAt(watches, t, o); }
  }

  /** Other back-references do not show in the table. */
  lemma TableWith(g: Reg, g': Reg, pubs: map<nat, A.Alloc>, p: nat, pub: Pub, a: A.Alloc)
    requires pubs.Keys == g.pubs.Keys && PubInfo(g'.pubs) == PubInfo(g.pubs)[p := pub.(subs := {})]
    ensures g'.pubs.Keys == g.pubs.Keys + {p}
    ensures TableOf(g', pubs[p := a]) == TableOf(g, pubs)[p := EntryOf(pub, a)]
  {
    PubsWith(g.pubs, g'.pubs, p, pub);
    TablesAgree(g, g', pubs, p, pub, a);
  }

  lemma PubsWith(was: map<nat, Pub>, now: map<nat, Pub>, p: nat, pub: Pub)
    requires PubInfo(now) == PubInfo(was)[p := pub.(subs := {})]
    ensures now.Keys == was.Keys + {p} && forall o :: o in now ==> SameEntry(now[o], if o == p then pub else was[o])
  {
    assert now.Keys == PubInfo(now).Keys == was.Keys + {p};
    forall o | o in now ensures SameEntry(now[o], if o == p then pub else was[o]) {
      assert PubInfo(now)[o] == if o == p then pub.(subs := {}) else PubInfo(was)[o];
    }
  }

  predicate SameEntry(x: Pub, y: Pub) { x.name == y.name && x.priority == y.priority }

  lemma TablesAgree(g: Reg, g': Reg, pubs: map<nat, A.Alloc>, p: nat, pub: Pub, a: A.Alloc)
    requires pubs.Keys == g.pubs.Keys && g'.pubs.Keys == g.pubs.Keys + {p}
    requires forall o :: o in g'.pubs ==> SameEntry(g'.pubs[o], if o == p then pub else g.pubs[o])
    ensures TableOf(g', pubs[p := a]) == TableOf(g, pubs)[p := EntryOf(pub, a)]
  {
  }

  lemma TableWithout(g: Reg, g': Reg, pubs: map<nat, A.Alloc>, p: nat)
    requires pubs.Keys == g.pubs.Keys && PubInfo(g'.pubs) == PubInfo(g.pubs) - {p}
    ensures g'.pubs.Keys == g.pubs.Keys - {p}
    ensures TableOf(g', pubs - {p}) == TableOf(g, pubs) - {p}
  {
    assert g'.pubs.Keys == PubInfo(g'.pubs).Keys == g.pubs.Keys - {p};
    forall o | o in g'.pubs ensures g'.pubs[o].name == g.pubs[o].name && g'.pubs[o].priority == g.pubs[o].priority {
      assert PubInfo(g'.pubs)[o] == PubInfo(g.pubs)[o];
    }
  }

  lemma SamePub(g: Reg, p: nat)
    requires p in g.pubs
    ensures PubInfo(g.pubs) == PubInfo(g.pubs)[p := g.pubs[p].(subs := {})]
  {
  }

  // ----- every step keeps them joined

  lemma ChangeKeeps(n: Node, p: nat, a: A.Alloc, g: Reg, pub: Pub)
    requires Joined(n) && Alive(a) && Indexed(g) && PubInfo(g.pubs) == PubInfo(n.g.pubs)[p := pub.(subs := {})]
    ensures Joined(Node(g, n.pubs[p := a], AllChanged(n.watches, p)))
  {
    AliveWith(n.pubs, p, a);
    TableWith(n.g, g, n.pubs, p, pub, a);
    WatchersChanged(n.watches, TableOf(n.g, n.pubs), p, EntryOf(pub, a));
  }

  lemma AddsKeeps(n: Node, p: nat, key: nat, s: A.Settings, n': Node)
    requires Joined(n) && Adds(n, p, key, s, n')
    ensures Joined(n')
  {
    assert AliveAt(n.pubs, p);
    PublishedAlive(n.pubs[p], key, s, n'.pubs[p]);
    SamePub(n.g, p);
    ChangeKeeps(n, p, n'.pubs[p], n.g, n.g.pubs[p]);
  }

  lemma CreatesKeeps(n: Node, p: nat, name: string, priority: Priority, key: nat, s: A.Settings, n': Node)
    requires Joined(n) && Creates(n, p, name, priority, key, s, n')
    ensures Joined(n')
  {
    T.EmptyInv();
    PublishedAlive(A.Empty(), key, s, n'.pubs[p]);
    ChangeKeeps(n, p, n'.pubs[p], n'.g, Pub(name, priority, {}));
  }

  lemma DropsKeeps(n: Node, p: nat, e: nat, n': Node)
    requires Joined(n) && Drops(n, p, e, n')
    ensures Joined(n')
  {
    assert AliveAt(n.pubs, p);
    UnpublishedAlive(n.pubs[p], e);
    SamePub(n.g, p);
    ChangeKeeps(n, p, n'.pubs[p], n.g, n.g.pubs[p]);
  }

  lemma EndsKeeps(n: Node, p: nat, e: nat, n': Node)
    requires Joined(n) && Ends(n, p, e, n')
    ensures Joined(n')
  {
    AliveWithout(n.pubs, p);
    TableWithout(n.g, n'.g, n.pubs, p);
    WatchersRemoved(n.watches, TableOf(n.g, n.pubs), p);
  }

  lemma ReadsKeeps(n: Node, i: nat, b: C.Batch, w: C.Watcher, n': Node)
    requires Joined(n) && Reads(n, i, b, w, n')
    ensures Joined(n')
  {
    assert OwesAt(n.watches, TableOf(n.g, n.pubs), i);
    C.OwesRead(n.watches[i].w, TableOf(n.g, n.pubs), n.watches[i].table, b, w);
    WatchersWith(n.watches, TableOf(n.g, n.pubs), i, Watch(w, C.Replay(n.watches[i].table, b)));
  }

  lemma OpensKeeps(n: Node, i: nat, n': Node)
    requires Joined(n) && Opens(n, i, n')
    ensures Joined(n')
  {
    C.OwesOpened(TableOf(n.g, n.pubs));
    WatchersWith(n.watches, TableOf(n.g, n.pubs), i, Watch(C.Opened(TableOf(n.g, n.pubs)), map[]));
  }

  lemma UseAlive(a: A.Alloc, st: A.Step, b: A.Alloc)
    requires Alive(a) && T.Follows(a, st, b) && (st.DoTake? || st.DoEnqueue? || st.DoReceive? || st.DoRelease? || st.DoCancel?)
    ensures Alive(b) && b.settings == a.settings
  {
    T.FollowKeeps(a, st, b);
    UseShape(a, st);
  }

  ghost predicate SameShape(a: A.Alloc, b: A.Alloc) {
    b.endpoints.Keys == a.endpoints.Keys && b.settings == a.settings && b.waking == a.waking
  }

  lemma GiveBackShape(a: A.Alloc, e: nat)
    ensures SameShape(a, A.GiveBack(a, e))
  {
  }

  lemma UseShape(a: A.Alloc, st: A.Step)
    requires A.Enabled(a, st) && (st.DoTake? || st.DoEnqueue? || st.DoReceive? || st.DoRelease? || st.DoCancel?)
    ensures SameShape(a, A.Next(a, st))
  {
    match st
    case DoRelease(e) => GiveBackShape(a.(held := a.held - multiset{e}), e);
    case DoCancel(w) => if w !in a.queue && a.chans[w].Served? { GiveBackShape(A.Forget(a, w), a.chans[w].endpoint); }
    case DoTake(_) =>
    case DoEnqueue =>
    case DoReceive(_) =>
  }

  lemma UsesKeeps(n: Node, p: nat, st: A.Step, n': Node)
    requires Joined(n) && Uses(n, p, st, n')
    ensures Joined(n')
  {
    assert AliveAt(n.pubs, p);
    UseAlive(n.pubs[p], st, n'.pubs[p]);
    AliveWith(n.pubs, p, n'.pubs[p]);
    TableUsed(n.g, n.pubs, p, n'.pubs[p]);
  }

  lemma TableUsed(g: Reg, pubs: map<nat, A.Alloc>, p: nat, b: A.Alloc)
    requires p in pubs && b.settings == pubs[p].settings
    ensures TableOf(g, pubs[p := b]) == TableOf(g, pubs)
  {
  }

  lemma RewiresKeeps(n: Node, n': Node)
    requires Joined(n) && Rewires(n, n')
    ensures Joined(n')
  {
    TableSame(n.g, n'.g, n.pubs);
  }

  lemma TableSame(g: Reg, g': Reg, pubs: map<nat, A.Alloc>)
    requires PubInfo(g'.pubs) == PubInfo(g.pubs)
    ensures g'.pubs.Keys == g.pubs.Keys && TableOf(g', pubs) == TableOf(g, pubs)
  {
    assert g'.pubs.Keys == PubInfo(g'.pubs).Keys == g.pubs.Keys;
    forall o | o in g.pubs ensures g'.pubs[o].name == g.pubs[o].name && g'.pubs[o].priority == g.pubs[o].priority {
      assert PubInfo(g'.pubs)[o] == PubInfo(g.pubs)[o];
    }
  }

  lemma NextKeeps(n: Node, ev: Event, n': Node)
    requires Joined(n) && Next(n, ev, n')
    ensures Joined(n')
  {
    match ev
    case Add(p, key, s) => AddsKeeps(n, p, key, s, n');
    case Create(p, name, priority, key, s) => CreatesKeeps(n, p, name, priority, key, s, n');
    case Use(p, st) => UsesKeeps(n, p, st, n');
    case Rewire => RewiresKeeps(n, n');
    case Drop(p, e) => DropsKeeps(n, p, e, n');
    case End(p, e) => EndsKeeps(n, p, e, n');
    case Open(i) => OpensKeeps(n, i, n');
    case Read(i, b, w) => ReadsKeeps(n, i, b, w, n');
    case Stop(i) => WatchersWithout(n.watches, TableOf(n.g, n.pubs), i);
  }

  ghost predicate IsRun(run: seq<Node>, events: seq<Event>) {
    && |run| == |events| + 1
    && run[0] == Node(Reg(map[], map[], map[], map[], map[], map[], map[]), map[], map[])
    && forall k :: 0 <= k < |events| ==> Next(run[k], events[k], run[k + 1])
  }

  lemma EmptyIndexed()
    ensures Indexed(Reg(map[], map[], map[], map[], map[], map[], map[]))
  {
  }

  lemma StartJoined()
    ensures Joined(Node(Reg(map[], map[], map[], map[], map[], map[], map[]), map[], map[]))
  {
    EmptyIndexed();
  }

  lemma {:induction false} RunKeeps(run: seq<Node>, events: seq<Event>, k: nat)
    requires IsRun(run, events) && k < |run|
    ensures Joined(run[k])
  {
    if k == 0 {
      StartJoined();
    } else {
      RunKeeps(run, events, k - 1);
      NextKeeps(run[k - 1], events[k - 1], run[k]);
    }
  }

  /** The announced distance is the largest that an endpoint allows. */
  ghost predicate Reaches(a: A.Alloc) {
    && (forall e :: e in a.endpoints ==> a.endpoints[e].settings.maxDistance <= a.settings.maxDistance)
    && exists e :: e in a.endpoints && a.endpoints[e].settings.maxDistance == a.settings.maxDistance
  }

  lemma AliveReaches(a: A.Alloc)
    requires Alive(a)
    ensures Reaches(a)
  {
    forall e | e in a.endpoints ensures a.endpoints[e].settings.maxDistance <= a.settings.maxDistance {
      assert e in A.Reaching(a.endpoints, a.endpoints[e].settings.maxDistance);
    }
    AllocatorProofs.NoneReached(a);
    var e :| e in A.Reaching(a.endpoints, a.settings.maxDistance);
  }

  /** On any run, the index holds exactly the publications with endpoints; and a
      client with nothing pending has each of them with the largest distance
      that any of its endpoints allows. */
  lemma ClientsSeeEndpoints(run: seq<Node>, events: seq<Event>, k: nat, i: nat)
    requires IsRun(run, events) && k < |run| && i in run[k].watches && !C.Pending(run[k].watches[i].w)
    ensures var n := run[k];
            && n.watches[i].table.Keys == n.g.pubs.Keys == n.pubs.Keys
            && forall p :: p in n.pubs ==>
                 var t := n.watches[i].table[p];
                 && t.name == n.g.pubs[p].name && t.priority == n.g.pubs[p].priority
                 && t.maxDistance == n.pubs[p].settings.maxDistance && Reaches(n.pubs[p])
  {
    RunKeeps(run, events, k);
    var n := run[k];
    assert OwesAt(n.watches, TableOf(n.g, n.pubs), i);
    C.CaughtUp(n.watches[i].w, TableOf(n.g, n.pubs), n.watches[i].table);
    forall p: nat | p in n.pubs ensures Reaches(n.pubs[p]) {
      assert AliveAt(n.pubs, p);
      AliveReaches(n.pubs[p]);
    }
  }
}

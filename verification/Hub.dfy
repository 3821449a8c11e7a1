/** One server with its publication objects and watchers: publishing, unpublishing,
    watching and reading are the steps that Node.dfy speaks about. */
module Hub {
  import opened Registry
  import opened RegistryFrames
  import S = Server
  import opened Node

  ghost predicate Injective<T>(m: map<nat, T>) {
    forall i, j :: i in m && j in m && m[i] == m[j] ==> i == j
  }

  ghost predicate KeptAt(n: Node, next: nat, k: nat) { S.Whole(n.g, next) && Joined(n) }

  /** The registry is whole and joined with publications and watchers. This is
      looked into where it is asked for. */
  ghost predicate Kept(n: Node, next: nat) { forall k: nat :: KeptAt(n, next, k) }

  lemma KeptIs(n: Node, next: nat)
    ensures Kept(n, next) <==> S.Whole(n.g, next) && Joined(n)
  {
    if Kept(n, next) { assert KeptAt(n, next, 0); }
  }

  lemma KeptAlive(n: Node, next: nat)
    requires Kept(n, next)
    ensures PubsAlive(n.pubs) && n.pubs.Keys == n.g.pubs.Keys
  {
    KeptIs(n, next);
  }

  lemma AddsKept(n: Node, next: nat, p: nat, key: nat, s: A.Settings, n': Node)
    requires Kept(n, next) && Adds(n, p, key, s, n')
    ensures Kept(n', next)
  {
    KeptIs(n, next);
    AddsKeeps(n, p, key, s, n');
    KeptIs(n', next);
  }

  /** The registry with one more publication. */
  ghost predicate Made(n: Node, p: nat, name: string, priority: Priority, g: Reg, next: nat) {
    && p !in n.pubs && S.Whole(g, next)
    && EntriesOf(g) == EntriesOf(n.g).(pubs := EntriesOf(n.g).pubs[p := Pub(name, priority, {})])
  }

  ghost predicate MadeAt(n: Node, p: nat, name: string, priority: Priority, g: Reg, next: nat, k: nat) { Made(n, p, name, priority, g, next) }

  lemma CreatesKept(n: Node, next: nat, p: nat, name: string, key: nat, s: A.Settings, n': Node, next': nat)
    requires Kept(n, next) && Sized(s) && forall k: nat :: MadeAt(n, p, name, s.priority, n'.g, next', k)
    requires p in n'.pubs && n'.pubs == n.pubs[p := n'.pubs[p]] && Published(A.Empty(), key, s, n'.pubs[p])
    requires n'.watches == AllChanged(n.watches, p)
    ensures Kept(n', next') && Next(n, Create(p, name, s.priority, key, s), n')
  {
    KeptIs(n, next);
    assert MadeAt(n, p, name, s.priority, n'.g, next', 0);
    CreatesKeeps(n, p, name, s.priority, key, s, n');
    KeptIs(n', next');
  }

  /** The publication of the name and priority, found or made. */
  method Find(server: S.Server, ghost n: Node, name: string, priority: Priority) returns (p: nat, created: bool)
    requires n.g == server.reg && Kept(n, server.next)
    modifies server
    ensures created <==> forall o :: !S.IsPub(n.g, o, name, priority)
    ensures created ==> p !in n.pubs && forall k: nat :: MadeAt(n, p, name, priority, server.reg, server.next, k)
    ensures !created ==> server.reg == n.g && Kept(n, server.next) && S.IsPub(n.g, p, name, priority) && p in n.pubs
  {
    KeptIs(n, server.next);
    p, created := server.Publish(name, priority);
    KeptIs(n, server.next);
  }

  lemma DropsKept(n: Node, next: nat, p: nat, e: nat, b: A.Alloc, n': Node)
    requires Kept(n, next) && p in n.pubs && Lost(n.pubs[p], e, b, false)
    requires n' == Node(n.g, n.pubs[p := b], AllChanged(n.watches, p))
    ensures Kept(n', next) && Next(n, Event.Drop(p, e), n')
  {
    KeptIs(n, next);
    assert LostAt(n.pubs[p], e, b, false, 0);
    DropsKeeps(n, p, e, n');
    KeptIs(n', next);
  }

  /** The registry with one publication less. */
  ghost predicate GoneAt(n: Node, p: nat, g: Reg, next: nat, k: nat) {
    S.Whole(g, next) && EntriesOf(g) == EntriesOf(n.g).(pubs := EntriesOf(n.g).pubs - {p})
  }

  lemma EndsKept(n: Node, next: nat, p: nat, e: nat, b: A.Alloc, n': Node, next': nat)
    requires Kept(n, next) && p in n.pubs && Lost(n.pubs[p], e, b, true) && forall k: nat :: GoneAt(n, p, n'.g, next', k)
    requires n'.pubs == n.pubs - {p} && n'.watches == AllRemoved(n.watches, p)
    ensures Kept(n', next') && Next(n, Event.End(p, e), n')
  {
    KeptIs(n, next);
    assert LostAt(n.pubs[p], e, b, true, 0) && GoneAt(n, p, n'.g, next', 0);
    EndsKeeps(n, p, e, n');
    KeptIs(n', next');
  }

  lemma Outlived(pubs: map<nat, A.Alloc>, p: nat, b: A.Alloc)
    ensures pubs[p := b] - {p} == pubs - {p}
  {
  }

  method Retire(server: S.Server, ghost n: Node, p: nat)
    requires n.g == server.reg && Kept(n, server.next) && p in n.pubs
    modifies server
    ensures forall k: nat :: GoneAt(n, p, server.reg, server.next, k)
  {
    KeptIs(n, server.next);
    server.Unpublish(p);
  }

  ghost predicate AnnouncesAt(n: Node, table: C.Table, k: nat) { table == TableOf(n.g, n.pubs) }

  ghost predicate Announces(n: Node, table: C.Table) { forall k: nat :: AnnouncesAt(n, table, k) }

  lemma OpensKept(n: Node, next: nat, i: nat, table: C.Table, n': Node)
    requires Kept(n, next) && Announces(n, table) && i !in n.watches
    requires n' == n.(watches := n.watches[i := Watch(C.Opened(table), map[])])
    ensures Kept(n', next) && Next(n, Event.Open(i), n')
  {
    KeptIs(n, next);
    assert AnnouncesAt(n, table, 0);
    OpensKeeps(n, i, n');
    KeptIs(n', next);
  }

  lemma StopsKept(n: Node, next: nat, i: nat, n': Node)
    requires Kept(n, next) && Stops(n, i, n')
    ensures Kept(n', next) && Next(n, Event.Stop(i), n')
  {
    KeptIs(n, next);
    NextKeeps(n, Event.Stop(i), n');
    KeptIs(n', next);
  }

  lemma NothingLost(n: Node, next: nat, i: nat, table: C.Table)
    requires Kept(n, next) && i in n.watches && Announces(n, table)
    ensures n.watches[i].w.changed <= table.Keys
  {
    KeptIs(n, next);
    assert AnnouncesAt(n, table, 0);
    assert OwesAt(n.watches, TableOf(n.g, n.pubs), i);
  }

  /** A batch from the watcher `i`, if it has one. */
  ghost predicate ReadFrom(watches: map<nat, Watch>, i: nat, table: C.Table, b: C.Batch, ready: bool, watches': map<nat, Watch>) {
    && i in watches && i in watches' && (ready <==> C.Pending(watches[i].w))
    && (!ready ==> watches' == watches)
    && (ready ==> C.ReadStep(watches[i].w, table, b, watches'[i].w)
                  && watches' == watches[i := Watch(watches'[i].w, C.Replay(watches[i].table, b))])
  }

  lemma ReadsKept(n: Node, next: nat, i: nat, table: C.Table, b: C.Batch, n': Node)
    requires Kept(n, next) && n' == n.(watches := n'.watches) && Announces(n, table)
    requires ReadFrom(n.watches, i, table, b, true, n'.watches)
    ensures Kept(n', next) && Next(n, Event.Read(i, b, n'.watches[i].w), n')
  {
    KeptIs(n, next);
    assert AnnouncesAt(n, table, 0);
    ReadsKeeps(n, i, b, n'.watches[i].w, n');
    KeptIs(n', next);
  }

  /** Every other operation of the registry leaves the publications alone. */
  lemma OtherwiseKept(n: Node, next: nat, g: Reg, next': nat)
    requires Kept(n, next) && S.Whole(g, next') && EntriesOf(g).pubs == EntriesOf(n.g).pubs
    ensures Kept(n.(g := g), next') && Next(n, Rewire, n.(g := g))
  {
    KeptIs(n, next);
    RewiresKeeps(n, n.(g := g));
    KeptIs(n.(g := g), next');
  }

  class Hub {
    const server: S.Server
    var pubs: map<nat, P.Publication>
    var watchers: map<nat, C.ChangesStream>
    // what the client of each watcher has from the batches it was sent
    ghost var tables: map<nat, C.Table>

    ghost function Allocs(): map<nat, A.Alloc>
      reads this, pubs.Values
    {
      if pubs == map[] then map[] else map p | p in pubs :: pubs[p].View()
    }

    ghost function Watches(): map<nat, Watch>
      reads this, watchers.Values
    {
      map i | i in watchers && i in tables :: Watch(watchers[i].w, tables[i])
    }

    ghost function View(): Node
      reads this, server, pubs.Values, watchers.Values
    {
      Node(server.reg, Allocs(), Watches())
    }

    ghost predicate Apart()
      reads this, watchers.Values
    {
      && Injective(pubs) && Injective(watchers) && tables.Keys == watchers.Keys
      && forall i :: i in watchers ==> !watchers[i].closed
    }

    ghost predicate Valid()
      reads this, server, pubs.Values, watchers.Values
    {
      Apart() && Kept(View(), server.next)
    }

    /** The state that the runs of Node.dfy start in. */
    constructor ()
      ensures Valid() && View() == Node(Reg(map[], map[], map[], map[], map[], map[], map[]), map[], map[])
      ensures fresh(server)
    {
      server := new S.Server();
      pubs, watchers, tables := map[], map[], map[];
      new;
      KeptIs(View(), server.next);
    }

    method NotifyChanged(p: nat)
      requires Apart()
      modifies watchers.Values
      ensures Apart() && Watches() == AllChanged(old(Watches()), p) && Allocs() == old(Allocs())
    {
      TellChanged(p);
    }

    /** Every watcher hears of the publication. */
    method TellChanged(p: nat)
      requires Apart()
      modifies watchers.Values
      ensures Apart() && Watches() == AllChanged(old(Watches()), p)
    {
      var todo := watchers.Keys;
      while todo != {}
        invariant todo <= watchers.Keys && Apart()
        invariant forall i :: i in todo ==> watchers[i].w == old(watchers[i].w)
        invariant forall i :: i in watchers && i !in todo ==> watchers[i].w == C.NoteChanged(old(watchers[i].w), p)
      {
        var i :| i in todo;
        watchers[i].AddChanged(p);
        todo := todo - {i};
      }
    }

    method NotifyRemoved(p: nat)
      requires Apart()
      modifies watchers.Values
      ensures Apart() && Watches() == AllRemoved(old(Watches()), p) && Allocs() == old(Allocs())
    {
      TellRemoved(p);
    }

    method TellRemoved(p: nat)
      requires Apart()
      modifies watchers.Values
      ensures Apart() && Watches() == AllRemoved(old(Watches()), p)
    {
      var todo := watchers.Keys;
      while todo != {}
        invariant todo <= watchers.Keys && Apart()
        invariant forall i :: i in todo ==> watchers[i].w == old(watchers[i].w)
        invariant forall i :: i in watchers && i !in todo ==> watchers[i].w == C.NoteRemoved(old(watchers[i].w), p)
      {
        var i :| i in todo;
        watchers[i].AddRemoved(p);
        todo := todo - {i};
      }
    }

    // ----- publishing

    method FirstEndpoint(p: nat, key: nat, s: A.Settings)
      requires p !in pubs && Apart() && Sized(s)
      modifies this`pubs
      ensures Apart() && p in pubs && Allocs() == old(Allocs())[p := pubs[p].View()] && Watches() == old(Watches())
      ensures Published(A.Empty(), key, s, pubs[p].View())
    {
      var pub := PublishNew(key, s);
      Register(p, pub);
    }

    method Register(p: nat, pub: P.Publication)
      requires p !in pubs && Apart() && pub !in pubs.Values
      modifies this`pubs
      ensures Apart() && pubs == old(pubs)[p := pub]
      ensures Allocs() == old(Allocs())[p := pub.View()] && Watches() == old(Watches())
    {
      Enter(p, pub);
    }

    method Enter(p: nat, pub: P.Publication)
      requires p !in pubs && Injective(pubs) && pub !in pubs.Values
      modifies this`pubs
      ensures Injective(pubs) && pubs == old(pubs)[p := pub] && Allocs() == old(Allocs())[p := pub.View()]
    {
      pubs := pubs[p := pub];
    }

    method AnotherEndpoint(p: nat, key: nat, s: A.Settings) returns (ok: bool)
      requires p in pubs && Apart() && PubsAlive(Allocs()) && Sized(s)
      modifies pubs[p]
      ensures Apart() && Watches() == old(Watches())
      ensures ok <==> A.MayPublish(old(Allocs())[p], key, s)
      ensures ok ==> Allocs() == old(Allocs())[p := pubs[p].View()] && Published(old(Allocs())[p], key, s, pubs[p].View())
      ensures !ok ==> Allocs() == old(Allocs())
    {
      ok := GrowAt(p, key, s);
    }

    method GrowAt(p: nat, key: nat, s: A.Settings) returns (ok: bool)
      requires p in pubs && Injective(pubs) && PubsAlive(Allocs()) && Sized(s)
      modifies pubs[p]
      ensures ok <==> A.MayPublish(old(Allocs())[p], key, s)
      ensures ok ==> Allocs() == old(Allocs())[p := pubs[p].View()] && Published(old(Allocs())[p], key, s, pubs[p].View())
      ensures !ok ==> Allocs() == old(Allocs())
    {
      ok := PublishOn(pubs[p], key, s, Allocs(), p);
    }

    method AddAndTell(p: nat, key: nat, s: A.Settings) returns (ok: bool)
      requires p in pubs && Apart() && PubsAlive(Allocs()) && Sized(s)
      modifies pubs.Values, watchers.Values
      ensures Apart() && (ok <==> A.MayPublish(old(Allocs())[p], key, s))
      ensures !ok ==> Allocs() == old(Allocs()) && Watches() == old(Watches())
      ensures ok ==> Allocs() == old(Allocs())[p := pubs[p].View()] && Published(old(Allocs())[p], key, s, pubs[p].View())
      ensures ok ==> Watches() == AllChanged(old(Watches()), p)
    {
      ok := AnotherEndpoint(p, key, s);
      if ok { NotifyChanged(p); }
    }

    /** Another endpoint of a publication that is there. */
    method AddTo(p: nat, key: nat, s: A.Settings) returns (ok: bool)
      requires Valid() && p in pubs && Sized(s)
      modifies pubs.Values, watchers.Values
      ensures Valid() && (ok <==> A.MayPublish(old(Allocs())[p], key, s))
      ensures if ok then Adds(old(View()), p, key, s, View()) else View() == old(View())
    {
      ghost var before := View();
      KeptAlive(before, server.next);
      ok := AddAndTell(p, key, s);
      if ok { AddsKept(before, server.next, p, key, s, View()); }
    }

    method CreateAndTell(p: nat, key: nat, s: A.Settings)
      requires p !in pubs && Apart() && Sized(s)
      modifies this`pubs, watchers.Values
      ensures Apart() && p in Allocs() && Allocs() == old(Allocs())[p := Allocs()[p]] && Watches() == AllChanged(old(Watches()), p)
      ensures Published(A.Empty(), key, s, Allocs()[p])
    {
      FirstEndpoint(p, key, s);
      NotifyChanged(p);
    }

    method FindPub(name: string, priority: Priority) returns (p: nat, created: bool)
      requires Valid()
      modifies server
      ensures Apart() && Allocs() == old(Allocs()) && Watches() == old(Watches())
      ensures created <==> forall o :: !S.IsPub(old(server.reg), o, name, priority)
      ensures created ==> p !in pubs && forall k: nat :: MadeAt(old(View()), p, name, priority, server.reg, server.next, k)
      ensures !created ==> View() == old(View()) && Kept(View(), server.next) && S.IsPub(server.reg, p, name, priority) && p in pubs
    {
      p, created := Find(server, View(), name, priority);
    }

    method Begin(ghost before: Node, ghost next: nat, p: nat, ghost name: string, key: nat, s: A.Settings)
      requires Apart() && Kept(before, next) && Sized(s) && p !in pubs
      requires before.pubs == Allocs() && before.watches == Watches()
      requires forall k: nat :: MadeAt(before, p, name, s.priority, server.reg, server.next, k)
      modifies this`pubs, watchers.Values
      ensures Valid() && Next(before, Create(p, name, s.priority, key, s), View())
    {
      CreateAndTell(p, key, s);
      CreatesKept(before, next, p, name, key, s, View(), server.next);
    }

    /** publishLocked. */
    method Publish(name: string, key: nat, s: A.Settings) returns (ok: bool, created: bool, p: nat)
      requires Valid() && Sized(s)
      modifies this`pubs, server, pubs.Values, watchers.Values
      ensures Valid()
      ensures created <==> forall o :: !S.IsPub(old(server.reg), o, name, s.priority)
      ensures !created ==> S.IsPub(old(server.reg), p, name, s.priority) && p in old(View()).pubs
      ensures ok <==> created || A.MayPublish(old(View()).pubs[p], key, s)
      ensures if ok then Next(old(View()), if created then Create(p, name, s.priority, key, s) else Add(p, key, s), View())
              else View() == old(View())
    {
      ghost var before, next := View(), server.next;
      p, created := FindPub(name, s.priority);
      if created {
        Begin(before, next, p, name, key, s);
        ok := true;
      } else {
        ok := AddTo(p, key, s);
      }
    }

    // ----- unpublishing

    method RemoveEndpoint(p: nat, e: nat) returns (last: bool)
      requires p in pubs && Apart() && e in pubs[p].endpoints
      modifies pubs[p]
      ensures Apart() && Watches() == old(Watches()) && Allocs() == old(Allocs())[p := pubs[p].View()]
      ensures Lost(old(Allocs())[p], e, pubs[p].View(), last)
    {
      last := Lose(pubs[p], e);
    }

    method Forget(p: nat)
      requires Apart()
      modifies this`pubs
      ensures Apart() && Allocs() == old(Allocs()) - {p} && Watches() == old(Watches()) && pubs == old(pubs) - {p}
    {
      pubs := pubs - {p};
    }

    method EndAndTell(p: nat)
      requires Apart()
      modifies this`pubs, watchers.Values
      ensures Apart() && Allocs() == old(Allocs()) - {p} && Watches() == AllRemoved(old(Watches()), p)
    {
      Forget(p);
      NotifyRemoved(p);
    }

    method RetireHere(ghost n: Node, p: nat)
      requires Apart() && n.g == server.reg && Kept(n, server.next) && p in n.pubs
      modifies server
      ensures Apart() && Allocs() == old(Allocs()) && Watches() == old(Watches())
      ensures forall k: nat :: GoneAt(n, p, server.reg, server.next, k)
    {
      Retire(server, n, p);
    }

    /** It was the last endpoint: the publication leaves the index. */
    method End(ghost before: Node, p: nat, ghost e: nat, ghost b: A.Alloc)
      requires Apart() && Kept(before, server.next) && p in before.pubs && Lost(before.pubs[p], e, b, true)
      requires server.reg == before.g && Allocs() == before.pubs[p := b] && Watches() == before.watches
      modifies this`pubs, server, watchers.Values
      ensures Valid() && Next(before, Event.End(p, e), View())
    {
      ghost var next := server.next;
      RetireHere(before, p);
      Close(before, next, p, e, b);
    }

    method Close(ghost before: Node, ghost next: nat, p: nat, ghost e: nat, ghost b: A.Alloc)
      requires Apart() && Kept(before, next) && p in before.pubs && Lost(before.pubs[p], e, b, true)
      requires Allocs() == before.pubs[p := b] && Watches() == before.watches
      requires forall k: nat :: GoneAt(before, p, server.reg, server.next, k)
      modifies this`pubs, watchers.Values
      ensures Valid() && Next(before, Event.End(p, e), View())
    {
      EndAndTell(p);
      Outlived(before.pubs, p, b);
      EndsKept(before, next, p, e, b, View(), server.next);
    }

    /** unpublishLocked: refused unless the endpoint is published. */
    method Unpublish(p: nat, e: nat) returns (ok: bool, last: bool)
      requires Valid()
      modifies this`pubs, server, pubs.Values, watchers.Values
      ensures Valid() && (ok <==> p in old(View()).pubs && e in old(View()).pubs[p].endpoints)
      ensures if ok then Next(old(View()), if last then Event.End(p, e) else Event.Drop(p, e), View()) else View() == old(View())
    {
      ok, last := p in pubs && e in pubs[p].endpoints, false;
      if ok { last := UnpublishAt(p, e); }
    }

    method UnpublishAt(p: nat, e: nat) returns (last: bool)
      requires Valid() && p in pubs && e in pubs[p].endpoints
      modifies this`pubs, server, pubs.Values, watchers.Values
      ensures Valid() && Next(old(View()), if last then Event.End(p, e) else Event.Drop(p, e), View())
    {
      ghost var before := View();
      last := RemoveEndpoint(p, e);
      if last {
        End(before, p, e, pubs[p].View());
      } else {
        NotifyChanged(p);
        DropsKept(before, server.next, p, e, pubs[p].View(), View());
      }
    }

    // ----- watching

    /** What there is to announce. */
    method Announce() returns (table: C.Table)
      ensures Announces(View(), table)
    {
      table := map p | p in server.reg.pubs && p in pubs ::
        C.Entry(server.reg.pubs[p].name, server.reg.pubs[p].priority, pubs[p].settings.maxDistance);
    }

    method AddWatcher(i: nat, table: C.Table)
      requires Apart() && i !in watchers
      modifies this`watchers, this`tables
      ensures Apart() && Allocs() == old(Allocs()) && Watches() == old(Watches())[i := Watch(C.Opened(table), map[])]
    {
      MakeWatcher(i, table);
    }

    method MakeWatcher(i: nat, table: C.Table)
      requires Apart() && i !in watchers
      modifies this`watchers, this`tables
      ensures Apart() && Watches() == old(Watches())[i := Watch(C.Opened(table), map[])]
    {
      var cs := new C.ChangesStream(table);
      Enlist(i, cs);
    }

    method Enlist(i: nat, cs: C.ChangesStream)
      requires Apart() && i !in watchers && cs !in watchers.Values && !cs.closed
      modifies this`watchers, this`tables
      ensures Apart() && Watches() == old(Watches())[i := Watch(cs.w, map[])]
    {
      watchers, tables := watchers[i := cs], tables[i := map[]];
    }

    /** A new watcher starts with all publications that there are. */
    method Open(i: nat)
      requires Valid() && i !in watchers
      modifies this`watchers, this`tables
      ensures Valid() && Next(old(View()), Event.Open(i), View())
    {
      ghost var before := View();
      var table := Announce();
      AddWatcher(i, table);
      OpensKept(before, server.next, i, table, View());
    }

    method ReadWatcher(i: nat, table: C.Table) returns (b: C.Batch, ready: bool)
      requires Apart() && i in watchers && watchers[i].w.changed <= table.Keys
      modifies this`tables, watchers[i]
      ensures Apart() && Allocs() == old(Allocs()) && ReadFrom(old(Watches()), i, table, b, ready, Watches())
    {
      b, ready := Drain(i, table);
    }

    method Drain(i: nat, table: C.Table) returns (b: C.Batch, ready: bool)
      requires Apart() && i in watchers && watchers[i].w.changed <= table.Keys
      modifies this`tables, watchers[i]
      ensures Apart() && ReadFrom(old(Watches()), i, table, b, ready, Watches())
    {
      var eof;
      b, ready, eof := watchers[i].Read(table);
      if ready { Record(i, b); }
    }

    ghost method Record(i: nat, b: C.Batch)
      requires Apart() && i in watchers
      modifies this`tables
      ensures Apart() && Watches() == old(Watches())[i := Watch(watchers[i].w, C.Replay(old(Watches())[i].table, b))]
    {
      tables := tables[i := C.Replay(tables[i], b)];
    }

    /** One pass of Read's loop, for a watcher that has not been stopped. */
    method Read(i: nat) returns (b: C.Batch, ready: bool)
      requires Valid() && i in watchers
      modifies this`tables, watchers[i]
      ensures Valid() && (ready <==> C.Pending(old(Watches())[i].w))
      ensures if ready then Next(old(View()), Event.Read(i, b, Watches()[i].w), View()) else View() == old(View())
    {
      ghost var before := View();
      var table := Announce();
      NothingLost(before, server.next, i, table);
      b, ready := ReadWatcher(i, table);
      if ready { ReadsKept(before, server.next, i, table, b, View()); }
    }

    method RemoveWatcher(i: nat)
      requires Apart() && i in watchers
      modifies this`watchers, this`tables, watchers[i]
      ensures Apart() && Allocs() == old(Allocs()) && Watches() == old(Watches()) - {i} && old(watchers[i]).closed
    {
      Delist(i);
    }

    method Delist(i: nat)
      requires Apart() && i in watchers
      modifies this`watchers, this`tables, watchers[i]
      ensures Apart() && Watches() == old(Watches()) - {i} && old(watchers[i]).closed
    {
      watchers[i].Stop();
      watchers, tables := watchers - {i}, tables - {i};
    }

    method Stop(i: nat)
      requires Valid() && i in watchers
      modifies this`watchers, this`tables, watchers[i]
      ensures Valid() && Next(old(View()), Event.Stop(i), View()) && old(watchers[i]).closed
    {
      ghost var before := View();
      RemoveWatcher(i);
      StopsKept(before, server.next, i, View());
    }
  }

  ghost predicate LostAt(a: A.Alloc, e: nat, b: A.Alloc, last: bool, k: nat) {
    e in a.endpoints && b == A.Unpublish(a, e) && (last <==> b.endpoints == map[])
  }

  /** `e` was unpublished, and whether it was the last endpoint. */
  ghost predicate Lost(a: A.Alloc, e: nat, b: A.Alloc, last: bool) { forall k: nat :: LostAt(a, e, b, last, k) }

  method Lose(pub: P.Publication, e: nat) returns (last: bool)
    requires e in pub.endpoints
    modifies pub
    ensures Lost(old(pub.View()), e, pub.View(), last)
  {
    var ok := pub.Unpublish(e);
    last := pub.endpoints == map[];
  }

  predicate Sized(s: A.Settings) { s.priority <= NO_PRIORITY && 0 < s.concurrency < A.UINT32 && s.queueSize < A.UINT32 }

  method PublishNew(key: nat, s: A.Settings) returns (pub: P.Publication)
    requires Sized(s)
    ensures fresh(pub) && Published(A.Empty(), key, s, pub.View())
  {
    pub := new P.Publication();
    T.EmptyInv();
    var ok;
    ghost var steps, trace;
    ok, steps, trace := pub.Publish(key, s);
  }

  method PublishOn(pub: P.Publication, key: nat, s: A.Settings, ghost pubs: map<nat, A.Alloc>, ghost p: nat) returns (ok: bool)
    requires p in pubs && pub.View() == pubs[p] && PubsAlive(pubs) && Sized(s)
    modifies pub
    ensures ok <==> A.MayPublish(pubs[p], key, s)
    ensures if ok then Published(pubs[p], key, s, pub.View()) else pub.View() == pubs[p]
  {
    assert AliveAt(pubs, p);
    ghost var steps, trace;
    ok, steps, trace := pub.Publish(key, s);
  }
}

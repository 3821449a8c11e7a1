/** A peer's changes reach the registry: every remote that the peer learns or
    forgets enters or leaves the index, and no other entry is touched. */
module PeerIndex {
  import opened Common
  import opened Changes
  import R = Registry
  import opened RegistryFrames
  import RegistrySteps
  import S = Server
  import P = Peers

  type Infos = map<nat, R.Remote>

  /** Which peer it is, and how far away. */
  datatype Site = Site(peer: nat, distance: nat)

  function InfoOf(remote: P.Remote, site: Site): R.Remote
    requires remote.entry.priority <= R.NO_PRIORITY
  {
    R.Remote(site.peer, remote.entry.name, remote.entry.priority, site.distance, {})
  }

  /** Priorities are 32 bits wide. */
  predicate Narrow(e: Entry) { e.priority <= R.NO_PRIORITY }

  /** The registry holds each remote of the peer under an id of its own. */
  ghost predicate Bound(table: P.Remotes, ids: map<nat, nat>, infos: Infos, site: Site) {
    && ids.Keys == table.Keys
    && (forall t :: t in table ==> Narrow(table[t].entry))
    && (forall t, u :: t in ids && u in ids && ids[t] == ids[u] ==> t == u)
    && (forall t :: t in ids ==> ids[t] in infos && infos[ids[t]] == InfoOf(table[t], site))
    && (forall r: nat :: OwnAt(ids, infos, site, r))
  }

  /** Whatever the registry has from this peer is in its table. */
  ghost predicate OwnAt(ids: map<nat, nat>, infos: Infos, site: Site, r: nat) {
    r in infos && infos[r].peer == site.peer ==> r in ids.Values
  }

  /** The entries of other peers. */
  ghost function Others(ids: map<nat, nat>, infos: Infos): Infos { infos - ids.Values }

  lemma BoundForget(table: P.Remotes, ids: map<nat, nat>, infos: Infos, site: Site, t: nat)
    requires Bound(table, ids, infos, site) && t in ids
    ensures Bound(table - {t}, ids - {t}, infos - {ids[t]}, site)
    ensures Others(ids - {t}, infos - {ids[t]}) == Others(ids, infos)
  {
    var few, infos' := ids - {t}, infos - {ids[t]};
    assert ids.Values == few.Values + {ids[t]} by {
      forall x | x in ids.Values ensures x in few.Values + {ids[t]} {
        var u :| u in ids && ids[u] == x;
        assert u == t || u in few;
      }
    }
    forall r: nat ensures OwnAt(few, infos', site, r) { assert OwnAt(ids, infos, site, r); }
  }

  lemma BoundLearn(table: P.Remotes, ids: map<nat, nat>, infos: Infos, site: Site, t: nat, remote: P.Remote, id: nat)
    requires Bound(table, ids, infos, site) && t !in ids && id !in infos && Narrow(remote.entry)
    ensures Bound(table[t := remote], ids[t := id], infos[id := InfoOf(remote, site)], site)
    ensures Others(ids[t := id], infos[id := InfoOf(remote, site)]) == Others(ids, infos)
  {
    var more, infos' := ids[t := id], infos[id := InfoOf(remote, site)];
    assert more.Values == ids.Values + {id} by {
      assert more[t] == id;
      forall x | x in ids.Values ensures x in more.Values {
        var u :| u in ids && ids[u] == x;
        assert more[u] == x;
      }
    }
    forall r: nat ensures OwnAt(more, infos', site, r) { assert OwnAt(ids, infos, site, r); }
  }

  /** The registry and one peer of its server. */
  datatype Joint = Joint(g: R.Reg, next: nat, table: P.Remotes, ids: map<nat, nat>)

  ghost predicate Ok(j: Joint, site: Site) {
    S.Whole(j.g, j.next) && Bound(j.table, j.ids, EntriesOf(j.g).remotes, site)
  }

  /** All of the registry but this peer's remotes. */
  ghost function Rest(j: Joint): Entries { EntriesOf(j.g).(remotes := Others(j.ids, EntriesOf(j.g).remotes)) }

  lemma WholeRemotes(g: R.Reg, next: nat, g': R.Reg, next': nat)
    requires S.Whole(g, next) && R.Indexed(g') && next <= next'
    requires EntriesOf(g') == EntriesOf(g).(remotes := EntriesOf(g').remotes)
    requires forall r :: r in EntriesOf(g').remotes ==> r < next'
    ensures S.Whole(g', next')
  {
  }

  method Remove(j: Joint, site: Site, t: nat) returns (j': Joint)
    requires Ok(j, site) && t in j.table
    ensures Ok(j', site) && j'.table == j.table - {t} && Rest(j') == Rest(j)
  {
    BoundForget(j.table, j.ids, EntriesOf(j.g).remotes, site, t);
    var g := RegistrySteps.RemoveRemoteIn(j.g, j.ids[t]);
    WholeRemotes(j.g, j.next, g, j.next);
    j' := Joint(g, j.next, j.table - {t}, j.ids - {t});
  }

  method Insert(j: Joint, site: Site, t: nat, remote: P.Remote) returns (j': Joint)
    requires Ok(j, site) && t !in j.table && Narrow(remote.entry)
    ensures Ok(j', site) && j'.table == j.table[t := remote] && Rest(j') == Rest(j)
  {
    S.FreshId(j.g, j.next);
    BoundLearn(j.table, j.ids, EntriesOf(j.g).remotes, site, t, remote, j.next);
    var g := RegistrySteps.AddRemoteIn(j.g, j.next, site.peer, remote.entry.name, remote.entry.priority, site.distance);
    WholeRemotes(j.g, j.next, g, j.next + 1);
    j' := Joint(g, j.next + 1, j.table[t := remote], j.ids[t := j.next]);
  }

  lemma BoundSame(table: P.Remotes, ids: map<nat, nat>, infos: Infos, site: Site, t: nat, e: Entry)
    requires Bound(table, ids, infos, site) && t in table
    requires e.name == table[t].entry.name && e.priority == table[t].entry.priority
    ensures Bound(table[t := table[t].(entry := e)], ids, infos, site)
  {
  }

  /** Still sound, all remotes from the client, and nothing else touched. */
  ghost predicate Step(j: Joint, j': Joint, site: Site, client: nat) {
    Ok(j', site) && P.Owned(j'.table, client) && Rest(j') == Rest(j)
  }

  method Forget(j: Joint, site: Site, client: nat, t: nat) returns (j': Joint)
    requires Ok(j, site) && P.Owned(j.table, client)
    ensures Step(j, j', site, client) && j'.table == P.Forget(j.table, client, t)
    ensures t !in j'.table
  {
    j' := j;
    if t in j.table { j' := Remove(j, site, t); }
  }

  lemma Overwrites(table: P.Remotes, client: nat, t: nat, remote: P.Remote)
    requires P.Owned(table, client) && remote.client == client
    ensures P.Forget(table, client, t)[t := remote] == table[t := remote] && P.Owned(table[t := remote], client)
  {
  }

  method Replace(j: Joint, site: Site, client: nat, c: Change) returns (j': Joint)
    requires Ok(j, site) && P.Owned(j.table, client) && Narrow(c.entry)
    ensures Step(j, j', site, client) && j'.table == j.table[c.id := P.Remote(c.entry, client)]
  {
    Overwrites(j.table, client, c.id, P.Remote(c.entry, client));
    j' := Forget(j, site, client, c.id);
    j' := Insert(j', site, c.id, P.Remote(c.entry, client));
  }

  method Update(j: Joint, site: Site, client: nat, c: Change) returns (j': Joint)
    requires Ok(j, site) && P.Owned(j.table, client) && c.id in j.table
    requires c.entry.name == j.table[c.id].entry.name && c.entry.priority == j.table[c.id].entry.priority
    ensures Step(j, j', site, client) && j'.table == j.table[c.id := j.table[c.id].(entry := c.entry)]
  {
    BoundSame(j.table, j.ids, EntriesOf(j.g).remotes, site, c.id, c.entry);
    j' := j.(table := j.table[c.id := j.table[c.id].(entry := c.entry)]);
  }

  /** A change of reach alone leaves the index as it is; a new name or priority
      replaces the entry. */
  method AddRemote(j: Joint, site: Site, client: nat, c: Change) returns (j': Joint)
    requires Ok(j, site) && P.Owned(j.table, client) && Narrow(c.entry)
    ensures Step(j, j', site, client) && j'.table == P.Learn(j.table, client, site.distance, c)
  {
    if c.entry.maxDistance < site.distance {
      j' := Forget(j, site, client, c.id);
    } else if c.id in j.table && j.table[c.id].entry.name == c.entry.name && c.entry.priority == j.table[c.id].entry.priority {
      j' := Update(j, site, client, c);
    } else {
      j' := Replace(j, site, client, c);
    }
  }

  /** The first `i` removals of a list are done. */
  ghost predicate Forgotten(j: Joint, j': Joint, site: Site, client: nat, list: seq<nat>, i: nat) {
    i <= |list| && Step(j, j', site, client) && j'.table == P.ForgetAll(j.table, client, list[..i])
  }

  method RemoveNext(ghost j: Joint, now: Joint, site: Site, client: nat, list: seq<nat>, i: nat) returns (j': Joint)
    requires Forgotten(j, now, site, client, list, i) && i < |list|
    ensures Forgotten(j, j', site, client, list, i + 1)
  {
    assert list[..i + 1][..i] == list[..i];
    j' := Forget(now, site, client, list[i]);
  }

  method RemoveAll(j: Joint, site: Site, client: nat, list: seq<nat>) returns (j': Joint)
    requires Step(j, j, site, client)
    ensures Step(j, j', site, client) && j'.table == P.ForgetAll(j.table, client, list)
  {
    j' := j;
    for i := 0 to |list|
      invariant Forgotten(j, j', site, client, list, i)
    {
      j' := RemoveNext(j, j', site, client, list, i);
    }
    assert list[..|list|] == list;
  }

  /** The first `i` changes of a list are done. */
  ghost predicate Learned(j: Joint, j': Joint, site: Site, client: nat, list: seq<Change>, i: nat) {
    i <= |list| && Step(j, j', site, client) && j'.table == P.LearnAll(j.table, client, site.distance, list[..i])
  }

  method AddNext(ghost j: Joint, now: Joint, site: Site, client: nat, list: seq<Change>, i: nat) returns (j': Joint)
    requires Learned(j, now, site, client, list, i) && i < |list| && Narrow(list[i].entry)
    ensures Learned(j, j', site, client, list, i + 1)
  {
    assert list[..i + 1][..i] == list[..i];
    j' := AddRemote(now, site, client, list[i]);
  }

  method AddAll(j: Joint, site: Site, client: nat, list: seq<Change>) returns (j': Joint)
    requires Step(j, j, site, client)
    requires forall i :: 0 <= i < |list| ==> Narrow(list[i].entry)
    ensures Step(j, j', site, client) && j'.table == P.LearnAll(j.table, client, site.distance, list)
  {
    j' := j;
    for i := 0 to |list|
      invariant Learned(j, j', site, client, list, i)
    {
      j' := AddNext(j, j', site, client, list, i);
    }
    assert list[..|list|] == list;
  }

  method Process(j: Joint, site: Site, client: nat, b: Batch) returns (j': Joint)
    requires Ok(j, site) && P.Owned(j.table, client)
    requires forall i :: 0 <= i < |b.changed| ==> Narrow(b.changed[i].entry)
    ensures Step(j, j', site, client) && j'.table == P.Processed(j.table, client, site.distance, b)
  {
    j' := RemoveAll(j, site, client, b.removed);
    j' := AddAll(j', site, client, b.changed);
  }

  lemma NoneLeft(j: Joint, site: Site)
    requires Bound(j.table, j.ids, EntriesOf(j.g).remotes, site) && j.table == map[]
    ensures EntriesOf(j.g) == Rest(j)
  {
    assert j.ids == map[] && j.ids.Values == {};
    assert Others(j.ids, EntriesOf(j.g).remotes) == EntriesOf(j.g).remotes;
  }

  method Clear(j: Joint, site: Site, client: nat) returns (j': Joint)
    requires Ok(j, site) && P.Owned(j.table, client)
    ensures Step(j, j', site, client) && j'.table == map[] && EntriesOf(j'.g) == Rest(j)
  {
    j' := j;
    var todo := j.table.Keys;
    while todo != {}
      invariant Step(j, j', site, client) && todo == j'.table.Keys
    {
      var t :| t in todo;
      j' := Forget(j', site, client, t);
      todo := todo - {t};
    }
    NoneLeft(j', site);
  }

  lemma NoneBound(g: R.Reg, next: nat, site: Site)
    requires S.Whole(g, next) && forall r :: r in g.remotes ==> g.remotes[r].peer != site.peer
    ensures Ok(Joint(g, next, map[], map[]), site)
  {
    forall r: nat ensures OwnAt(map[], EntriesOf(g).remotes, site, r) {
      if r in EntriesOf(g).remotes { assert r in g.remotes; }
    }
  }

  lemma ShownField(j: Joint, site: Site, t: nat)
    requires Ok(j, site) && t in j.table
    ensures t in j.ids && j.ids[t] in j.g.remotes
    ensures var r := j.g.remotes[j.ids[t]];
            r.peer == site.peer && r.distance == site.distance && r.name == j.table[t].entry.name && r.priority == j.table[t].entry.priority
  {
    assert EntriesOf(j.g).remotes[j.ids[t]] == InfoOf(j.table[t], site);
  }

  lemma ShownFields(j: Joint, site: Site)
    requires Ok(j, site)
    ensures forall t :: t in j.table ==>
      && t in j.ids && j.ids[t] in j.g.remotes
      && j.g.remotes[j.ids[t]].peer == site.peer && j.g.remotes[j.ids[t]].distance == site.distance
      && j.g.remotes[j.ids[t]].name == j.table[t].entry.name && j.g.remotes[j.ids[t]].priority == j.table[t].entry.priority
    ensures forall r :: r in j.g.remotes && j.g.remotes[r].peer == site.peer ==> exists t :: t in j.table && j.ids[t] == r
  {
    forall t | t in j.table
      ensures && t in j.ids && j.ids[t] in j.g.remotes
              && j.g.remotes[j.ids[t]].peer == site.peer && j.g.remotes[j.ids[t]].distance == site.distance
              && j.g.remotes[j.ids[t]].name == j.table[t].entry.name && j.g.remotes[j.ids[t]].priority == j.table[t].entry.priority
    {
      ShownField(j, site, t);
    }
    forall r | r in j.g.remotes && j.g.remotes[r].peer == site.peer ensures exists t :: t in j.table && j.ids[t] == r {
      assert OwnAt(j.ids, EntriesOf(j.g).remotes, site, r) && EntriesOf(j.g).remotes[r].peer == site.peer;
      var t :| t in j.ids && j.ids[t] == r;
    }
  }

  class ServerPeer {
    const server: S.Server
    const site: Site
    var failed: bool
    var client: Option<nat>
    var table: P.Remotes
    var ids: map<nat, nat>

    function View(): Joint reads this, server { Joint(server.reg, server.next, table, ids) }

    ghost predicate Valid() reads this, server {
      && Ok(View(), site)
      && (client.None? ==> table == map[])
      && (client.Some? ==> P.Owned(table, client.value))
    }

    /** A new peer, of which the registry knows nothing. */
    constructor (s: S.Server, at: Site)
      requires S.Whole(s.reg, s.next) && forall r :: r in s.reg.remotes ==> s.reg.remotes[r].peer != at.peer
      ensures Valid() && server == s && site == at && client == None && !failed && table == map[]
    {
      server, site, failed, client, table, ids := s, at, false, None, map[], map[];
      new;
      NoneBound(server.reg, server.next, site);
    }

    method Store(j: Joint, c: nat)
      requires Step(View(), j, site, c) && client == Some(c)
      modifies this`table, this`ids, server
      ensures Valid() && View() == j && Rest(View()) == old(Rest(View()))
    {
      server.reg, server.next, table, ids := j.g, j.next, j.table, j.ids;
    }

    /** A whole batch: the peer's table is what Peers.dfy says, the index equals
        a fresh scan, and all but this peer's remotes stays. For each service in
        the table the registry has one remote of this peer, at the peer's distance
        and with the service's name and priority, and it has no others. */
    method ProcessChanges(from: nat, b: Batch) returns (ok: bool)
      requires Valid() && forall i :: 0 <= i < |b.changed| ==> Narrow(b.changed[i].entry)
      modifies this`table, this`ids, server
      ensures Valid() && Rest(View()) == old(Rest(View()))
      ensures ok <==> client == Some(from) && !failed
      ensures table == if ok then P.Processed(old(table), from, site.distance, b) else old(table)
      ensures forall t :: t in table ==>
        && t in ids && ids[t] in server.reg.remotes
        && server.reg.remotes[ids[t]].peer == site.peer && server.reg.remotes[ids[t]].distance == site.distance
        && server.reg.remotes[ids[t]].name == table[t].entry.name
        && server.reg.remotes[ids[t]].priority == table[t].entry.priority
      ensures forall r :: r in server.reg.remotes && server.reg.remotes[r].peer == site.peer ==> exists t :: t in table && ids[t] == r
    {
      ok := client == Some(from) && !failed;
      if ok { Take(from, b); }
      ShownFields(View(), site);
    }

    method Take(from: nat, b: Batch)
      requires Valid() && client == Some(from) && forall i :: 0 <= i < |b.changed| ==> Narrow(b.changed[i].entry)
      modifies this`table, this`ids, server
      ensures Valid() && Rest(View()) == old(Rest(View()))
      ensures table == P.Processed(old(table), from, site.distance, b)
    {
      var j := Process(View(), site, from, b);
      Store(j, from);
    }

    method Attach(c: nat)
      requires Valid() && client.None?
      modifies this`client
      ensures Valid() && client == Some(c)
    {
      client := Some(c);
    }

    /** The current client takes all its remotes out of the index. */
    method Detach(c: nat)
      requires Valid()
      modifies this`client, this`table, this`ids, server
      ensures Valid() && Rest(View()) == old(Rest(View()))
      ensures old(client) != Some(c) ==> client == old(client) && View() == old(View())
      ensures old(client) == Some(c) ==> client == None && table == map[] && server.Held() == old(Rest(View()))
    {
      if client == Some(c) {
        var j := Clear(View(), site, c);
        Store(j, c);
        client := None;
      }
    }
  }
}

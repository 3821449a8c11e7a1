/** A peer's remotes: the changes that come from its current client, applied. */
module Peers {
  import opened Common
  import opened Changes

  datatype Remote = Remote(entry: Entry, client: nat)
  type Remotes = map<nat, Remote>

  function Held(rs: Remotes): Table { map id | id in rs :: rs[id].entry }

  ghost predicate Owned(rs: Remotes, client: nat) { forall id :: id in rs ==> rs[id].client == client }

  /** The services a peer at distance `d` may reach. */
  function Within(t: Table, d: nat): Table { map id | id in t && t[id].maxDistance >= d :: t[id] }

  /** removeLocked: only the client that brought a remote takes it away. */
  function Forget(rs: Remotes, client: nat, id: nat): Remotes {
    if id in rs && rs[id].client == client then rs - {id} else rs
  }

  function Learn(rs: Remotes, client: nat, d: nat, c: Change): Remotes {
    if c.entry.maxDistance < d then Forget(rs, client, c.id)
    else if c.id in rs && rs[c.id].entry.name == c.entry.name && rs[c.id].entry.priority == c.entry.priority then
      rs[c.id := rs[c.id].(entry := c.entry)]
    else rs[c.id := Remote(c.entry, client)]
  }

  function ForgetAll(rs: Remotes, client: nat, ids: seq<nat>): Remotes {
    if ids == [] then rs else Forget(ForgetAll(rs, client, ids[..|ids| - 1]), client, ids[|ids| - 1])
  }

  function LearnAll(rs: Remotes, client: nat, d: nat, cs: seq<Change>): Remotes {
    if cs == [] then rs else Learn(LearnAll(rs, client, d, cs[..|cs| - 1]), client, d, cs[|cs| - 1])
  }

  function Processed(rs: Remotes, client: nat, d: nat, b: Batch): Remotes {
    LearnAll(ForgetAll(rs, client, b.removed), client, d, b.changed)
  }

  /** The remotes are the reachable part of `t`, all from the current client,
      but for those dropped by force since they were last announced. */
  ghost predicate Mirrors(rs: Remotes, client: nat, d: nat, t: Table, missing: set<nat>) {
    Owned(rs, client) && Held(rs) == Within(t, d) - missing
  }

  lemma MirrorsPointwise(rs: Remotes, client: nat, d: nat, t: Table, missing: set<nat>)
    ensures Mirrors(rs, client, d, t, missing) <==>
      && (forall id :: id in rs <==> id in t && t[id].maxDistance >= d && id !in missing)
      && (forall id :: id in rs ==> rs[id] == Remote(t[id], client))
  {
    if Mirrors(rs, client, d, t, missing) {
      forall id ensures id in rs <==> id in t && t[id].maxDistance >= d && id !in missing {
        assert id in rs <==> id in Held(rs);
      }
      forall id | id in rs ensures rs[id] == Remote(t[id], client) { assert Held(rs)[id] == rs[id].entry; }
    }
  }

  lemma MirrorsForget(rs: Remotes, client: nat, d: nat, t: Table, missing: set<nat>, id: nat)
    requires Mirrors(rs, client, d, t, missing)
    ensures Mirrors(Forget(rs, client, id), client, d, t - {id}, missing)
    ensures Mirrors(Forget(rs, client, id), client, d, t, missing + {id})
  {
    MirrorsPointwise(rs, client, d, t, missing);
    MirrorsPointwise(Forget(rs, client, id), client, d, t - {id}, missing);
    MirrorsPointwise(Forget(rs, client, id), client, d, t, missing + {id});
  }

  lemma MirrorsLearn(rs: Remotes, client: nat, d: nat, t: Table, missing: set<nat>, c: Change)
    requires Mirrors(rs, client, d, t, missing)
    ensures Mirrors(Learn(rs, client, d, c), client, d, t[c.id := c.entry], missing - {c.id})
  {
    MirrorsPointwise(rs, client, d, t, missing);
    MirrorsPointwise(Learn(rs, client, d, c), client, d, t[c.id := c.entry], missing - {c.id});
  }

  lemma {:induction false} MirrorsForgetAll(rs: Remotes, client: nat, d: nat, t: Table, missing: set<nat>, ids: seq<nat>)
    requires Mirrors(rs, client, d, t, missing)
    ensures Mirrors(ForgetAll(rs, client, ids), client, d, Dropped(t, ids), missing)
  {
    if ids == [] {
      assert Dropped(t, ids) == t;
    } else {
      var most, id := ids[..|ids| - 1], ids[|ids| - 1];
      MirrorsForgetAll(rs, client, d, t, missing, most);
      MirrorsForget(ForgetAll(rs, client, most), client, d, Dropped(t, most), missing, id);
      assert Members(ids) == Members(most) + {id};
      assert Dropped(t, ids) == Dropped(t, most) - {id};
    }
  }

  lemma {:induction false} MirrorsLearnAll(rs: Remotes, client: nat, d: nat, t: Table, missing: set<nat>, cs: seq<Change>)
    requires Mirrors(rs, client, d, t, missing)
    ensures Mirrors(LearnAll(rs, client, d, cs), client, d, Put(t, cs), missing - Members(Ids(cs)))
  {
    if cs == [] {
      assert missing - Members(Ids(cs)) == missing;
    } else {
      var most, c := cs[..|cs| - 1], cs[|cs| - 1];
      MirrorsLearnAll(rs, client, d, t, missing, most);
      MirrorsLearn(LearnAll(rs, client, d, most), client, d, Put(t, most), missing - Members(Ids(most)), c);
      assert cs == most + [c];
      OneMore(most, c);
      assert missing - Members(Ids(cs)) == missing - Members(Ids(most)) - {c.id};
    }
  }

  /** Processing a batch at distance `d` is replaying it and keeping what is within reach. */
  lemma MirrorsProcessed(rs: Remotes, client: nat, d: nat, t: Table, missing: set<nat>, b: Batch)
    requires Mirrors(rs, client, d, t, missing)
    ensures Mirrors(Processed(rs, client, d, b), client, d, Replay(t, b), missing - Members(Ids(b.changed)))
  {
    MirrorsForgetAll(rs, client, d, t, missing, b.removed);
    MirrorsLearnAll(ForgetAll(rs, client, b.removed), client, d, Dropped(t, b.removed), missing, b.changed);
  }

  // ----- the index by name

  ghost predicate Named(rs: Remotes, byName: map<string, set<nat>>) {
    && (forall n, id :: n in byName && id in byName[n] <==> id in rs && rs[id].entry.name == n)
    && (forall n :: n in byName ==> byName[n] != {})
  }

  function NamesWithout(byName: map<string, set<nat>>, n: string, id: nat): map<string, set<nat>>
    requires n in byName
  {
    if byName[n] - {id} == {} then byName - {n} else byName[n := byName[n] - {id}]
  }

  function NamesWith(byName: map<string, set<nat>>, n: string, id: nat): map<string, set<nat>> {
    byName[n := (if n in byName then byName[n] else {}) + {id}]
  }

  lemma NamedForget(rs: Remotes, byName: map<string, set<nat>>, id: nat)
    requires Named(rs, byName) && id in rs
    ensures rs[id].entry.name in byName
    ensures Named(rs - {id}, NamesWithout(byName, rs[id].entry.name, id))
  {
  }

  lemma NamedLearn(rs: Remotes, byName: map<string, set<nat>>, id: nat, r: Remote)
    requires Named(rs, byName) && id !in rs
    ensures Named(rs[id := r], NamesWith(byName, r.entry.name, id))
  {
  }

  class Peer {
    const distance: nat
    var client: Option<nat>
    var failed: bool
    var byTarget: Remotes
    var byName: map<string, set<nat>>

    /** All remotes come from the current client. */
    ghost predicate Valid() reads this {
      Named(byTarget, byName) && (client.None? ==> byTarget == map[]) && (client.Some? ==> Owned(byTarget, client.value))
    }

    constructor (d: nat)
      ensures Valid() && distance == d && client == None && !failed && byTarget == map[]
    {
      distance, client, failed, byTarget, byName := d, None, false, map[], map[];
    }

    method Remove(id: nat)
      requires Valid() && id in byTarget
      modifies this`byTarget, this`byName
      ensures Valid()
      ensures byTarget == old(byTarget) - {id}
    {
      var remote := byTarget[id];
      if client != Some(remote.client) { return; }
      NamedForget(byTarget, byName, id);
      byName := NamesWithout(byName, remote.entry.name, id);
      byTarget := byTarget - {id};
    }

    method AddRemote(c: Change)
      requires Valid() && client.Some?
      modifies this`byTarget, this`byName
      ensures Valid() && byTarget == Learn(old(byTarget), client.value, distance, c)
    {
      if c.entry.maxDistance < distance {
        if c.id in byTarget { Remove(c.id); }
        return;
      }
      if c.id in byTarget {
        var remote := byTarget[c.id];
        if remote.entry.name == c.entry.name && c.entry.priority == remote.entry.priority {
          byTarget := byTarget[c.id := remote.(entry := c.entry)];
          return;
        }
        Remove(c.id);
      }
      NamedLearn(byTarget, byName, c.id, Remote(c.entry, client.value));
      byName := NamesWith(byName, c.entry.name, c.id);
      byTarget := byTarget[c.id := Remote(c.entry, client.value)];
    }

    /** Refused unless it comes from the current client. */
    method ProcessChanges(from: nat, b: Batch) returns (ok: bool)
      requires Valid()
      modifies this`byTarget, this`byName
      ensures Valid()
      ensures ok <==> client == Some(from) && !failed
      ensures byTarget == if ok then Processed(old(byTarget), from, distance, b) else old(byTarget)
    {
      if client != Some(from) || failed { return false; }
      for i := 0 to |b.removed|
        invariant Valid() && byTarget == ForgetAll(old(byTarget), from, b.removed[..i])
      {
        assert b.removed[..i + 1][..i] == b.removed[..i];
        if b.removed[i] in byTarget { Remove(b.removed[i]); }
      }
      assert b.removed[..|b.removed|] == b.removed;
      ghost var base := byTarget;
      for i := 0 to |b.changed|
        invariant Valid() && byTarget == LearnAll(base, from, distance, b.changed[..i])
      {
        assert b.changed[..i + 1][..i] == b.changed[..i];
        AddRemote(b.changed[i]);
      }
      assert b.changed[..|b.changed|] == b.changed;
      ok := true;
    }

    /** connectloop attaches a client only after the previous one was detached. */
    method Attach(c: nat)
      requires Valid() && client.None?
      modifies this`client
      ensures Valid() && client == Some(c)
    {
      client := Some(c);
    }

    /** Losing the current client forgets all it brought. */
    method Detach(c: nat)
      requires Valid()
      modifies this`client, this`byTarget, this`byName
      ensures Valid()
      ensures old(client) != Some(c) ==> client == old(client) && byTarget == old(byTarget)
      ensures old(client) == Some(c) ==> client == None && byTarget == map[]
    {
      if client != Some(c) { return; }
      var todo := byTarget.Keys;
      while todo != {}
        invariant Valid() && todo == byTarget.Keys
      {
        var id :| id in todo;
        Remove(id);
        todo := todo - {id};
      }
      client := None;
    }
  }
}

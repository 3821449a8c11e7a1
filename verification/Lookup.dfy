/** server.findEndpointRLocked: the best endpoint for a name within a range of distances. */
module Lookup {
  import opened Common
  import opened Registry
  import opened RegistryFrames
  import Membership
  import opened Dispatch

  datatype Found = ByRoute(id: nat) | ByTarget(target: Target)

  /** Distances 0 and 1 are the same data center. */
  function Tier(distance: nat): nat { if distance < 2 then 1 else distance }

  function IsBetter(priority: nat, minPriority: nat, distance: nat, minDistance: nat): (r: bool)
    ensures r <==> priority < minPriority || (priority == minPriority && Tier(distance) < Tier(minDistance))
    ensures r <==> priority < minPriority || (priority == minPriority && minDistance >= 2 && distance < minDistance)
  {
    if priority < minPriority then true
    else if priority != minPriority then false
    else if minDistance < 2 then false
    else distance < minDistance
  }

  ghost function Distance(g: Reg, t: Target): nat {
    if t.Far? && t.remote in g.remotes then g.remotes[t.remote].distance else 0
  }

  ghost predicate AtMost(g: Reg, t: Target, c: Target) {
    PriorityOf(g, t) < PriorityOf(g, c)
    || (PriorityOf(g, t) == PriorityOf(g, c) && Tier(Distance(g, t)) <= Tier(Distance(g, c)))
  }

  /** No candidate is better, and a remote one was strictly better than any local one. */
  ghost predicate Chosen(sp: Spec, g: Reg, t: Target) {
    && Candidate(sp, g, t)
    && (forall c :: Candidate(sp, g, c) ==> AtMost(g, t, c))
    && (t.Far? ==> forall c :: Candidate(sp, g, c) && c.Local? ==> !AtMost(g, c, t))
  }

  /** What that means field by field: a registered entry of the service within the
      range of distances, publications counting as distance 0; no other has a lower
      priority, and none of the same priority is closer, where distances 0 and 1 are
      equally close; and a publication wins over a remote that is no better. */
  lemma WhatIsChosen(sp: Spec, g: Reg, t: Target)
    ensures Chosen(sp, g, t) <==>
      match t
      case Local(p) =>
        && p in g.pubs && g.pubs[p].name == sp.service && sp.min == 0
        && (forall o :: o in g.pubs && g.pubs[o].name == sp.service ==> g.pubs[p].priority <= g.pubs[o].priority)
        && (forall r :: r in g.remotes && g.remotes[r].name == sp.service && sp.min <= g.remotes[r].distance <= sp.max ==>
              g.pubs[p].priority <= g.remotes[r].priority)
      case Far(r) =>
        && r in g.remotes && g.remotes[r].name == sp.service && sp.min <= g.remotes[r].distance <= sp.max
        && (sp.min == 0 ==> forall p :: p in g.pubs && g.pubs[p].name == sp.service ==> g.remotes[r].priority < g.pubs[p].priority)
        && (forall o :: o in g.remotes && g.remotes[o].name == sp.service && sp.min <= g.remotes[o].distance <= sp.max ==>
              || g.remotes[r].priority < g.remotes[o].priority
              || (g.remotes[r].priority == g.remotes[o].priority
                  && (g.remotes[r].distance <= 1 || g.remotes[r].distance <= g.remotes[o].distance)))
  {
    forall o: nat ensures Candidate(sp, g, Local(o)) <==> o in g.pubs && g.pubs[o].name == sp.service && sp.min == 0 { }
    forall o: nat
      ensures Candidate(sp, g, Far(o)) <==>
        o in g.remotes && g.remotes[o].name == sp.service && sp.min <= g.remotes[o].distance <= sp.max
    {
    }
    if Chosen(sp, g, t) {
      forall o: nat | Candidate(sp, g, Local(o)) ensures AtMost(g, t, Local(o)) { }
      forall o: nat | Candidate(sp, g, Far(o)) ensures AtMost(g, t, Far(o)) { }
    }
  }

  /** A remote is as far away as its peer. */
  ghost predicate PeersAt(distances: map<nat, nat>, remotes: map<nat, Remote>) {
    forall r :: r in remotes ==> remotes[r].peer in distances && remotes[r].distance == distances[remotes[r].peer]
  }

  /** The publications under the name, unless the range of distances excludes them. */
  lemma LocalsByName(g: Reg, sp: Spec)
    requires PubNamesOk(g.pubsByName, g.pubs)
    ensures Locals(sp, g.pubs) == if sp.min == 0 then PubsUnder(g.pubsByName, sp.service).Values else {}
  {
    Membership.ValuesNamed(g.pubsByName, g.pubs, sp.service);
  }

  method FindLocal(g: Reg, sp: Spec) returns (best: Option<nat>)
    requires PubNamesOk(g.pubsByName, g.pubs)
    ensures best.None? <==> Locals(sp, g.pubs) == {}
    ensures best.Some? ==> best.value in Locals(sp, g.pubs)
    ensures best.Some? ==> forall p :: p in Locals(sp, g.pubs) ==> g.pubs[best.value].priority <= g.pubs[p].priority
  {
    best := None;
    LocalsByName(g, sp);
    var pubs := PubsUnder(g.pubsByName, sp.service);
    if sp.min != 0 { return; }
    var todo := pubs.Values;
    while todo != {}
      invariant todo <= pubs.Values
      invariant best.None? <==> todo == pubs.Values
      invariant best.Some? ==> best.value in Locals(sp, g.pubs)
      invariant best.Some? ==>
        forall p :: p in pubs.Values && p !in todo ==> g.pubs[best.value].priority <= g.pubs[p].priority
    {
      var p :| p in todo;
      if best.None? || g.pubs[p].priority < g.pubs[best.value].priority {
        best := Some(p);
        if g.pubs[p].priority == 0 { return; }
      }
      todo := todo - {p};
    }
  }

  /** The best endpoint so far, with its priority and distance. */
  datatype Leader = Leader(target: Target, priority: nat, distance: nat)

  /** The best of all local candidates and of the remote ones in `done`. */
  ghost predicate Leads(g: Reg, sp: Spec, done: set<nat>, best: Option<Leader>) {
    && done <= Remotes(sp, g.remotes)
    && (best.None? <==> Locals(sp, g.pubs) == {} && done == {})
    && (best.Some? ==>
          && Candidate(sp, g, best.value.target)
          && best.value.priority == PriorityOf(g, best.value.target) && best.value.distance == Distance(g, best.value.target)
          && (forall p :: p in Locals(sp, g.pubs) ==> AtMost(g, best.value.target, Local(p)))
          && (forall r :: r in done ==> AtMost(g, best.value.target, Far(r)))
          && (best.value.target.Far? ==> forall p :: p in Locals(sp, g.pubs) ==> !AtMost(g, Local(p), best.value.target)))
  }

  method TryRemote(g: Reg, sp: Spec, ghost done: set<nat>, r: nat, best: Option<Leader>) returns (best': Option<Leader>)
    requires Leads(g, sp, done, best) && r in Remotes(sp, g.remotes)
    ensures Leads(g, sp, done + {r}, best')
  {
    best' := best;
    var remote := g.remotes[r];
    if best.None? || IsBetter(remote.priority, best.value.priority, remote.distance, best.value.distance) {
      best' := Some(Leader(Far(r), remote.priority, remote.distance));
    }
  }

  /** The remotes of the peer `k` under the name are all in range, or none is. */
  lemma RemotesByName(g: Reg, distances: map<nat, nat>, sp: Spec, k: nat, r: nat)
    requires RemoteNamesOk(g.remotesByName, g.remotes) && PeersAt(distances, g.remotes) && k in distances
    ensures r in RemotesUnder(g.remotesByName, k, sp.service) ==> r in g.remotes && g.remotes[r].peer == k
    ensures sp.min <= distances[k] <= sp.max ==>
      (r in RemotesUnder(g.remotesByName, k, sp.service) <==> r in Remotes(sp, g.remotes) && g.remotes[r].peer == k)
    ensures !(sp.min <= distances[k] <= sp.max) ==> !(r in Remotes(sp, g.remotes) && g.remotes[r].peer == k)
  {
    assert PeerNameAt(g.remotesByName, g.remotes, k, sp.service, r) && RemoteAt(g.remotesByName, g.remotes, r);
  }

  method TryPeer(g: Reg, distances: map<nat, nat>, sp: Spec, k: nat, ghost done: set<nat>, best: Option<Leader>)
    returns (best': Option<Leader>)
    requires RemoteNamesOk(g.remotesByName, g.remotes) && PeersAt(distances, g.remotes) && k in distances
    requires Leads(g, sp, done, best)
    ensures Leads(g, sp, done + OfPeer(g, sp, k), best')
  {
    best' := best;
    forall r: nat { RemotesByName(g, distances, sp, k, r); }
    if distances[k] < sp.min || distances[k] > sp.max {
      assert done + OfPeer(g, sp, k) == done;
      return;
    }
    var todo := RemotesUnder(g.remotesByName, k, sp.service);
    assert todo == OfPeer(g, sp, k);
    ghost var seen := done;
    while todo != {}
      invariant todo <= OfPeer(g, sp, k) && seen == done + (OfPeer(g, sp, k) - todo) && Leads(g, sp, seen, best')
    {
      var r :| r in todo;
      best' := TryRemote(g, sp, seen, r, best');
      seen, todo := seen + {r}, todo - {r};
    }
    assert done + (OfPeer(g, sp, k) - {}) == done + OfPeer(g, sp, k);
  }

  ghost function OfPeer(g: Reg, sp: Spec, k: nat): set<nat> {
    set r | r in Remotes(sp, g.remotes) && g.remotes[r].peer == k
  }

  /** The remote candidates of all peers but those in `todo`. */
  ghost function OffPeers(g: Reg, sp: Spec, todo: set<nat>): set<nat> {
    set r | r in Remotes(sp, g.remotes) && g.remotes[r].peer !in todo
  }

  lemma Best(g: Reg, sp: Spec, best: Option<Leader>)
    requires Leads(g, sp, Remotes(sp, g.remotes), best)
    ensures best.None? ==> forall c :: !Candidate(sp, g, c)
    ensures best.Some? ==> Chosen(sp, g, best.value.target)
  {
    if best.Some? {
      var t := best.value.target;
      forall c | Candidate(sp, g, c) ensures AtMost(g, t, c) && (t.Far? && c.Local? ==> !AtMost(g, c, t)) {
        match c { case Local(p) => assert p in Locals(sp, g.pubs); case Far(r) => assert r in Remotes(sp, g.remotes); }
      }
    }
  }

  /** The peers' loop, from the best local candidate on. */
  method FindRemote(g: Reg, distances: map<nat, nat>, sp: Spec, local: Option<Leader>) returns (best: Option<Leader>)
    requires RemoteNamesOk(g.remotesByName, g.remotes) && PeersAt(distances, g.remotes) && Leads(g, sp, {}, local)
    ensures Leads(g, sp, Remotes(sp, g.remotes), best)
  {
    best := local;
    var todo := distances.Keys;
    assert OffPeers(g, sp, todo) == {};
    while todo != {}
      invariant todo <= distances.Keys && Leads(g, sp, OffPeers(g, sp, todo), best)
    {
      var k :| k in todo;
      assert OffPeers(g, sp, todo) + OfPeer(g, sp, k) == OffPeers(g, sp, todo - {k});
      best := TryPeer(g, distances, sp, k, OffPeers(g, sp, todo), best);
      todo := todo - {k};
    }
    assert OffPeers(g, sp, {}) == Remotes(sp, g.remotes);
  }

  /** A publication of priority 0 is the best there is. */
  lemma ZeroIsBest(g: Reg, sp: Spec, p: nat)
    requires p in Locals(sp, g.pubs) && g.pubs[p].priority == 0
    ensures Chosen(sp, g, Local(p))
  {
    forall c | Candidate(sp, g, c) ensures AtMost(g, Local(p), c) { }
  }

  method FindEndpoint(g: Reg, distances: map<nat, nat>, sp: Spec) returns (found: Option<Found>)
    requires PubNamesOk(g.pubsByName, g.pubs) && RemoteNamesOk(g.remotesByName, g.remotes) && PeersAt(distances, g.remotes)
    ensures sp.service in g.routes ==> found == Some(ByRoute(g.routes[sp.service].id))
    ensures sp.service !in g.routes && found.None? ==> forall c :: !Candidate(sp, g, c)
    ensures sp.service !in g.routes && found.Some? ==> found.value.ByTarget? && Chosen(sp, g, found.value.target)
  {
    if sp.service in g.routes { return Some(ByRoute(g.routes[sp.service].id)); }
    var best: Option<Leader> := None;
    var local := FindLocal(g, sp);
    if local.Some? {
      if g.pubs[local.value].priority == 0 {
        ZeroIsBest(g, sp, local.value);
        return Some(ByTarget(Local(local.value)));
      }
      best := Some(Leader(Local(local.value), g.pubs[local.value].priority, 0));
    }
    best := FindRemote(g, distances, sp, best);
    Best(g, sp, best);
    found := if best.None? then None else Some(ByTarget(best.value.target));
  }
}

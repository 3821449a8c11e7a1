/** Several peers of one server: each keeps to its own remotes, and its distance
    decides which subscriptions see them. */
module PeerDistances {
  import R = Registry
  import opened RegistryFrames
  import P = Peers
  import IndexMeaning
  import Lookup
  import opened PeerIndex

  /** An option lists a service that a peer offers exactly if it asks for that
      service and its range includes the peer's distance. */
  lemma ListedByDistance(j: Joint, site: Site, s: nat, i: nat, t: nat)
    requires Ok(j, site) && s in j.g.subs && i < |j.g.subs[s].options| && t in j.table
    ensures t in j.ids
    ensures var o := j.g.subs[s].options[i];
            j.ids[t] in o.remote <==>
              o.spec.service == j.table[t].entry.name && o.spec.min <= site.distance && site.distance <= o.spec.max
  {
    ShownField(j, site, t);
    IndexMeaning.WhatOptionsList(j.g, s, i);
  }

  /** What one peer does leaves the other peers as they were. */
  lemma OthersKeep(j: Joint, j': Joint, site: Site, other: Joint, there: Site)
    requires Ok(j, site) && Ok(j', site) && Rest(j') == Rest(j)
    requires Ok(other, there) && other.g == j.g && there.peer != site.peer
    ensures Ok(other.(g := j'.g, next := j'.next), there)
  {
    var was, now := EntriesOf(j.g).remotes, EntriesOf(j'.g).remotes;
    assert Others(j'.ids, now) == Others(j.ids, was);
    forall t | t in other.ids ensures other.ids[t] in now && now[other.ids[t]] == InfoOf(other.table[t], there) {
      var r := other.ids[t];
      assert was[r].peer == there.peer;
      if r in j.ids.Values { Theirs(j, site, r); }
      assert r in Others(j.ids, was) && Others(j'.ids, now)[r] == was[r];
    }
    forall r: nat ensures OwnAt(other.ids, now, there, r) {
      if r in now && now[r].peer == there.peer {
        if r in j'.ids.Values { Theirs(j', site, r); }
        assert r in Others(j'.ids, now) && Others(j.ids, was)[r] == now[r];
        assert OwnAt(other.ids, was, there, r);
      }
    }
  }

  lemma Theirs(j: Joint, site: Site, r: nat)
    requires Ok(j, site) && r in j.ids.Values
    ensures r in EntriesOf(j.g).remotes && EntriesOf(j.g).remotes[r].peer == site.peer
  {
    var t :| t in j.ids && j.ids[t] == r;
    assert EntriesOf(j.g).remotes[r] == InfoOf(j.table[t], site);
  }

  /** With all its peers at their distances, a server's lookups by distance are
      about where the remotes are. */
  lemma AllPeersAt(g: R.Reg, next: nat, distances: map<nat, nat>, peers: map<nat, (P.Remotes, map<nat, nat>)>)
    requires peers.Keys == distances.Keys && forall r :: r in g.remotes ==> g.remotes[r].peer in distances
    requires forall k :: k in distances ==> Ok(Joint(g, next, peers[k].0, peers[k].1), Site(k, distances[k]))
    ensures Lookup.PeersAt(distances, g.remotes)
  {
    forall r | r in g.remotes ensures g.remotes[r].distance == distances[g.remotes[r].peer] {
      var k := g.remotes[r].peer;
      var j, site := Joint(g, next, peers[k].0, peers[k].1), Site(k, distances[k]);
      ShownFields(j, site);
      var t :| t in j.table && j.ids[t] == r;
      ShownField(j, site, t);
    }
  }
}

/** What the caches of the registry hold, said field by field: which entries an
    option lists and in which order, and who is referenced back. */
module IndexMeaning {
  import opened Common
  import opened Registry
  import opened Subscription

  /** An option lists the publications of its service unless its range starts
      beyond distance 0, and the remotes of its service within its range; each
      once, lowest priority first. It has the route of its service, unless routes
      are disabled. */
  lemma WhatOptionsList(g: Reg, s: nat, i: nat)
    requires Indexed(g) && s in g.subs && i < |g.subs[s].options|
    ensures var o := g.subs[s].options[i];
            && (forall p: nat :: p in o.local <==> p in g.pubs && g.pubs[p].name == o.spec.service && o.spec.min == 0)
            && (forall r: nat :: r in o.remote <==>
                  r in g.remotes && g.remotes[r].name == o.spec.service && o.spec.min <= g.remotes[r].distance <= o.spec.max)
            && Distinct(o.local) && Distinct(o.remote)
            && (forall a, b :: 0 <= a < b < |o.local| ==>
                  o.local[a] in g.pubs && o.local[b] in g.pubs && g.pubs[o.local[a]].priority <= g.pubs[o.local[b]].priority)
            && (forall a, b :: 0 <= a < b < |o.remote| ==>
                  o.remote[a] in g.remotes && o.remote[b] in g.remotes && g.remotes[o.remote[a]].priority <= g.remotes[o.remote[b]].priority)
            && o.route == if !g.subs[s].disableRoutes && o.spec.service in g.routes then Some(g.routes[o.spec.service].id) else None
  {
    var o := g.subs[s].options[i];
    assert SubOk(g.subs[s], g.pubs, g.remotes, g.routes);
    assert LocalOk(o, g.pubs) && RemoteOk(o, g.remotes);
    ListsOnce(o.local, Locals(o.spec, g.pubs), PubPriorities(g.pubs));
    ListsOnce(o.remote, Remotes(o.spec, g.remotes), RemotePriorities(g.remotes));
    forall p: nat ensures p in o.local <==> p in g.pubs && g.pubs[p].name == o.spec.service && o.spec.min == 0 {
      ListMember(o.local, Locals(o.spec, g.pubs), p);
    }
    forall r: nat
      ensures r in o.remote <==>
        r in g.remotes && g.remotes[r].name == o.spec.service && o.spec.min <= g.remotes[r].distance <= o.spec.max
    {
      ListMember(o.remote, Remotes(o.spec, g.remotes), r);
    }
  }

  lemma ListsOnce(list: seq<nat>, members: set<nat>, prio: map<nat, nat>)
    requires Lists(list, members, prio)
    ensures Distinct(list)
  {
    forall i, j | 0 <= i < j < |list| ensures list[i] != list[j] {
      if list[i] == list[j] { CountedTwice(list, i, j); }
    }
  }

  lemma CountedTwice(list: seq<nat>, i: nat, j: nat)
    requires i < j < |list| && list[i] == list[j]
    ensures multiset(list)[list[i]] >= 2
  {
    assert list == list[..j] + list[j..];
    assert list[i] in multiset(list[..j]) && list[j] in multiset(list[j..]);
  }

  /** The cached priorities are those of the first entries, or the lowest there is;
      and the entries counted as ties are exactly those with that priority. */
  lemma WhatIsCached(g: Reg, s: nat, i: nat)
    requires Indexed(g) && s in g.subs && i < |g.subs[s].options|
    ensures var o := g.subs[s].options[i];
            && (o.local != [] ==> o.local[0] in g.pubs && o.localPriority == g.pubs[o.local[0]].priority)
            && (o.local == [] ==> o.localPriority == 0xffff_ffff)
            && (o.remote != [] ==> o.remote[0] in g.remotes && o.remotePriority == g.remotes[o.remote[0]].priority)
            && (o.remote == [] ==> o.remotePriority == 0xffff_ffff && o.remoteCount == 0)
            && o.remoteCount <= |o.remote|
            && (forall a :: 0 <= a < |o.remote| ==>
                  o.remote[a] in g.remotes && (a < o.remoteCount <==> g.remotes[o.remote[a]].priority == o.remotePriority))
  {
    var o := g.subs[s].options[i];
    assert SubOk(g.subs[s], g.pubs, g.remotes, g.routes);
    assert LocalOk(o, g.pubs) && RemoteOk(o, g.remotes);
    if o.local != [] { ListMember(o.local, Locals(o.spec, g.pubs), o.local[0]); }
    forall a | 0 <= a < |o.remote|
      ensures o.remote[a] in g.remotes && (a < o.remoteCount <==> g.remotes[o.remote[a]].priority == o.remotePriority)
    {
      TieCounted(o, g.remotes, a);
    }
  }

  lemma TieCounted(o: Opt, remotes: map<nat, Remote>, a: nat)
    requires RemoteOk(o, remotes) && a < |o.remote|
    ensures o.remote[a] in remotes && (a < o.remoteCount <==> remotes[o.remote[a]].priority == o.remotePriority)
  {
    var prio := RemotePriorities(remotes);
    assert o.remote[a] in prio && o.remote[0] in prio;
    if a >= o.remoteCount { assert prio[o.remote[0]] <= prio[o.remote[o.remoteCount]] <= prio[o.remote[a]]; }
  }

  /** The first option with anything to offer is the active one. */
  lemma WhatIsActive(g: Reg, s: nat, i: nat)
    requires Indexed(g) && s in g.subs && i < |g.subs[s].options|
    ensures var sub := g.subs[s];
            var offers := sub.options[i].route.Some? || sub.options[i].local != [] || sub.options[i].remote != [];
            (i < sub.active ==> !offers) && (i == sub.active ==> offers)
  {
    assert SubOk(g.subs[s], g.pubs, g.remotes, g.routes);
  }

  /** An entry refers back to exactly the subscriptions with an option that lists it. */
  lemma WhoListsPub(g: Reg, s: nat, p: nat)
    requires Indexed(g) && p in g.pubs
    ensures s in g.pubs[p].subs <==> s in g.subs && exists i :: 0 <= i < |g.subs[s].options| && p in g.subs[s].options[i].local
  {
    if s in g.subs {
      forall i: nat | i < |g.subs[s].options|
        ensures p in g.subs[s].options[i].local <==> MatchesPub(g.subs[s].options[i].spec, g.pubs[p])
      {
        WhatOptionsList(g, s, i);
      }
    }
  }

  lemma WhoListsRemote(g: Reg, s: nat, r: nat)
    requires Indexed(g) && r in g.remotes
    ensures s in g.remotes[r].subs <==> s in g.subs && exists i :: 0 <= i < |g.subs[s].options| && r in g.subs[s].options[i].remote
  {
    if s in g.subs {
      forall i: nat | i < |g.subs[s].options|
        ensures r in g.subs[s].options[i].remote <==> MatchesRemote(g.subs[s].options[i].spec, g.remotes[r])
      {
        WhatOptionsList(g, s, i);
      }
    }
  }

  /** A name leads to exactly the subscriptions that ask for it. */
  lemma WhoAsksFor(g: Reg, s: nat, n: string)
    requires NamesOk(g.subsByName, g.subs)
    ensures n in g.subsByName && s in g.subsByName[n] <==>
      s in g.subs && exists i :: 0 <= i < |g.subs[s].options| && g.subs[s].options[i].spec.service == n
  {
    assert (if n in g.subsByName then g.subsByName[n] else {}) == NameRefs(g.subs, n);
  }

  /** A route leads to those of them that follow routes. */
  lemma WhoFollows(g: Reg, s: nat, n: string)
    requires RouteRefsOk(g.routes, g.subs) && n in g.routes
    ensures s in g.routes[n].subs <==>
      s in g.subs && !g.subs[s].disableRoutes && exists i :: 0 <= i < |g.subs[s].options| && g.subs[s].options[i].spec.service == n
  {
  }

  /** The maps by name lead to exactly what is registered. */
  lemma WhatNamesLeadTo(g: Reg, n: string, k: nat, p: nat)
    requires PubNamesOk(g.pubsByName, g.pubs)
    ensures n in g.pubsByName && k in g.pubsByName[n] && g.pubsByName[n][k] == p <==>
      p in g.pubs && g.pubs[p].name == n && g.pubs[p].priority == k
  {
    assert PubAt(g.pubsByName, g.pubs, p) && NameAt(g.pubsByName, g.pubs, n, k);
  }

  lemma WhatPeersLeadTo(g: Reg, n: string, k: nat, r: nat)
    requires RemoteNamesOk(g.remotesByName, g.remotes)
    ensures k in g.remotesByName && n in g.remotesByName[k] && r in g.remotesByName[k][n] <==>
      r in g.remotes && g.remotes[r].peer == k && g.remotes[r].name == n
  {
    assert RemoteAt(g.remotesByName, g.remotes, r) && PeerNameAt(g.remotesByName, g.remotes, k, n, r);
  }

  /** The cases of a route: one for each choice built so far, with its weight, a
      subscription of its own for its options that follows no routes. */
  lemma WhatCasesAre(g: Reg, n: string, i: nat)
    requires Indexed(g) && n in g.routes && i < |g.routes[n].cases|
    ensures i < |g.routes[n].choices| && g.routes[n].cases[i].weight == g.routes[n].choices[i].weight
    ensures var c, options := g.routes[n].cases[i], g.routes[n].choices[i].options;
            && c.sub in g.subs && g.subs[c.sub].disableRoutes && |g.subs[c.sub].options| == |options|
            && forall k :: 0 <= k < |options| ==> g.subs[c.sub].options[k].spec == options[k]
    ensures forall m, j :: m in g.routes && 0 <= j < |g.routes[m].cases| && (m != n || j != i) ==>
      g.routes[m].cases[j].sub != g.routes[n].cases[i].sub
  {
    var c := g.routes[n].cases[i];
    assert CaseOk(c, g.routes[n].choices[i], g.subs);
    forall k | 0 <= k < |g.subs[c.sub].options|
      ensures g.subs[c.sub].options[k].spec == g.routes[n].choices[i].options[k]
    {
      assert Specs(g.subs[c.sub])[k] == g.subs[c.sub].options[k].spec;
    }
    forall m, j | m in g.routes && 0 <= j < |g.routes[m].cases| && (m != n || j != i)
      ensures g.routes[m].cases[j].sub != c.sub
    {
      assert IsCase(g.routes, n, i, c.sub);
      assert IsCase(g.routes, m, j, g.routes[m].cases[j].sub);
    }
  }
}

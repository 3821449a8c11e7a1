/** Each change of a registry, followed through the subscriptions, keeps the index. */
module RegistrySteps {
  import opened Registry
  import opened Subscription
  import opened RegistryFrames
  import opened Announcements
  import opened Membership

  /** With the same settings on all subscriptions, the back-references stay right. */
  lemma SettingsKept(g: Reg, subs': map<nat, Sub>)
    requires Indexed(g) && SubInfo(subs') == SubInfo(g.subs)
    ensures PubRefsOk(g.pubs, subs') && RemoteRefsOk(g.remotes, subs') && RouteRefsOk(g.routes, subs')
    ensures NamesOk(g.subsByName, subs') && CasesOk(g.routes, subs')
  {
    RefsSame(g.subs, subs');
    InfoSame(g.subs, subs');
    forall s | s in g.subs ensures s in subs' && Settings(subs'[s]) == Settings(g.subs[s]) {
      SettingsSame(g.subs[s], subs'[s]);
    }
    CasesFrame(g.routes, g.routes, g.subs, subs');
  }

  lemma SameInfo(subs: map<nat, Sub>, subs': map<nat, Sub>)
    requires subs'.Keys == subs.Keys && forall s :: s in subs ==> SameSpecs(subs[s], subs'[s])
    ensures SubInfo(subs') == SubInfo(subs)
  {
    forall s | s in subs ensures SubInfo(subs')[s] == SubInfo(subs)[s] {
      SettingsSame(subs[s], subs'[s]);
    }
  }

  // ----- publications

  lemma HeardPubOk(sub: Sub, sub': Sub, g: Reg, pubs: map<nat, Pub>)
    requires SubOk(sub, g.pubs, g.remotes, g.routes) && HeardPub(sub, sub', pubs)
    ensures SubOk(sub', pubs, g.remotes, g.routes) && SameSpecs(sub, sub')
  {
    assert forall i :: 0 <= i < |sub.options| ==> RemoteOk(sub'.options[i], g.remotes);
  }

  lemma HeardPubAll(g: Reg, subs': map<nat, Sub>, pubs: map<nat, Pub>)
    requires Indexed(g) && subs'.Keys == g.subs.Keys
    requires forall s :: s in g.subs ==> HeardPub(g.subs[s], subs'[s], pubs)
    ensures SubsOk(subs', pubs, g.remotes, g.routes) && SubInfo(subs') == SubInfo(g.subs)
  {
    forall s | s in g.subs ensures SubOk(subs'[s], pubs, g.remotes, g.routes) && SameSpecs(g.subs[s], subs'[s]) {
      HeardPubOk(g.subs[s], subs'[s], g, pubs);
    }
    SameInfo(g.subs, subs');
  }

  lemma ListedPub(pubs: map<nat, Pub>, subs: map<nat, Sub>, p: nat, entry: Pub)
    requires PubRefsOk(pubs, subs)
    ensures PubRefsOk(pubs[p := entry.(subs := PubRefs(subs, entry))], subs)
  {
    var listed := entry.(subs := PubRefs(subs, entry));
    forall s | s in subs ensures WantsPub(subs[s], entry) <==> WantsPub(subs[s], listed) { }
    assert PubRefs(subs, entry) == PubRefs(subs, listed);
  }

  lemma PublishedCaches(g: Reg, p: nat, entry: Pub, base: map<nat, Pub>, subs': map<nat, Sub>, listed: set<nat>)
    requires base == g.pubs[p := entry] && SubsOk(subs', base, g.remotes, g.routes) && p !in g.pubs
    ensures SubsOk(subs', g.pubs[p := entry.(subs := listed)], g.remotes, g.routes)
    ensures PubInfo(g.pubs[p := entry.(subs := listed)]) == PubInfo(g.pubs)[p := entry.(subs := {})]
  {
    var pubs' := g.pubs[p := entry.(subs := listed)];
    assert PubInfo(base) == PubInfo(pubs');
    SubsFrame(subs', base, pubs', g.remotes, g.remotes, g.routes, g.routes);
  }

  lemma PublishKeeps(g: Reg, p: nat, entry: Pub, base: map<nat, Pub>, subs': map<nat, Sub>, g': Reg)
    requires Indexed(g) && p !in g.pubs && base == g.pubs[p := entry] && subs'.Keys == g.subs.Keys
    requires forall s :: s in g.subs ==> HeardPub(g.subs[s], subs'[s], base)
    requires entry.priority !in PubsUnder(g.pubsByName, entry.name)
    requires g' == g.(pubs := g.pubs[p := entry.(subs := PubRefs(g.subs, entry))], subs := subs',
                      pubsByName := NamePub(g.pubsByName, entry.name, entry.priority, p))
    ensures Indexed(g') && SubInfo(subs') == SubInfo(g.subs)
    ensures PubInfo(g'.pubs) == PubInfo(g.pubs)[p := entry.(subs := {})]
  {
    HeardPubAll(g, subs', base);
    SettingsKept(g, subs');
    PublishedCaches(g, p, entry, base, subs', PubRefs(g.subs, entry));
    assert PubRefs(subs', entry) == PubRefs(g.subs, entry) by { RefsSame(g.subs, subs'); }
    ListedPub(g.pubs, subs', p, entry);
    NamePubKeeps(g.pubsByName, g.pubs, p, g'.pubs[p]);
  }

  lemma PubsWithout(pubs: map<nat, Pub>, subs: map<nat, Sub>, p: nat)
    requires PubRefsOk(pubs, subs)
    ensures PubRefsOk(pubs - {p}, subs) && PubInfo(pubs - {p}) == PubInfo(pubs) - {p}
  {
    forall o | o in pubs - {p} ensures (pubs - {p})[o].subs == PubRefs(subs, pubs[o]) { }
  }

  lemma UnpublishKeeps(g: Reg, p: nat, subs': map<nat, Sub>, g': Reg)
    requires Indexed(g) && p in g.pubs && subs'.Keys == g.subs.Keys
    requires forall s :: s in g.subs ==> HeardPub(g.subs[s], subs'[s], g.pubs - {p})
    requires g' == g.(pubs := g.pubs - {p}, subs := subs', pubsByName := UnnamePub(g.pubsByName, g.pubs[p].name, g.pubs[p].priority))
    ensures Indexed(g') && SubInfo(subs') == SubInfo(g.subs)
    ensures PubInfo(g'.pubs) == PubInfo(g.pubs) - {p}
  {
    HeardPubAll(g, subs', g.pubs - {p});
    SettingsKept(g, subs');
    PubsWithout(g.pubs, subs', p);
    UnnamePubKeeps(g.pubsByName, g.pubs, p);
  }

  // ----- remotes

  lemma HeardRemoteOk(sub: Sub, sub': Sub, g: Reg, remotes: map<nat, Remote>)
    requires SubOk(sub, g.pubs, g.remotes, g.routes) && HeardRemote(sub, sub', remotes)
    ensures SubOk(sub', g.pubs, remotes, g.routes) && SameSpecs(sub, sub')
  {
    assert forall i :: 0 <= i < |sub.options| ==> LocalOk(sub'.options[i], g.pubs);
  }

  lemma HeardRemoteAll(g: Reg, subs': map<nat, Sub>, remotes: map<nat, Remote>)
    requires Indexed(g) && subs'.Keys == g.subs.Keys
    requires forall s :: s in g.subs ==> HeardRemote(g.subs[s], subs'[s], remotes)
    ensures SubsOk(subs', g.pubs, remotes, g.routes) && SubInfo(subs') == SubInfo(g.subs)
  {
    forall s | s in g.subs ensures SubOk(subs'[s], g.pubs, remotes, g.routes) && SameSpecs(g.subs[s], subs'[s]) {
      HeardRemoteOk(g.subs[s], subs'[s], g, remotes);
    }
    SameInfo(g.subs, subs');
  }

  lemma ListedRemote(remotes: map<nat, Remote>, subs: map<nat, Sub>, r: nat, entry: Remote)
    requires RemoteRefsOk(remotes, subs)
    ensures RemoteRefsOk(remotes[r := entry.(subs := RemoteRefs(subs, entry))], subs)
  {
    var listed := entry.(subs := RemoteRefs(subs, entry));
    forall s | s in subs ensures WantsRemote(subs[s], entry) <==> WantsRemote(subs[s], listed) { }
    assert RemoteRefs(subs, entry) == RemoteRefs(subs, listed);
  }

  lemma AddedCaches(g: Reg, r: nat, entry: Remote, base: map<nat, Remote>, subs': map<nat, Sub>, listed: set<nat>)
    requires base == g.remotes[r := entry] && SubsOk(subs', g.pubs, base, g.routes) && r !in g.remotes
    ensures SubsOk(subs', g.pubs, g.remotes[r := entry.(subs := listed)], g.routes)
    ensures RemoteInfo(g.remotes[r := entry.(subs := listed)]) == RemoteInfo(g.remotes)[r := entry.(subs := {})]
  {
    var remotes' := g.remotes[r := entry.(subs := listed)];
    assert RemoteInfo(base) == RemoteInfo(remotes');
    SubsFrame(subs', g.pubs, g.pubs, base, remotes', g.routes, g.routes);
  }

  lemma AddRemoteKeeps(g: Reg, r: nat, entry: Remote, base: map<nat, Remote>, subs': map<nat, Sub>, g': Reg)
    requires Indexed(g) && r !in g.remotes && base == g.remotes[r := entry] && subs'.Keys == g.subs.Keys
    requires forall s :: s in g.subs ==> HeardRemote(g.subs[s], subs'[s], base)
    requires g' == g.(remotes := g.remotes[r := entry.(subs := RemoteRefs(g.subs, entry))], subs := subs',
                      remotesByName := NameRemote(g.remotesByName, entry.peer, entry.name, r))
    ensures Indexed(g') && SubInfo(subs') == SubInfo(g.subs)
    ensures RemoteInfo(g'.remotes) == RemoteInfo(g.remotes)[r := entry.(subs := {})]
  {
    HeardRemoteAll(g, subs', base);
    SettingsKept(g, subs');
    AddedCaches(g, r, entry, base, subs', RemoteRefs(g.subs, entry));
    assert RemoteRefs(subs', entry) == RemoteRefs(g.subs, entry) by { RefsSame(g.subs, subs'); }
    ListedRemote(g.remotes, subs', r, entry);
    NameRemoteKeeps(g.remotesByName, g.remotes, r, g'.remotes[r]);
  }

  lemma RemotesWithout(remotes: map<nat, Remote>, subs: map<nat, Sub>, r: nat)
    requires RemoteRefsOk(remotes, subs)
    ensures RemoteRefsOk(remotes - {r}, subs) && RemoteInfo(remotes - {r}) == RemoteInfo(remotes) - {r}
  {
    forall o | o in remotes - {r} ensures (remotes - {r})[o].subs == RemoteRefs(subs, remotes[o]) { }
  }

  lemma RemoveRemoteKeeps(g: Reg, r: nat, subs': map<nat, Sub>, g': Reg)
    requires Indexed(g) && r in g.remotes && subs'.Keys == g.subs.Keys
    requires forall s :: s in g.subs ==> HeardRemote(g.subs[s], subs'[s], g.remotes - {r})
    requires g' == g.(remotes := g.remotes - {r}, subs := subs',
                      remotesByName := UnnameRemote(g.remotesByName, g.remotes[r].peer, g.remotes[r].name, r))
    ensures Indexed(g') && SubInfo(subs') == SubInfo(g.subs)
    ensures RemoteInfo(g'.remotes) == RemoteInfo(g.remotes) - {r}
  {
    HeardRemoteAll(g, subs', g.remotes - {r});
    SettingsKept(g, subs');
    RemotesWithout(g.remotes, subs', r);
    UnnameRemoteKeeps(g.remotesByName, g.remotes, r);
  }

  // ----- subscriptions

  lemma JoinedPubs(was: map<nat, Pub>, now: map<nat, Pub>, subs: map<nat, Sub>, s: nat, sub: Sub)
    requires PubRefsOk(was, subs) && s !in subs
    requires now.Keys == was.Keys && PubInfo(now) == PubInfo(was)
    requires forall x :: x in was ==> Joined(was[x].subs, now[x].subs, s, WantsPub(sub, was[x]))
    ensures PubRefsOk(now, subs[s := sub])
  {
    var subs' := subs[s := sub];
    forall x | x in now ensures now[x].subs == PubRefs(subs', now[x]) {
      assert PubInfo(now)[x] == PubInfo(was)[x];
      forall t: Sub ensures WantsPub(t, now[x]) <==> WantsPub(t, was[x]) { }
      assert was[x].subs == PubRefs(subs, was[x]);
    }
  }

  lemma JoinedRemotes(was: map<nat, Remote>, now: map<nat, Remote>, subs: map<nat, Sub>, s: nat, sub: Sub)
    requires RemoteRefsOk(was, subs) && s !in subs
    requires now.Keys == was.Keys && RemoteInfo(now) == RemoteInfo(was)
    requires forall x :: x in was ==> Joined(was[x].subs, now[x].subs, s, WantsRemote(sub, was[x]))
    ensures RemoteRefsOk(now, subs[s := sub])
  {
    var subs' := subs[s := sub];
    forall x | x in now ensures now[x].subs == RemoteRefs(subs', now[x]) {
      assert RemoteInfo(now)[x] == RemoteInfo(was)[x];
      forall t: Sub ensures WantsRemote(t, now[x]) <==> WantsRemote(t, was[x]) { }
      assert was[x].subs == RemoteRefs(subs, was[x]);
    }
  }

  lemma JoinedRoutes(was: map<string, Route>, now: map<string, Route>, subs: map<nat, Sub>, s: nat, sub: Sub)
    requires RouteRefsOk(was, subs) && s !in subs
    requires now.Keys == was.Keys
    requires forall x :: x in was ==> Joined(was[x].subs, now[x].subs, s, WantsRoute(sub, x))
    ensures RouteRefsOk(now, subs[s := sub])
  {
    var subs' := subs[s := sub];
    forall x | x in now ensures now[x].subs == RouteRefs(subs', x) {
      assert was[x].subs == RouteRefs(subs, x);
    }
  }

  lemma JoinedNames(byName: map<string, set<nat>>, byName': map<string, set<nat>>, subs: map<nat, Sub>, s: nat, sub: Sub)
    requires NamesOk(byName, subs) && s !in subs
    requires forall n :: n in byName' ==> byName'[n] != {}
    requires forall n :: Joined(Under(byName, n), Under(byName', n), s, Names(sub, n))
    ensures NamesOk(byName', subs[s := sub])
  {
    forall n ensures Under(byName', n) == NameRefs(subs[s := sub], n) {
      assert Under(byName, n) == NameRefs(subs, n);
    }
  }

  /** The entries are the same but for their back-references. */
  ghost predicate SameEntries(g: Reg, g': Reg) {
    g'.pubsByName == g.pubsByName && g'.remotesByName == g.remotesByName &&
    PubInfo(g'.pubs) == PubInfo(g.pubs) && RemoteInfo(g'.remotes) == RemoteInfo(g.remotes) && RouteInfo(g'.routes) == RouteInfo(g.routes)
  }

  ghost predicate RefsOk(g: Reg) {
    && PubRefsOk(g.pubs, g.subs) && RemoteRefsOk(g.remotes, g.subs) && RouteRefsOk(g.routes, g.subs)
    && NamesOk(g.subsByName, g.subs)
  }

  lemma EntriesMoved(g: Reg, g': Reg)
    requires SubsOk(g'.subs, g.pubs, g.remotes, g.routes) && CasesOk(g.routes, g'.subs) && SameEntries(g, g')
    requires PubNamesOk(g.pubsByName, g.pubs) && RemoteNamesOk(g.remotesByName, g.remotes)
    ensures SubsOk(g'.subs, g'.pubs, g'.remotes, g'.routes) && CasesOk(g'.routes, g'.subs)
    ensures PubNamesOk(g'.pubsByName, g'.pubs) && RemoteNamesOk(g'.remotesByName, g'.remotes)
  {
    PubNamesFrame(g.pubsByName, g.pubs, g'.pubs);
    RemoteNamesFrame(g.remotesByName, g.remotes, g'.remotes);
    CasesFrame(g.routes, g'.routes, g'.subs, g'.subs);
    SubsFrame(g'.subs, g.pubs, g'.pubs, g.remotes, g'.remotes, g.routes, g'.routes);
  }

  lemma CasesWith(routes: map<string, Route>, subs: map<nat, Sub>, s: nat, sub: Sub)
    requires CasesOk(routes, subs) && s !in subs
    ensures CasesOk(routes, subs[s := sub])
  {
    forall n, i | n in routes && 0 <= i < |routes[n].cases| ensures CaseOk(routes[n].cases[i], routes[n].choices[i], subs[s := sub]) {
      assert CaseOk(routes[n].cases[i], routes[n].choices[i], subs);
    }
  }

  lemma SubsWith(g: Reg, s: nat, sub: Sub)
    requires SubsOk(g.subs, g.pubs, g.remotes, g.routes) && SubOk(sub, g.pubs, g.remotes, g.routes)
    ensures SubsOk(g.subs[s := sub], g.pubs, g.remotes, g.routes)
    ensures SubInfo(g.subs[s := sub]) == SubInfo(g.subs)[s := Settings(sub)]
  {
    var subs' := g.subs[s := sub];
    forall t | t in subs' ensures SubOk(subs'[t], g.pubs, g.remotes, g.routes) {
      assert t == s || SubOk(g.subs[t], g.pubs, g.remotes, g.routes);
    }
  }

  lemma SubsWithout(g: Reg, s: nat)
    requires SubsOk(g.subs, g.pubs, g.remotes, g.routes)
    ensures SubsOk(g.subs - {s}, g.pubs, g.remotes, g.routes)
    ensures SubInfo(g.subs - {s}) == SubInfo(g.subs) - {s}
  {
    var subs' := g.subs - {s};
    forall t | t in subs' ensures SubOk(subs'[t], g.pubs, g.remotes, g.routes) {
      assert SubOk(g.subs[t], g.pubs, g.remotes, g.routes);
    }
  }

  lemma SubscribeKeeps(g: Reg, s: nat, sub: Sub, g': Reg)
    requires Indexed(g) && s !in g.subs && g'.subs == g.subs[s := sub]
    requires SubOk(sub, g.pubs, g.remotes, g.routes)
    requires SameEntries(g, g') && RefsOk(g')
    ensures Indexed(g') && SubInfo(g'.subs) == SubInfo(g.subs)[s := Settings(sub)]
  {
    SubsWith(g, s, sub);
    CasesWith(g.routes, g.subs, s, sub);
    EntriesMoved(g, g');
  }

  lemma LeftPubs(was: map<nat, Pub>, now: map<nat, Pub>, subs: map<nat, Sub>, s: nat)
    requires PubRefsOk(was, subs) && s in subs
    requires now.Keys == was.Keys && PubInfo(now) == PubInfo(was)
    requires forall x :: x in was ==> Left(was[x].subs, now[x].subs, s, WantsPub(subs[s], was[x]))
    ensures PubRefsOk(now, subs - {s})
  {
    var subs' := subs - {s};
    forall x | x in now ensures now[x].subs == PubRefs(subs', now[x]) {
      assert PubInfo(now)[x] == PubInfo(was)[x];
      forall t: Sub ensures WantsPub(t, now[x]) <==> WantsPub(t, was[x]) { }
      assert was[x].subs == PubRefs(subs, was[x]);
    }
  }

  lemma LeftRemotes(was: map<nat, Remote>, now: map<nat, Remote>, subs: map<nat, Sub>, s: nat)
    requires RemoteRefsOk(was, subs) && s in subs
    requires now.Keys == was.Keys && RemoteInfo(now) == RemoteInfo(was)
    requires forall x :: x in was ==> Left(was[x].subs, now[x].subs, s, WantsRemote(subs[s], was[x]))
    ensures RemoteRefsOk(now, subs - {s})
  {
    var subs' := subs - {s};
    forall x | x in now ensures now[x].subs == RemoteRefs(subs', now[x]) {
      assert RemoteInfo(now)[x] == RemoteInfo(was)[x];
      forall t: Sub ensures WantsRemote(t, now[x]) <==> WantsRemote(t, was[x]) { }
      assert was[x].subs == RemoteRefs(subs, was[x]);
    }
  }

  lemma LeftRoutes(was: map<string, Route>, now: map<string, Route>, subs: map<nat, Sub>, s: nat)
    requires RouteRefsOk(was, subs) && s in subs
    requires now.Keys == was.Keys
    requires forall x :: x in was ==> Left(was[x].subs, now[x].subs, s, WantsRoute(subs[s], x))
    ensures RouteRefsOk(now, subs - {s})
  {
    var subs' := subs - {s};
    forall x | x in now ensures now[x].subs == RouteRefs(subs', x) {
      assert was[x].subs == RouteRefs(subs, x);
    }
  }

  lemma LeftNames(byName: map<string, set<nat>>, byName': map<string, set<nat>>, subs: map<nat, Sub>, s: nat)
    requires NamesOk(byName, subs) && s in subs
    requires forall n :: n in byName' ==> byName'[n] != {}
    requires forall n :: Left(Under(byName, n), Under(byName', n), s, Names(subs[s], n))
    ensures NamesOk(byName', subs - {s})
  {
    forall n ensures Under(byName', n) == NameRefs(subs - {s}, n) {
      assert Under(byName, n) == NameRefs(subs, n);
    }
  }

  lemma UnsubscribeKeeps(g: Reg, s: nat, g': Reg)
    requires Indexed(g) && s in g.subs && g'.subs == g.subs - {s}
    requires forall n, i :: !IsCase(g.routes, n, i, s)
    requires SameEntries(g, g') && RefsOk(g')
    ensures Indexed(g') && SubInfo(g'.subs) == SubInfo(g.subs) - {s}
  {
    SubsWithout(g, s);
    CasesWithout(g.routes, g.subs, s);
    EntriesMoved(g, g');
  }

  lemma CasesWithout(routes: map<string, Route>, subs: map<nat, Sub>, s: nat)
    requires CasesOk(routes, subs) && forall n, i :: !IsCase(routes, n, i, s)
    ensures CasesOk(routes, subs - {s})
  {
    forall n, i | n in routes && 0 <= i < |routes[n].cases| ensures CaseOk(routes[n].cases[i], routes[n].choices[i], subs - {s}) {
      assert CaseOk(routes[n].cases[i], routes[n].choices[i], subs);
      assert !IsCase(routes, n, i, s);
    }
  }

  // ----- routes

  lemma HeardRouteOk(sub: Sub, sub': Sub, g: Reg, routes: map<string, Route>)
    requires SubOk(sub, g.pubs, g.remotes, g.routes) && HeardRoute(sub, sub', routes)
    ensures SubOk(sub', g.pubs, g.remotes, routes) && SameSpecs(sub, sub')
  {
    assert forall i :: 0 <= i < |sub.options| ==> LocalOk(sub'.options[i], g.pubs);
    assert forall i :: 0 <= i < |sub.options| ==> RemoteOk(sub'.options[i], g.remotes);
  }

  lemma HeardRouteAll(g: Reg, subs': map<nat, Sub>, routes: map<string, Route>)
    requires Indexed(g) && subs'.Keys == g.subs.Keys
    requires forall s :: s in g.subs ==> HeardRoute(g.subs[s], subs'[s], routes)
    ensures SubsOk(subs', g.pubs, g.remotes, routes) && SubInfo(subs') == SubInfo(g.subs)
  {
    forall s | s in g.subs ensures SubOk(subs'[s], g.pubs, g.remotes, routes) && SameSpecs(g.subs[s], subs'[s]) {
      HeardRouteOk(g.subs[s], subs'[s], g, routes);
    }
    SameInfo(g.subs, subs');
  }

  /** Routes other than `n` keep their cases; those of `n` are replaced. */
  lemma CasesReplaced(routes: map<string, Route>, n: string, entry: Route, subs: map<nat, Sub>)
    requires CasesOk(routes, subs) && entry.cases == []
    requires forall m :: m in routes && routes[m].id == entry.id ==> m == n
    ensures CasesOk(routes[n := entry], subs)
  {
    var routes' := routes[n := entry];
    forall m, i, k, j, s | IsCase(routes', m, i, s) && IsCase(routes', k, j, s) ensures m == k && i == j {
      assert IsCase(routes, m, i, s) && IsCase(routes, k, j, s);
    }
  }

  lemma CasesDropped(routes: map<string, Route>, n: string, subs: map<nat, Sub>)
    requires CasesOk(routes, subs)
    ensures CasesOk(routes - {n}, subs)
  {
    var routes' := routes - {n};
    forall m, i, k, j, s | IsCase(routes', m, i, s) && IsCase(routes', k, j, s) ensures m == k && i == j {
      assert IsCase(routes, m, i, s) && IsCase(routes, k, j, s);
    }
  }

  lemma AddedRouteCaches(g: Reg, n: string, entry: Route, base: map<string, Route>, subs': map<nat, Sub>, listed: set<nat>)
    requires base == g.routes[n := entry] && SubsOk(subs', g.pubs, g.remotes, base)
    ensures SubsOk(subs', g.pubs, g.remotes, g.routes[n := entry.(subs := listed)])
    ensures RouteInfo(g.routes[n := entry.(subs := listed)]) == RouteInfo(g.routes)[n := entry.(subs := {})]
  {
    SubsFrame(subs', g.pubs, g.pubs, g.remotes, g.remotes, base, g.routes[n := entry.(subs := listed)]);
  }

  lemma AddRouteKeeps(g: Reg, n: string, entry: Route, base: map<string, Route>, subs': map<nat, Sub>, g': Reg)
    requires Indexed(g) && n !in g.routes && base == g.routes[n := entry] && subs'.Keys == g.subs.Keys
    requires entry.cases == [] && forall m :: m in g.routes ==> g.routes[m].id != entry.id
    requires forall s :: s in g.subs ==> HeardRoute(g.subs[s], subs'[s], base)
    requires g' == g.(routes := g.routes[n := entry.(subs := RouteRefs(g.subs, n))], subs := subs')
    ensures Indexed(g') && SubInfo(subs') == SubInfo(g.subs)
    ensures RouteInfo(g'.routes) == RouteInfo(g.routes)[n := entry.(subs := {})]
  {
    HeardRouteAll(g, subs', base);
    SettingsKept(g, subs');
    AddedRouteCaches(g, n, entry, base, subs', RouteRefs(g.subs, n));
    assert RouteRefs(subs', n) == RouteRefs(g.subs, n) by { RefsSame(g.subs, subs'); }
    CasesReplaced(g.routes, n, g'.routes[n], subs');
  }

  lemma DropRouteKeeps(g: Reg, n: string, subs': map<nat, Sub>, g': Reg)
    requires Indexed(g) && n in g.routes && subs'.Keys == g.subs.Keys
    requires forall s :: s in g.subs ==> HeardRoute(g.subs[s], subs'[s], g.routes - {n})
    requires g' == g.(routes := g.routes - {n}, subs := subs')
    ensures Indexed(g') && SubInfo(subs') == SubInfo(g.subs)
    ensures RouteInfo(g'.routes) == RouteInfo(g.routes) - {n}
  {
    HeardRouteAll(g, subs', g.routes - {n});
    SettingsKept(g, subs');
    CasesDropped(g.routes, n, subs');
  }

  /** A route gets new choices; its cases are yet to be built. */
  lemma RechooseKeeps(g: Reg, n: string, choices: seq<Choice>, g': Reg)
    requires Indexed(g) && n in g.routes
    requires g' == g.(routes := g.routes[n := g.routes[n].(choices := choices, cases := [])])
    ensures Indexed(g')
  {
    CasesReplaced(g.routes, n, g'.routes[n], g.subs);
    SubsFrame(g.subs, g.pubs, g.pubs, g.remotes, g.remotes, g.routes, g'.routes);
  }

  lemma CaseAdded(routes: map<string, Route>, n: string, c: Case, subs: map<nat, Sub>, entry: Route)
    requires CasesOk(routes, subs) && n in routes && |routes[n].cases| < |routes[n].choices|
    requires forall m, i :: !IsCase(routes, m, i, c.sub)
    requires CaseOk(c, routes[n].choices[|routes[n].cases|], subs)
    requires entry == routes[n].(cases := routes[n].cases + [c])
    ensures CasesOk(routes[n := entry], subs)
  {
    var routes' := routes[n := entry];
    forall m, i | m in routes' && 0 <= i < |routes'[m].cases| ensures CaseOk(routes'[m].cases[i], routes'[m].choices[i], subs) {
      if m != n || i < |routes[n].cases| { assert CaseOk(routes[m].cases[i], routes[m].choices[i], subs); }
    }
    forall m, i, k, j, s | IsCase(routes', m, i, s) && IsCase(routes', k, j, s) ensures m == k && i == j {
      assert IsCase(routes, m, i, s) || (m == n && i == |routes[n].cases| && s == c.sub);
      assert IsCase(routes, k, j, s) || (k == n && j == |routes[n].cases| && s == c.sub);
    }
  }

  lemma AddCaseKeeps(g: Reg, n: string, c: Case, g': Reg)
    requires Indexed(g) && n in g.routes && |g.routes[n].cases| < |g.routes[n].choices|
    requires forall m, i :: !IsCase(g.routes, m, i, c.sub)
    requires CaseOk(c, g.routes[n].choices[|g.routes[n].cases|], g.subs)
    requires g' == g.(routes := g.routes[n := g.routes[n].(cases := g.routes[n].cases + [c])])
    ensures Indexed(g')
  {
    CaseAdded(g.routes, n, c, g.subs, g'.routes[n]);
    SubsFrame(g.subs, g.pubs, g.pubs, g.remotes, g.remotes, g.routes, g'.routes);
  }

  // ----- the operations on a registry

  lemma ReadyPub(g: Reg, p: nat, entry: Pub)
    requires Indexed(g) && p !in g.pubs
    ensures forall s :: s in g.subs ==> HeardPub(g.subs[s], g.subs[s], g.pubs[p := entry] - {p})
    ensures Under(g.subsByName, entry.name) == NameRefs(g.subs, entry.name)
  {
    assert g.pubs[p := entry] - {p} == g.pubs;
  }

  method PublishIn(g: Reg, p: nat, name: string, priority: Priority) returns (g': Reg)
    requires Indexed(g) && p !in g.pubs && priority !in PubsUnder(g.pubsByName, name)
    ensures Indexed(g') && EntriesOf(g') == EntriesOf(g).(pubs := EntriesOf(g).pubs[p := Pub(name, priority, {})])
    ensures p in g'.pubs && g'.pubs[p].name == name && g'.pubs[p].priority == priority
  {
    var entry := Pub(name, priority, {});
    var base, named := g.pubs[p := entry], Under(g.subsByName, name);
    ReadyPub(g, p, entry);
    BeforePub(g.subs, base, p, named);
    var subs', seen := AnnouncePub(g.subs, base, p, named);
    g' := g.(pubs := g.pubs[p := entry.(subs := seen)], subs := subs', pubsByName := NamePub(g.pubsByName, name, priority, p));
    PublishKeeps(g, p, entry, base, subs', g');
  }

  lemma ReadyRemote(g: Reg, r: nat, entry: Remote)
    requires Indexed(g) && r !in g.remotes
    ensures forall s :: s in g.subs ==> HeardRemote(g.subs[s], g.subs[s], g.remotes[r := entry] - {r})
    ensures Under(g.subsByName, entry.name) == NameRefs(g.subs, entry.name)
  {
    assert g.remotes[r := entry] - {r} == g.remotes;
  }

  method AddRemoteIn(g: Reg, r: nat, peer: nat, name: string, priority: Priority, distance: nat) returns (g': Reg)
    requires Indexed(g) && r !in g.remotes
    ensures Indexed(g')
    ensures EntriesOf(g') == EntriesOf(g).(remotes := EntriesOf(g).remotes[r := Remote(peer, name, priority, distance, {})])
  {
    var entry := Remote(peer, name, priority, distance, {});
    var base, named := g.remotes[r := entry], Under(g.subsByName, name);
    ReadyRemote(g, r, entry);
    BeforeRemote(g.subs, base, r, named);
    var subs', seen := AnnounceRemote(g.subs, base, r, named);
    g' := g.(remotes := g.remotes[r := entry.(subs := seen)], subs := subs',
             remotesByName := NameRemote(g.remotesByName, peer, name, r));
    AddRemoteKeeps(g, r, entry, base, subs', g');
  }

  lemma ReadyRoute(g: Reg, n: string, entry: Route)
    requires Indexed(g) && n !in g.routes
    ensures forall s :: s in g.subs ==> HeardRoute(g.subs[s], g.subs[s], g.routes[n := entry] - {n})
    ensures Under(g.subsByName, n) == NameRefs(g.subs, n)
  {
    assert g.routes[n := entry] - {n} == g.routes;
  }

  method AddRouteIn(g: Reg, n: string, id: nat, choices: seq<Choice>) returns (g': Reg)
    requires Indexed(g) && n !in g.routes && forall m :: m in g.routes ==> g.routes[m].id != id
    ensures Indexed(g') && EntriesOf(g') == EntriesOf(g).(routes := EntriesOf(g).routes[n := Route(id, choices, [], {})])
  {
    var entry := Route(id, choices, [], {});
    var base, named := g.routes[n := entry], Under(g.subsByName, n);
    ReadyRoute(g, n, entry);
    BeforeRoute(g.subs, base, n, named);
    var subs', seen := AnnounceRoute(g.subs, base, n, named);
    g' := g.(routes := g.routes[n := entry.(subs := seen)], subs := subs');
    AddRouteKeeps(g, n, entry, base, subs', g');
  }

  method DropRouteIn(g: Reg, n: string) returns (g': Reg)
    requires Indexed(g) && n in g.routes
    ensures Indexed(g') && EntriesOf(g') == EntriesOf(g).(routes := EntriesOf(g).routes - {n})
  {
    BystandersRoute(g.subs, g.routes, n, g.routes[n].subs);
    var subs' := WithdrawRoute(g.subs, g.routes, n, g.routes[n].subs);
    g' := g.(routes := g.routes - {n}, subs := subs');
    DropRouteKeeps(g, n, subs', g');
  }

  lemma JoinKeeps(g: Reg, s: nat, sub: Sub, g': Reg)
    requires Indexed(g) && s !in g.subs && g'.subs == g.subs[s := sub]
    requires SubOk(sub, g.pubs, g.remotes, g.routes)
    requires g'.pubs.Keys == g.pubs.Keys && g'.remotes.Keys == g.remotes.Keys && g'.routes.Keys == g.routes.Keys
    requires SameEntries(g, g')
    requires forall p :: p in g.pubs ==> Joined(g.pubs[p].subs, g'.pubs[p].subs, s, WantsPub(sub, g.pubs[p]))
    requires forall r :: r in g.remotes ==> Joined(g.remotes[r].subs, g'.remotes[r].subs, s, WantsRemote(sub, g.remotes[r]))
    requires forall n :: n in g.routes ==> Joined(g.routes[n].subs, g'.routes[n].subs, s, WantsRoute(sub, n))
    requires forall n :: n in g'.subsByName ==> g'.subsByName[n] != {}
    requires forall n :: Joined(Under(g.subsByName, n), Under(g'.subsByName, n), s, Names(sub, n))
    ensures Indexed(g') && SubInfo(g'.subs) == SubInfo(g.subs)[s := Settings(sub)]
  {
    JoinedPubs(g.pubs, g'.pubs, g.subs, s, sub);
    JoinedRemotes(g.remotes, g'.remotes, g.subs, s, sub);
    JoinedRoutes(g.routes, g'.routes, g.subs, s, sub);
    JoinedNames(g.subsByName, g'.subsByName, g.subs, s, sub);
    SubscribeKeeps(g, s, sub, g');
  }

  method SubscribeIn(g: Reg, s: nat, specs: seq<Spec>, disableRoutes: bool) returns (g': Reg)
    requires Indexed(g) && s !in g.subs
    ensures Indexed(g') && EntriesOf(g') == EntriesOf(g).(subs := EntriesOf(g).subs[s := (specs, disableRoutes)])
  {
    var locals, pubs := ScanPubs(specs, g.pubs, g.pubsByName, s);
    var far, remotes := ScanRemotes(specs, g.remotes, g.remotesByName, s);
    var sub := BuildSub(specs, disableRoutes, locals, far, g.pubs, g.remotes, g.routes);
    WantsAny(sub, specs);
    var routes := JoinRoutes(g.routes, sub, s);
    var byName := JoinNames(g.subsByName, sub, s);
    g' := g.(pubs := pubs, remotes := remotes, routes := routes, subs := g.subs[s := sub], subsByName := byName);
    JoinKeeps(g, s, sub, g');
  }

  lemma LeaveKeeps(g: Reg, s: nat, g': Reg)
    requires Indexed(g) && s in g.subs && g'.subs == g.subs - {s}
    requires forall n, i :: !IsCase(g.routes, n, i, s)
    requires g'.pubs.Keys == g.pubs.Keys && g'.remotes.Keys == g.remotes.Keys && g'.routes.Keys == g.routes.Keys
    requires SameEntries(g, g')
    requires forall p :: p in g.pubs ==> Left(g.pubs[p].subs, g'.pubs[p].subs, s, WantsPub(g.subs[s], g.pubs[p]))
    requires forall r :: r in g.remotes ==> Left(g.remotes[r].subs, g'.remotes[r].subs, s, WantsRemote(g.subs[s], g.remotes[r]))
    requires forall n :: n in g.routes ==> Left(g.routes[n].subs, g'.routes[n].subs, s, WantsRoute(g.subs[s], n))
    requires forall n :: n in g'.subsByName ==> g'.subsByName[n] != {}
    requires forall n :: Left(Under(g.subsByName, n), Under(g'.subsByName, n), s, Names(g.subs[s], n))
    ensures Indexed(g') && SubInfo(g'.subs) == SubInfo(g.subs) - {s}
  {
    LeftPubs(g.pubs, g'.pubs, g.subs, s);
    LeftRemotes(g.remotes, g'.remotes, g.subs, s);
    LeftRoutes(g.routes, g'.routes, g.subs, s);
    LeftNames(g.subsByName, g'.subsByName, g.subs, s);
    UnsubscribeKeeps(g, s, g');
  }

  method UnsubscribeIn(g: Reg, s: nat) returns (g': Reg)
    requires Indexed(g) && s in g.subs && forall n, i :: !IsCase(g.routes, n, i, s)
    ensures Indexed(g') && EntriesOf(g') == EntriesOf(g).(subs := EntriesOf(g).subs - {s})
  {
    var sub := g.subs[s];
    var pubs := LeavePubs(g.pubs, sub, s);
    var remotes := LeaveRemotes(g.remotes, sub, s);
    var routes := LeaveRoutes(g.routes, sub, s);
    var byName := LeaveNames(g.subsByName, sub, s);
    g' := g.(pubs := pubs, remotes := remotes, routes := routes, subs := g.subs - {s}, subsByName := byName);
    LeaveKeeps(g, s, g');
  }

  method UnpublishIn(g: Reg, p: nat) returns (g': Reg)
    requires Indexed(g) && p in g.pubs
    ensures Indexed(g') && EntriesOf(g') == EntriesOf(g).(pubs := EntriesOf(g).pubs - {p})
  {
    BystandersPub(g.subs, g.pubs, p, g.pubs[p].subs);
    var subs' := WithdrawPub(g.subs, g.pubs, p, g.pubs[p].subs);
    g' := g.(pubs := g.pubs - {p}, subs := subs', pubsByName := UnnamePub(g.pubsByName, g.pubs[p].name, g.pubs[p].priority));
    UnpublishKeeps(g, p, subs', g');
  }

  method RemoveRemoteIn(g: Reg, r: nat) returns (g': Reg)
    requires Indexed(g) && r in g.remotes
    ensures Indexed(g') && EntriesOf(g') == EntriesOf(g).(remotes := EntriesOf(g).remotes - {r})
  {
    BystandersRemote(g.subs, g.remotes, r, g.remotes[r].subs);
    var subs' := WithdrawRemote(g.subs, g.remotes, r, g.remotes[r].subs);
    g' := g.(remotes := g.remotes - {r}, subs := subs',
             remotesByName := UnnameRemote(g.remotesByName, g.remotes[r].peer, g.remotes[r].name, r));
    RemoveRemoteKeeps(g, r, subs', g');
  }

  lemma RouteInfoWith(routes: map<string, Route>, n: string, entry: Route)
    ensures RouteInfo(routes[n := entry]) == RouteInfo(routes)[n := entry.(subs := {})]
  {
  }

  method RechooseIn(g: Reg, n: string, choices: seq<Choice>) returns (g': Reg)
    requires Indexed(g) && n in g.routes
    ensures Indexed(g')
    ensures EntriesOf(g') == EntriesOf(g).(routes := EntriesOf(g).routes[n := Route(g.routes[n].id, choices, [], {})])
  {
    g' := g.(routes := g.routes[n := g.routes[n].(choices := choices, cases := [])]);
    RechooseKeeps(g, n, choices, g');
    RouteInfoWith(g.routes, n, g'.routes[n]);
  }

  method AddCaseIn(g: Reg, n: string, s: nat, weight: nat) returns (g': Reg)
    requires Indexed(g) && n in g.routes && |g.routes[n].cases| < |g.routes[n].choices|
    requires s in g.subs && Settings(g.subs[s]) == (g.routes[n].choices[|g.routes[n].cases|].options, true)
    requires weight == g.routes[n].choices[|g.routes[n].cases|].weight
    requires forall m, i :: !IsCase(g.routes, m, i, s)
    ensures Indexed(g')
    ensures EntriesOf(g') == EntriesOf(g).(routes := EntriesOf(g).routes[n :=
      EntriesOf(g).routes[n].(cases := EntriesOf(g).routes[n].cases + [Case(s, weight)])])
  {
    g' := g.(routes := g.routes[n := g.routes[n].(cases := g.routes[n].cases + [Case(s, weight)])]);
    AddCaseKeeps(g, n, Case(s, weight), g');
    RouteInfoWith(g.routes, n, g'.routes[n]);
  }
}

/** The registries without their caches, and what the caches depend on. */
module RegistryFrames {
  import opened Registry
  import opened Subscription

  function PubInfo(pubs: map<nat, Pub>): map<nat, Pub> {
    if pubs == map[] then map[] else map p | p in pubs :: pubs[p].(subs := {})
  }

  function RemoteInfo(remotes: map<nat, Remote>): map<nat, Remote> {
    if remotes == map[] then map[] else map r | r in remotes :: remotes[r].(subs := {})
  }

  function RouteInfo(routes: map<string, Route>): map<string, Route> {
    if routes == map[] then map[] else map n | n in routes :: routes[n].(subs := {})
  }

  function Settings(sub: Sub): (seq<Spec>, bool) { (Specs(sub), sub.disableRoutes) }

  function SubInfo(subs: map<nat, Sub>): map<nat, (seq<Spec>, bool)> {
    if subs == map[] then map[] else map s | s in subs :: Settings(subs[s])
  }

  /** What the registries hold, without any cache. */
  datatype Entries = Entries(
    pubs: map<nat, Pub>, remotes: map<nat, Remote>, routes: map<string, Route>, subs: map<nat, (seq<Spec>, bool)>)

  function EntriesOf(g: Reg): Entries {
    Entries(PubInfo(g.pubs), RemoteInfo(g.remotes), RouteInfo(g.routes), SubInfo(g.subs))
  }

  // ----- caches depend on the entries, not on their back-references

  lemma LocalsFrame(sub: Sub, pubs: map<nat, Pub>, pubs': map<nat, Pub>)
    requires PubInfo(pubs') == PubInfo(pubs)
    ensures LocalsOk(sub, pubs') <==> LocalsOk(sub, pubs)
  {
    assert pubs'.Keys == PubInfo(pubs').Keys == pubs.Keys;
    forall p | p in pubs ensures pubs'[p] == pubs[p].(subs := pubs'[p].subs) {
      assert PubInfo(pubs')[p] == PubInfo(pubs)[p];
    }
    assert PubPriorities(pubs') == PubPriorities(pubs);
    forall i | 0 <= i < |sub.options| ensures LocalOk(sub.options[i], pubs') <==> LocalOk(sub.options[i], pubs) {
      assert Locals(sub.options[i].spec, pubs') == Locals(sub.options[i].spec, pubs);
    }
  }

  lemma RemotesFrame(sub: Sub, remotes: map<nat, Remote>, remotes': map<nat, Remote>)
    requires RemoteInfo(remotes') == RemoteInfo(remotes)
    ensures RemotesOk(sub, remotes') <==> RemotesOk(sub, remotes)
  {
    assert remotes'.Keys == RemoteInfo(remotes').Keys == remotes.Keys;
    forall r | r in remotes ensures remotes'[r] == remotes[r].(subs := remotes'[r].subs) {
      assert RemoteInfo(remotes')[r] == RemoteInfo(remotes)[r];
    }
    assert RemotePriorities(remotes') == RemotePriorities(remotes);
    forall i | 0 <= i < |sub.options| ensures RemoteOk(sub.options[i], remotes') <==> RemoteOk(sub.options[i], remotes) {
      assert Remotes(sub.options[i].spec, remotes') == Remotes(sub.options[i].spec, remotes);
    }
  }

  ghost predicate SameRoutes(routes: map<string, Route>, routes': map<string, Route>) {
    routes'.Keys == routes.Keys && forall n :: n in routes ==> routes'[n].id == routes[n].id
  }

  lemma RoutesFrame(sub: Sub, routes: map<string, Route>, routes': map<string, Route>)
    requires SameRoutes(routes, routes')
    ensures RoutesOk(sub, routes') <==> RoutesOk(sub, routes)
  {
  }

  lemma SubsFrame(subs: map<nat, Sub>, pubs: map<nat, Pub>, pubs': map<nat, Pub>,
                  remotes: map<nat, Remote>, remotes': map<nat, Remote>, routes: map<string, Route>, routes': map<string, Route>)
    requires SubsOk(subs, pubs, remotes, routes)
    requires PubInfo(pubs') == PubInfo(pubs) && RemoteInfo(remotes') == RemoteInfo(remotes) && SameRoutes(routes, routes')
    ensures SubsOk(subs, pubs', remotes', routes')
  {
    forall s | s in subs ensures SubOk(subs[s], pubs', remotes', routes') {
      LocalsFrame(subs[s], pubs, pubs');
      RemotesFrame(subs[s], remotes, remotes');
      RoutesFrame(subs[s], routes, routes');
    }
  }

  // ----- back-references depend on the settings, not on the caches

  lemma SettingsSame(sub: Sub, sub': Sub)
    ensures SameSpecs(sub, sub') <==> Settings(sub) == Settings(sub')
  {
    if SameSpecs(sub, sub') { assert Specs(sub) == Specs(sub'); }
    if Settings(sub) == Settings(sub') {
      assert |Specs(sub)| == |Specs(sub')|;
      forall i | 0 <= i < |sub.options| ensures sub'.options[i].spec == sub.options[i].spec {
        assert Specs(sub)[i] == Specs(sub')[i];
      }
    }
  }

  lemma InfoSame(subs: map<nat, Sub>, subs': map<nat, Sub>)
    requires SubInfo(subs') == SubInfo(subs)
    ensures subs'.Keys == subs.Keys
    ensures forall s :: s in subs ==> SameSpecs(subs[s], subs'[s])
  {
    assert subs'.Keys == SubInfo(subs').Keys == subs.Keys;
    forall s | s in subs ensures SameSpecs(subs[s], subs'[s]) {
      assert SubInfo(subs)[s] == SubInfo(subs')[s];
      SettingsSame(subs[s], subs'[s]);
    }
  }

  lemma RefsSame(subs: map<nat, Sub>, subs': map<nat, Sub>)
    requires SubInfo(subs') == SubInfo(subs)
    ensures forall p :: PubRefs(subs', p) == PubRefs(subs, p)
    ensures forall r :: RemoteRefs(subs', r) == RemoteRefs(subs, r)
    ensures forall n :: RouteRefs(subs', n) == RouteRefs(subs, n)
    ensures forall n :: NameRefs(subs', n) == NameRefs(subs, n)
  {
    InfoSame(subs, subs');
    forall p ensures PubRefs(subs', p) == PubRefs(subs, p) {
      forall s | s in subs ensures WantsPub(subs'[s], p) <==> WantsPub(subs[s], p) { }
    }
    forall r ensures RemoteRefs(subs', r) == RemoteRefs(subs, r) {
      forall s | s in subs ensures WantsRemote(subs'[s], r) <==> WantsRemote(subs[s], r) { }
    }
    forall n ensures RouteRefs(subs', n) == RouteRefs(subs, n) && NameRefs(subs', n) == NameRefs(subs, n) {
      forall s | s in subs ensures Names(subs'[s], n) <==> Names(subs[s], n) { }
    }
  }

  lemma CasesFrame(routes: map<string, Route>, routes': map<string, Route>, subs: map<nat, Sub>, subs': map<nat, Sub>)
    requires CasesOk(routes, subs) && RouteInfo(routes') == RouteInfo(routes)
    requires forall s :: s in subs ==> s in subs' && Settings(subs'[s]) == Settings(subs[s])
    ensures CasesOk(routes', subs') && SameRoutes(routes, routes')
  {
    RouteInfoSame(routes, routes');
    forall n, i | n in routes' && 0 <= i < |routes'[n].cases|
      ensures CaseOk(routes'[n].cases[i], routes'[n].choices[i], subs')
    {
      assert CaseOk(routes[n].cases[i], routes[n].choices[i], subs);
    }
    forall n, i, m, j, s | IsCase(routes', n, i, s) && IsCase(routes', m, j, s) ensures n == m && i == j {
      assert IsCase(routes, n, i, s) && IsCase(routes, m, j, s);
    }
  }

  lemma RouteInfoSame(routes: map<string, Route>, routes': map<string, Route>)
    requires RouteInfo(routes') == RouteInfo(routes)
    ensures SameRoutes(routes, routes')
    ensures forall n :: n in routes ==> routes'[n] == routes[n].(subs := routes'[n].subs)
  {
    assert routes'.Keys == RouteInfo(routes').Keys == routes.Keys;
    forall n | n in routes ensures routes'[n] == routes[n].(subs := routes'[n].subs) {
      assert RouteInfo(routes')[n] == RouteInfo(routes)[n];
    }
  }

  // ----- the maps by name

  lemma PubNamesFrame(byName: map<string, map<nat, nat>>, pubs: map<nat, Pub>, pubs': map<nat, Pub>)
    requires PubNamesOk(byName, pubs) && PubInfo(pubs') == PubInfo(pubs)
    ensures PubNamesOk(byName, pubs')
  {
    assert pubs'.Keys == PubInfo(pubs').Keys == pubs.Keys;
    forall p | p in pubs ensures pubs'[p].name == pubs[p].name && pubs'[p].priority == pubs[p].priority {
      assert PubInfo(pubs')[p] == PubInfo(pubs)[p];
    }
    forall p: nat ensures PubAt(byName, pubs', p) { assert PubAt(byName, pubs, p); }
    forall n: string, k: nat ensures NameAt(byName, pubs', n, k) { assert NameAt(byName, pubs, n, k); }
  }

  lemma RemoteNamesFrame(byName: map<nat, map<string, set<nat>>>, remotes: map<nat, Remote>, remotes': map<nat, Remote>)
    requires RemoteNamesOk(byName, remotes) && RemoteInfo(remotes') == RemoteInfo(remotes)
    ensures RemoteNamesOk(byName, remotes')
  {
    assert remotes'.Keys == RemoteInfo(remotes').Keys == remotes.Keys;
    forall r | r in remotes ensures remotes'[r].peer == remotes[r].peer && remotes'[r].name == remotes[r].name {
      assert RemoteInfo(remotes')[r] == RemoteInfo(remotes)[r];
    }
    forall r: nat ensures RemoteAt(byName, remotes', r) { assert RemoteAt(byName, remotes, r); }
    forall k: nat, n: string, r: nat ensures PeerNameAt(byName, remotes', k, n, r) { assert PeerNameAt(byName, remotes, k, n, r); }
  }

  function PubsUnder(byName: map<string, map<nat, nat>>, n: string): map<nat, nat> { if n in byName then byName[n] else map[] }

  function NamePub(byName: map<string, map<nat, nat>>, n: string, k: nat, p: nat): map<string, map<nat, nat>> {
    byName[n := PubsUnder(byName, n)[k := p]]
  }

  /** The last priority of a name takes the name along. */
  function UnnamePub(byName: map<string, map<nat, nat>>, n: string, k: nat): map<string, map<nat, nat>> {
    var left := PubsUnder(byName, n) - {k};
    if left == map[] then byName - {n} else byName[n := left]
  }

  lemma NamePubKeeps(byName: map<string, map<nat, nat>>, pubs: map<nat, Pub>, p: nat, entry: Pub)
    requires PubNamesOk(byName, pubs) && p !in pubs && entry.priority !in PubsUnder(byName, entry.name)
    ensures PubNamesOk(NamePub(byName, entry.name, entry.priority, p), pubs[p := entry])
  {
    var byName', pubs' := NamePub(byName, entry.name, entry.priority, p), pubs[p := entry];
    forall o: nat ensures PubAt(byName', pubs', o) { assert PubAt(byName, pubs, o); }
    forall n: string, k: nat ensures NameAt(byName', pubs', n, k) { assert NameAt(byName, pubs, n, k); }
    forall n: string ensures NameUsed(byName', n) { assert NameUsed(byName, n); }
  }

  lemma UnnamePubKeeps(byName: map<string, map<nat, nat>>, pubs: map<nat, Pub>, p: nat)
    requires PubNamesOk(byName, pubs) && p in pubs
    ensures PubNamesOk(UnnamePub(byName, pubs[p].name, pubs[p].priority), pubs - {p})
  {
    var byName', pubs' := UnnamePub(byName, pubs[p].name, pubs[p].priority), pubs - {p};
    assert PubAt(byName, pubs, p);
    forall o: nat ensures PubAt(byName', pubs', o) {
      assert PubAt(byName, pubs, o);
      if o in pubs' && pubs[o].name == pubs[p].name {
        assert pubs[o].priority in PubsUnder(byName, pubs[p].name) - {pubs[p].priority};
      }
    }
    forall n: string, k: nat ensures NameAt(byName', pubs', n, k) { assert NameAt(byName, pubs, n, k); }
    forall n: string ensures NameUsed(byName', n) { assert NameUsed(byName, n); }
  }

  function RemotesUnder(byName: map<nat, map<string, set<nat>>>, k: nat, n: string): set<nat> {
    if k in byName && n in byName[k] then byName[k][n] else {}
  }

  function NamesOf(byName: map<nat, map<string, set<nat>>>, k: nat): map<string, set<nat>> { if k in byName then byName[k] else map[] }

  function NameRemote(byName: map<nat, map<string, set<nat>>>, k: nat, n: string, r: nat): map<nat, map<string, set<nat>>> {
    byName[k := NamesOf(byName, k)[n := RemotesUnder(byName, k, n) + {r}]]
  }

  function UnnameRemote(byName: map<nat, map<string, set<nat>>>, k: nat, n: string, r: nat): map<nat, map<string, set<nat>>> {
    var left := RemotesUnder(byName, k, n) - {r};
    byName[k := if left == {} then NamesOf(byName, k) - {n} else NamesOf(byName, k)[n := left]]
  }

  lemma NameRemoteKeeps(byName: map<nat, map<string, set<nat>>>, remotes: map<nat, Remote>, r: nat, entry: Remote)
    requires RemoteNamesOk(byName, remotes) && r !in remotes
    ensures RemoteNamesOk(NameRemote(byName, entry.peer, entry.name, r), remotes[r := entry])
  {
    var byName', remotes' := NameRemote(byName, entry.peer, entry.name, r), remotes[r := entry];
    forall k, n, x ensures RemoteNamed(byName', k, n, x) <==>
      RemoteNamed(byName, k, n, x) || (k == entry.peer && n == entry.name && x == r) { }
    forall x: nat ensures RemoteAt(byName', remotes', x) { assert RemoteAt(byName, remotes, x); }
    forall k: nat, n: string, x: nat ensures PeerNameAt(byName', remotes', k, n, x) { assert PeerNameAt(byName, remotes, k, n, x); }
    forall k: nat, n: string ensures PeerNameUsed(byName', k, n) { assert PeerNameUsed(byName, k, n); }
  }

  lemma UnnameRemoteKeeps(byName: map<nat, map<string, set<nat>>>, remotes: map<nat, Remote>, r: nat)
    requires RemoteNamesOk(byName, remotes) && r in remotes
    ensures RemoteNamesOk(UnnameRemote(byName, remotes[r].peer, remotes[r].name, r), remotes - {r})
  {
    var byName', remotes' := UnnameRemote(byName, remotes[r].peer, remotes[r].name, r), remotes - {r};
    forall k: nat, n: string, x: nat ensures RemoteNamed(byName', k, n, x) <==> RemoteNamed(byName, k, n, x) && x != r {
      assert PeerNameAt(byName, remotes, k, n, x);
      if k == remotes[r].peer && n == remotes[r].name {
        assert x in RemotesUnder(byName, k, n) - {r} <==> RemoteNamed(byName, k, n, x) && x != r;
      }
    }
    forall x: nat ensures RemoteAt(byName', remotes', x) { assert RemoteAt(byName, remotes, x); }
    forall k: nat, n: string, x: nat ensures PeerNameAt(byName', remotes', k, n, x) { assert PeerNameAt(byName, remotes, k, n, x); }
    forall k: nat, n: string ensures PeerNameUsed(byName', k, n) { assert PeerNameUsed(byName, k, n); }
  }
}

/** A subscription enters the index and leaves it again. */
module Membership {
  import opened Registry
  import opened Subscription
  import opened RegistryFrames

  // ----- building the options of a new subscription

  /** The option caches what a scan for `spec` gives. */
  ghost predicate Fits(o: Opt, spec: Spec, disabled: bool, pubs: map<nat, Pub>, remotes: map<nat, Remote>, routes: map<string, Route>) {
    o.spec == spec && LocalOk(o, pubs) && RemoteOk(o, remotes) && o.route == RouteFor(spec, disabled, routes)
  }

  method BuildOption(spec: Spec, disabled: bool, locals: seq<nat>, far: seq<nat>,
                     pubs: map<nat, Pub>, remotes: map<nat, Remote>, routes: map<string, Route>)
    returns (o: Opt)
    requires multiset(locals) == multiset(Locals(spec, pubs)) && multiset(far) == multiset(Remotes(spec, remotes))
    ensures Fits(o, spec, disabled, pubs, remotes, routes)
  {
    forall x | x in locals ensures x in PubPriorities(pubs) { ListMember(locals, Locals(spec, pubs), x); }
    var local := SortByPriority(locals, PubPriorities(pubs));
    forall x | x in far ensures x in RemotePriorities(remotes) { ListMember(far, Remotes(spec, remotes), x); }
    var remote := SortByPriority(far, RemotePriorities(remotes));
    var priority, count := LowestPriority(remote, RemotePriorities(remotes));
    o := Opt(spec, RouteFor(spec, disabled, routes),
             local, FirstPriority(local, PubPriorities(pubs)), remote, priority, count);
  }

  /** The lists found by name, sorted, with priorities and the active option. */
  method BuildSub(specs: seq<Spec>, disabled: bool, locals: seq<seq<nat>>, far: seq<seq<nat>>,
                  pubs: map<nat, Pub>, remotes: map<nat, Remote>, routes: map<string, Route>)
    returns (sub: Sub)
    requires ListsLocals(specs, locals, pubs) && ListsRemotes(specs, far, remotes)
    ensures SubOk(sub, pubs, remotes, routes) && Settings(sub) == (specs, disabled)
  {
    var options: seq<Opt> := [];
    for i := 0 to |specs|
      invariant |options| == i
      invariant forall j :: 0 <= j < i ==> Fits(options[j], specs[j], disabled, pubs, remotes, routes)
    {
      var o := BuildOption(specs[i], disabled, locals[i], far[i], pubs, remotes, routes);
      options := options + [o];
    }
    var active := FindActive(options);
    sub := Sub(options, disabled, active);
    AllFit(sub, specs, pubs, remotes, routes);
  }

  lemma AllFit(sub: Sub, specs: seq<Spec>, pubs: map<nat, Pub>, remotes: map<nat, Remote>, routes: map<string, Route>)
    requires |sub.options| == |specs| && ActiveOk(sub)
    requires forall i :: 0 <= i < |specs| ==> Fits(sub.options[i], specs[i], sub.disableRoutes, pubs, remotes, routes)
    ensures SubOk(sub, pubs, remotes, routes) && Specs(sub) == specs
  {
    assert Specs(sub) == specs;
  }

  // ----- joining the back-references

  ghost predicate Joined(was: set<nat>, now: set<nat>, s: nat, wanted: bool) {
    now == if wanted then was + {s} else was
  }

  /** The names that a subscription asks for: the keys of indexByName. */
  function NamesIn(specs: seq<Spec>): set<string> { set sp | sp in specs :: sp.service }

  ghost predicate PubsNamed(pubs: map<nat, Pub>, done: set<nat>, names: set<string>) {
    forall p :: p in done <==> p in pubs && pubs[p].name in names
  }

  ghost predicate RemotesNamed(remotes: map<nat, Remote>, done: set<nat>, names: set<string>) {
    forall r :: r in done <==> r in remotes && remotes[r].name in names
  }

  // ----- publications, by name

  ghost predicate ListsLocals(specs: seq<Spec>, lists: seq<seq<nat>>, pubs: map<nat, Pub>) {
    |lists| == |specs| && forall i :: 0 <= i < |specs| ==> multiset(lists[i]) == multiset(Locals(specs[i], pubs))
  }

  predicate AnyPub(specs: seq<Spec>, p: Pub) { exists i :: 0 <= i < |specs| && MatchesPub(specs[i], p) }

  function AmongPubs(sp: Spec, pubs: map<nat, Pub>, done: set<nat>): set<nat> {
    set p | p in done && p in pubs && MatchesPub(sp, pubs[p])
  }

  /** The publications in `done` have been offered to all options. */
  ghost predicate PubsSoFar(specs: seq<Spec>, pubs: map<nat, Pub>, done: set<nat>, lists: seq<seq<nat>>, pubs': map<nat, Pub>, s: nat) {
    && |lists| == |specs| && pubs'.Keys == pubs.Keys
    && (forall i :: 0 <= i < |specs| ==> multiset(lists[i]) == multiset(AmongPubs(specs[i], pubs, done)))
    && (forall p :: p in pubs ==> pubs'[p] == pubs[p].(subs := pubs'[p].subs))
    && (forall p :: p in pubs ==> Joined(pubs[p].subs, pubs'[p].subs, s, p in done && AnyPub(specs, pubs[p])))
  }

  /** addPublicationLocked on every option of the name. */
  method OfferPub(specs: seq<Spec>, lists: seq<seq<nat>>, pub: Pub, p: nat) returns (lists': seq<seq<nat>>, changed: bool)
    requires |lists| == |specs|
    ensures |lists'| == |specs| && (changed <==> AnyPub(specs, pub))
    ensures forall i :: 0 <= i < |specs| ==> lists'[i] == if MatchesPub(specs[i], pub) then lists[i] + [p] else lists[i]
  {
    lists', changed := lists, false;
    for i := 0 to |specs|
      invariant |lists'| == |specs| && (changed <==> exists j :: 0 <= j < i && MatchesPub(specs[j], pub))
      invariant forall j :: 0 <= j < i ==> lists'[j] == if MatchesPub(specs[j], pub) then lists[j] + [p] else lists[j]
      invariant forall j :: i <= j < |specs| ==> lists'[j] == lists[j]
    {
      if specs[i].service == pub.name && specs[i].min == 0 {
        lists', changed := lists'[i := lists'[i] + [p]], true;
      }
    }
  }

  lemma OnePubMore(specs: seq<Spec>, pubs: map<nat, Pub>, done: set<nat>, p: nat, lists: seq<seq<nat>>, lists': seq<seq<nat>>)
    requires |lists| == |specs| == |lists'| && p in pubs && p !in done
    requires forall i :: 0 <= i < |specs| ==> multiset(lists[i]) == multiset(AmongPubs(specs[i], pubs, done))
    requires forall i :: 0 <= i < |specs| ==> lists'[i] == if MatchesPub(specs[i], pubs[p]) then lists[i] + [p] else lists[i]
    ensures forall i :: 0 <= i < |specs| ==> multiset(lists'[i]) == multiset(AmongPubs(specs[i], pubs, done + {p}))
  {
    forall i | 0 <= i < |specs| ensures multiset(lists'[i]) == multiset(AmongPubs(specs[i], pubs, done + {p})) {
      if MatchesPub(specs[i], pubs[p]) {
        assert AmongPubs(specs[i], pubs, done + {p}) == AmongPubs(specs[i], pubs, done) + {p};
      } else {
        assert AmongPubs(specs[i], pubs, done + {p}) == AmongPubs(specs[i], pubs, done);
      }
    }
  }

  lemma SamePub(specs: seq<Spec>, a: Pub, b: Pub)
    requires a == b.(subs := a.subs)
    ensures AnyPub(specs, a) <==> AnyPub(specs, b)
    ensures forall i :: 0 <= i < |specs| ==> (MatchesPub(specs[i], a) <==> MatchesPub(specs[i], b))
  {
    assert forall i :: 0 <= i < |specs| ==> (MatchesPub(specs[i], a) <==> MatchesPub(specs[i], b));
  }

  lemma PubsVisited(specs: seq<Spec>, pubs: map<nat, Pub>, done: set<nat>, lists: seq<seq<nat>>, now: map<nat, Pub>, s: nat, p: nat, changed: bool, now': map<nat, Pub>)
    requires p in pubs && p !in done && |lists| == |specs| && now.Keys == pubs.Keys && (changed <==> AnyPub(specs, pubs[p]))
    requires forall i :: 0 <= i < |specs| ==> multiset(lists[i]) == multiset(AmongPubs(specs[i], pubs, done + {p}))
    requires forall o :: o in pubs ==> now[o] == pubs[o].(subs := now[o].subs)
    requires forall o :: o in pubs ==> Joined(pubs[o].subs, now[o].subs, s, o in done && AnyPub(specs, pubs[o]))
    requires now' == if changed then now[p := now[p].(subs := now[p].subs + {s})] else now
    ensures PubsSoFar(specs, pubs, done + {p}, lists, now', s)
  {
  }

  lemma NonePubYet(specs: seq<Spec>, pubs: map<nat, Pub>, lists: seq<seq<nat>>, s: nat)
    requires |lists| == |specs| && forall i :: 0 <= i < |specs| ==> lists[i] == []
    ensures PubsSoFar(specs, pubs, {}, lists, pubs, s)
  {
    forall i | 0 <= i < |specs| ensures AmongPubs(specs[i], pubs, {}) == {} { }
  }

  method VisitPub(specs: seq<Spec>, ghost pubs: map<nat, Pub>, ghost done: set<nat>, lists: seq<seq<nat>>, now: map<nat, Pub>, s: nat, p: nat)
    returns (lists': seq<seq<nat>>, now': map<nat, Pub>)
    requires PubsSoFar(specs, pubs, done, lists, now, s) && p in pubs && p !in done
    ensures PubsSoFar(specs, pubs, done + {p}, lists', now', s)
  {
    SamePub(specs, now[p], pubs[p]);
    var changed;
    lists', changed := OfferPub(specs, lists, now[p], p);
    OnePubMore(specs, pubs, done, p, lists, lists');
    now' := now;
    if changed { now' := now[p := now[p].(subs := now[p].subs + {s})]; }
    PubsVisited(specs, pubs, done, lists', now, s, p, changed, now');
  }

  method VisitPubs(specs: seq<Spec>, ghost pubs: map<nat, Pub>, ghost done: set<nat>, lists: seq<seq<nat>>, now: map<nat, Pub>, s: nat, all: set<nat>)
    returns (lists': seq<seq<nat>>, now': map<nat, Pub>)
    requires PubsSoFar(specs, pubs, done, lists, now, s) && all <= pubs.Keys && done !! all
    ensures PubsSoFar(specs, pubs, done + all, lists', now', s)
  {
    lists', now' := lists, now;
    var todo := all;
    ghost var seen := done;
    while todo != {}
      invariant todo <= all && seen == done + (all - todo) && PubsSoFar(specs, pubs, seen, lists', now', s)
    {
      var p :| p in todo;
      lists', now' := VisitPub(specs, pubs, seen, lists', now', s, p);
      seen, todo := seen + {p}, todo - {p};
    }
    assert done + (all - {}) == done + all;
  }

  /** The publications of one name. */
  method ScanName(specs: seq<Spec>, ghost pubs: map<nat, Pub>, byName: map<string, map<nat, nat>>, n: string,
                  ghost done: set<nat>, ghost names: set<string>, lists: seq<seq<nat>>, now: map<nat, Pub>, s: nat)
    returns (lists': seq<seq<nat>>, now': map<nat, Pub>, ghost done': set<nat>)
    requires PubNamesOk(byName, pubs) && PubsSoFar(specs, pubs, done, lists, now, s)
    requires PubsNamed(pubs, done, names) && n !in names
    ensures PubsSoFar(specs, pubs, done', lists', now', s) && PubsNamed(pubs, done', names + {n})
  {
    ValuesNamed(byName, pubs, n);
    lists', now' := VisitPubs(specs, pubs, done, lists, now, s, PubsUnder(byName, n).Values);
    done' := done + PubsUnder(byName, n).Values;
  }

  /** A name leads to exactly its publications. */
  lemma ValuesNamed(byName: map<string, map<nat, nat>>, pubs: map<nat, Pub>, n: string)
    requires PubNamesOk(byName, pubs)
    ensures forall p :: p in PubsUnder(byName, n).Values <==> p in pubs && pubs[p].name == n
  {
    forall p: nat ensures p in PubsUnder(byName, n).Values <==> p in pubs && pubs[p].name == n {
      assert PubAt(byName, pubs, p);
      if p in PubsUnder(byName, n).Values {
        var k: nat :| k in PubsUnder(byName, n) && PubsUnder(byName, n)[k] == p;
        assert NameAt(byName, pubs, n, k);
      }
    }
  }

  /** subscribeLocked's loop over the names asked for, on the publications. */
  method ScanPubs(specs: seq<Spec>, pubs: map<nat, Pub>, byName: map<string, map<nat, nat>>, s: nat)
    returns (lists: seq<seq<nat>>, pubs': map<nat, Pub>)
    requires PubNamesOk(byName, pubs)
    ensures ListsLocals(specs, lists, pubs) && PubInfo(pubs') == PubInfo(pubs) && pubs'.Keys == pubs.Keys
    ensures forall p :: p in pubs ==> Joined(pubs[p].subs, pubs'[p].subs, s, AnyPub(specs, pubs[p]))
  {
    lists, pubs' := seq(|specs|, _ => []), pubs;
    NonePubYet(specs, pubs, lists, s);
    ghost var done: set<nat> := {};
    var todo := NamesIn(specs);
    while todo != {}
      invariant todo <= NamesIn(specs) && PubsSoFar(specs, pubs, done, lists, pubs', s)
      invariant PubsNamed(pubs, done, NamesIn(specs) - todo)
    {
      var n :| n in todo;
      lists, pubs', done := ScanName(specs, pubs, byName, n, done, NamesIn(specs) - todo, lists, pubs', s);
      assert NamesIn(specs) - (todo - {n}) == NamesIn(specs) - todo + {n};
      todo := todo - {n};
    }
    assert NamesIn(specs) - {} == NamesIn(specs);
    AllPubsDone(specs, pubs, done, lists, pubs', s);
  }

  lemma AllPubsDone(specs: seq<Spec>, pubs: map<nat, Pub>, done: set<nat>, lists: seq<seq<nat>>, pubs': map<nat, Pub>, s: nat)
    requires PubsNamed(pubs, done, NamesIn(specs)) && PubsSoFar(specs, pubs, done, lists, pubs', s)
    ensures ListsLocals(specs, lists, pubs) && PubInfo(pubs') == PubInfo(pubs)
    ensures forall p :: p in pubs ==> Joined(pubs[p].subs, pubs'[p].subs, s, AnyPub(specs, pubs[p]))
  {
    forall i | 0 <= i < |specs| ensures specs[i].service in NamesIn(specs) { assert specs[i] in specs; }
    forall i | 0 <= i < |specs| ensures AmongPubs(specs[i], pubs, done) == Locals(specs[i], pubs) { }
  }

  // ----- remotes, by name and peer

  ghost predicate ListsRemotes(specs: seq<Spec>, lists: seq<seq<nat>>, remotes: map<nat, Remote>) {
    |lists| == |specs| && forall i :: 0 <= i < |specs| ==> multiset(lists[i]) == multiset(Remotes(specs[i], remotes))
  }

  predicate AnyRemote(specs: seq<Spec>, r: Remote) { exists i :: 0 <= i < |specs| && MatchesRemote(specs[i], r) }

  function AmongRemotes(sp: Spec, remotes: map<nat, Remote>, done: set<nat>): set<nat> {
    set r | r in done && r in remotes && MatchesRemote(sp, remotes[r])
  }

  /** The remotes in `done` have been offered to all options. */
  ghost predicate RemotesSoFar(specs: seq<Spec>, remotes: map<nat, Remote>, done: set<nat>, lists: seq<seq<nat>>,
                               remotes': map<nat, Remote>, s: nat) {
    && |lists| == |specs| && remotes'.Keys == remotes.Keys
    && (forall i :: 0 <= i < |specs| ==> multiset(lists[i]) == multiset(AmongRemotes(specs[i], remotes, done)))
    && (forall r :: r in remotes ==> remotes'[r] == remotes[r].(subs := remotes'[r].subs))
    && (forall r :: r in remotes ==> Joined(remotes[r].subs, remotes'[r].subs, s, r in done && AnyRemote(specs, remotes[r])))
  }

  /** addRemoteLocked on every option of the name. */
  method OfferRemote(specs: seq<Spec>, lists: seq<seq<nat>>, remote: Remote, r: nat) returns (lists': seq<seq<nat>>, changed: bool)
    requires |lists| == |specs|
    ensures |lists'| == |specs| && (changed <==> AnyRemote(specs, remote))
    ensures forall i :: 0 <= i < |specs| ==> lists'[i] == if MatchesRemote(specs[i], remote) then lists[i] + [r] else lists[i]
  {
    lists', changed := lists, false;
    for i := 0 to |specs|
      invariant |lists'| == |specs| && (changed <==> exists j :: 0 <= j < i && MatchesRemote(specs[j], remote))
      invariant forall j :: 0 <= j < i ==> lists'[j] == if MatchesRemote(specs[j], remote) then lists[j] + [r] else lists[j]
      invariant forall j :: i <= j < |specs| ==> lists'[j] == lists[j]
    {
      if specs[i].service == remote.name && specs[i].min <= remote.distance && remote.distance <= specs[i].max {
        lists', changed := lists'[i := lists'[i] + [r]], true;
      }
    }
  }

  lemma OneRemoteMore(specs: seq<Spec>, remotes: map<nat, Remote>, done: set<nat>, r: nat, lists: seq<seq<nat>>, lists': seq<seq<nat>>)
    requires |lists| == |specs| == |lists'| && r in remotes && r !in done
    requires forall i :: 0 <= i < |specs| ==> multiset(lists[i]) == multiset(AmongRemotes(specs[i], remotes, done))
    requires forall i :: 0 <= i < |specs| ==> lists'[i] == if MatchesRemote(specs[i], remotes[r]) then lists[i] + [r] else lists[i]
    ensures forall i :: 0 <= i < |specs| ==> multiset(lists'[i]) == multiset(AmongRemotes(specs[i], remotes, done + {r}))
  {
    forall i | 0 <= i < |specs| ensures multiset(lists'[i]) == multiset(AmongRemotes(specs[i], remotes, done + {r})) {
      if MatchesRemote(specs[i], remotes[r]) {
        assert AmongRemotes(specs[i], remotes, done + {r}) == AmongRemotes(specs[i], remotes, done) + {r};
      } else {
        assert AmongRemotes(specs[i], remotes, done + {r}) == AmongRemotes(specs[i], remotes, done);
      }
    }
  }

  lemma SameRemote(specs: seq<Spec>, a: Remote, b: Remote)
    requires a == b.(subs := a.subs)
    ensures AnyRemote(specs, a) <==> AnyRemote(specs, b)
    ensures forall i :: 0 <= i < |specs| ==> (MatchesRemote(specs[i], a) <==> MatchesRemote(specs[i], b))
  {
    assert forall i :: 0 <= i < |specs| ==> (MatchesRemote(specs[i], a) <==> MatchesRemote(specs[i], b));
  }

  lemma RemotesVisited(specs: seq<Spec>, remotes: map<nat, Remote>, done: set<nat>, lists: seq<seq<nat>>, now: map<nat, Remote>, s: nat, r: nat, changed: bool, now': map<nat, Remote>)
    requires r in remotes && r !in done && |lists| == |specs| && now.Keys == remotes.Keys && (changed <==> AnyRemote(specs, remotes[r]))
    requires forall i :: 0 <= i < |specs| ==> multiset(lists[i]) == multiset(AmongRemotes(specs[i], remotes, done + {r}))
    requires forall o :: o in remotes ==> now[o] == remotes[o].(subs := now[o].subs)
    requires forall o :: o in remotes ==> Joined(remotes[o].subs, now[o].subs, s, o in done && AnyRemote(specs, remotes[o]))
    requires now' == if changed then now[r := now[r].(subs := now[r].subs + {s})] else now
    ensures RemotesSoFar(specs, remotes, done + {r}, lists, now', s)
  {
  }

  lemma NoneRemoteYet(specs: seq<Spec>, remotes: map<nat, Remote>, lists: seq<seq<nat>>, s: nat)
    requires |lists| == |specs| && forall i :: 0 <= i < |specs| ==> lists[i] == []
    ensures RemotesSoFar(specs, remotes, {}, lists, remotes, s)
  {
    forall i | 0 <= i < |specs| ensures AmongRemotes(specs[i], remotes, {}) == {} { }
  }

  method VisitRemote(specs: seq<Spec>, ghost remotes: map<nat, Remote>, ghost done: set<nat>, lists: seq<seq<nat>>, now: map<nat, Remote>, s: nat, r: nat)
    returns (lists': seq<seq<nat>>, now': map<nat, Remote>)
    requires RemotesSoFar(specs, remotes, done, lists, now, s) && r in remotes && r !in done
    ensures RemotesSoFar(specs, remotes, done + {r}, lists', now', s)
  {
    SameRemote(specs, now[r], remotes[r]);
    var changed;
    lists', changed := OfferRemote(specs, lists, now[r], r);
    OneRemoteMore(specs, remotes, done, r, lists, lists');
    now' := now;
    if changed { now' := now[r := now[r].(subs := now[r].subs + {s})]; }
    RemotesVisited(specs, remotes, done, lists', now, s, r, changed, now');
  }

  /** The remotes of one peer under one name. */
  method ScanPeer(specs: seq<Spec>, ghost remotes: map<nat, Remote>, byName: map<nat, map<string, set<nat>>>, k: nat, n: string,
                  ghost done: set<nat>, lists: seq<seq<nat>>, now: map<nat, Remote>, s: nat)
    returns (lists': seq<seq<nat>>, now': map<nat, Remote>)
    requires RemoteNamesOk(byName, remotes) && RemotesSoFar(specs, remotes, done, lists, now, s)
    requires done !! RemotesUnder(byName, k, n)
    ensures RemotesSoFar(specs, remotes, done + RemotesUnder(byName, k, n), lists', now', s)
  {
    lists', now' := lists, now;
    var found := RemotesUnder(byName, k, n);
    var todo := found;
    ghost var seen := done;
    while todo != {}
      invariant todo <= found && seen == done + (found - todo) && RemotesSoFar(specs, remotes, seen, lists', now', s)
    {
      var r :| r in todo;
      assert PeerNameAt(byName, remotes, k, n, r);
      lists', now' := VisitRemote(specs, remotes, seen, lists', now', s, r);
      seen := seen + {r};
      todo := todo - {r};
    }
    assert done + (found - {}) == done + found;
  }

  /** All remotes of the names, and those of `n` but for the peers in `todo`. */
  ghost predicate OffPeers(remotes: map<nat, Remote>, done: set<nat>, n: string, names: set<string>, todo: set<nat>) {
    forall r :: r in done <==> r in remotes && (remotes[r].name in names || (remotes[r].name == n && remotes[r].peer !in todo))
  }

  lemma PeersStart(byName: map<nat, map<string, set<nat>>>, remotes: map<nat, Remote>, done: set<nat>, n: string, names: set<string>)
    requires RemoteNamesOk(byName, remotes) && RemotesNamed(remotes, done, names) && n !in names
    ensures OffPeers(remotes, done, n, names, byName.Keys)
  {
    forall r: nat | r in remotes ensures remotes[r].peer in byName { assert RemoteAt(byName, remotes, r); }
  }

  lemma PeerDone(byName: map<nat, map<string, set<nat>>>, remotes: map<nat, Remote>, done: set<nat>, n: string, names: set<string>, todo: set<nat>, k: nat)
    requires RemoteNamesOk(byName, remotes) && OffPeers(remotes, done, n, names, todo) && n !in names && k in todo
    ensures done !! RemotesUnder(byName, k, n)
    ensures OffPeers(remotes, done + RemotesUnder(byName, k, n), n, names, todo - {k})
  {
    forall r: nat ensures r in RemotesUnder(byName, k, n) <==> r in remotes && remotes[r].peer == k && remotes[r].name == n {
      assert PeerNameAt(byName, remotes, k, n, r) && RemoteAt(byName, remotes, r);
    }
  }

  /** subscribeLocked's loop over all peers, for one name. */
  method ScanPeers(specs: seq<Spec>, ghost remotes: map<nat, Remote>, byName: map<nat, map<string, set<nat>>>, n: string,
                   ghost done: set<nat>, ghost names: set<string>, lists: seq<seq<nat>>, now: map<nat, Remote>, s: nat)
    returns (lists': seq<seq<nat>>, now': map<nat, Remote>, ghost done': set<nat>)
    requires RemoteNamesOk(byName, remotes) && RemotesSoFar(specs, remotes, done, lists, now, s)
    requires RemotesNamed(remotes, done, names) && n !in names
    ensures RemotesSoFar(specs, remotes, done', lists', now', s) && RemotesNamed(remotes, done', names + {n})
  {
    lists', now', done' := lists, now, done;
    var todo := byName.Keys;
    PeersStart(byName, remotes, done, n, names);
    while todo != {}
      invariant todo <= byName.Keys && RemotesSoFar(specs, remotes, done', lists', now', s)
      invariant OffPeers(remotes, done', n, names, todo)
    {
      var k :| k in todo;
      PeerDone(byName, remotes, done', n, names, todo, k);
      lists', now' := ScanPeer(specs, remotes, byName, k, n, done', lists', now', s);
      done', todo := done' + RemotesUnder(byName, k, n), todo - {k};
    }
  }

  /** subscribeLocked's loop over the names asked for, on the remotes. */
  method ScanRemotes(specs: seq<Spec>, remotes: map<nat, Remote>, byName: map<nat, map<string, set<nat>>>, s: nat)
    returns (lists: seq<seq<nat>>, remotes': map<nat, Remote>)
    requires RemoteNamesOk(byName, remotes)
    ensures ListsRemotes(specs, lists, remotes) && RemoteInfo(remotes') == RemoteInfo(remotes) && remotes'.Keys == remotes.Keys
    ensures forall r :: r in remotes ==> Joined(remotes[r].subs, remotes'[r].subs, s, AnyRemote(specs, remotes[r]))
  {
    lists, remotes' := seq(|specs|, _ => []), remotes;
    NoneRemoteYet(specs, remotes, lists, s);
    ghost var done: set<nat> := {};
    var todo := NamesIn(specs);
    while todo != {}
      invariant todo <= NamesIn(specs) && RemotesSoFar(specs, remotes, done, lists, remotes', s)
      invariant RemotesNamed(remotes, done, NamesIn(specs) - todo)
    {
      var n :| n in todo;
      lists, remotes', done := ScanPeers(specs, remotes, byName, n, done, NamesIn(specs) - todo, lists, remotes', s);
      assert NamesIn(specs) - (todo - {n}) == NamesIn(specs) - todo + {n};
      todo := todo - {n};
    }
    assert NamesIn(specs) - {} == NamesIn(specs);
    AllRemotesDone(specs, remotes, done, lists, remotes', s);
  }

  lemma AllRemotesDone(specs: seq<Spec>, remotes: map<nat, Remote>, done: set<nat>, lists: seq<seq<nat>>, remotes': map<nat, Remote>, s: nat)
    requires RemotesNamed(remotes, done, NamesIn(specs)) && RemotesSoFar(specs, remotes, done, lists, remotes', s)
    ensures ListsRemotes(specs, lists, remotes) && RemoteInfo(remotes') == RemoteInfo(remotes)
    ensures forall r :: r in remotes ==> Joined(remotes[r].subs, remotes'[r].subs, s, AnyRemote(specs, remotes[r]))
  {
    forall i | 0 <= i < |specs| ensures specs[i].service in NamesIn(specs) { assert specs[i] in specs; }
    forall i | 0 <= i < |specs| ensures AmongRemotes(specs[i], remotes, done) == Remotes(specs[i], remotes) { }
  }

  /** What a subscription wants is what its options ask for. */
  lemma WantsAny(sub: Sub, specs: seq<Spec>)
    requires Specs(sub) == specs
    ensures forall p :: WantsPub(sub, p) <==> AnyPub(specs, p)
    ensures forall r :: WantsRemote(sub, r) <==> AnyRemote(specs, r)
  {
    assert |sub.options| == |specs| && forall i :: 0 <= i < |specs| ==> sub.options[i].spec == specs[i];
  }

  // ----- routes and names

  /** One step per option: the names it asks for are looked up, not all routes. */
  method JoinRoutes(routes: map<string, Route>, sub: Sub, s: nat) returns (routes': map<string, Route>)
    ensures RouteInfo(routes') == RouteInfo(routes)
    ensures routes'.Keys == routes.Keys
    ensures forall n :: n in routes ==> Joined(routes[n].subs, routes'[n].subs, s, WantsRoute(sub, n))
  {
    if sub.disableRoutes { return routes; }
    routes' := routes;
    for i := 0 to |sub.options|
      invariant routes'.Keys == routes.Keys
      invariant forall n :: n in routes ==> routes'[n] == routes[n].(subs := routes'[n].subs)
      invariant forall n :: n in routes ==>
        Joined(routes[n].subs, routes'[n].subs, s, exists j :: 0 <= j < i && sub.options[j].spec.service == n)
    {
      var n := sub.options[i].spec.service;
      if n in routes' { routes' := routes'[n := routes'[n].(subs := routes'[n].subs + {s})]; }
    }
  }

  function Under(byName: map<string, set<nat>>, n: string): set<nat> { if n in byName then byName[n] else {} }

  method JoinNames(byName: map<string, set<nat>>, sub: Sub, s: nat) returns (byName': map<string, set<nat>>)
    requires forall n :: n in byName ==> byName[n] != {}
    ensures forall n :: n in byName' ==> byName'[n] != {}
    ensures forall n :: Joined(Under(byName, n), Under(byName', n), s, Names(sub, n))
  {
    byName' := byName;
    for i := 0 to |sub.options|
      invariant forall n :: n in byName' ==> byName'[n] != {}
      invariant forall n ::
        Joined(Under(byName, n), Under(byName', n), s, exists j :: 0 <= j < i && sub.options[j].spec.service == n)
    {
      var n := sub.options[i].spec.service;
      byName' := byName'[n := Under(byName', n) + {s}];
    }
  }

  // ----- leaving them

  ghost predicate Left(was: set<nat>, now: set<nat>, s: nat, dropped: bool) {
    now == if dropped then was - {s} else was
  }

  method DropFromPubs(pubs: map<nat, Pub>, list: seq<nat>, s: nat) returns (pubs': map<nat, Pub>)
    requires forall x :: x in list ==> x in pubs
    ensures pubs'.Keys == pubs.Keys && forall p :: p in pubs ==> pubs'[p] == pubs[p].(subs := pubs'[p].subs)
    ensures forall p :: p in pubs ==> Left(pubs[p].subs, pubs'[p].subs, s, p in list)
  {
    pubs' := pubs;
    for k := 0 to |list|
      invariant pubs'.Keys == pubs.Keys
      invariant forall p :: p in pubs ==> pubs'[p] == pubs[p].(subs := pubs'[p].subs)
      invariant forall p :: p in pubs ==> Left(pubs[p].subs, pubs'[p].subs, s, p in list[..k])
    {
      assert list[..k + 1] == list[..k] + [list[k]];
      assert list[k] in list;
      pubs' := pubs'[list[k] := pubs'[list[k]].(subs := pubs'[list[k]].subs - {s})];
    }
    assert list[..|list|] == list;
  }

  method DropFromRemotes(remotes: map<nat, Remote>, list: seq<nat>, s: nat) returns (remotes': map<nat, Remote>)
    requires forall x :: x in list ==> x in remotes
    ensures remotes'.Keys == remotes.Keys && forall r :: r in remotes ==> remotes'[r] == remotes[r].(subs := remotes'[r].subs)
    ensures forall r :: r in remotes ==> Left(remotes[r].subs, remotes'[r].subs, s, r in list)
  {
    remotes' := remotes;
    for k := 0 to |list|
      invariant remotes'.Keys == remotes.Keys
      invariant forall r :: r in remotes ==> remotes'[r] == remotes[r].(subs := remotes'[r].subs)
      invariant forall r :: r in remotes ==> Left(remotes[r].subs, remotes'[r].subs, s, r in list[..k])
    {
      assert list[..k + 1] == list[..k] + [list[k]];
      assert list[k] in list;
      remotes' := remotes'[list[k] := remotes'[list[k]].(subs := remotes'[list[k]].subs - {s})];
    }
    assert list[..|list|] == list;
  }

  method LeaveNames(byName: map<string, set<nat>>, sub: Sub, s: nat) returns (byName': map<string, set<nat>>)
    requires forall n :: n in byName ==> byName[n] != {}
    ensures forall n :: n in byName' ==> byName'[n] != {}
    ensures forall n :: Left(Under(byName, n), Under(byName', n), s, Names(sub, n))
  {
    byName' := byName;
    for i := 0 to |sub.options|
      invariant forall n :: n in byName' ==> byName'[n] != {}
      invariant forall n ::
        Left(Under(byName, n), Under(byName', n), s, exists j :: 0 <= j < i && sub.options[j].spec.service == n)
    {
      var n := sub.options[i].spec.service;
      if n in byName' {
        var rest := byName'[n] - {s};
        byName' := if rest == {} then byName' - {n} else byName'[n := rest];
      }
    }
  }

  lemma LocalListed(sub: Sub, pubs: map<nat, Pub>, i: nat)
    requires LocalsOk(sub, pubs) && i < |sub.options|
    ensures forall p :: p in sub.options[i].local <==> p in pubs && MatchesPub(sub.options[i].spec, pubs[p])
  {
    forall p ensures p in sub.options[i].local <==> p in Locals(sub.options[i].spec, pubs) {
      if p >= 0 { ListMember(sub.options[i].local, Locals(sub.options[i].spec, pubs), p); }
    }
  }

  lemma RemoteListed(sub: Sub, remotes: map<nat, Remote>, i: nat)
    requires RemotesOk(sub, remotes) && i < |sub.options|
    ensures forall r :: r in sub.options[i].remote <==> r in remotes && MatchesRemote(sub.options[i].spec, remotes[r])
  {
    forall r ensures r in sub.options[i].remote <==> r in Remotes(sub.options[i].spec, remotes) {
      if r >= 0 { ListMember(sub.options[i].remote, Remotes(sub.options[i].spec, remotes), r); }
    }
  }

  method LeavePubs(pubs: map<nat, Pub>, sub: Sub, s: nat) returns (pubs': map<nat, Pub>)
    requires LocalsOk(sub, pubs)
    ensures PubInfo(pubs') == PubInfo(pubs)
    ensures pubs'.Keys == pubs.Keys
    ensures forall p :: p in pubs ==> Left(pubs[p].subs, pubs'[p].subs, s, WantsPub(sub, pubs[p]))
  {
    pubs' := pubs;
    for i := 0 to |sub.options|
      invariant pubs'.Keys == pubs.Keys && forall p :: p in pubs ==> pubs'[p] == pubs[p].(subs := pubs'[p].subs)
      invariant forall p :: p in pubs ==>
        Left(pubs[p].subs, pubs'[p].subs, s, exists j :: 0 <= j < i && MatchesPub(sub.options[j].spec, pubs[p]))
    {
      LocalListed(sub, pubs, i);
      pubs' := DropFromPubs(pubs', sub.options[i].local, s);
    }
  }

  method LeaveRemotes(remotes: map<nat, Remote>, sub: Sub, s: nat) returns (remotes': map<nat, Remote>)
    requires RemotesOk(sub, remotes)
    ensures RemoteInfo(remotes') == RemoteInfo(remotes)
    ensures remotes'.Keys == remotes.Keys
    ensures forall r :: r in remotes ==> Left(remotes[r].subs, remotes'[r].subs, s, WantsRemote(sub, remotes[r]))
  {
    remotes' := remotes;
    for i := 0 to |sub.options|
      invariant remotes'.Keys == remotes.Keys && forall r :: r in remotes ==> remotes'[r] == remotes[r].(subs := remotes'[r].subs)
      invariant forall r :: r in remotes ==>
        Left(remotes[r].subs, remotes'[r].subs, s, exists j :: 0 <= j < i && MatchesRemote(sub.options[j].spec, remotes[r]))
    {
      RemoteListed(sub, remotes, i);
      remotes' := DropFromRemotes(remotes', sub.options[i].remote, s);
    }
  }

  method LeaveRoutes(routes: map<string, Route>, sub: Sub, s: nat) returns (routes': map<string, Route>)
    requires RoutesOk(sub, routes)
    ensures RouteInfo(routes') == RouteInfo(routes)
    ensures routes'.Keys == routes.Keys
    ensures forall n :: n in routes ==> Left(routes[n].subs, routes'[n].subs, s, WantsRoute(sub, n))
  {
    routes' := routes;
    for i := 0 to |sub.options|
      invariant routes'.Keys == routes.Keys
      invariant forall n :: n in routes ==> routes'[n] == routes[n].(subs := routes'[n].subs)
      invariant forall n :: n in routes ==>
        Left(routes[n].subs, routes'[n].subs, s,
             exists j :: 0 <= j < i && !sub.disableRoutes && sub.options[j].spec.service == n)
    {
      var n := sub.options[i].spec.service;
      assert sub.options[i].route == RouteFor(sub.options[i].spec, sub.disableRoutes, routes);
      if sub.options[i].route.Some? {
        routes' := routes'[n := routes'[n].(subs := routes'[n].subs - {s})];
      }
    }
  }
}

/** How one subscription follows changes of the registries, option by option. */
module Subscription {
  import opened Common
  import opened Registry

  // ----- lists

  lemma ListMember(list: seq<nat>, members: set<nat>, x: nat)
    requires multiset(list) == multiset(members)
    ensures x in list <==> x in members
  {
    assert x in list <==> x in multiset(list);
  }

  /** Only the members and their priorities matter. */
  lemma ListsFrame(list: seq<nat>, members: set<nat>, prio: map<nat, nat>, prio': map<nat, nat>)
    requires Lists(list, members, prio)
    requires forall m :: m in members ==> m in prio && m in prio' && prio'[m] == prio[m]
    ensures Lists(list, members, prio')
    ensures FirstPriority(list, prio') == FirstPriority(list, prio)
    ensures forall n: nat :: CountsTies(list, prio, n) <==> CountsTies(list, prio', n)
  {
    forall i | 0 <= i < |list| ensures list[i] in members {
      ListMember(list, members, list[i]);
    }
  }

  lemma InsertedSorted(r: seq<nat>, x: nat, j: nat, prio: map<nat, nat>, r': seq<nat>)
    requires ByPriority(r, prio) && x in prio && j <= |r|
    requires forall i :: 0 <= i < j ==> prio[r[i]] <= prio[x]
    requires j < |r| ==> prio[x] <= prio[r[j]]
    requires r' == r[..j] + [x] + r[j..]
    ensures ByPriority(r', prio)
  {
    forall i | 0 <= i < |r'| ensures r'[i] in prio {
      assert r'[i] == x || r'[i] == r[if i < j then i else i - 1];
    }
    forall i, k | 0 <= i < k < |r'| ensures prio[r'[i]] <= prio[r'[k]] {
      assert r'[i] == if i < j then r[i] else if i == j then x else r[i - 1];
      assert r'[k] == if k < j then r[k] else if k == j then x else r[k - 1];
    }
  }

  method InsertByPriority(r: seq<nat>, x: nat, prio: map<nat, nat>) returns (r': seq<nat>)
    requires ByPriority(r, prio) && x in prio
    ensures multiset(r') == multiset(r) + multiset{x}
    ensures ByPriority(r', prio)
  {
    var j := 0;
    while j < |r| && prio[r[j]] <= prio[x]
      invariant j <= |r|
      invariant forall i :: 0 <= i < j ==> prio[r[i]] <= prio[x]
    {
      j := j + 1;
    }
    r' := r[..j] + [x] + r[j..];
    InsertedSorted(r, x, j, prio, r');
    assert multiset(r') == multiset(r) + multiset{x} by { assert r == r[..j] + r[j..]; }
  }

  /** sort.Sort on a list of candidates. */
  method SortByPriority(list: seq<nat>, prio: map<nat, nat>) returns (r: seq<nat>)
    requires forall x :: x in list ==> x in prio
    ensures multiset(r) == multiset(list)
    ensures ByPriority(r, prio)
  {
    r := [];
    for k := 0 to |list|
      invariant multiset(r) == multiset(list[..k])
      invariant ByPriority(r, prio)
    {
      assert list[k] in list;
      r := InsertByPriority(r, list[k], prio);
      assert list[..k + 1] == list[..k] + [list[k]];
    }
    assert list[..|list|] == list;
  }

  /** updateRemotePriorityLocked: the lowest priority and how many share it. */
  method LowestPriority(list: seq<nat>, prio: map<nat, nat>) returns (priority: nat, count: nat)
    requires ByPriority(list, prio)
    ensures priority == FirstPriority(list, prio)
    ensures CountsTies(list, prio, count)
  {
    if |list| > 0 {
      count := 1;
      priority := prio[list[0]];
      while count < |list| && prio[list[count]] == priority
        invariant 1 <= count <= |list|
        invariant forall i :: 0 <= i < count ==> prio[list[i]] == prio[list[0]]
      {
        count := count + 1;
      }
    } else {
      count := 0;
      priority := NO_PRIORITY;
    }
  }

  /** removePublicationLocked / removeRemoteLocked: the first occurrence goes. */
  method RemoveFrom(list: seq<nat>, x: nat) returns (r: seq<nat>, found: bool)
    ensures found <==> x in list
    ensures found ==> multiset(list) == multiset(r) + multiset{x}
    ensures found ==> exists k :: 0 <= k < |list| && list[k] == x && r == list[..k] + list[k + 1..]
    ensures !found ==> r == list
  {
    var k := 0;
    while k < |list| && list[k] != x
      invariant k <= |list|
      invariant x !in list[..k]
    {
      k := k + 1;
    }
    if k < |list| {
      assert list == list[..k] + [x] + list[k + 1..];
      return list[..k] + list[k + 1..], true;
    }
    assert list == list[..k];
    return list, false;
  }

  lemma RemovedSorted(list: seq<nat>, prio: map<nat, nat>, k: nat, r: seq<nat>)
    requires ByPriority(list, prio) && k < |list| && r == list[..k] + list[k + 1..]
    ensures ByPriority(r, prio)
  {
    forall i | 0 <= i < |r| ensures r[i] in prio {
      assert r[i] == list[if i < k then i else i + 1];
    }
    forall i, j | 0 <= i < j < |r| ensures prio[r[i]] <= prio[r[j]] {
      assert r[i] == list[if i < k then i else i + 1];
      assert r[j] == list[if j < k then j else j + 1];
    }
  }

  /** Taking an entry out leaves a sorted list of the other members. */
  lemma RemovedLists(list: seq<nat>, members: set<nat>, prio: map<nat, nat>, x: nat, k: nat, r: seq<nat>)
    requires Lists(list, members, prio)
    requires 0 <= k < |list| && list[k] == x && r == list[..k] + list[k + 1..]
    ensures x in members && Lists(r, members - {x}, prio)
  {
    RemovedSorted(list, prio, k, r);
    ListMember(list, members, x);
    assert multiset(r) == multiset(list) - multiset{x} by { assert list == list[..k] + [x] + list[k + 1..]; }
    assert multiset(members - {x}) == multiset(members) - multiset{x};
  }

  lemma AddedLists(list: seq<nat>, members: set<nat>, prio: map<nat, nat>, x: nat, r: seq<nat>)
    requires multiset(list) == multiset(members) && x !in members
    requires multiset(r) == multiset(list + [x]) && ByPriority(r, prio)
    ensures Lists(r, members + {x}, prio)
  {
    assert multiset(members + {x}) == multiset(members) + multiset{x};
  }

  // ----- the active option

  /** updateActiveIndexLocked */
  method FindActive(options: seq<Opt>) returns (active: nat)
    ensures active <= |options|
    ensures forall i :: 0 <= i < active ==> !IsActive(options[i])
    ensures active < |options| ==> IsActive(options[active])
  {
    active := 0;
    while active < |options| && !IsActive(options[active])
      invariant active <= |options|
      invariant forall i :: 0 <= i < active ==> !IsActive(options[i])
    {
      active := active + 1;
    }
  }

  method Reactivate(sub: Sub, changed: bool) returns (sub': Sub)
    requires !changed ==> ActiveOk(sub)
    ensures ActiveOk(sub') && sub' == sub.(active := sub'.active)
  {
    sub' := sub;
    if changed {
      var active := FindActive(sub.options);
      sub' := sub.(active := active);
    }
  }

  // ----- publications

  /** Only the local candidates of the options and the active index may differ. */
  ghost predicate LocalsChange(sub: Sub, sub': Sub) {
    && sub'.disableRoutes == sub.disableRoutes && |sub'.options| == |sub.options|
    && forall i :: 0 <= i < |sub.options| ==>
         sub'.options[i] == sub.options[i].(local := sub'.options[i].local, localPriority := sub'.options[i].localPriority)
  }

  ghost predicate SameSpecs(sub: Sub, sub': Sub) {
    && sub'.disableRoutes == sub.disableRoutes && |sub'.options| == |sub.options|
    && forall i :: 0 <= i < |sub.options| ==> sub'.options[i].spec == sub.options[i].spec
  }

  /** An option that `p` does not match does not notice it. */
  lemma OtherPub(o: Opt, pubs: map<nat, Pub>, p: nat)
    requires p in pubs && !MatchesPub(o.spec, pubs[p])
    ensures LocalOk(o, pubs) <==> LocalOk(o, pubs - {p})
  {
    var few := pubs - {p};
    assert Locals(o.spec, pubs) == Locals(o.spec, few);
    if LocalOk(o, few) { ListsFrame(o.local, Locals(o.spec, few), PubPriorities(few), PubPriorities(pubs)); }
    if LocalOk(o, pubs) { ListsFrame(o.local, Locals(o.spec, few), PubPriorities(pubs), PubPriorities(few)); }
  }

  method AddPubToOption(o: Opt, pubs: map<nat, Pub>, p: nat) returns (o': Opt, hit: bool)
    requires p in pubs
    requires LocalOk(o, pubs - {p})
    ensures LocalOk(o', pubs)
    ensures o' == o.(local := o'.local, localPriority := o'.localPriority)
    ensures hit <==> MatchesPub(o.spec, pubs[p])
    ensures !hit ==> o' == o
  {
    if !(o.spec.service == pubs[p].name && o.spec.min == 0) {
      OtherPub(o, pubs, p);
      return o, false;
    }
    hit := true;
    ghost var few := pubs - {p};
    assert Locals(o.spec, pubs) == Locals(o.spec, few) + {p};
    forall x | x in o.local + [p] ensures x in PubPriorities(pubs) {
      if x in o.local { ListMember(o.local, Locals(o.spec, few), x); }
    }
    var local := SortByPriority(o.local + [p], PubPriorities(pubs));
    AddedLists(o.local, Locals(o.spec, few), PubPriorities(pubs), p, local);
    assert local != [] by { ListMember(local, Locals(o.spec, pubs), p); }
    o' := o.(local := local, localPriority := PubPriorities(pubs)[local[0]]);
  }

  method RemovePubFromOption(o: Opt, pubs: map<nat, Pub>, p: nat) returns (o': Opt, hit: bool)
    requires p in pubs
    requires LocalOk(o, pubs)
    ensures LocalOk(o', pubs - {p})
    ensures o' == o.(local := o'.local, localPriority := o'.localPriority)
    ensures hit <==> MatchesPub(o.spec, pubs[p])
    ensures !hit ==> o' == o
  {
    if !(o.spec.service == pubs[p].name && o.spec.min == 0) {
      OtherPub(o, pubs, p);
      return o, false;
    }
    hit := true;
    var few := pubs - {p};
    assert Locals(o.spec, few) == Locals(o.spec, pubs) - {p};
    ListMember(o.local, Locals(o.spec, pubs), p);
    var local, found := RemoveFrom(o.local, p);
    ghost var k :| 0 <= k < |o.local| && o.local[k] == p && local == o.local[..k] + o.local[k + 1..];
    RemovedLists(o.local, Locals(o.spec, pubs), PubPriorities(pubs), p, k, local);
    ListsFrame(local, Locals(o.spec, few), PubPriorities(pubs), PubPriorities(few));
    o' := o.(local := local, localPriority := if |local| > 0 then pubs[local[0]].priority else NO_PRIORITY);
  }

  /** A subscription without a matching option does not notice `p`. */
  lemma OtherPubs(sub: Sub, pubs: map<nat, Pub>, p: nat)
    requires p in pubs && !WantsPub(sub, pubs[p])
    ensures LocalsOk(sub, pubs) <==> LocalsOk(sub, pubs - {p})
  {
    forall i | 0 <= i < |sub.options| ensures LocalOk(sub.options[i], pubs) <==> LocalOk(sub.options[i], pubs - {p}) {
      OtherPub(sub.options[i], pubs, p);
    }
  }

  method AddPublication(sub: Sub, pubs: map<nat, Pub>, p: nat) returns (sub': Sub, changed: bool)
    requires p in pubs && LocalsOk(sub, pubs - {p}) && ActiveOk(sub)
    ensures LocalsOk(sub', pubs) && ActiveOk(sub') && LocalsChange(sub, sub')
    ensures changed <==> WantsPub(sub, pubs[p])
  {
    var options := sub.options;
    changed := false;
    for i := 0 to |options|
      invariant LocalsChange(sub, sub.(options := options))
      invariant forall j :: 0 <= j < i ==> LocalOk(options[j], pubs)
      invariant forall j :: i <= j < |options| ==> options[j] == sub.options[j]
      invariant !changed ==> options == sub.options
      invariant changed <==> exists j :: 0 <= j < i && MatchesPub(sub.options[j].spec, pubs[p])
    {
      var o', hit := AddPubToOption(options[i], pubs, p);
      options := options[i := o'];
      changed := changed || hit;
    }
    sub' := Reactivate(sub.(options := options), changed);
  }

  method RemovePublication(sub: Sub, pubs: map<nat, Pub>, p: nat) returns (sub': Sub)
    requires p in pubs && LocalsOk(sub, pubs) && ActiveOk(sub)
    ensures LocalsOk(sub', pubs - {p}) && ActiveOk(sub') && LocalsChange(sub, sub')
  {
    var options, changed := sub.options, false;
    for i := 0 to |options|
      invariant LocalsChange(sub, sub.(options := options))
      invariant forall j :: 0 <= j < i ==> LocalOk(options[j], pubs - {p})
      invariant forall j :: i <= j < |options| ==> options[j] == sub.options[j]
      invariant !changed ==> options == sub.options
    {
      var o', hit := RemovePubFromOption(options[i], pubs, p);
      options := options[i := o'];
      changed := changed || hit;
    }
    sub' := Reactivate(sub.(options := options), changed);
  }

  // ----- remotes

  /** Only the remote candidates of the options and the active index may differ. */
  ghost predicate RemotesChange(sub: Sub, sub': Sub) {
    && sub'.disableRoutes == sub.disableRoutes && |sub'.options| == |sub.options|
    && forall i :: 0 <= i < |sub.options| ==>
         var o' := sub'.options[i];
         o' == sub.options[i].(remote := o'.remote, remotePriority := o'.remotePriority, remoteCount := o'.remoteCount)
  }

  lemma OtherRemote(o: Opt, remotes: map<nat, Remote>, r: nat)
    requires r in remotes && !MatchesRemote(o.spec, remotes[r])
    ensures RemoteOk(o, remotes) <==> RemoteOk(o, remotes - {r})
  {
    var few := remotes - {r};
    assert Remotes(o.spec, remotes) == Remotes(o.spec, few);
    if RemoteOk(o, few) { ListsFrame(o.remote, Remotes(o.spec, few), RemotePriorities(few), RemotePriorities(remotes)); }
    if RemoteOk(o, remotes) { ListsFrame(o.remote, Remotes(o.spec, few), RemotePriorities(remotes), RemotePriorities(few)); }
  }

  method AddRemoteToOption(o: Opt, remotes: map<nat, Remote>, r: nat) returns (o': Opt, hit: bool)
    requires r in remotes
    requires RemoteOk(o, remotes - {r})
    ensures RemoteOk(o', remotes)
    ensures o' == o.(remote := o'.remote, remotePriority := o'.remotePriority, remoteCount := o'.remoteCount)
    ensures hit <==> MatchesRemote(o.spec, remotes[r])
    ensures !hit ==> o' == o
  {
    if !(o.spec.service == remotes[r].name && o.spec.min <= remotes[r].distance <= o.spec.max) {
      OtherRemote(o, remotes, r);
      return o, false;
    }
    hit := true;
    ghost var few := remotes - {r};
    assert Remotes(o.spec, remotes) == Remotes(o.spec, few) + {r};
    forall x | x in o.remote + [r] ensures x in RemotePriorities(remotes) {
      if x in o.remote { ListMember(o.remote, Remotes(o.spec, few), x); }
    }
    var remote := SortByPriority(o.remote + [r], RemotePriorities(remotes));
    AddedLists(o.remote, Remotes(o.spec, few), RemotePriorities(remotes), r, remote);
    assert remote != [] by { ListMember(remote, Remotes(o.spec, remotes), r); }
    var priority, count := LowestPriority(remote, RemotePriorities(remotes));
    o' := o.(remote := remote, remotePriority := priority, remoteCount := count);
  }

  method RemoveRemoteFromOption(o: Opt, remotes: map<nat, Remote>, r: nat) returns (o': Opt, hit: bool)
    requires r in remotes
    requires RemoteOk(o, remotes)
    ensures RemoteOk(o', remotes - {r})
    ensures o' == o.(remote := o'.remote, remotePriority := o'.remotePriority, remoteCount := o'.remoteCount)
    ensures hit <==> MatchesRemote(o.spec, remotes[r])
    ensures !hit ==> o' == o
  {
    if !(o.spec.service == remotes[r].name && o.spec.min <= remotes[r].distance <= o.spec.max) {
      OtherRemote(o, remotes, r);
      return o, false;
    }
    hit := true;
    var few := remotes - {r};
    assert Remotes(o.spec, few) == Remotes(o.spec, remotes) - {r};
    ListMember(o.remote, Remotes(o.spec, remotes), r);
    var remote, found := RemoveFrom(o.remote, r);
    ghost var k :| 0 <= k < |o.remote| && o.remote[k] == r && remote == o.remote[..k] + o.remote[k + 1..];
    RemovedLists(o.remote, Remotes(o.spec, remotes), RemotePriorities(remotes), r, k, remote);
    ListsFrame(remote, Remotes(o.spec, few), RemotePriorities(remotes), RemotePriorities(few));
    var priority, count := LowestPriority(remote, RemotePriorities(few));
    o' := o.(remote := remote, remotePriority := priority, remoteCount := count);
  }

  lemma OtherRemotes(sub: Sub, remotes: map<nat, Remote>, r: nat)
    requires r in remotes && !WantsRemote(sub, remotes[r])
    ensures RemotesOk(sub, remotes) <==> RemotesOk(sub, remotes - {r})
  {
    forall i | 0 <= i < |sub.options| ensures RemoteOk(sub.options[i], remotes) <==> RemoteOk(sub.options[i], remotes - {r}) {
      OtherRemote(sub.options[i], remotes, r);
    }
  }

  method AddRemote(sub: Sub, remotes: map<nat, Remote>, r: nat) returns (sub': Sub, changed: bool)
    requires r in remotes && RemotesOk(sub, remotes - {r}) && ActiveOk(sub)
    ensures RemotesOk(sub', remotes) && ActiveOk(sub') && RemotesChange(sub, sub')
    ensures changed <==> WantsRemote(sub, remotes[r])
  {
    var options;
    options, changed := AddRemoteToAll(sub, remotes, r);
    sub' := Reactivate(sub.(options := options), changed);
  }

  method AddRemoteToAll(sub: Sub, remotes: map<nat, Remote>, r: nat) returns (options: seq<Opt>, changed: bool)
    requires r in remotes && RemotesOk(sub, remotes - {r})
    ensures RemotesChange(sub, sub.(options := options)) && forall j :: 0 <= j < |options| ==> RemoteOk(options[j], remotes)
    ensures (!changed ==> options == sub.options) && (changed <==> WantsRemote(sub, remotes[r]))
  {
    options, changed := sub.options, false;
    for i := 0 to |options|
      invariant RemotesChange(sub, sub.(options := options))
      invariant forall j :: 0 <= j < i ==> RemoteOk(options[j], remotes)
      invariant forall j :: i <= j < |options| ==> options[j] == sub.options[j]
      invariant !changed ==> options == sub.options
      invariant changed <==> exists j :: 0 <= j < i && MatchesRemote(sub.options[j].spec, remotes[r])
    {
      var o', hit := AddRemoteToOption(options[i], remotes, r);
      options := options[i := o'];
      changed := changed || hit;
    }
  }

  method RemoveRemote(sub: Sub, remotes: map<nat, Remote>, r: nat) returns (sub': Sub)
    requires r in remotes && RemotesOk(sub, remotes) && ActiveOk(sub)
    ensures RemotesOk(sub', remotes - {r}) && ActiveOk(sub') && RemotesChange(sub, sub')
  {
    var options, changed := sub.options, false;
    for i := 0 to |options|
      invariant RemotesChange(sub, sub.(options := options))
      invariant forall j :: 0 <= j < i ==> RemoteOk(options[j], remotes - {r})
      invariant forall j :: i <= j < |options| ==> options[j] == sub.options[j]
      invariant !changed ==> options == sub.options
    {
      var o', hit := RemoveRemoteFromOption(options[i], remotes, r);
      options := options[i := o'];
      changed := changed || hit;
    }
    sub' := Reactivate(sub.(options := options), changed);
  }

  // ----- routes

  /** Only the routes of the options and the active index may differ. */
  ghost predicate RoutesChange(sub: Sub, sub': Sub) {
    && sub'.disableRoutes == sub.disableRoutes && |sub'.options| == |sub.options|
    && forall i :: 0 <= i < |sub.options| ==> sub'.options[i] == sub.options[i].(route := sub'.options[i].route)
  }

  method AddRoute(sub: Sub, routes: map<string, Route>, name: string) returns (sub': Sub, changed: bool)
    requires name in routes && RoutesOk(sub, routes - {name}) && ActiveOk(sub)
    ensures RoutesOk(sub', routes) && ActiveOk(sub') && RoutesChange(sub, sub')
    ensures changed <==> WantsRoute(sub, name)
  {
    if sub.disableRoutes { return sub, false; }
    var options := sub.options;
    changed := false;
    for i := 0 to |options|
      invariant RoutesChange(sub, sub.(options := options))
      invariant forall j :: 0 <= j < i ==> options[j].route == RouteFor(options[j].spec, false, routes)
      invariant forall j :: i <= j < |options| ==> options[j] == sub.options[j]
      invariant !changed ==> options == sub.options
      invariant changed <==> exists j :: 0 <= j < i && sub.options[j].spec.service == name
    {
      if options[i].spec.service == name {
        options := options[i := options[i].(route := Some(routes[name].id))];
        changed := true;
      }
    }
    sub' := Reactivate(sub.(options := options), changed);
  }

  /** Every option that points at the route lets go of it. */
  method RemoveRoute(sub: Sub, routes: map<string, Route>, name: string) returns (sub': Sub)
    requires name in routes && RoutesOk(sub, routes) && ActiveOk(sub)
    requires forall n :: n in routes && routes[n].id == routes[name].id ==> n == name
    ensures RoutesOk(sub', routes - {name}) && ActiveOk(sub') && RoutesChange(sub, sub')
  {
    if sub.disableRoutes { return sub; }
    var options, changed := sub.options, false;
    for i := 0 to |options|
      invariant RoutesChange(sub, sub.(options := options))
      invariant forall j :: 0 <= j < i ==> options[j].route == RouteFor(options[j].spec, false, routes - {name})
      invariant forall j :: i <= j < |options| ==> options[j] == sub.options[j]
      invariant !changed ==> options == sub.options
    {
      if options[i].route == Some(routes[name].id) {
        options := options[i := options[i].(route := None)];
        changed := true;
      }
    }
    sub' := Reactivate(sub.(options := options), changed);
  }
}

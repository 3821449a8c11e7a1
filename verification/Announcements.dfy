/** How news of one entry reaches the subscriptions: first those that name it,
    later those that it lists. */
module Announcements {
  import opened Registry
  import opened Subscription

  // ----- publications

  ghost predicate HeardPub(sub: Sub, sub': Sub, pubs: map<nat, Pub>) {
    LocalsChange(sub, sub') && LocalsOk(sub', pubs) && ActiveOk(sub')
  }

  /** Whether a subscription still waits for the news, has heard it, or is listed by the entry. */
  ghost predicate HearsPub(sub: Sub, sub': Sub, pubs: map<nat, Pub>, p: nat, todo: bool, seen: bool)
    requires p in pubs
  {
    if todo then sub' == sub && !seen else HeardPub(sub, sub', pubs) && (seen <==> WantsPub(sub, pubs[p]))
  }

  ghost predicate ForgetsPub(sub: Sub, sub': Sub, pubs: map<nat, Pub>, p: nat, todo: bool) {
    if todo then sub' == sub else HeardPub(sub, sub', pubs - {p})
  }

  lemma BeforePub(subs: map<nat, Sub>, pubs: map<nat, Pub>, p: nat, named: set<nat>)
    requires p in pubs && named == NameRefs(subs, pubs[p].name)
    requires forall s :: s in subs ==> HeardPub(subs[s], subs[s], pubs - {p})
    ensures named <= subs.Keys
    ensures forall s :: s in subs ==> HearsPub(subs[s], subs[s], pubs, p, s in named, false)
  {
    forall s | s in subs && s !in named ensures HearsPub(subs[s], subs[s], pubs, p, false, false) {
      assert !Names(subs[s], pubs[p].name);
      OtherPubs(subs[s], pubs, p);
    }
  }

  lemma BystandersPub(subs: map<nat, Sub>, pubs: map<nat, Pub>, p: nat, listed: set<nat>)
    requires p in pubs && listed == PubRefs(subs, pubs[p])
    requires forall s :: s in subs ==> HeardPub(subs[s], subs[s], pubs)
    ensures listed <= subs.Keys
    ensures forall s :: s in subs ==> ForgetsPub(subs[s], subs[s], pubs, p, s in listed)
  {
    forall s | s in subs && s !in listed ensures ForgetsPub(subs[s], subs[s], pubs, p, false) {
      assert !WantsPub(subs[s], pubs[p]);
      OtherPubs(subs[s], pubs, p);
    }
  }

  method TellPub(sub: Sub, pubs: map<nat, Pub>, p: nat) returns (sub': Sub, changed: bool)
    requires p in pubs && HeardPub(sub, sub, pubs - {p})
    ensures HeardPub(sub, sub', pubs)
    ensures changed <==> WantsPub(sub, pubs[p])
  {
    sub', changed := AddPublication(sub, pubs, p);
  }

  method UntellPub(sub: Sub, pubs: map<nat, Pub>, p: nat) returns (sub': Sub)
    requires p in pubs && HeardPub(sub, sub, pubs)
    ensures HeardPub(sub, sub', pubs - {p})
  {
    sub' := RemovePublication(sub, pubs, p);
  }

  /** All subscriptions that name the entry hear of it; the interested ones are seen. */
  method AnnouncePub(subs: map<nat, Sub>, pubs: map<nat, Pub>, p: nat, named: set<nat>)
    returns (subs': map<nat, Sub>, seen: set<nat>)
    requires p in pubs && named <= subs.Keys
    requires forall s :: s in named ==> HeardPub(subs[s], subs[s], pubs - {p})
    requires forall s :: s in subs ==> HearsPub(subs[s], subs[s], pubs, p, s in named, false)
    ensures subs'.Keys == subs.Keys && seen <= subs.Keys
    ensures forall s :: s in subs ==> HeardPub(subs[s], subs'[s], pubs)
    ensures seen == PubRefs(subs, pubs[p])
  {
    subs', seen := subs, {};
    var todo := named;
    while todo != {}
      invariant todo <= named && subs'.Keys == subs.Keys && seen <= subs.Keys
      invariant forall s :: s in subs ==> HearsPub(subs[s], subs'[s], pubs, p, s in todo, s in seen)
    {
      var s :| s in todo;
      var sub, changed := TellPub(subs'[s], pubs, p);
      subs' := subs'[s := sub];
      seen := if changed then seen + {s} else seen;
      todo := todo - {s};
    }
  }

  /** The listed subscriptions forget the entry. */
  method WithdrawPub(subs: map<nat, Sub>, pubs: map<nat, Pub>, p: nat, listed: set<nat>) returns (subs': map<nat, Sub>)
    requires p in pubs && listed <= subs.Keys
    requires forall s :: s in listed ==> HeardPub(subs[s], subs[s], pubs)
    requires forall s :: s in subs ==> ForgetsPub(subs[s], subs[s], pubs, p, s in listed)
    ensures subs'.Keys == subs.Keys
    ensures forall s :: s in subs ==> HeardPub(subs[s], subs'[s], pubs - {p})
  {
    subs' := subs;
    var todo := listed;
    while todo != {}
      invariant todo <= listed && subs'.Keys == subs.Keys
      invariant forall s :: s in subs ==> ForgetsPub(subs[s], subs'[s], pubs, p, s in todo)
    {
      var s :| s in todo;
      var sub := UntellPub(subs'[s], pubs, p);
      subs' := subs'[s := sub];
      todo := todo - {s};
    }
  }

  // ----- remotes

  ghost predicate HeardRemote(sub: Sub, sub': Sub, remotes: map<nat, Remote>) {
    RemotesChange(sub, sub') && RemotesOk(sub', remotes) && ActiveOk(sub')
  }

  /** Whether a subscription still waits for the news, has heard it, or is listed by the entry. */
  ghost predicate HearsRemote(sub: Sub, sub': Sub, remotes: map<nat, Remote>, r: nat, todo: bool, seen: bool)
    requires r in remotes
  {
    if todo then sub' == sub && !seen else HeardRemote(sub, sub', remotes) && (seen <==> WantsRemote(sub, remotes[r]))
  }

  ghost predicate ForgetsRemote(sub: Sub, sub': Sub, remotes: map<nat, Remote>, r: nat, todo: bool) {
    if todo then sub' == sub else HeardRemote(sub, sub', remotes - {r})
  }

  lemma BeforeRemote(subs: map<nat, Sub>, remotes: map<nat, Remote>, r: nat, named: set<nat>)
    requires r in remotes && named == NameRefs(subs, remotes[r].name)
    requires forall s :: s in subs ==> HeardRemote(subs[s], subs[s], remotes - {r})
    ensures named <= subs.Keys
    ensures forall s :: s in subs ==> HearsRemote(subs[s], subs[s], remotes, r, s in named, false)
  {
    forall s | s in subs && s !in named ensures HearsRemote(subs[s], subs[s], remotes, r, false, false) {
      assert !Names(subs[s], remotes[r].name);
      OtherRemotes(subs[s], remotes, r);
    }
  }

  lemma BystandersRemote(subs: map<nat, Sub>, remotes: map<nat, Remote>, r: nat, listed: set<nat>)
    requires r in remotes && listed == RemoteRefs(subs, remotes[r])
    requires forall s :: s in subs ==> HeardRemote(subs[s], subs[s], remotes)
    ensures listed <= subs.Keys
    ensures forall s :: s in subs ==> ForgetsRemote(subs[s], subs[s], remotes, r, s in listed)
  {
    forall s | s in subs && s !in listed ensures ForgetsRemote(subs[s], subs[s], remotes, r, false) {
      assert !WantsRemote(subs[s], remotes[r]);
      OtherRemotes(subs[s], remotes, r);
    }
  }

  method TellRemote(sub: Sub, remotes: map<nat, Remote>, r: nat) returns (sub': Sub, changed: bool)
    requires r in remotes && HeardRemote(sub, sub, remotes - {r})
    ensures HeardRemote(sub, sub', remotes)
    ensures changed <==> WantsRemote(sub, remotes[r])
  {
    sub', changed := AddRemote(sub, remotes, r);
  }

  method UntellRemote(sub: Sub, remotes: map<nat, Remote>, r: nat) returns (sub': Sub)
    requires r in remotes && HeardRemote(sub, sub, remotes)
    ensures HeardRemote(sub, sub', remotes - {r})
  {
    sub' := RemoveRemote(sub, remotes, r);
  }

  /** All subscriptions that name the entry hear of it; the interested ones are seen. */
  method AnnounceRemote(subs: map<nat, Sub>, remotes: map<nat, Remote>, r: nat, named: set<nat>)
    returns (subs': map<nat, Sub>, seen: set<nat>)
    requires r in remotes && named <= subs.Keys
    requires forall s :: s in named ==> HeardRemote(subs[s], subs[s], remotes - {r})
    requires forall s :: s in subs ==> HearsRemote(subs[s], subs[s], remotes, r, s in named, false)
    ensures subs'.Keys == subs.Keys && seen <= subs.Keys
    ensures forall s :: s in subs ==> HeardRemote(subs[s], subs'[s], remotes)
    ensures seen == RemoteRefs(subs, remotes[r])
  {
    subs', seen := subs, {};
    var todo := named;
    while todo != {}
      invariant todo <= named && subs'.Keys == subs.Keys && seen <= subs.Keys
      invariant forall s :: s in subs ==> HearsRemote(subs[s], subs'[s], remotes, r, s in todo, s in seen)
    {
      var s :| s in todo;
      var sub, changed := TellRemote(subs'[s], remotes, r);
      subs' := subs'[s := sub];
      seen := if changed then seen + {s} else seen;
      todo := todo - {s};
    }
  }

  /** The listed subscriptions forget the entry. */
  method WithdrawRemote(subs: map<nat, Sub>, remotes: map<nat, Remote>, r: nat, listed: set<nat>) returns (subs': map<nat, Sub>)
    requires r in remotes && listed <= subs.Keys
    requires forall s :: s in listed ==> HeardRemote(subs[s], subs[s], remotes)
    requires forall s :: s in subs ==> ForgetsRemote(subs[s], subs[s], remotes, r, s in listed)
    ensures subs'.Keys == subs.Keys
    ensures forall s :: s in subs ==> HeardRemote(subs[s], subs'[s], remotes - {r})
  {
    subs' := subs;
    var todo := listed;
    while todo != {}
      invariant todo <= listed && subs'.Keys == subs.Keys
      invariant forall s :: s in subs ==> ForgetsRemote(subs[s], subs'[s], remotes, r, s in todo)
    {
      var s :| s in todo;
      var sub := UntellRemote(subs'[s], remotes, r);
      subs' := subs'[s := sub];
      todo := todo - {s};
    }
  }

  // ----- routes

  ghost predicate HeardRoute(sub: Sub, sub': Sub, routes: map<string, Route>) {
    RoutesChange(sub, sub') && RoutesOk(sub', routes) && ActiveOk(sub')
  }

  /** Whether a subscription still waits for the news, has heard it, or is listed by the entry. */
  ghost predicate HearsRoute(sub: Sub, sub': Sub, routes: map<string, Route>, n: string, todo: bool, seen: bool)
    requires n in routes
  {
    if todo then sub' == sub && !seen else HeardRoute(sub, sub', routes) && (seen <==> WantsRoute(sub, n))
  }

  ghost predicate ForgetsRoute(sub: Sub, sub': Sub, routes: map<string, Route>, n: string, todo: bool) {
    if todo then sub' == sub else HeardRoute(sub, sub', routes - {n})
  }

  lemma BeforeRoute(subs: map<nat, Sub>, routes: map<string, Route>, n: string, named: set<nat>)
    requires n in routes && named == NameRefs(subs, n)
    requires forall s :: s in subs ==> HeardRoute(subs[s], subs[s], routes - {n})
    ensures named <= subs.Keys
    ensures forall s :: s in subs ==> HearsRoute(subs[s], subs[s], routes, n, s in named, false)
  {
    forall s | s in subs && s !in named ensures HearsRoute(subs[s], subs[s], routes, n, false, false) {
      assert !Names(subs[s], n);
    }
  }

  lemma BystandersRoute(subs: map<nat, Sub>, routes: map<string, Route>, n: string, listed: set<nat>)
    requires n in routes && listed == RouteRefs(subs, n)
    requires forall s :: s in subs ==> HeardRoute(subs[s], subs[s], routes)
    ensures listed <= subs.Keys
    ensures forall s :: s in subs ==> ForgetsRoute(subs[s], subs[s], routes, n, s in listed)
  {
    forall s | s in subs && s !in listed ensures ForgetsRoute(subs[s], subs[s], routes, n, false) {
      assert !WantsRoute(subs[s], n);
    }
  }

  method TellRoute(sub: Sub, routes: map<string, Route>, n: string) returns (sub': Sub, changed: bool)
    requires n in routes && HeardRoute(sub, sub, routes - {n})
    ensures HeardRoute(sub, sub', routes)
    ensures changed <==> WantsRoute(sub, n)
  {
    sub', changed := AddRoute(sub, routes, n);
  }

  method UntellRoute(sub: Sub, routes: map<string, Route>, n: string) returns (sub': Sub)
    requires n in routes && HeardRoute(sub, sub, routes)
    requires forall m :: m in routes && routes[m].id == routes[n].id ==> m == n
    ensures HeardRoute(sub, sub', routes - {n})
  {
    sub' := RemoveRoute(sub, routes, n);
  }

  /** All subscriptions that name the entry hear of it; the interested ones are seen. */
  method AnnounceRoute(subs: map<nat, Sub>, routes: map<string, Route>, n: string, named: set<nat>)
    returns (subs': map<nat, Sub>, seen: set<nat>)
    requires n in routes && named <= subs.Keys
    requires forall s :: s in named ==> HeardRoute(subs[s], subs[s], routes - {n})
    requires forall s :: s in subs ==> HearsRoute(subs[s], subs[s], routes, n, s in named, false)
    ensures subs'.Keys == subs.Keys && seen <= subs.Keys
    ensures forall s :: s in subs ==> HeardRoute(subs[s], subs'[s], routes)
    ensures seen == RouteRefs(subs, n)
  {
    subs', seen := subs, {};
    var todo := named;
    while todo != {}
      invariant todo <= named && subs'.Keys == subs.Keys && seen <= subs.Keys
      invariant forall s :: s in subs ==> HearsRoute(subs[s], subs'[s], routes, n, s in todo, s in seen)
    {
      var s :| s in todo;
      var sub, changed := TellRoute(subs'[s], routes, n);
      subs' := subs'[s := sub];
      seen := if changed then seen + {s} else seen;
      todo := todo - {s};
    }
  }

  /** The listed subscriptions forget the entry. */
  method WithdrawRoute(subs: map<nat, Sub>, routes: map<string, Route>, n: string, listed: set<nat>) returns (subs': map<nat, Sub>)
    requires n in routes && listed <= subs.Keys
    requires forall m :: m in routes && routes[m].id == routes[n].id ==> m == n
    requires forall s :: s in listed ==> HeardRoute(subs[s], subs[s], routes)
    requires forall s :: s in subs ==> ForgetsRoute(subs[s], subs[s], routes, n, s in listed)
    ensures subs'.Keys == subs.Keys
    ensures forall s :: s in subs ==> HeardRoute(subs[s], subs'[s], routes - {n})
  {
    subs' := subs;
    var todo := listed;
    while todo != {}
      invariant todo <= listed && subs'.Keys == subs.Keys
      invariant forall s :: s in subs ==> ForgetsRoute(subs[s], subs'[s], routes, n, s in todo)
    {
      var s :| s in todo;
      var sub := UntellRoute(subs'[s], routes, n);
      subs' := subs'[s := sub];
      todo := todo - {s};
    }
  }
}

/** The server's registries: every operation keeps the index equal to a fresh
    scan, and changes the entries exactly as asked. */
module Server {
  import opened Common
  import opened Registry
  import opened RegistryFrames
  import opened RegistrySteps

  ghost predicate Fresh(e: Entries, next: nat) {
    && (forall p :: p in e.pubs ==> p < next)
    && (forall r :: r in e.remotes ==> r < next)
    && (forall s :: s in e.subs ==> s < next)
    && (forall n :: n in e.routes ==> e.routes[n].id < next)
  }

  lemma FreshId(g: Reg, next: nat)
    requires Fresh(EntriesOf(g), next)
    ensures next !in g.pubs && next !in g.remotes && next !in g.subs
    ensures forall n :: n in g.routes ==> g.routes[n].id < next
  {
    assert g.pubs.Keys == EntriesOf(g).pubs.Keys && g.remotes.Keys == EntriesOf(g).remotes.Keys && g.subs.Keys == EntriesOf(g).subs.Keys;
    forall n | n in g.routes ensures g.routes[n].id < next {
      assert n in EntriesOf(g).routes;
    }
  }

  predicate IsPub(g: Reg, p: nat, name: string, priority: nat) {
    p in g.pubs && g.pubs[p].name == name && g.pubs[p].priority == priority
  }

  /** Looking up a name and priority finds the publication, if there is one. */
  lemma FoundByName(g: Reg, name: string, priority: Priority)
    requires PubNamesOk(g.pubsByName, g.pubs)
    ensures priority in PubsUnder(g.pubsByName, name) <==> exists o :: IsPub(g, o, name, priority)
    ensures priority in PubsUnder(g.pubsByName, name) ==> IsPub(g, g.pubsByName[name][priority], name, priority)
  {
    assert NameAt(g.pubsByName, g.pubs, name, priority);
    assert priority in PubsUnder(g.pubsByName, name) ==> IsPub(g, g.pubsByName[name][priority], name, priority);
    forall o | IsPub(g, o, name, priority) ensures priority in PubsUnder(g.pubsByName, name) {
      assert PubAt(g.pubsByName, g.pubs, o);
    }
  }

  /** Every choice has options, so that it can be subscribed to. */
  predicate Optioned(choices: seq<Choice>) {
    forall i :: 0 <= i < |choices| ==> choices[i].options != []
  }

  /** Every route has a case for each of its choices, all of which have options. */
  ghost predicate Built(e: Entries) {
    forall n :: n in e.routes ==> |e.routes[n].cases| == |e.routes[n].choices| && Optioned(e.routes[n].choices)
  }

  /** A subscription without options is refused. */
  method TrySubscribe(g: Reg, s: nat, specs: seq<Spec>, disableRoutes: bool) returns (ok: bool, g': Reg)
    requires Indexed(g) && s !in g.subs
    ensures ok <==> specs != []
    ensures !ok ==> g' == g
    ensures ok ==> Indexed(g') && EntriesOf(g') == EntriesOf(g).(subs := EntriesOf(g).subs[s := (specs, disableRoutes)])
  {
    if |specs| == 0 { return false, g; }
    ok := true;
    g' := SubscribeIn(g, s, specs, disableRoutes);
  }

  method CreateIn(g: Reg, next: nat, name: string, priority: Priority) returns (g': Reg)
    requires Indexed(g) && Fresh(EntriesOf(g), next) && Built(EntriesOf(g)) && priority !in PubsUnder(g.pubsByName, name)
    ensures Indexed(g') && Fresh(EntriesOf(g'), next + 1) && Built(EntriesOf(g')) && IsPub(g', next, name, priority)
    ensures next !in g.pubs && EntriesOf(g') == EntriesOf(g).(pubs := EntriesOf(g).pubs[next := Pub(name, priority, {})])
  {
    FreshId(g, next);
    g' := PublishIn(g, next, name, priority);
    OneMorePub(EntriesOf(g), next, Pub(name, priority, {}));
  }

  lemma OneMorePub(e: Entries, next: nat, pub: Pub)
    requires Fresh(e, next) && Built(e)
    ensures Fresh(e.(pubs := e.pubs[next := pub]), next + 1) && Built(e.(pubs := e.pubs[next := pub]))
  {
  }

  // ----- the cases of a route

  function CaseSubs(cases: seq<Case>): set<nat> { set c | c in cases :: c.sub }

  /** The subscriptions of the cases can all be ended. */
  ghost predicate Droppable(e: Entries, cases: seq<Case>) {
    && (forall i :: 0 <= i < |cases| ==> cases[i].sub in e.subs)
    && (forall i, j :: 0 <= i < j < |cases| ==> cases[i].sub != cases[j].sub)
    && (forall i, n, k :: 0 <= i < |cases| ==> !IsCase(e.routes, n, k, cases[i].sub))
  }

  lemma CaseInEntries(g: Reg, n: string, i: int, s: nat)
    ensures IsCase(g.routes, n, i, s) <==> IsCase(EntriesOf(g).routes, n, i, s)
    ensures s in g.subs <==> s in EntriesOf(g).subs
  {
  }

  function Without(e: Entries, cases: seq<Case>): Entries { e.(subs := e.subs - CaseSubs(cases)) }

  lemma WithoutNext(e: Entries, cases: seq<Case>, i: nat)
    requires i < |cases|
    ensures Without(e, cases[..i + 1]).subs == Without(e, cases[..i]).subs - {cases[i].sub}
  {
    assert cases[..i + 1] == cases[..i] + [cases[i]];
    assert CaseSubs(cases[..i + 1]) == CaseSubs(cases[..i]) + {cases[i].sub};
  }

  lemma NextDroppable(e: Entries, cases: seq<Case>, i: nat, g: Reg)
    requires Droppable(e, cases) && i < |cases| && EntriesOf(g) == Without(e, cases[..i])
    ensures cases[i].sub in g.subs && forall n, k :: !IsCase(g.routes, n, k, cases[i].sub)
  {
    var s := cases[i].sub;
    CaseInEntries(g, "", 0, s);
    assert s !in CaseSubs(cases[..i]);
    forall n, k ensures !IsCase(g.routes, n, k, s) { CaseInEntries(g, n, k, s); }
  }

  method DropCases(g: Reg, cases: seq<Case>) returns (g': Reg)
    requires Indexed(g) && Droppable(EntriesOf(g), cases)
    ensures Indexed(g') && EntriesOf(g') == Without(EntriesOf(g), cases)
  {
    g' := g;
    assert EntriesOf(g').subs == Without(EntriesOf(g), []).subs;
    for i := 0 to |cases|
      invariant Indexed(g') && EntriesOf(g') == Without(EntriesOf(g), cases[..i])
    {
      NextDroppable(EntriesOf(g), cases, i, g');
      WithoutNext(EntriesOf(g), cases, i);
      g' := UnsubscribeIn(g', cases[i].sub);
    }
    assert cases[..|cases|] == cases;
  }

  /** Once a route has let go of its cases, they can be ended. */
  lemma OldCasesDroppable(g: Reg, n: string, e: Entries)
    requires Indexed(g) && n in g.routes && e.subs == EntriesOf(g).subs
    requires forall m :: m in e.routes && m != n ==> m in g.routes && e.routes[m].cases == g.routes[m].cases
    requires n in e.routes ==> e.routes[n].cases == []
    ensures Droppable(e, g.routes[n].cases)
  {
    var cases := g.routes[n].cases;
    forall i | 0 <= i < |cases| ensures cases[i].sub in e.subs {
      assert CaseOk(cases[i], g.routes[n].choices[i], g.subs);
    }
    forall i, j | 0 <= i < j < |cases| ensures cases[i].sub != cases[j].sub {
      assert IsCase(g.routes, n, i, cases[i].sub) && IsCase(g.routes, n, j, cases[j].sub);
    }
    forall i, m, k | 0 <= i < |cases| ensures !IsCase(e.routes, m, k, cases[i].sub) {
      assert IsCase(g.routes, n, i, cases[i].sub);
      assert IsCase(e.routes, m, k, cases[i].sub) ==> IsCase(g.routes, m, k, cases[i].sub);
    }
  }

  lemma NewIsNoCase(g: Reg, s: nat)
    requires CasesOk(g.routes, g.subs) && s !in g.subs
    ensures forall n, i :: !IsCase(g.routes, n, i, s)
  {
    forall n, i, t | IsCase(g.routes, n, i, t) ensures t != s {
      assert CaseOk(g.routes[n].cases[i], g.routes[n].choices[i], g.subs);
    }
  }

  /** One more case of the route `n`, with a subscription of its own; without
      options there is none. */
  method BuildCase(g: Reg, n: string, s: nat) returns (ok: bool, g': Reg)
    requires Indexed(g) && s !in g.subs && n in g.routes && |g.routes[n].cases| < |g.routes[n].choices|
    ensures ok <==> g.routes[n].choices[|g.routes[n].cases|].options != []
    ensures n in EntriesOf(g).routes
    ensures !ok ==> g' == g
    ensures ok ==> Indexed(g')
    ensures ok ==>
            var e, r := EntriesOf(g), g.routes[n].(subs := {});
            var choice := r.choices[|r.cases|];
            EntriesOf(g') == e.(subs := e.subs[s := (choice.options, true)],
                                routes := e.routes[n := r.(cases := r.cases + [Case(s, choice.weight)])])
  {
    var choice := g.routes[n].choices[|g.routes[n].cases|];
    NewIsNoCase(g, s);
    var g1;
    ok, g1 := TrySubscribe(g, s, choice.options, true);
    if !ok { return false, g; }
    RouteInfoSame(g.routes, g1.routes);
    assert EntriesOf(g1).subs[s] == (choice.options, true);
    forall m, i ensures !IsCase(g1.routes, m, i, s) { CaseInEntries(g, m, i, s); CaseInEntries(g1, m, i, s); }
    g' := AddCaseIn(g1, n, s, choice.weight);
  }

  /** The subscriptions that do not belong to the route `n`. */
  function OtherSubs(e: Entries, n: string): map<nat, (seq<Spec>, bool)> {
    if n in e.routes then Without(e, e.routes[n].cases).subs else e.subs
  }

  /** All but the route `n` and its own subscriptions stay as they are. */
  ghost predicate OnlyRoute(e: Entries, e': Entries, n: string) {
    && e'.pubs == e.pubs && e'.remotes == e.remotes && e'.routes - {n} == e.routes - {n}
    && OtherSubs(e', n) == OtherSubs(e, n)
  }

  lemma OneCase(e: Entries, n: string, r: Route, s: nat, settings: (seq<Spec>, bool), weight: nat)
    requires n in e.routes && r == e.routes[n] && s !in e.subs && forall c :: c in r.cases ==> c.sub != s
    ensures OnlyRoute(e, e.(subs := e.subs[s := settings], routes := e.routes[n := r.(cases := r.cases + [Case(s, weight)])]), n)
  {
    var e' := e.(subs := e.subs[s := settings], routes := e.routes[n := r.(cases := r.cases + [Case(s, weight)])]);
    assert CaseSubs(r.cases + [Case(s, weight)]) == CaseSubs(r.cases) + {s} by {
      assert Case(s, weight) in r.cases + [Case(s, weight)];
    }
    assert OtherSubs(e', n) == OtherSubs(e, n);
  }

  lemma NextCase(g: Reg, n: string, s: nat, choice: Choice)
    requires CasesOk(g.routes, g.subs) && s !in g.subs && n in g.routes
    ensures var e, r := EntriesOf(g), g.routes[n].(subs := {});
            OnlyRoute(e, e.(subs := e.subs[s := (choice.options, true)],
                            routes := e.routes[n := r.(cases := r.cases + [Case(s, choice.weight)])]), n)
  {
    NewIsNoCase(g, s);
    var r := g.routes[n].(subs := {});
    forall c | c in r.cases ensures c.sub != s {
      var i :| 0 <= i < |r.cases| && r.cases[i] == c;
      assert !IsCase(g.routes, n, i, s);
    }
    OneCase(EntriesOf(g), n, r, s, (choice.options, true), choice.weight);
  }

  /** The route `n` of `g` with its first `i` cases built, and nothing else touched. */
  ghost predicate Building(e: Entries, n: string, g: Reg, next: nat, i: nat) {
    && Indexed(g) && Fresh(EntriesOf(g), next) && OnlyRoute(e, EntriesOf(g), n)
    && n in e.routes && n in g.routes && g.routes[n].id == e.routes[n].id && g.routes[n].choices == e.routes[n].choices
    && |g.routes[n].cases| == i
  }

  method BuildNext(ghost e: Entries, n: string, g: Reg, next: nat, ghost i: nat) returns (ok: bool, g': Reg)
    requires Building(e, n, g, next, i) && i < |e.routes[n].choices|
    ensures ok <==> e.routes[n].choices[i].options != []
    ensures if ok then Building(e, n, g', next + 1, i + 1) else g' == g
  {
    FreshId(g, next);
    ghost var r := g.routes[n].(subs := {});
    NextCase(g, n, next, r.choices[i]);
    ok, g' := BuildCase(g, n, next);
    if ok { OneMoreBuilt(e, n, g, next, i, r, g'); }
  }

  lemma OneMoreBuilt(e: Entries, n: string, g: Reg, next: nat, i: nat, r: Route, g': Reg)
    requires Building(e, n, g, next, i) && i < |e.routes[n].choices| && r == g.routes[n].(subs := {}) && Indexed(g')
    requires var f := EntriesOf(g);
             EntriesOf(g') == f.(subs := f.subs[next := (r.choices[i].options, true)],
                                 routes := f.routes[n := r.(cases := r.cases + [Case(next, r.choices[i].weight)])])
    requires OnlyRoute(EntriesOf(g), EntriesOf(g'), n)
    ensures Building(e, n, g', next + 1, i + 1)
  {
    var r' := r.(cases := r.cases + [Case(next, r.choices[i].weight)]);
    RouteBack(g', n, r');
    RouteBack(g, n, r);
    FreshCase(EntriesOf(g), n, next, (r.choices[i].options, true), r');
    OnlyRouteOn(e, EntriesOf(g), EntriesOf(g'), n);
  }

  lemma FreshCase(e: Entries, n: string, next: nat, settings: (seq<Spec>, bool), r: Route)
    requires Fresh(e, next) && n in e.routes && r.id == e.routes[n].id
    ensures Fresh(e.(subs := e.subs[next := settings], routes := e.routes[n := r]), next + 1)
  {
  }

  lemma OnlyRouteOn(e: Entries, f: Entries, f': Entries, n: string)
    requires OnlyRoute(e, f, n) && OnlyRoute(f, f', n)
    ensures OnlyRoute(e, f', n)
  {
  }

  lemma RouteBack(g: Reg, n: string, r: Route)
    requires (n in g.routes && g.routes[n].(subs := {}) == r) || (n in EntriesOf(g).routes && EntriesOf(g).routes[n] == r)
    ensures n in g.routes && n in EntriesOf(g).routes && g.routes[n].(subs := {}) == EntriesOf(g).routes[n] == r
  {
  }

  lemma NothingBuilt(g: Reg, next: nat, n: string)
    requires Indexed(g) && Fresh(EntriesOf(g), next) && n in g.routes && g.routes[n].cases == []
    ensures Building(EntriesOf(g), n, g, next, 0) && EntriesOf(g).routes[n].choices == g.routes[n].choices
  {
  }

  lemma OneMoreOptioned(choices: seq<Choice>, k: nat)
    requires k < |choices| && Optioned(choices[..k]) && choices[k].options != []
    ensures Optioned(choices[..k + 1])
  {
    var more := choices[..k + 1];
    forall i | 0 <= i < |more| ensures more[i].options != [] {
      if i < k { assert choices[..k][i].options != []; }
    }
  }

  /** Builds the cases up to the first choice whose subscription is refused. */
  method BuildCases(g: Reg, next: nat, n: string) returns (k: nat, g': Reg, next': nat)
    requires Indexed(g) && Fresh(EntriesOf(g), next) && n in g.routes && g.routes[n].cases == []
    ensures Building(EntriesOf(g), n, g', next', k) && k <= |g.routes[n].choices|
    ensures Optioned(g.routes[n].choices[..k])
    ensures k < |g.routes[n].choices| ==> g.routes[n].choices[k].options == []
  {
    NothingBuilt(g, next, n);
    k, g', next' := BuildFrom(EntriesOf(g), n, g, next, g.routes[n].choices);
  }

  method BuildFrom(ghost e: Entries, n: string, g: Reg, next: nat, choices: seq<Choice>) returns (k: nat, g': Reg, next': nat)
    requires Building(e, n, g, next, 0) && choices == e.routes[n].choices
    ensures Building(e, n, g', next', k) && k <= |choices| && Optioned(choices[..k])
    ensures k < |choices| ==> choices[k].options == []
  {
    k, g', next' := 0, g, next;
    while k < |choices|
      invariant k <= |choices| && Building(e, n, g', next', k) && Optioned(choices[..k])
    {
      var ok;
      ok, g' := BuildNext(e, n, g', next', k);
      if !ok { return; }
      OneMoreOptioned(choices, k);
      k, next' := k + 1, next' + 1;
    }
  }

  function Choices(e: Entries): map<string, seq<Choice>> {
    if e.routes == map[] then map[] else map n | n in e.routes :: e.routes[n].choices
  }

  ghost predicate Whole(g: Reg, next: nat) {
    Indexed(g) && Fresh(EntriesOf(g), next) && Built(EntriesOf(g))
  }

  /** One route was rebuilt from `base`, which differs from `e` in it alone. */
  lemma RebuiltEntries(e: Entries, base: Entries, n: string, e': Entries)
    requires Built(e) && base.pubs == e.pubs && base.remotes == e.remotes && base.routes - {n} == e.routes - {n}
    requires OtherSubs(base, n) == OtherSubs(e, n) && n in base.routes && OnlyRoute(base, e', n)
    requires n in e'.routes && e'.routes[n].choices == base.routes[n].choices && |e'.routes[n].cases| == |e'.routes[n].choices|
    requires Optioned(base.routes[n].choices)
    ensures Built(e') && OnlyRoute(e, e', n) && Choices(e') == Choices(e)[n := base.routes[n].choices]
  {
    forall m | m in e'.routes && m != n ensures m in e.routes && e'.routes[m] == e.routes[m] {
      assert m in e'.routes - {n} && (e'.routes - {n})[m] == (e.routes - {n})[m];
    }
    forall m | m in e.routes && m != n ensures m in e'.routes { assert m in e.routes - {n}; }
  }

  lemma BuiltAll(e: Entries, base: Entries, n: string, g: Reg, next: nat)
    requires Built(e) && base.pubs == e.pubs && base.remotes == e.remotes && base.routes - {n} == e.routes - {n}
    requires OtherSubs(base, n) == OtherSubs(e, n)
    requires n in base.routes && Building(base, n, g, next, |base.routes[n].choices|) && Optioned(base.routes[n].choices)
    ensures Whole(g, next) && OnlyRoute(e, EntriesOf(g), n)
    ensures Choices(EntriesOf(g)) == Choices(e)[n := base.routes[n].choices]
  {
    RebuiltEntries(e, base, n, EntriesOf(g));
  }

  lemma NewBase(e: Entries, base: Entries, n: string, id: nat, choices: seq<Choice>, next: nat)
    requires n !in e.routes && base == e.(routes := e.routes[n := Route(id, choices, [], {})])
    requires Fresh(e, next) && id < next
    ensures base.routes - {n} == e.routes - {n} && OtherSubs(base, n) == OtherSubs(e, n) && Fresh(base, next)
  {
  }

  lemma ChangedBase(e: Entries, base: Entries, n: string, choices: seq<Choice>, next: nat)
    requires n in e.routes && Fresh(e, next)
    requires base == Without(e.(routes := e.routes[n := Route(e.routes[n].id, choices, [], {})]), e.routes[n].cases)
    ensures base.routes - {n} == e.routes - {n} && OtherSubs(base, n) == OtherSubs(e, n) && Fresh(base, next)
  {
    assert OtherSubs(base, n) == OtherSubs(e, n);
  }

  lemma RemovedBase(e: Entries, base: Entries, n: string, next: nat)
    requires n in e.routes && Fresh(e, next) && Built(e)
    requires base == Without(e.(routes := e.routes - {n}), e.routes[n].cases)
    ensures Fresh(base, next) && Built(base) && OnlyRoute(e, base, n)
    ensures Choices(base) == Choices(e) - {n}
  {
  }

  /** The cases were built up to the first choice without options: all of them,
      unless there is one. */
  lemma StopsAtEmpty(choices: seq<Choice>, k: nat)
    requires k <= |choices| && Optioned(choices[..k]) && (k < |choices| ==> choices[k].options == [])
    ensures k == |choices| <==> Optioned(choices)
  {
    if k == |choices| { assert choices[..k] == choices; }
  }

  /** The route is as asked, and nothing else has changed. */
  ghost predicate Rerouted(g: Reg, n: string, choices: seq<Choice>, g': Reg, next': nat) {
    && Whole(g', next') && OnlyRoute(EntriesOf(g), EntriesOf(g'), n)
    && Choices(EntriesOf(g')) == Choices(EntriesOf(g))[n := choices]
  }

  method NewRoute(g: Reg, next: nat, n: string, choices: seq<Choice>) returns (ok: bool, g': Reg, next': nat)
    requires Whole(g, next) && n !in g.routes
    ensures ok <==> Optioned(choices)
    ensures ok ==> Rerouted(g, n, choices, g', next')
  {
    FreshId(g, next);
    g' := AddRouteIn(g, n, next, choices);
    ghost var base := EntriesOf(g');
    NewBase(EntriesOf(g), base, n, next, choices, next + 1);
    assert base.routes[n] == Route(next, choices, [], {});
    var k;
    k, g', next' := BuildCases(g', next + 1, n);
    StopsAtEmpty(choices, k);
    ok := k == |choices|;
    if ok { BuiltAll(EntriesOf(g), base, n, g', next'); }
  }

  method RemoveRoute(g: Reg, next: nat, n: string) returns (g': Reg)
    requires Whole(g, next) && n in g.routes
    ensures Whole(g', next) && OnlyRoute(EntriesOf(g), EntriesOf(g'), n)
    ensures Choices(EntriesOf(g')) == Choices(EntriesOf(g)) - {n}
  {
    g' := DropRouteIn(g, n);
    OldCasesDroppable(g, n, EntriesOf(g'));
    g' := DropCases(g', g.routes[n].cases);
    RemovedBase(EntriesOf(g), EntriesOf(g'), n, next);
  }

  method ChangeRoute(g: Reg, next: nat, n: string, choices: seq<Choice>) returns (ok: bool, g': Reg, next': nat)
    requires Whole(g, next) && n in g.routes
    ensures ok <==> Optioned(choices)
    ensures ok ==> Rerouted(g, n, choices, g', next')
  {
    g' := RechooseIn(g, n, choices);
    OldCasesDroppable(g, n, EntriesOf(g'));
    g' := DropCases(g', g.routes[n].cases);
    ghost var base := EntriesOf(g');
    ChangedBase(EntriesOf(g), base, n, choices, next);
    assert base.routes[n] == Route(g.routes[n].id, choices, [], {});
    var k;
    k, g', next' := BuildCases(g', next, n);
    StopsAtEmpty(choices, k);
    ok := k == |choices|;
    if ok { BuiltAll(EntriesOf(g), base, n, g', next'); }
  }

  /** No choices remove the route; equal choices change nothing. It panics when
      the subscription of a case is refused, which happens for choices without
      options and no others; nothing is said about the registry then. */
  method SetRouteIn(g: Reg, next: nat, n: string, choices: seq<Choice>) returns (panics: bool, g': Reg, next': nat)
    requires Whole(g, next)
    ensures panics <==> !Optioned(choices)
    ensures !panics ==> Whole(g', next') && OnlyRoute(EntriesOf(g), EntriesOf(g'), n)
    ensures !panics ==>
      Choices(EntriesOf(g')) == if choices == [] then Choices(EntriesOf(g)) - {n} else Choices(EntriesOf(g))[n := choices]
  {
    panics, g', next' := false, g, next;
    if n !in g.routes {
      if |choices| == 0 {
        assert Choices(EntriesOf(g)) - {n} == Choices(EntriesOf(g));
        return;
      }
      var ok;
      ok, g', next' := NewRoute(g, next, n, choices);
      panics := !ok;
    } else if |choices| == 0 {
      g' := RemoveRoute(g, next, n);
    } else if g.routes[n].choices == choices {
      KeptRoute(g, next, n, choices);
    } else {
      var ok;
      ok, g', next' := ChangeRoute(g, next, n, choices);
      panics := !ok;
    }
  }

  lemma KeptRoute(g: Reg, next: nat, n: string, choices: seq<Choice>)
    requires Whole(g, next) && n in g.routes && g.routes[n].choices == choices
    ensures Optioned(choices) && Choices(EntriesOf(g))[n := choices] == Choices(EntriesOf(g))
  {
    assert n in EntriesOf(g).routes;
  }

  class Server {
    /** The maps of publications, remotes, routes and subscriptions. */
    var reg: Reg
    var next: nat

    ghost function Held(): Entries reads this { EntriesOf(reg) }

    ghost predicate Sound() reads this { Indexed(reg) && Fresh(Held(), next) }

    ghost predicate Valid() reads this { Sound() && Built(Held()) }

    constructor ()
      ensures Valid() && reg == Reg(map[], map[], map[], map[], map[], map[], map[])
    {
      reg, next := Reg(map[], map[], map[], map[], map[], map[], map[]), 1;
    }

    /** The publication of a name and priority: the one there is, or a new one. */
    method Publish(name: string, priority: Priority) returns (p: nat, created: bool)
      requires Valid()
      modifies this
      ensures Valid() && IsPub(reg, p, name, priority)
      ensures created <==> forall o :: !IsPub(old(reg), o, name, priority)
      ensures !created ==> reg == old(reg)
      ensures created ==> p !in old(reg.pubs) && Held() == old(Held()).(pubs := old(Held()).pubs[p := Pub(name, priority, {})])
    {
      FoundByName(reg, name, priority);
      created := priority !in PubsUnder(reg.pubsByName, name);
      if created { p := Create(name, priority); } else { p := reg.pubsByName[name][priority]; }
    }

    method Create(name: string, priority: Priority) returns (p: nat)
      requires Valid() && priority !in PubsUnder(reg.pubsByName, name)
      modifies this
      ensures Valid() && IsPub(reg, p, name, priority)
      ensures p !in old(reg.pubs) && Held() == old(Held()).(pubs := old(Held()).pubs[p := Pub(name, priority, {})])
    {
      p := next;
      reg := CreateIn(reg, next, name, priority);
      next := next + 1;
    }

    /** The last endpoint of a publication is gone. */
    method Unpublish(p: nat)
      requires Valid() && p in reg.pubs
      modifies this`reg
      ensures Valid()
      ensures Held() == old(Held()).(pubs := old(Held()).pubs - {p})
    {
      reg := UnpublishIn(reg, p);
    }

    method AddRemote(peer: nat, name: string, priority: Priority, distance: nat) returns (r: nat)
      requires Valid()
      modifies this
      ensures Valid() && r !in old(reg.remotes)
      ensures Held() == old(Held()).(remotes := old(Held()).remotes[r := Remote(peer, name, priority, distance, {})])
    {
      FreshId(reg, next);
      r := next;
      reg := AddRemoteIn(reg, r, peer, name, priority, distance);
      next := next + 1;
    }

    method RemoveRemote(r: nat)
      requires Valid() && r in reg.remotes
      modifies this`reg
      ensures Valid()
      ensures Held() == old(Held()).(remotes := old(Held()).remotes - {r})
    {
      reg := RemoveRemoteIn(reg, r);
    }

    /** Refused without options; `disableRoutes` is set for the cases of a route. */
    method Subscribe(specs: seq<Spec>, disableRoutes: bool) returns (id: Option<nat>)
      requires Sound()
      modifies this
      ensures Sound()
      ensures id.None? <==> specs == []
      ensures id.None? ==> reg == old(reg) && next == old(next)
      ensures id.Some? ==> id.value !in old(reg.subs) && old(next) == id.value < next
      ensures id.Some? ==> Held() == old(Held()).(subs := old(Held()).subs[id.value := (specs, disableRoutes)])
    {
      FreshId(reg, next);
      var ok, g := TrySubscribe(reg, next, specs, disableRoutes);
      if !ok { return None; }
      id := Some(next);
      reg, next := g, next + 1;
    }

    /** Only its owner ends a subscription, so it is not a route's case. */
    method Unsubscribe(s: nat)
      requires Sound() && s in reg.subs && forall n, i :: !IsCase(reg.routes, n, i, s)
      modifies this`reg
      ensures Sound()
      ensures Held() == old(Held()).(subs := old(Held()).subs - {s})
    {
      reg := UnsubscribeIn(reg, s);
    }

    /** The route becomes as asked, and nothing else changes, unless a choice has
        no options. */
    method SetRoute(name: string, choices: seq<Choice>) returns (panics: bool)
      requires Valid()
      modifies this
      ensures panics <==> !Optioned(choices)
      ensures !panics ==> Valid() && OnlyRoute(old(Held()), Held(), name)
      ensures !panics ==>
        Choices(Held()) == if choices == [] then old(Choices(Held())) - {name} else old(Choices(Held()))[name := choices]
    {
      panics, reg, next := SetRouteIn(reg, next, name, choices);
    }
  }
}

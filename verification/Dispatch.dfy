/** Where a request goes: the best candidate of the active option, or one of
    the cases of a route, drawn by weight. */
module Dispatch {
  import opened Common
  import opened Registry
  import opened Subscription

  datatype Target = Local(pub: nat) | Far(remote: nat)

  // ----- the candidates of an option without a route

  ghost predicate Candidate(sp: Spec, g: Reg, t: Target) {
    match t
    case Local(p) => p in Locals(sp, g.pubs)
    case Far(r) => r in Remotes(sp, g.remotes)
  }

  ghost function PriorityOf(g: Reg, t: Target): nat {
    match t
    case Local(p) => if p in g.pubs then g.pubs[p].priority else NO_PRIORITY
    case Far(r) => if r in g.remotes then g.remotes[r].priority else NO_PRIORITY
  }

  /** Best of all candidates, and local when a local one is among the best. */
  ghost predicate Best(sp: Spec, g: Reg, t: Target) {
    && Candidate(sp, g, t)
    && (forall c :: Candidate(sp, g, c) ==> PriorityOf(g, t) <= PriorityOf(g, c))
    && (t.Far? ==> forall c :: Candidate(sp, g, c) && c.Local? ==> PriorityOf(g, t) < PriorityOf(g, c))
  }

  /** What is offered to an option: publications of its service, unless it asks for
      a distance above 0, and remotes of its service within its range. The best has
      the lowest priority, and is a remote only if it beats all publications. */
  lemma WhatIsBest(sp: Spec, g: Reg, t: Target)
    ensures Candidate(sp, g, t) <==>
      match t
      case Local(p) => p in g.pubs && g.pubs[p].name == sp.service && sp.min == 0
      case Far(r) => r in g.remotes && g.remotes[r].name == sp.service && sp.min <= g.remotes[r].distance <= sp.max
    ensures Best(sp, g, t) <==>
      && Candidate(sp, g, t)
      && var priority := if t.Local? then g.pubs[t.pub].priority else g.remotes[t.remote].priority;
         && (forall o :: o in g.pubs && g.pubs[o].name == sp.service && sp.min == 0 ==>
               if t.Far? then priority < g.pubs[o].priority else priority <= g.pubs[o].priority)
         && (forall o :: o in g.remotes && g.remotes[o].name == sp.service && sp.min <= g.remotes[o].distance <= sp.max ==>
               priority <= g.remotes[o].priority)
  {
    forall o: nat ensures Candidate(sp, g, Local(o)) <==> o in g.pubs && g.pubs[o].name == sp.service && sp.min == 0 { }
    forall o: nat
      ensures Candidate(sp, g, Far(o)) <==>
        o in g.remotes && g.remotes[o].name == sp.service && sp.min <= g.remotes[o].distance <= sp.max
    {
    }
  }

  /** `draw` is the random index among the remotes that tie. */
  function Direct(o: Opt, draw: nat): Option<Target> {
    if |o.local| > 0 && o.localPriority <= o.remotePriority then Some(Local(o.local[0]))
    else if draw < o.remoteCount && draw < |o.remote| then Some(Far(o.remote[draw]))
    else None
  }

  predicate Drawable(o: Opt, draw: nat) { draw < o.remoteCount || (o.remoteCount == 0 && draw == 0) }

  ghost predicate OptOk(o: Opt, g: Reg) { LocalOk(o, g.pubs) && RemoteOk(o, g.remotes) }

  lemma FirstIsLowest(list: seq<nat>, members: set<nat>, prio: map<nat, nat>, x: nat)
    requires Lists(list, members, prio) && x in members
    ensures list != [] && x in prio && prio[list[0]] <= prio[x]
  {
    ListMember(list, members, x);
    var i :| 0 <= i < |list| && list[i] == x;
  }

  /** Every draw of an active option without a route finds a best candidate. */
  lemma DirectIsBest(g: Reg, o: Opt, draw: nat)
    requires OptOk(o, g) && Drawable(o, draw) && (o.local != [] || o.remote != [])
    ensures Direct(o, draw).Some? && Best(o.spec, g, Direct(o, draw).value)
  {
    var t := Direct(o, draw).value;
    if |o.local| > 0 { ListMember(o.local, Locals(o.spec, g.pubs), o.local[0]); }
    if t.Far? {
      ListMember(o.remote, Remotes(o.spec, g.remotes), t.remote);
      assert RemotePriorities(g.remotes)[o.remote[draw]] == RemotePriorities(g.remotes)[o.remote[0]];
    }
    forall c | Candidate(o.spec, g, c)
      ensures PriorityOf(g, t) <= PriorityOf(g, c) && (t.Far? && c.Local? ==> PriorityOf(g, t) < PriorityOf(g, c))
    {
      match c
      case Local(p) => FirstIsLowest(o.local, Locals(o.spec, g.pubs), PubPriorities(g.pubs), p);
      case Far(r) => FirstIsLowest(o.remote, Remotes(o.spec, g.remotes), RemotePriorities(g.remotes), r);
    }
  }

  /** No two best candidates differ in kind, and every best remote is drawn. */
  lemma BestIsDrawn(g: Reg, o: Opt, t: Target) returns (draw: nat)
    requires OptOk(o, g) && t.Far? && Best(o.spec, g, t)
    ensures Drawable(o, draw) && Direct(o, draw) == Some(t)
  {
    ListMember(o.remote, Remotes(o.spec, g.remotes), t.remote);
    draw :| 0 <= draw < |o.remote| && o.remote[draw] == t.remote;
    ListMember(o.remote, Remotes(o.spec, g.remotes), o.remote[0]);
    assert Candidate(o.spec, g, Far(o.remote[0]));
    CountedTie(o, g, draw);
    FirstIsLowest(o.remote, Remotes(o.spec, g.remotes), RemotePriorities(g.remotes), t.remote);
    if |o.local| > 0 {
      ListMember(o.local, Locals(o.spec, g.pubs), o.local[0]);
      assert Candidate(o.spec, g, Local(o.local[0]));
    }
  }

  /** getEndpointsRLocked of an option without a route. */
  method DirectEndpoints(g: Reg, o: Opt) returns (r: set<Target>)
    requires OptOk(o, g)
    ensures forall t :: t in r <==> exists draw: nat :: Drawable(o, draw) && Direct(o, draw) == Some(t)
  {
    if |o.local| > 0 && o.localPriority <= o.remotePriority {
      assert Drawable(o, 0) && Direct(o, 0) == Some(Local(o.local[0]));
      return {Local(o.local[0])};
    }
    r := {};
    for i := 0 to |o.remote|
      invariant forall t :: t in r <==> exists draw: nat :: draw < i && draw < o.remoteCount && t == Far(o.remote[draw])
    {
      ListMember(o.remote, Remotes(o.spec, g.remotes), o.remote[i]);
      CountedTie(o, g, i);
      if g.remotes[o.remote[i]].priority == o.remotePriority { r := r + {Far(o.remote[i])}; }
    }
    forall draw: nat | Drawable(o, draw)
      ensures Direct(o, draw) == if draw < o.remoteCount then Some(Far(o.remote[draw])) else None
    {
    }
  }

  lemma CountedTie(o: Opt, g: Reg, i: nat)
    requires OptOk(o, g) && i < |o.remote|
    ensures o.remote[i] in g.remotes && (i < o.remoteCount <==> g.remotes[o.remote[i]].priority == o.remotePriority)
  {
    var prio := RemotePriorities(g.remotes);
    if i >= o.remoteCount {
      assert prio[o.remote[0]] <= prio[o.remote[o.remoteCount]] <= prio[o.remote[i]];
    }
  }

  // ----- the draw of a route

  function Total(ws: seq<nat>): nat { if ws == [] then 0 else Total(ws[..|ws| - 1]) + ws[|ws| - 1] }

  /** The case whose share of [0, Total) holds `bin`. */
  function Pick(ws: seq<nat>, bin: nat): (i: nat)
    requires bin < Total(ws)
    ensures i < |ws| && Total(ws[..i]) <= bin < Total(ws[..i]) + ws[i]
  {
    var n := |ws| - 1;
    if bin < Total(ws[..n]) then
      var i := Pick(ws[..n], bin);
      assert ws[..n][..i] == ws[..i];
      i
    else n
  }

  lemma {:induction false} TotalMonotone(ws: seq<nat>, i: nat, j: nat)
    requires i < j <= |ws|
    ensures Total(ws[..i]) + ws[i] <= Total(ws[..j])
  {
    assert ws[..j][..j - 1] == ws[..j - 1];
    if i + 1 < j { TotalMonotone(ws, i, j - 1); }
  }

  lemma PickUnique(ws: seq<nat>, bin: nat, i: nat)
    requires bin < Total(ws) && i < |ws| && Total(ws[..i]) <= bin < Total(ws[..i]) + ws[i]
    ensures Pick(ws, bin) == i
  {
    var k := Pick(ws, bin);
    if k < i { TotalMonotone(ws, k, i); }
    if i < k { TotalMonotone(ws, i, k); }
  }

  function Range(lo: nat, n: nat): (r: set<nat>)
    ensures forall b :: b in r <==> lo <= b < lo + n
  {
    if n == 0 then {} else Range(lo, n - 1) + {lo + n - 1}
  }

  lemma {:induction false} RangeSize(lo: nat, n: nat)
    ensures |Range(lo, n)| == n
  {
    if n > 0 { RangeSize(lo, n - 1); }
  }

  predicate Picks(ws: seq<nat>, bin: nat, i: nat) { bin < Total(ws) && Pick(ws, bin) == i }

  /** The draws of [0, Total) that end at the case `i`. */
  function Draws(ws: seq<nat>, i: nat): set<nat> { set b | b in Range(0, Total(ws)) && Picks(ws, b, i) }

  /** Each case gets exactly weight-many of the possible draws. */
  lemma PickShare(ws: seq<nat>, i: nat)
    requires i < |ws|
    ensures |Draws(ws, i)| == ws[i]
  {
    TotalMonotone(ws, i, |ws|);
    assert ws[..|ws|] == ws;
    var share := Range(Total(ws[..i]), ws[i]);
    forall b: nat ensures b in Draws(ws, i) <==> b in share {
      if b in share { PickUnique(ws, b, i); }
    }
    assert Draws(ws, i) == share;
    RangeSize(Total(ws[..i]), ws[i]);
  }

  // ----- requests

  predicate Active(g: Reg, s: nat) { s in g.subs && g.subs[s].active < |g.subs[s].options| }

  /** Cases without weight or without candidates take no part. */
  function Share(g: Reg, c: Case): nat { if c.weight > 0 && Active(g, c.sub) then c.weight else 0 }

  function Shares(g: Reg, cases: seq<Case>): seq<nat> { seq(|cases|, i requires 0 <= i < |cases| => Share(g, cases[i])) }

  /** A case whose subscription has an active option gets as many of the draws as it
      weighs, any other case none. */
  lemma CaseShare(g: Reg, cases: seq<Case>, i: nat)
    requires i < |cases|
    ensures |Draws(Shares(g, cases), i)| ==
      if cases[i].sub in g.subs && g.subs[cases[i].sub].active < |g.subs[cases[i].sub].options| then cases[i].weight else 0
  {
    PickShare(Shares(g, cases), i);
  }

  method SumShares(g: Reg, cases: seq<Case>) returns (sum: nat)
    ensures sum == Total(Shares(g, cases))
  {
    sum := 0;
    for i := 0 to |cases|
      invariant sum == Total(Shares(g, cases)[..i])
    {
      assert Shares(g, cases)[..i + 1][..i] == Shares(g, cases)[..i];
      if cases[i].weight > 0 && Active(g, cases[i].sub) { sum := sum + cases[i].weight; }
    }
    assert Shares(g, cases)[..|cases|] == Shares(g, cases);
  }

  /** The loop over the bins always ends inside one of them. */
  method DrawCase(g: Reg, cases: seq<Case>, bin: nat) returns (k: nat)
    requires bin < Total(Shares(g, cases))
    ensures k < |cases| && k == Pick(Shares(g, cases), bin) && Active(g, cases[k].sub)
  {
    ghost var ws := Shares(g, cases);
    assert ws[..|cases|] == ws;
    var left: nat := bin;
    for i := 0 to |cases|
      invariant Total(ws[..i]) + left == bin
    {
      assert ws[..i + 1][..i] == ws[..i] && ws[i] == Share(g, cases[i]);
      if cases[i].weight > 0 && Active(g, cases[i].sub) {
        if left < cases[i].weight {
          PickUnique(ws, bin, i);
          return i;
        }
        left := left - cases[i].weight;
      }
    }
    assert false;
  }

  /** The cases behind an option with a route. */
  lemma RouteBehind(g: Reg, s: nat)
    requires Indexed(g) && Active(g, s) && g.subs[s].options[g.subs[s].active].route.Some?
    ensures !g.subs[s].disableRoutes && g.subs[s].options[g.subs[s].active].spec.service in g.routes
    ensures forall c :: c in g.routes[g.subs[s].options[g.subs[s].active].spec.service].cases ==>
      c.sub in g.subs && g.subs[c.sub].disableRoutes
  {
    var sub := g.subs[s];
    assert SubOk(sub, g.pubs, g.remotes, g.routes);
    var n := sub.options[sub.active].spec.service;
    forall c | c in g.routes[n].cases ensures c.sub in g.subs && g.subs[c.sub].disableRoutes {
      var i :| 0 <= i < |g.routes[n].cases| && g.routes[n].cases[i] == c;
      assert CaseOk(g.routes[n].cases[i], g.routes[n].choices[i], g.subs);
    }
  }

  /** Which draws `handleRequestRLocked` may make on its way. */
  predicate Possible(g: Reg, s: nat, bin: nat, draw: nat)
    requires Indexed(g)
    decreases if s in g.subs && g.subs[s].disableRoutes then 0 else 1
  {
    if !Active(g, s) then true
    else
      var o := g.subs[s].options[g.subs[s].active];
      if o.route.None? then Drawable(o, draw)
      else
        RouteBehind(g, s);
        var cases := g.routes[o.spec.service].cases;
        if Total(Shares(g, cases)) == 0 then true
        else bin < Total(Shares(g, cases)) && Possible(g, cases[Pick(Shares(g, cases), bin)].sub, bin, draw)
  }

  /** A request through the subscription `s`. That a case ignores routes makes
      this end: a request passes at most one route. */
  function Dispatch(g: Reg, s: nat, bin: nat, draw: nat): Option<Target>
    requires Indexed(g) && Possible(g, s, bin, draw)
    decreases if s in g.subs && g.subs[s].disableRoutes then 0 else 1
  {
    if !Active(g, s) then None
    else
      var o := g.subs[s].options[g.subs[s].active];
      if o.route.None? then Direct(o, draw)
      else
        RouteBehind(g, s);
        var cases := g.routes[o.spec.service].cases;
        if Total(Shares(g, cases)) == 0 then None
        else Dispatch(g, cases[Pick(Shares(g, cases), bin)].sub, bin, draw)
  }

  method HandleRequest(g: Reg, s: nat, bin: nat, draw: nat) returns (t: Option<Target>)
    requires Indexed(g) && Possible(g, s, bin, draw)
    ensures t == Dispatch(g, s, bin, draw)
    decreases if s in g.subs && g.subs[s].disableRoutes then 0 else 1
  {
    if !Active(g, s) { return None; }
    var o := g.subs[s].options[g.subs[s].active];
    if o.route.None? { return Direct(o, draw); }
    RouteBehind(g, s);
    var cases := g.routes[o.spec.service].cases;
    var sum := SumShares(g, cases);
    if sum == 0 { return None; }
    var k := DrawCase(g, cases, bin);
    t := HandleRequest(g, cases[k].sub, bin, draw);
  }

  /** The options before the active one have no candidates at all. */
  lemma FirstWithCandidates(g: Reg, s: nat, i: nat)
    requires Indexed(g) && s in g.subs && i < g.subs[s].active && i < |g.subs[s].options|
    ensures forall c :: !Candidate(g.subs[s].options[i].spec, g, c)
  {
    var sub := g.subs[s];
    assert SubOk(sub, g.pubs, g.remotes, g.routes);
    var o := sub.options[i];
    assert LocalOk(o, g.pubs) && RemoteOk(o, g.remotes) && !IsActive(o);
    forall c ensures !Candidate(o.spec, g, c) {
      match c
      case Local(p) => ListMember(o.local, Locals(o.spec, g.pubs), p);
      case Far(r) => ListMember(o.remote, Remotes(o.spec, g.remotes), r);
    }
  }

  /** An active option without a route always dispatches, to a best candidate. */
  lemma PlainDispatch(g: Reg, s: nat, bin: nat, draw: nat)
    requires Indexed(g) && Active(g, s) && Possible(g, s, bin, draw)
    requires g.subs[s].options[g.subs[s].active].route.None?
    ensures Dispatch(g, s, bin, draw).Some?
    ensures Best(g.subs[s].options[g.subs[s].active].spec, g, Dispatch(g, s, bin, draw).value)
  {
    var sub := g.subs[s];
    assert SubOk(sub, g.pubs, g.remotes, g.routes);
    DirectIsBest(g, sub.options[sub.active], draw);
  }

  /** A case never has a route of its own. */
  lemma CasesArePlain(g: Reg, s: nat)
    requires Indexed(g) && Active(g, s) && g.subs[s].disableRoutes
    ensures g.subs[s].options[g.subs[s].active].route.None?
  {
    assert SubOk(g.subs[s], g.pubs, g.remotes, g.routes);
  }

  /** Through a route, a request reaches a best candidate of the drawn case; it
      reaches none exactly when no weighted case is active. */
  lemma RoutedDispatch(g: Reg, s: nat, bin: nat, draw: nat)
    requires Indexed(g) && Active(g, s) && Possible(g, s, bin, draw)
    requires g.subs[s].options[g.subs[s].active].route.Some?
    ensures g.subs[s].options[g.subs[s].active].spec.service in g.routes
    ensures var cases := g.routes[g.subs[s].options[g.subs[s].active].spec.service].cases;
            if Total(Shares(g, cases)) == 0 then Dispatch(g, s, bin, draw) == None
            else
              var k := Pick(Shares(g, cases), bin);
              && cases[k].weight > 0 && Active(g, cases[k].sub)
              && var chosen := g.subs[cases[k].sub];
                 Dispatch(g, s, bin, draw).Some? && Best(chosen.options[chosen.active].spec, g, Dispatch(g, s, bin, draw).value)
  {
    RouteBehind(g, s);
    var o := g.subs[s].options[g.subs[s].active];
    var cases := g.routes[o.spec.service].cases;
    if Total(Shares(g, cases)) > 0 {
      var k := Pick(Shares(g, cases), bin);
      assert Shares(g, cases)[k] == Share(g, cases[k]);
      CasesArePlain(g, cases[k].sub);
      PlainDispatch(g, cases[k].sub, bin, draw);
    }
  }

  // ----- Endpoints()

  ghost predicate Reaches(g: Reg, s: nat, bin: nat, draw: nat, t: Target)
    requires Indexed(g)
  {
    Possible(g, s, bin, draw) && Dispatch(g, s, bin, draw) == Some(t)
  }

  ghost predicate Reachable(g: Reg, s: nat, t: Target)
    requires Indexed(g)
  {
    exists bin: nat, draw: nat :: Reaches(g, s, bin, draw, t)
  }

  /** A bin that belongs to the case `k`. */
  lemma BinOf(ws: seq<nat>, k: nat) returns (bin: nat)
    requires k < |ws| && ws[k] > 0
    ensures bin < Total(ws) && Pick(ws, bin) == k
  {
    bin := Total(ws[..k]);
    TotalMonotone(ws, k, |ws|);
    assert ws[..|ws|] == ws;
    PickUnique(ws, bin, k);
  }

  /** Some draw of the route ends at each case that takes part. */
  lemma ReachesCase(g: Reg, s: nat, k: nat, t: Target)
    requires Indexed(g) && Active(g, s) && g.subs[s].options[g.subs[s].active].route.Some?
    requires g.subs[s].options[g.subs[s].active].spec.service in g.routes
    requires var cases := g.routes[g.subs[s].options[g.subs[s].active].spec.service].cases;
             k < |cases| && Share(g, cases[k]) > 0 && Reachable(g, cases[k].sub, t)
    ensures Reachable(g, s, t)
  {
    RouteBehind(g, s);
    var cases := g.routes[g.subs[s].options[g.subs[s].active].spec.service].cases;
    var b: nat, draw: nat :| Reaches(g, cases[k].sub, b, draw, t);
    var bin := BinOf(Shares(g, cases), k);
    CasesArePlain(g, cases[k].sub);
    assert Reaches(g, cases[k].sub, bin, draw, t);
    assert Reaches(g, s, bin, draw, t);
  }

  lemma ReachedThroughCase(g: Reg, s: nat, t: Target) returns (k: nat)
    requires Indexed(g) && Active(g, s) && g.subs[s].options[g.subs[s].active].route.Some?
    requires Reachable(g, s, t)
    ensures g.subs[s].options[g.subs[s].active].spec.service in g.routes
    ensures var cases := g.routes[g.subs[s].options[g.subs[s].active].spec.service].cases;
            k < |cases| && Share(g, cases[k]) > 0 && Reachable(g, cases[k].sub, t)
  {
    RouteBehind(g, s);
    var cases := g.routes[g.subs[s].options[g.subs[s].active].spec.service].cases;
    var bin: nat, draw: nat :| Reaches(g, s, bin, draw, t);
    k := Pick(Shares(g, cases), bin);
    assert Reaches(g, cases[k].sub, bin, draw, t);
  }

  ghost predicate Contributes(g: Reg, c: Case, t: Target)
    requires Indexed(g)
  {
    Share(g, c) > 0 && Reachable(g, c.sub, t)
  }

  ghost predicate Via(g: Reg, cases: seq<Case>, n: nat, t: Target)
    requires Indexed(g) && n <= |cases|
  {
    exists k :: 0 <= k < n && Contributes(g, cases[k], t)
  }

  lemma RouteReachable(g: Reg, s: nat, cases: seq<Case>)
    requires Indexed(g) && Active(g, s) && g.subs[s].options[g.subs[s].active].route.Some?
    requires g.subs[s].options[g.subs[s].active].spec.service in g.routes
    requires cases == g.routes[g.subs[s].options[g.subs[s].active].spec.service].cases
    ensures forall t :: Via(g, cases, |cases|, t) <==> Reachable(g, s, t)
  {
    forall t ensures Via(g, cases, |cases|, t) <==> Reachable(g, s, t) {
      if Via(g, cases, |cases|, t) {
        var k :| 0 <= k < |cases| && Contributes(g, cases[k], t);
        ReachesCase(g, s, k, t);
      }
      if Reachable(g, s, t) {
        var k := ReachedThroughCase(g, s, t);
        assert Contributes(g, cases[k], t);
      }
    }
  }

  /** getEndpointsRLocked reports exactly the targets a request may reach. */
  method Endpoints(g: Reg, s: nat) returns (r: set<Target>)
    requires Indexed(g)
    ensures forall t :: t in r <==> Reachable(g, s, t)
    decreases if s in g.subs && g.subs[s].disableRoutes then 0 else 1, 1
  {
    if !Active(g, s) { return {}; }
    var o := g.subs[s].options[g.subs[s].active];
    if o.route.None? {
      assert SubOk(g.subs[s], g.pubs, g.remotes, g.routes);
      r := DirectEndpoints(g, o);
      PlainReachable(g, s);
    } else {
      RouteBehind(g, s);
      r := RouteEndpoints(g, g.routes[o.spec.service].cases);
      RouteReachable(g, s, g.routes[o.spec.service].cases);
    }
  }

  ghost predicate Exact(g: Reg, c: Case, r: set<Target>)
    requires Indexed(g)
  {
    forall t :: t in r <==> Contributes(g, c, t)
  }

  method CaseEndpoints(g: Reg, c: Case) returns (r: set<Target>)
    requires Indexed(g) && c.sub in g.subs && g.subs[c.sub].disableRoutes
    ensures Exact(g, c, r)
    decreases 0, 2
  {
    r := {};
    if c.weight > 0 && Active(g, c.sub) { r := Endpoints(g, c.sub); }
  }

  function Union(parts: seq<set<Target>>): (r: set<Target>)
    ensures forall t :: t in r <==> exists k :: 0 <= k < |parts| && t in parts[k]
  {
    if parts == [] then {} else
      assert parts == parts[..|parts| - 1] + [parts[|parts| - 1]];
      Union(parts[..|parts| - 1]) + parts[|parts| - 1]
  }

  lemma UnionIsVia(g: Reg, cases: seq<Case>, parts: seq<set<Target>>)
    requires Indexed(g) && |parts| == |cases|
    requires forall k :: 0 <= k < |cases| ==> Exact(g, cases[k], parts[k])
    ensures forall t :: t in Union(parts) <==> Via(g, cases, |cases|, t)
  {
    forall t ensures t in Union(parts) <==> Via(g, cases, |cases|, t) {
      if t in Union(parts) {
        var k :| 0 <= k < |parts| && t in parts[k];
        assert Contributes(g, cases[k], t);
      }
    }
  }

  method RouteEndpoints(g: Reg, cases: seq<Case>) returns (r: set<Target>)
    requires Indexed(g)
    requires forall i :: 0 <= i < |cases| ==> cases[i].sub in g.subs && g.subs[cases[i].sub].disableRoutes
    ensures forall t :: t in r <==> Via(g, cases, |cases|, t)
    decreases 1, 0
  {
    var parts: seq<set<Target>> := [];
    for i := 0 to |cases|
      invariant |parts| == i
      invariant forall k :: 0 <= k < i ==> Exact(g, cases[k], parts[k])
    {
      var more := CaseEndpoints(g, cases[i]);
      parts := parts + [more];
    }
    UnionIsVia(g, cases, parts);
    r := Union(parts);
  }

  lemma PlainReachable(g: Reg, s: nat)
    requires Indexed(g) && Active(g, s) && g.subs[s].options[g.subs[s].active].route.None?
    ensures var o := g.subs[s].options[g.subs[s].active];
            forall t :: Reachable(g, s, t) <==> exists draw: nat :: Drawable(o, draw) && Direct(o, draw) == Some(t)
  {
    var o := g.subs[s].options[g.subs[s].active];
    forall t, draw: nat | Drawable(o, draw) && Direct(o, draw) == Some(t) ensures Reachable(g, s, t) {
      assert Reaches(g, s, 0, draw, t);
    }
  }

  predicate Registered(g: Reg, t: Target) {
    match t
    case Local(p) => p in g.pubs
    case Far(r) => r in g.remotes
  }

  /** A request is only ever sent to what is registered at that moment. */
  lemma TargetRegistered(g: Reg, s: nat, bin: nat, draw: nat)
    requires Indexed(g) && Possible(g, s, bin, draw) && Dispatch(g, s, bin, draw).Some?
    ensures Registered(g, Dispatch(g, s, bin, draw).value)
  {
    if g.subs[s].options[g.subs[s].active].route.None? {
      PlainDispatch(g, s, bin, draw);
    } else {
      RoutedDispatch(g, s, bin, draw);
    }
  }
}

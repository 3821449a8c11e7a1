/** The registry as an index: what every subscription caches about the
    publications, peers' remotes and routes that match its options.

    `Indexed` says that all of it is what a fresh scan of the registries would
    give. Server.dfy keeps it through every operation. */
module Registry {
  import opened Common

  const NO_PRIORITY: nat := 0xffffffff

  /** What a subscription asks for: a service at a distance from min to max. */
  datatype Spec = Spec(service: string, min: nat, max: nat)

  /** One option of a subscription with its cached candidates. */
  datatype Opt = Opt(
    spec: Spec,
    route: Option<nat>,
    local: seq<nat>, localPriority: nat,
    remote: seq<nat>, remotePriority: nat, remoteCount: nat)

  datatype Sub = Sub(options: seq<Opt>, disableRoutes: bool, active: nat)

  /** Priorities are 32 bits wide; lower is better. */
  type Priority = x: nat | x <= NO_PRIORITY

  // `subs` fields are back-references to the subscriptions that list the entry

  datatype Pub = Pub(name: string, priority: Priority, subs: set<nat>)
  datatype Remote = Remote(peer: nat, name: string, priority: Priority, distance: nat, subs: set<nat>)

  /** A route as asked for: weighted alternatives, each a list of options. */
  datatype Choice = Choice(options: seq<Spec>, weight: nat)
  datatype Case = Case(sub: nat, weight: nat)
  datatype Route = Route(id: nat, choices: seq<Choice>, cases: seq<Case>, subs: set<nat>)

  // ----- what an option matches

  predicate MatchesPub(sp: Spec, p: Pub) { sp.service == p.name && sp.min == 0 }

  predicate MatchesRemote(sp: Spec, r: Remote) { sp.service == r.name && sp.min <= r.distance <= sp.max }

  function Locals(sp: Spec, pubs: map<nat, Pub>): set<nat> {
    set p | p in pubs && MatchesPub(sp, pubs[p])
  }

  function Remotes(sp: Spec, remotes: map<nat, Remote>): set<nat> {
    set r | r in remotes && MatchesRemote(sp, remotes[r])
  }

  function RouteFor(sp: Spec, disabled: bool, routes: map<string, Route>): Option<nat> {
    if !disabled && sp.service in routes then Some(routes[sp.service].id) else None
  }

  // ----- sorted lists

  ghost predicate ByPriority(list: seq<nat>, prio: map<nat, nat>) {
    && (forall i :: 0 <= i < |list| ==> list[i] in prio)
    && (forall i, j :: 0 <= i < j < |list| ==> prio[list[i]] <= prio[list[j]])
  }

  /** The list holds exactly the members, each once, lowest priority first. */
  ghost predicate Lists(list: seq<nat>, members: set<nat>, prio: map<nat, nat>) {
    multiset(list) == multiset(members) && ByPriority(list, prio)
  }

  function PubPriorities(pubs: map<nat, Pub>): map<nat, nat> { map p | p in pubs :: pubs[p].priority }

  function RemotePriorities(remotes: map<nat, Remote>): map<nat, nat> { map r | r in remotes :: remotes[r].priority }

  function FirstPriority(list: seq<nat>, prio: map<nat, nat>): nat {
    if |list| > 0 && list[0] in prio then prio[list[0]] else NO_PRIORITY
  }

  /** How many of the first entries share the lowest priority. */
  ghost predicate CountsTies(list: seq<nat>, prio: map<nat, nat>, n: nat)
    requires ByPriority(list, prio)
  {
    && n <= |list|
    && (list != [] ==> n > 0)
    && (forall i :: 0 <= i < n ==> prio[list[i]] == prio[list[0]])
    && (n < |list| ==> prio[list[n]] != prio[list[0]])
  }

  // ----- agreement with a fresh scan

  ghost predicate LocalOk(o: Opt, pubs: map<nat, Pub>) {
    && Lists(o.local, Locals(o.spec, pubs), PubPriorities(pubs))
    && o.localPriority == FirstPriority(o.local, PubPriorities(pubs))
  }

  ghost predicate RemoteOk(o: Opt, remotes: map<nat, Remote>) {
    && Lists(o.remote, Remotes(o.spec, remotes), RemotePriorities(remotes))
    && o.remotePriority == FirstPriority(o.remote, RemotePriorities(remotes))
    && CountsTies(o.remote, RemotePriorities(remotes), o.remoteCount)
  }

  predicate IsActive(o: Opt) { o.route.Some? || o.local != [] || o.remote != [] }

  ghost predicate ActiveOk(sub: Sub) {
    && sub.active <= |sub.options|
    && (forall i :: 0 <= i < sub.active ==> !IsActive(sub.options[i]))
    && (sub.active < |sub.options| ==> IsActive(sub.options[sub.active]))
  }

  ghost predicate LocalsOk(sub: Sub, pubs: map<nat, Pub>) {
    forall i :: 0 <= i < |sub.options| ==> LocalOk(sub.options[i], pubs)
  }

  ghost predicate RemotesOk(sub: Sub, remotes: map<nat, Remote>) {
    forall i :: 0 <= i < |sub.options| ==> RemoteOk(sub.options[i], remotes)
  }

  ghost predicate RoutesOk(sub: Sub, routes: map<string, Route>) {
    forall i :: 0 <= i < |sub.options| ==>
      sub.options[i].route == RouteFor(sub.options[i].spec, sub.disableRoutes, routes)
  }

  ghost predicate SubOk(sub: Sub, pubs: map<nat, Pub>, remotes: map<nat, Remote>, routes: map<string, Route>) {
    LocalsOk(sub, pubs) && RemotesOk(sub, remotes) && RoutesOk(sub, routes) && ActiveOk(sub)
  }

  predicate WantsPub(sub: Sub, p: Pub) { exists i :: 0 <= i < |sub.options| && MatchesPub(sub.options[i].spec, p) }

  predicate WantsRemote(sub: Sub, r: Remote) { exists i :: 0 <= i < |sub.options| && MatchesRemote(sub.options[i].spec, r) }

  predicate Names(sub: Sub, name: string) { exists i :: 0 <= i < |sub.options| && sub.options[i].spec.service == name }

  predicate WantsRoute(sub: Sub, name: string) { !sub.disableRoutes && Names(sub, name) }

  // ----- back-references, as a scan over all subscriptions would give them

  function PubRefs(subs: map<nat, Sub>, p: Pub): set<nat> { set s | s in subs && WantsPub(subs[s], p) }

  function RemoteRefs(subs: map<nat, Sub>, r: Remote): set<nat> { set s | s in subs && WantsRemote(subs[s], r) }

  function RouteRefs(subs: map<nat, Sub>, n: string): set<nat> { set s | s in subs && WantsRoute(subs[s], n) }

  function NameRefs(subs: map<nat, Sub>, n: string): set<nat> { set s | s in subs && Names(subs[s], n) }

  ghost predicate PubRefsOk(pubs: map<nat, Pub>, subs: map<nat, Sub>) {
    forall p :: p in pubs ==> pubs[p].subs == PubRefs(subs, pubs[p])
  }

  ghost predicate RemoteRefsOk(remotes: map<nat, Remote>, subs: map<nat, Sub>) {
    forall r :: r in remotes ==> remotes[r].subs == RemoteRefs(subs, remotes[r])
  }

  ghost predicate RouteRefsOk(routes: map<string, Route>, subs: map<nat, Sub>) {
    forall n :: n in routes ==> routes[n].subs == RouteRefs(subs, n)
  }

  /** A name is listed exactly when some subscription names it. */
  ghost predicate NamesOk(subsByName: map<string, set<nat>>, subs: map<nat, Sub>) {
    forall n :: (if n in subsByName then subsByName[n] else {}) == NameRefs(subs, n) && (n in subsByName ==> subsByName[n] != {})
  }

  ghost predicate SubsOk(subs: map<nat, Sub>, pubs: map<nat, Pub>, remotes: map<nat, Remote>, routes: map<string, Route>) {
    forall s :: s in subs ==> SubOk(subs[s], pubs, remotes, routes)
  }

  // ----- the subscriptions behind a route

  function Specs(sub: Sub): seq<Spec> { seq(|sub.options|, i requires 0 <= i < |sub.options| => sub.options[i].spec) }

  predicate IsCase(routes: map<string, Route>, n: string, i: int, s: nat) {
    n in routes && 0 <= i < |routes[n].cases| && routes[n].cases[i].sub == s
  }

  ghost predicate CaseOk(c: Case, choice: Choice, subs: map<nat, Sub>) {
    && c.sub in subs && c.weight == choice.weight
    && subs[c.sub].disableRoutes && Specs(subs[c.sub]) == choice.options
  }

  /** Every case is a subscription of its own that ignores routes. */
  ghost predicate CasesOk(routes: map<string, Route>, subs: map<nat, Sub>) {
    && (forall n :: n in routes ==> |routes[n].cases| <= |routes[n].choices|)
    && (forall n, i :: n in routes && 0 <= i < |routes[n].cases| ==> CaseOk(routes[n].cases[i], routes[n].choices[i], subs))
    && (forall n, i, m, j, s :: IsCase(routes, n, i, s) && IsCase(routes, m, j, s) ==> n == m && i == j)
    && (forall n, m :: n in routes && m in routes && routes[n].id == routes[m].id ==> n == m)
  }

  // ----- the whole index

  /** `pubsByName` leads from a name and a priority to the publication, and
      `remotesByName` from a peer and a name to the peer's remotes. */
  datatype Reg = Reg(
    pubs: map<nat, Pub>,
    pubsByName: map<string, map<nat, nat>>,
    remotes: map<nat, Remote>,
    remotesByName: map<nat, map<string, set<nat>>>,
    routes: map<string, Route>,
    subs: map<nat, Sub>,
    subsByName: map<string, set<nat>>)

  // these say what holds of one entry; as wholes they are quantified over

  predicate PubNamed(byName: map<string, map<nat, nat>>, n: string, k: nat, p: nat) {
    n in byName && k in byName[n] && byName[n][k] == p
  }

  predicate PubAt(byName: map<string, map<nat, nat>>, pubs: map<nat, Pub>, p: nat) {
    p in pubs ==> PubNamed(byName, pubs[p].name, pubs[p].priority, p)
  }

  predicate NameAt(byName: map<string, map<nat, nat>>, pubs: map<nat, Pub>, n: string, k: nat) {
    n in byName && k in byName[n] ==>
      byName[n][k] in pubs && pubs[byName[n][k]].name == n && pubs[byName[n][k]].priority == k
  }

  predicate NameUsed(byName: map<string, map<nat, nat>>, n: string) { n in byName ==> byName[n] != map[] }

  ghost predicate PubNamesOk(byName: map<string, map<nat, nat>>, pubs: map<nat, Pub>) {
    && (forall p: nat :: PubAt(byName, pubs, p))
    && (forall n: string, k: nat :: NameAt(byName, pubs, n, k))
    && (forall n: string :: NameUsed(byName, n))
  }

  predicate RemoteNamed(byName: map<nat, map<string, set<nat>>>, peer: nat, n: string, r: nat) {
    peer in byName && n in byName[peer] && r in byName[peer][n]
  }

  predicate RemoteAt(byName: map<nat, map<string, set<nat>>>, remotes: map<nat, Remote>, r: nat) {
    r in remotes ==> RemoteNamed(byName, remotes[r].peer, remotes[r].name, r)
  }

  predicate PeerNameAt(byName: map<nat, map<string, set<nat>>>, remotes: map<nat, Remote>, k: nat, n: string, r: nat) {
    RemoteNamed(byName, k, n, r) ==> r in remotes && remotes[r].peer == k && remotes[r].name == n
  }

  predicate PeerNameUsed(byName: map<nat, map<string, set<nat>>>, k: nat, n: string) {
    k in byName && n in byName[k] ==> byName[k][n] != {}
  }

  ghost predicate RemoteNamesOk(byName: map<nat, map<string, set<nat>>>, remotes: map<nat, Remote>) {
    && (forall r: nat :: RemoteAt(byName, remotes, r))
    && (forall k: nat, n: string, r: nat :: PeerNameAt(byName, remotes, k, n, r))
    && (forall k: nat, n: string :: PeerNameUsed(byName, k, n))
  }

  ghost predicate Indexed(g: Reg) {
    && SubsOk(g.subs, g.pubs, g.remotes, g.routes)
    && PubRefsOk(g.pubs, g.subs)
    && RemoteRefsOk(g.remotes, g.subs)
    && RouteRefsOk(g.routes, g.subs)
    && NamesOk(g.subsByName, g.subs)
    && CasesOk(g.routes, g.subs)
    && PubNamesOk(g.pubsByName, g.pubs)
    && RemoteNamesOk(g.remotesByName, g.remotes)
  }
}

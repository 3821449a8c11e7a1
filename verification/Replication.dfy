/** Two nodes: the publications of one, streamed in batches to a peer of the
    other, over any run of table changes, reads, deliveries, lost connections
    and forced removals. */
module Replication {
  import opened Common
  import opened Changes
  import opened Peers

  /** One connection: the watcher at the server, batches under way, and what
      the peer has processed so far. `missing` are remotes dropped by force
      since they were last announced. */
  datatype Link = Link(client: nat, w: Watcher, wire: seq<Batch>, done: Table, missing: set<nat>)

  datatype Sys = Sys(pubs: Table, link: Option<Link>, remotes: Remotes, distance: nat)

  datatype Event =
    | Publish(id: nat, entry: Entry)     // a publication appears or changes its settings
    | Unpublish(id: nat)                 // its last endpoint goes
    | Connect(client: nat)
    | Disconnect
    | Read(batch: Batch, w: Watcher)
    | Deliver
    | Force(id: nat)                     // a stream to the remote could not be opened

  ghost predicate Enabled(s: Sys, e: Event) {
    match e
    case Publish(_, _) => true
    case Unpublish(id) => id in s.pubs
    case Connect(_) => s.link.None?
    case Disconnect => s.link.Some?
    case Read(b, w) => s.link.Some? && Pending(s.link.value.w) && ReadStep(s.link.value.w, s.pubs, b, w)
    case Deliver => s.link.Some? && s.link.value.wire != []
    case Force(id) => s.link.Some? && id in s.remotes
  }

  function Noted(link: Option<Link>, w: Watcher): Option<Link> {
    if link.Some? then Some(link.value.(w := w)) else None
  }

  function Step(s: Sys, e: Event): Sys
    requires Enabled(s, e)
  {
    match e
    case Publish(id, entry) =>
      Sys(s.pubs[id := entry], if s.link.None? then None else Noted(s.link, NoteChanged(s.link.value.w, id)), s.remotes, s.distance)
    case Unpublish(id) =>
      Sys(s.pubs - {id}, if s.link.None? then None else Noted(s.link, NoteRemoved(s.link.value.w, id)), s.remotes, s.distance)
    case Connect(c) => s.(link := Some(Link(c, Opened(s.pubs), [], map[], {})))
    case Disconnect => s.(link := None, remotes := map[])
    case Read(b, w) => s.(link := Some(s.link.value.(w := w, wire := s.link.value.wire + [b])))
    case Deliver =>
      var l := s.link.value;
      var b := l.wire[0];
      s.(link := Some(l.(wire := l.wire[1..], done := Replay(l.done, b), missing := l.missing - Members(Ids(b.changed)))),
         remotes := Processed(s.remotes, l.client, s.distance, b))
    case Force(id) =>
      s.(link := Some(s.link.value.(missing := s.link.value.missing + {id})),
         remotes := Forget(s.remotes, s.link.value.client, id))
  }

  /** What the watcher still owes and what is under way make up the difference
      between the server's table and the peer's. */
  ghost predicate Linked(l: Link, pubs: Table, remotes: Remotes, distance: nat) {
    && Mirrors(remotes, l.client, distance, l.done, l.missing)
    && Owes(l.w, pubs, ReplayAll(l.done, l.wire))
  }

  ghost predicate Inv(s: Sys) {
    if s.link.None? then s.remotes == map[] else Linked(s.link.value, s.pubs, s.remotes, s.distance)
  }

  lemma StepKeeps(s: Sys, e: Event)
    requires Inv(s) && Enabled(s, e)
    ensures Inv(Step(s, e))
  {
    match e
    case Publish(id, entry) =>
      if s.link.Some? {
        OwesChanged(s.link.value.w, s.pubs, ReplayAll(s.link.value.done, s.link.value.wire), id, entry);
      }
    case Unpublish(id) =>
      if s.link.Some? {
        OwesRemoved(s.link.value.w, s.pubs, ReplayAll(s.link.value.done, s.link.value.wire), id);
      }
    case Connect(c) => OwesOpened(s.pubs);
    case Disconnect =>
    case Read(b, w) =>
      var l := s.link.value;
      OwesRead(l.w, s.pubs, ReplayAll(l.done, l.wire), b, w);
      ReplayAppend(l.done, l.wire, b);
    case Deliver =>
      var l := s.link.value;
      MirrorsProcessed(s.remotes, l.client, s.distance, l.done, l.missing, l.wire[0]);
    case Force(id) =>
      var l := s.link.value;
      MirrorsForget(s.remotes, l.client, s.distance, l.done, l.missing, id);
  }

  // ----- whole runs

  ghost predicate IsRun(states: seq<Sys>, events: seq<Event>) {
    && |states| == |events| + 1
    && states[0].pubs == map[] && states[0].link == None && states[0].remotes == map[]
    && forall i :: 0 <= i < |events| ==> Enabled(states[i], events[i]) && states[i + 1] == Step(states[i], events[i])
  }

  lemma {:induction false} RunKeeps(states: seq<Sys>, events: seq<Event>, i: nat)
    requires IsRun(states, events) && i < |states|
    ensures Inv(states[i])
  {
    if i > 0 {
      RunKeeps(states, events, i - 1);
      StepKeeps(states[i - 1], events[i - 1]);
    }
  }

  /** At any time the peer holds only services of its current client within its
      reach, each with the settings of some table the server has sent; and once
      nothing is pending or under way, exactly the server's publications within
      reach, but for those dropped by force and not announced since. */
  lemma Replicates(states: seq<Sys>, events: seq<Event>, i: nat)
    requires IsRun(states, events) && i < |states| && states[i].link.Some?
    ensures var s, l := states[i], states[i].link.value;
            && Owned(s.remotes, l.client)
            && (forall id :: id in s.remotes ==> s.remotes[id].entry.maxDistance >= s.distance)
            && (l.wire == [] && !Pending(l.w) ==> Held(s.remotes) == Within(s.pubs, s.distance) - l.missing)
            && (l.wire == [] && !Pending(l.w) ==> forall id ::
                  (id in s.remotes <==> id in s.pubs && s.pubs[id].maxDistance >= s.distance && id !in l.missing)
                  && (id in s.remotes ==> s.remotes[id].entry == s.pubs[id]))
  {
    RunKeeps(states, events, i);
    var s, l := states[i], states[i].link.value;
    MirrorsPointwise(s.remotes, l.client, s.distance, l.done, l.missing);
    if l.wire == [] && !Pending(l.w) {
      CaughtUp(l.w, s.pubs, l.done);
      MirrorsPointwise(s.remotes, l.client, s.distance, s.pubs, l.missing);
    }
  }

  /** Without forced removals nothing is ever missing. */
  lemma {:induction false} NothingMissing(states: seq<Sys>, events: seq<Event>, i: nat)
    requires IsRun(states, events) && i < |states|
    requires forall k :: 0 <= k < |events| ==> !events[k].Force?
    ensures states[i].link.Some? ==> states[i].link.value.missing == {}
  {
    if i > 0 {
      NothingMissing(states, events, i - 1);
      assert states[i] == Step(states[i - 1], events[i - 1]);
    }
  }

  /** The law without forced removals: the peer ends with exactly what it may reach. */
  lemma ReplicatesExactly(states: seq<Sys>, events: seq<Event>, i: nat)
    requires IsRun(states, events) && i < |states| && states[i].link.Some?
    requires forall k :: 0 <= k < |events| ==> !events[k].Force?
    requires states[i].link.value.wire == [] && !Pending(states[i].link.value.w)
    ensures Held(states[i].remotes) == Within(states[i].pubs, states[i].distance)
    ensures forall id :: id in states[i].remotes <==> id in states[i].pubs && states[i].pubs[id].maxDistance >= states[i].distance
    ensures forall id :: id in states[i].remotes ==> states[i].remotes[id].entry == states[i].pubs[id]
  {
    Replicates(states, events, i);
    NothingMissing(states, events, i);
    assert Within(states[i].pubs, states[i].distance) - {} == Within(states[i].pubs, states[i].distance);
  }

  // ----- catching up

  function Work(s: Sys): nat {
    if s.link.None? then 0 else 2 * Backlog(s.link.value.w) + |s.link.value.wire|
  }

  /** Reads and deliveries come to an end, however the batches are cut. */
  lemma WorkShrinks(s: Sys, e: Event)
    requires Enabled(s, e) && (e.Read? || e.Deliver?)
    ensures Work(Step(s, e)) < Work(s)
  {
    if e.Read? { ReadShortens(s.link.value.w, s.pubs, e.batch, e.w); }
  }
}

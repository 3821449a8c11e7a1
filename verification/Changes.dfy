/** The stream of service changes: what a watcher has yet to be told, and how
    the batches it is given rebuild the table of publications. */
module Changes {
  import opened Common

  datatype Entry = Entry(name: string, priority: nat, maxDistance: nat)
  type Table = map<nat, Entry>

  datatype Change = Change(id: nat, entry: Entry)
  datatype Batch = Batch(removed: seq<nat>, changed: seq<Change>)

  const MAX_BATCH := 256

  // ----- replaying batches

  function Members(ids: seq<nat>): set<nat> { set id | id in ids }

  function Dropped(t: Table, ids: seq<nat>): Table { t - Members(ids) }

  function Put(t: Table, changes: seq<Change>): Table {
    if changes == [] then t
    else
      var c := changes[|changes| - 1];
      Put(t, changes[..|changes| - 1])[c.id := c.entry]
  }

  function Replay(t: Table, b: Batch): Table { Put(Dropped(t, b.removed), b.changed) }

  function ReplayAll(t: Table, bs: seq<Batch>): Table
    decreases |bs|
  {
    if bs == [] then t else ReplayAll(Replay(t, bs[0]), bs[1..])
  }

  lemma {:induction false} ReplayAppend(t: Table, bs: seq<Batch>, b: Batch)
    ensures ReplayAll(t, bs + [b]) == Replay(ReplayAll(t, bs), b)
    decreases |bs|
  {
    if bs == [] {
      assert (bs + [b])[1..] == [];
    } else {
      assert (bs + [b])[0] == bs[0] && (bs + [b])[1..] == bs[1..] + [b];
      ReplayAppend(Replay(t, bs[0]), bs[1..], b);
    }
  }

  // ----- one watcher

  datatype Watcher = Watcher(sent: set<nat>, removed: set<nat>, changed: set<nat>)

  function Opened(pubs: Table): Watcher { Watcher({}, {}, pubs.Keys) }

  function NoteRemoved(w: Watcher, id: nat): Watcher {
    Watcher(w.sent, if id in w.sent then w.removed + {id} else w.removed, w.changed - {id})
  }

  function NoteChanged(w: Watcher, id: nat): Watcher {
    Watcher(w.sent, w.removed - {id}, w.changed + {id})
  }

  predicate Pending(w: Watcher) { w.removed != {} || w.changed != {} }

  function Backlog(w: Watcher): nat { |w.removed| + |w.changed| }

  /** What the watcher owes its client, who holds `table`. */
  ghost predicate Owes(w: Watcher, pubs: Table, table: Table) {
    && table.Keys == w.sent
    && w.removed <= w.sent && w.removed !! pubs.Keys
    && w.changed <= pubs.Keys
    && (forall id :: id in w.sent ==> id in pubs || id in w.removed)
    && (forall id :: id in pubs ==> id in w.changed || (id in table && table[id] == pubs[id]))
  }

  function Ids(changes: seq<Change>): seq<nat> { seq(|changes|, i requires 0 <= i < |changes| => changes[i].id) }

  /** One batch: every removal, and up to 256 changes as the table has them now. */
  ghost predicate ReadStep(w: Watcher, pubs: Table, b: Batch, w': Watcher) {
    var now := Members(Ids(b.changed));
    && Distinct(b.removed) && Members(b.removed) == w.removed
    && Distinct(Ids(b.changed)) && now <= w.changed
    && (forall i :: 0 <= i < |b.changed| ==> b.changed[i].id in pubs && b.changed[i].entry == pubs[b.changed[i].id])
    && |b.changed| == (if |w.changed| < MAX_BATCH then |w.changed| else MAX_BATCH)
    && w' == Watcher(w.sent - w.removed + now, {}, w.changed - now)
  }

  // ----- the table changes

  lemma OwesOpened(pubs: Table)
    ensures Owes(Opened(pubs), pubs, map[])
  {
  }

  lemma OwesChanged(w: Watcher, pubs: Table, table: Table, id: nat, entry: Entry)
    requires Owes(w, pubs, table)
    ensures Owes(NoteChanged(w, id), pubs[id := entry], table)
  {
  }

  lemma OwesRemoved(w: Watcher, pubs: Table, table: Table, id: nat)
    requires Owes(w, pubs, table)
    ensures Owes(NoteRemoved(w, id), pubs - {id}, table)
  {
  }

  // ----- the client reads

  lemma {:induction false} PutEntries(t: Table, changes: seq<Change>, pubs: Table)
    requires forall i :: 0 <= i < |changes| ==> changes[i].id in pubs && changes[i].entry == pubs[changes[i].id]
    ensures Put(t, changes).Keys == t.Keys + Members(Ids(changes))
    ensures forall id :: id in Put(t, changes) ==>
      Put(t, changes)[id] == if id in Members(Ids(changes)) then pubs[id] else t[id]
  {
    if changes != [] {
      var most := changes[..|changes| - 1];
      PutEntries(t, most, pubs);
      assert Ids(changes) == Ids(most) + [changes[|changes| - 1].id];
      assert Members(Ids(changes)) == Members(Ids(most)) + {changes[|changes| - 1].id};
    }
  }

  /** Reading a batch keeps the debt honest. */
  lemma OwesRead(w: Watcher, pubs: Table, table: Table, b: Batch, w': Watcher)
    requires Owes(w, pubs, table) && ReadStep(w, pubs, b, w')
    ensures Owes(w', pubs, Replay(table, b))
  {
    PutEntries(Dropped(table, b.removed), b.changed, pubs);
  }

  /** With nothing pending, the client's table is the table of publications. */
  lemma CaughtUp(w: Watcher, pubs: Table, table: Table)
    requires Owes(w, pubs, table) && !Pending(w)
    ensures table == pubs
  {
    assert table.Keys == pubs.Keys;
  }

  lemma {:induction false} DistinctSize(ids: seq<nat>)
    requires Distinct(ids)
    ensures |Members(ids)| == |ids|
  {
    if ids != [] {
      var most := ids[..|ids| - 1];
      DistinctSize(most);
      assert Members(ids) == Members(most) + {ids[|ids| - 1]};
    }
  }

  /** Each read shortens the backlog by all removals and up to 256 changes, so a
      client that keeps reading catches up. */
  lemma ReadShortens(w: Watcher, pubs: Table, b: Batch, w': Watcher)
    requires ReadStep(w, pubs, b, w')
    ensures Backlog(w') == if |w.changed| <= 256 then 0 else |w.changed| - 256
    ensures Pending(w) ==> Backlog(w') < Backlog(w)
  {
    DistinctSize(Ids(b.changed));
    var now := Members(Ids(b.changed));
    assert |w.changed - now| == |w.changed| - |now|;
    if |w.changed| < MAX_BATCH { assert w.changed - now == {}; }
  }

  /** Some of the changes moved into the batch. */
  ghost predicate Sending(w: Watcher, pubs: Table, changes: seq<Change>, w': Watcher) {
    var now := Members(Ids(changes));
    && Distinct(Ids(changes)) && now <= w.changed && |w'.changed| + |changes| == |w.changed|
    && (forall i :: 0 <= i < |changes| ==> changes[i].id in pubs && changes[i].entry == pubs[changes[i].id])
    && w' == Watcher(w.sent + now, w.removed, w.changed - now)
  }

  lemma OneMore(changes: seq<Change>, c: Change)
    ensures Members(Ids(changes + [c])) == Members(Ids(changes)) + {c.id}
    ensures Distinct(Ids(changes)) && c.id !in Members(Ids(changes)) ==> Distinct(Ids(changes + [c]))
  {
    assert Ids(changes + [c]) == Ids(changes) + [c.id];
  }

  lemma SendingNext(w: Watcher, pubs: Table, changes: seq<Change>, w': Watcher, id: nat)
    requires Sending(w, pubs, changes, w') && id in w'.changed && w.changed <= pubs.Keys
    ensures id in pubs
    ensures Sending(w, pubs, changes + [Change(id, pubs[id])], Watcher(w'.sent + {id}, w'.removed, w'.changed - {id}))
  {
    OneMore(changes, Change(id, pubs[id]));
    var now := Members(Ids(changes));
    assert w.changed - (now + {id}) == w'.changed - {id};
    assert w.sent + (now + {id}) == w'.sent + {id};
  }

  // ----- the stream of one client, as the server keeps it

  /** serverServiceChangesStream; `pubs` stands for the server's table, which the
      pointers in `changed` lead to. */
  class ChangesStream {
    var closed: bool
    var w: Watcher

    constructor (pubs: Table)
      ensures !closed && w == Opened(pubs)
    {
      closed, w := false, Watcher({}, {}, pubs.Keys);
    }

    method AddRemoved(id: nat)
      modifies this`w
      ensures w == if closed then old(w) else NoteRemoved(old(w), id)
    {
      if !closed {
        w := w.(changed := w.changed - {id});
        if id in w.sent { w := w.(removed := w.removed + {id}); }
      }
    }

    method AddChanged(id: nat)
      modifies this`w
      ensures w == if closed then old(w) else NoteChanged(old(w), id)
    {
      if !closed {
        w := w.(removed := w.removed - {id});
        w := w.(changed := w.changed + {id});
      }
    }

    /** One pass of Read's loop: end of stream, a batch, or nothing to send yet. */
    method Read(pubs: Table) returns (b: Batch, ready: bool, eof: bool)
      requires closed || w.changed <= pubs.Keys
      modifies this`w
      ensures eof == closed && (eof ==> !ready)
      ensures ready ==> ReadStep(old(w), pubs, b, w)
      ensures !eof ==> (ready <==> Pending(old(w)))
      ensures !ready ==> w == old(w)
    {
      b := Batch([], []);
      if closed { return b, false, true; }
      var removed := DrainRemoved();
      var changed := DrainChanged(pubs);
      b := Batch(removed, changed);
      eof, ready := false, |removed| > 0 || |changed| > 0;
      DistinctSize(removed);
      if |removed| == 0 { assert old(w).removed == {}; }
      if |changed| == 0 { assert old(w).changed == {}; }
    }

    method DrainRemoved() returns (ids: seq<nat>)
      modifies this`w
      ensures Distinct(ids) && Members(ids) == old(w).removed
      ensures w == Watcher(old(w).sent - old(w).removed, {}, old(w).changed)
    {
      ids := [];
      while w.removed != {}
        invariant Distinct(ids) && w.removed <= old(w).removed
        invariant Members(ids) == old(w).removed - w.removed
        invariant w == Watcher(old(w).sent - Members(ids), w.removed, old(w).changed)
        decreases |w.removed|
      {
        var id :| id in w.removed;
        w := Watcher(w.sent - {id}, w.removed - {id}, w.changed);
        assert Members(ids + [id]) == Members(ids) + {id};
        ids := ids + [id];
      }
    }

    method DrainChanged(pubs: Table) returns (changes: seq<Change>)
      requires w.changed <= pubs.Keys
      modifies this`w
      ensures Sending(old(w), pubs, changes, w)
      ensures |changes| == if |old(w).changed| < MAX_BATCH then |old(w).changed| else MAX_BATCH
    {
      changes := [];
      while w.changed != {}
        invariant Sending(old(w), pubs, changes, w) && |changes| < MAX_BATCH
        decreases |w.changed|
      {
        var id :| id in w.changed;
        SendingNext(old(w), pubs, changes, w, id);
        w := Watcher(w.sent + {id}, w.removed, w.changed - {id});
        changes := changes + [Change(id, pubs[id])];
        if |changes| >= MAX_BATCH { break; }
      }
    }

    method Stop()
      modifies this`closed
      ensures closed
    {
      closed := true;
    }
  }
}

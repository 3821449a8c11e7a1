/** rawConnStreams: which stream id comes next. */
module StreamIds {

  const MAX_STREAM_ID := 0x7fff_ffff

  datatype Outcome = Allocated(id: nat) | Exhausted | Closed

  /** Clients own the odd ids, servers the even ones. */
  predicate Owns(flag: nat, id: nat) { 1 <= id <= MAX_STREAM_ID && id % 2 == flag }

  /** The ids from `from` up to `to`, going around at the top. */
  ghost predicate Between(from: nat, to: nat, id: nat) {
    if from <= to then from <= id < to else id < to || from <= id
  }

  class Streams {
    const flag: nat
    var failed: bool
    var next: nat
    var live: set<nat>

    ghost predicate Valid() reads this { flag <= 1 && 1 <= next <= MAX_STREAM_ID + 2 && next % 2 == flag }

    /** The cursor is an id that may be given out. */
    ghost predicate Ready() reads this { Valid() && next <= MAX_STREAM_ID }

    constructor (server: bool)
      ensures Ready() && !failed && live == {} && flag == (if server then 0 else 1)
    {
      flag, failed, next, live := if server then 0 else 1, false, if server then 2 else 1, {};
    }

    /** From a cursor in range: the next free id of this side, in order and going
        around once, or failure exactly when none is free. A failure leaves the
        cursor out of range, and the call after it hands that out. */
    method Allocate() returns (r: Outcome)
      requires Valid()
      modifies this`next
      ensures Valid()
      ensures failed <==> r.Closed?
      ensures failed ==> next == old(next)
      ensures old(Ready()) && r.Allocated? ==> Ready() && Owns(flag, r.id) && r.id !in live
      ensures old(Ready()) && r.Allocated? ==>
        forall id: nat :: Owns(flag, id) && Between(old(next), r.id, id) ==> id in live
      ensures old(Ready()) && !failed ==> (r.Exhausted? <==> forall id: nat :: Owns(flag, id) ==> id in live)
      ensures r.Exhausted? ==> !Ready()
      ensures !old(Ready()) && !failed && old(next) !in live ==> r == Allocated(old(next)) && old(next) > MAX_STREAM_ID
    {
      if failed { return Closed; }
      var wrapped := false;
      while true
        invariant Valid() && (next > MAX_STREAM_ID ==> next == old(next) && !wrapped)
        invariant !wrapped ==> old(next) <= next && (next > old(next) ==> old(Ready()))
        invariant !wrapped ==> forall id: nat :: Owns(flag, id) && old(next) <= id < next ==> id in live
        invariant wrapped && old(Ready()) ==>
          forall id: nat :: Owns(flag, id) && (old(next) <= id || id < next) ==> id in live
        invariant wrapped && !old(Ready()) ==> old(next) in live
        decreases if wrapped then 0 else 1, MAX_STREAM_ID + 2 - next
      {
        var streamID := next;
        next := next + 2;
        if next > MAX_STREAM_ID {
          if wrapped { return Exhausted; }
          wrapped := true;
          next := next % (MAX_STREAM_ID + 1);
          if next == 0 { next := 2; }
        }
        if streamID !in live { return Allocated(streamID); }
      }
    }

    method Add(id: nat)
      modifies this`live
      ensures live == old(live) + {id}
    {
      live := live + {id};
    }

    method Remove(id: nat)
      modifies this`live
      ensures live == old(live) - {id}
    {
      live := live - {id};
    }
  }
}

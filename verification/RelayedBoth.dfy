/** passthruBoth: two relays between the same two streams, one for each direction.
    Each relay's source is the other one's destination. */
module RelayedBoth {
  import opened Endpoint
  import opened Duplex
  import Connection
  import R = RelayedStreams

  /** The relays sit between the accepting end of `d1` and the opening end of `d2`. */
  datatype State = State(d1: Duplex, d2: Duplex, there: R.Where, therePassed: bool, back: R.Where, backPassed: bool)

  function There(s: State): R.State { R.State(false, s.d1, s.d2, s.there, s.therePassed) }

  function Back(s: State): R.State { R.State(true, s.d2, s.d1, s.back, s.backPassed) }

  datatype Event =
    | First(st: Step)    // anything that happens to the first stream besides
    | Second(st: Step)   // anything that happens to the second stream besides
    | Onward(ev: R.Event)
    | Backward(ev: R.Event)

  /** Besides the relays, an end is acknowledged, closed for reading when the other
      is closed for writing, with that error, and closed for good once the relays
      are through with both. */
  predicate Allowed(e: Endpoint, other: Endpoint, c: Call) {
    || c.CallAcknowledge?
    || (c.CallCloseRead? && other.s.write.err.Some? && c.err == other.s.write.err)
    || (c.CallClose? && e.s.read.err.Some? && e.s.write.err.Some? && other.s.write.err.Some?)
  }

  predicate ByRelay(ev: R.Event) { !ev.First? && !ev.Second? }

  predicate CanDo(s: State, ev: Event) {
    match ev
    case First(st) => R.CanStep(s.d1, st) && (st.AppStep? && !st.atA ==> Allowed(s.d1.b, s.d2.a, st.call))
    case Second(st) => R.CanStep(s.d2, st) && (st.AppStep? && st.atA ==> Allowed(s.d2.a, s.d1.b, st.call))
    case Onward(e) => ByRelay(e) && R.CanDo(There(s), e)
    case Backward(e) => ByRelay(e) && R.CanDo(Back(s), e)
  }

  function Do(s: State, ev: Event): State
    requires CanDo(s, ev)
  {
    match ev
    case First(st) => s.(d1 := Next(s.d1, st))
    case Second(st) => s.(d2 := Next(s.d2, st))
    case Onward(e) =>
      var t := R.Do(There(s), e);
      s.(d1 := t.d1, d2 := t.d2, there := t.at, therePassed := t.passed)
    case Backward(e) =>
      var t := R.Do(Back(s), e);
      s.(d1 := t.d2, d2 := t.d1, back := t.at, backPassed := t.passed)
  }

  ghost predicate Whole(s: State) { R.Whole(There(s)) && R.Whole(Back(s)) }

  /** The relay of the other direction, which shares both streams. */
  function Opposite(t: R.State, at: R.Where, passed: bool): R.State { R.State(!t.srcA, t.d2, t.d1, at, passed) }

  /** What one relay does to its ends is harmless to the other: it reads from that
      one's destination, and writes to or closes its source. */
  lemma OppositeKeeps(t: R.State, ev: R.Event, at: R.Where, passed: bool)
    requires R.Whole(Opposite(t, at, passed)) && R.CanDo(t, ev) && ByRelay(ev)
    ensures R.Whole(Opposite(R.Do(t, ev), at, passed))
  {
    var o := Opposite(t, at, passed);
    match ev
    case Look =>
    case Accept(k) => R.StepKeeps(o, R.First(R.Feed(t, k)));
    case Discard => if t.at.n > 0 { R.StepKeeps(o, R.Second(AppStep(t.srcA, CallRead(t.at.n)))); }
    case Close => R.StepKeeps(o, R.First(R.Pass(t)));
    case Refuse => R.StepKeeps(o, R.Second(R.TurnDown(t)));
  }

  lemma StepKeeps(s: State, ev: Event)
    requires Whole(s) && CanDo(s, ev)
    ensures Whole(Do(s, ev))
  {
    match ev
    case First(st) =>
      R.StepKeeps(There(s), R.First(st));
      R.StepKeeps(Back(s), R.Second(st));
    case Second(st) =>
      R.StepKeeps(There(s), R.Second(st));
      R.StepKeeps(Back(s), R.First(st));
    case Onward(e) =>
      R.StepKeeps(There(s), e);
      OppositeKeeps(There(s), e, s.back, s.backPassed);
    case Backward(e) =>
      R.StepKeeps(Back(s), e);
      OppositeKeeps(Back(s), e, s.there, s.therePassed);
  }

  ghost predicate IsRun(run: seq<State>, events: seq<Event>) {
    && |run| == |events| + 1
    && run[0] == State(Init(), Init(), R.Looking, false, R.Looking, false)
    && forall i :: 0 <= i < |events| ==> Follows(run[i], events[i], run[i + 1])
  }

  ghost predicate Follows(s: State, ev: Event, s': State) { CanDo(s, ev) && s' == Do(s, ev) }

  lemma FollowKeeps(s: State, ev: Event, s': State)
    requires Whole(s) && Follows(s, ev, s')
    ensures Whole(s')
  {
    StepKeeps(s, ev);
  }

  lemma {:induction false} RunKeeps(run: seq<State>, events: seq<Event>, k: nat)
    requires IsRun(run, events) && k < |run|
    ensures Whole(run[k])
  {
    if k == 0 {
      Connection.ReachableInit();
    } else {
      RunKeeps(run, events, k - 1);
      FollowKeeps(run[k - 1], events[k - 1], run[k]);
    }
  }

  /** On every run and in both directions at once: what an application reads is a
      prefix of what the other one wrote, and when its read side was ended by its
      peer, all of it has come through with the error of the other side. */
  lemma BothWays(run: seq<State>, events: seq<Event>, k: nat)
    requires IsRun(run, events) && k < |run|
    ensures var (near, far) := (run[k].d1.a, run[k].d2.b);
            && far.consumed + far.s.read.buf <= near.accepted
            && near.consumed + near.s.read.buf <= far.accepted
            && (far.byPeer ==> R.CameThrough(near, run[k].d1.b, far))
            && (near.byPeer ==> R.CameThrough(far, run[k].d2.a, near))
            && (near.s.write.err.Some? && near.given.write == Never ==> R.WasRefused(near, run[k].d2.a, far))
            && (far.s.write.err.Some? && far.given.write == Never ==> R.WasRefused(far, run[k].d1.b, near))
  {
    RunKeeps(run, events, k);
    var t, b := There(run[k]), Back(run[k]);
    R.WholePrefix(t);
    R.WholePrefix(b);
    if run[k].d2.b.byPeer { R.WholeComplete(t); }
    if run[k].d1.a.byPeer { R.WholeComplete(b); }
    if run[k].d1.a.s.write.err.Some? && run[k].d1.a.given.write == Never { R.WholeRefused(t); }
    if run[k].d2.b.s.write.err.Some? && run[k].d2.b.given.write == Never { R.WholeRefused(b); }
  }
}

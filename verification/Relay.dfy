/** passthru (without waitack): bytes relayed from one stream to another, while
    both streams go on living.

    The slice that Peek returns stays valid during the write, since appending
    to the ring buffer never touches live bytes. */
module Relay {
  import opened Common

  datatype Where =
    | Looking                                                // before src.Peek
    | Copying(buf: seq<Byte>, n: nat, err: Option<nat>)      // inside dst.Write
    | Ending(cause: nat)                                     // before dst.CloseWriteWithError
    | Over

  datatype State = State(
    delivered: seq<Byte>, taken: nat, srcErr: Option<nat>,   // src: all bytes it ever had to read, those discarded
    accepted: seq<Byte>, dstErr: Option<nat>,                // dst: all bytes Write accepted
    at: Where, closedWith: Option<nat>)                      // the error with which the relay closed dst

  datatype Event =
    | Arrive(data: seq<Byte>) | SrcCloses(err: nat) | DstCloses(err: nat)
    | Peek
    | Accept(k: nat)      // dst.Write finds room for k more bytes
    | Discard             // dst.Write has returned
    | CloseDst

  predicate Enabled(s: State, e: Event) {
    match e
    case Arrive(_) => s.srcErr.None?
    case SrcCloses(_) => true
    case DstCloses(_) => true
    case Peek => s.at.Looking? && (s.taken < |s.delivered| || s.srcErr.Some?)
    case Accept(k) => s.at.Copying? && s.dstErr.None? && 0 < k <= |s.at.buf| - s.at.n
    case Discard => s.at.Copying? && (s.at.n >= |s.at.buf| || s.dstErr.Some?)
    case CloseDst => s.at.Ending?
  }

  function First(err: Option<nat>, e: nat): Option<nat> { if err.Some? then err else Some(e) }

  /** After the bytes of one Peek are dealt with. */
  function Next(err: Option<nat>): Where { if err.Some? then Ending(err.value) else Looking }

  function Step(s: State, e: Event): State
    requires Enabled(s, e) && s.taken <= |s.delivered|
  {
    match e
    case Arrive(data) => s.(delivered := s.delivered + data)
    case SrcCloses(err) => s.(srcErr := First(s.srcErr, err))
    case DstCloses(err) => s.(dstErr := First(s.dstErr, err))
    case Peek =>
      var buf := s.delivered[s.taken..];
      s.(at := if |buf| > 0 then Copying(buf, 0, s.srcErr) else Next(s.srcErr))
    case Accept(k) =>
      var c := s.at;
      if c.n + k <= |c.buf| then s.(accepted := s.accepted + c.buf[c.n..c.n + k], at := c.(n := c.n + k)) else s
    case Discard =>
      var c := s.at;
      if c.n < |c.buf| then s.(taken := s.taken + c.n, srcErr := First(s.srcErr, s.dstErr.value), at := Over)
      else s.(taken := s.taken + c.n, at := Next(c.err))
    case CloseDst => s.(dstErr := First(s.dstErr, s.at.cause), closedWith := Some(s.at.cause), at := Over)
  }

  /** Bytes accepted but not yet discarded from src. */
  function Ahead(s: State): nat { if s.at.Copying? then s.at.n else 0 }

  /** The read error was there when the relay looked, so nothing can follow. */
  ghost predicate Final(s: State) { s.srcErr.Some? && s.taken == |s.delivered| && s.accepted == s.delivered }

  ghost predicate Inv(s: State) {
    && s.taken + Ahead(s) <= |s.delivered|
    && s.accepted == s.delivered[..s.taken + Ahead(s)]
    && (s.at.Copying? ==>
          && s.at.n <= |s.at.buf| && s.taken + |s.at.buf| <= |s.delivered|
          && s.at.buf == s.delivered[s.taken..s.taken + |s.at.buf|]
          && (s.at.err.Some? ==> s.srcErr == s.at.err && s.taken + |s.at.buf| == |s.delivered|))
    && (s.at.Ending? || s.closedWith.Some? ==> Final(s))
    && (s.at.Ending? ==> s.srcErr == Some(s.at.cause))
    && (s.closedWith.Some? ==> s.at.Over? && s.srcErr == s.closedWith)
  }

  lemma AcceptKeeps(s: State, k: nat)
    requires Inv(s) && Enabled(s, Accept(k))
    ensures Inv(Step(s, Accept(k)))
  {
    var c := s.at;
    assert c.buf[c.n..c.n + k] == s.delivered[s.taken + c.n..s.taken + c.n + k];
    assert s.delivered[..s.taken + c.n] + s.delivered[s.taken + c.n..s.taken + c.n + k] == s.delivered[..s.taken + c.n + k];
  }

  lemma StepKeeps(s: State, e: Event)
    requires Inv(s) && Enabled(s, e)
    ensures Inv(Step(s, e))
  {
    match e
    case Accept(k) => AcceptKeeps(s, k);
    case Arrive(data) =>
      assert (s.delivered + data)[..s.taken + Ahead(s)] == s.delivered[..s.taken + Ahead(s)];
      if s.at.Copying? {
        assert (s.delivered + data)[s.taken..s.taken + |s.at.buf|] == s.delivered[s.taken..s.taken + |s.at.buf|];
      }
    case Peek => assert s.delivered[..|s.delivered|] == s.delivered;
    case Discard => assert s.delivered[..|s.delivered|] == s.delivered;
    case _ =>
  }

  ghost predicate IsRun(states: seq<State>, events: seq<Event>) {
    && |states| == |events| + 1
    && states[0] == State([], 0, None, [], None, Looking, None)
    && forall i :: 0 <= i < |events| ==>
         states[i].taken <= |states[i].delivered| && Enabled(states[i], events[i]) && states[i + 1] == Step(states[i], events[i])
  }

  lemma {:induction false} RunKeeps(states: seq<State>, events: seq<Event>, i: nat)
    requires IsRun(states, events) && i < |states|
    ensures Inv(states[i])
  {
    if i > 0 {
      RunKeeps(states, events, i - 1);
      StepKeeps(states[i - 1], events[i - 1]);
    }
  }

  /** dst has always accepted a prefix of what src delivered, running ahead of
      what was discarded by no more than the write under way; once the relay
      has passed src's read error on, dst has accepted every byte. */
  lemma Transparent(states: seq<State>, events: seq<Event>, i: nat)
    requires IsRun(states, events) && i < |states|
    ensures states[i].accepted <= states[i].delivered
    ensures states[i].taken <= |states[i].accepted|
    ensures states[i].closedWith.Some? ==> states[i].closedWith == states[i].srcErr && states[i].accepted == states[i].delivered
  {
    RunKeeps(states, events, i);
  }

  /** When dst takes no more, the relay is over, nothing of what dst accepted is lost
      or given twice, and src is closed with dst's error unless it was closed before. */
  lemma SourceIsClosed(states: seq<State>, events: seq<Event>, i: nat)
    requires IsRun(states, events) && i < |events| && events[i] == Discard && states[i].at.n < |states[i].at.buf|
    ensures var s, s' := states[i], states[i + 1];
            && s'.at.Over? && s'.closedWith.None? && s'.taken == |s'.accepted| && s'.accepted == s.accepted
            && s.dstErr.Some? && s'.dstErr == s.dstErr
            && s'.srcErr == if s.srcErr.Some? then s.srcErr else s.dstErr
  {
    RunKeeps(states, events, i);
    RunKeeps(states, events, i + 1);
  }
}

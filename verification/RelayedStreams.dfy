/** Two streams joined by a relay: what one application writes into the first
    comes out of the second, through both protocols and the relay between them.
    RelayedBoth.dfy puts two such relays, one for each direction, together. */
module RelayedStreams {
  import opened Common
  import opened Frames
  import opened Stream
  import opened Endpoint
  import opened EndpointProofs
  import opened Duplex
  import opened DuplexTheorems
  import Connection
  import opened Closing

  datatype Where =
    | Looking                                             // before src.Peek
    | Copying(buf: seq<Byte>, n: nat, err: Option<Error>) // inside dst.Write
    | Ending(cause: Error)                                // before dst.CloseWriteWithError
    | Failing(cause: Error)                               // before src.CloseReadWithError
    | Over

  /** The relay reads from one end of `d1` (the opening end if `srcA`) and writes
      to the other kind of end of `d2`. `passed` says that it has closed the write
      side of `d2`. */
  datatype State = State(srcA: bool, d1: Duplex, d2: Duplex, at: Where, passed: bool)

  datatype Event =
    | First(st: Step)    // anything that happens to the first stream besides
    | Second(st: Step)   // anything that happens to the second stream besides
    | Look
    | Accept(k: nat)     // dst.Write finds room for k more bytes
    | Discard            // dst.Write has returned
    | Close
    | Refuse

  function End(d: Duplex, atA: bool): Endpoint { if atA then d.a else d.b }

  function Src(s: State): Endpoint { End(s.d1, s.srcA) }

  function Dst(s: State): Endpoint { End(s.d2, !s.srcA) }

  /** Only the relay reads from its source. Its watcher closes the read side when
      the destination is closed, with the destination's error; both sides are
      closed for good after that. */
  predicate Others1(s: State, st: Step) {
    st.AppStep? && st.atA == s.srcA ==>
      && !st.call.CallRead?
      && (st.call.CallCloseRead? ==> Dst(s).s.write.err.Some? && st.call.err == Dst(s).s.write.err)
      && (st.call.CallClose? ==> Dst(s).s.write.err.Some? && Src(s).s.read.err.Some?)
  }

  /** What others may call on the destination: only the relay writes to it and
      closes it for writing. */
  predicate Harmless(dst: Endpoint, c: Call) {
    c.CallRead? || c.CallAcknowledge? || c.CallCloseRead? || (c.CallClose? && dst.s.write.err.Some?)
  }

  predicate Others2(s: State, st: Step) { st.AppStep? && st.atA != s.srcA ==> Harmless(Dst(s), st.call) }

  function Feed(s: State, k: nat): Step
    requires s.at.Copying? && s.at.n + k <= |s.at.buf|
  {
    AppStep(!s.srcA, CallWrite(s.at.buf[s.at.n..s.at.n + k]))
  }

  function Pass(s: State): Step
    requires s.at.Ending?
  {
    AppStep(!s.srcA, CallCloseWrite(Some(s.at.cause)))
  }

  function TurnDown(s: State): Step
    requires s.at.Failing?
  {
    AppStep(s.srcA, CallCloseRead(Some(s.at.cause)))
  }

  predicate CanStep(d: Duplex, st: Step) { Enabled(d, st) && !Breaks(d, st) }

  predicate CanDo(s: State, ev: Event) {
    match ev
    case First(st) => CanStep(s.d1, st) && Others1(s, st)
    case Second(st) => CanStep(s.d2, st) && Others2(s, st)
    case Look => s.at.Looking? && Src(s).known && (Src(s).s.read.buf != [] || Src(s).s.read.err.Some?)
    case Accept(k) => s.at.Copying? && 0 < k && s.at.n + k <= |s.at.buf| && CanStep(s.d2, Feed(s, k))
    case Discard => s.at.Copying? && (s.at.n >= |s.at.buf| || Dst(s).s.write.err.Some?)
                    && (s.at.n > 0 ==> CanStep(s.d1, AppStep(s.srcA, CallRead(s.at.n))))
    case Close => s.at.Ending? && CanStep(s.d2, Pass(s))
    case Refuse => s.at.Failing? && CanStep(s.d1, TurnDown(s))
  }

  function Ahead(err: Option<Error>): Where { if err.Some? then Ending(err.value) else Looking }

  function Do(s: State, ev: Event): State
    requires CanDo(s, ev)
  {
    match ev
    case First(st) => s.(d1 := Next(s.d1, st))
    case Second(st) => s.(d2 := Next(s.d2, st))
    case Look =>
      s.(at := if Src(s).s.read.buf != [] then Copying(Src(s).s.read.buf, 0, Src(s).s.read.err) else Ahead(Src(s).s.read.err))
    case Accept(k) =>
      s.(d2 := Next(s.d2, Feed(s, k)), at := s.at.(n := s.at.n + k))
    case Discard =>
      s.(d1 := if s.at.n > 0 then Next(s.d1, AppStep(s.srcA, CallRead(s.at.n))) else s.d1,
         at := if s.at.n < |s.at.buf| then Failing(Dst(s).s.write.err.value) else Ahead(s.at.err))
    case Close =>
      s.(d2 := Next(s.d2, Pass(s)), at := Over, passed := s.passed || Dst(s).s.write.err.None?)
    case Refuse => s.(d1 := Next(s.d1, TurnDown(s)), at := Over)
  }

  // ----- invariants

  /** What is between the two streams. */
  ghost predicate Carries(src: Endpoint, dst: Endpoint, at: Where) {
    match at
    case Looking => dst.accepted == src.consumed
    case Copying(buf, n, err) =>
      && n <= |buf| && buf <= src.s.read.buf && dst.accepted == src.consumed + buf[..n]
      && (err.Some? ==> src.s.read.err == err && buf == src.s.read.buf)
    case Ending(cause) => dst.accepted == src.consumed && src.s.read.err == Some(cause) && src.s.read.buf == []
    case Failing(cause) => dst.accepted == src.consumed && dst.s.write.err == Some(cause)
    case Over => dst.accepted == src.consumed && src.s.read.err.Some? && dst.s.write.err.Some?
  }

  /** The read side of the source was closed by its peer, unless the destination
      was closed before, and then with the destination's error; that one was closed
      by its own peer, or by the relay with the source's error. */
  ghost predicate Joined(src: Endpoint, dst: Endpoint, passed: bool) {
    && (src.s.read.err.Some? ==> src.byPeer || dst.s.write.err.Some?)
    && (src.given.read.With? ==> dst.s.write.err.Some? && src.given.read.err == dst.s.write.err)
    && (dst.s.write.err.Some? ==> passed || dst.inp.reset)
    && (dst.given.write.With? <==> passed)
    && (passed ==> src.byPeer && src.s.read.err.Some? && src.s.read.buf == [] && dst.accepted == src.consumed
                   && dst.s.write.err.Some? && dst.given.write == With(src.s.read.err))
  }

  ghost predicate Whole(s: State) {
    && Reachable(s.d1) && Reachable(s.d2)
    && Carries(Src(s), Dst(s), s.at)
    && Joined(Src(s), Dst(s), s.passed)
    && (s.passed ==> s.at.Over?)
  }

  // ----- what others do to the relay's ends

  /** The source as the relay sees it move; `arg` is what it may be closed with. */
  ghost predicate SrcGoes(e: Endpoint, e': Endpoint, arg: Closed) {
    && e'.consumed == e.consumed && e.s.read.buf <= e'.s.read.buf
    && (e.s.read.err.Some? ==> e'.s.read.err == e.s.read.err && e'.s.read.buf == e.s.read.buf && e'.byPeer == e.byPeer)
    && (e.byPeer ==> e'.byPeer)
    && (e.s.read.err.None? && e'.s.read.err.Some? ==> e'.byPeer || (arg.With? && e'.given.read == arg))
    && (e'.given.read == e.given.read || (e.s.read.err.None? && arg.With? && e'.given.read == arg))
  }

  /** The destination as the relay sees it move. */
  ghost predicate DstGoes(e: Endpoint, e': Endpoint) {
    && e'.accepted == e.accepted && e'.given.write == e.given.write
    && (e.s.write.err.Some? ==> e'.s.write.err == e.s.write.err)
    && (e.inp.reset ==> e'.inp.reset)
    && (e.s.write.err.None? && e'.s.write.err.Some? ==> e'.inp.reset)
  }

  /** The error that the call gives for the read side. */
  function Gives(c: Call): Closed { if c.CallCloseRead? || c.CallClose? then With(c.err) else Never }

  lemma CallGoes(e: Endpoint, c: Call)
    requires CallEnabled(e, c) && !c.CallRead?
    ensures SrcGoes(e, CallStep(e, c), Gives(c))
  {
  }

  lemma OtherCallGoes(e: Endpoint, c: Call)
    requires CallEnabled(e, c) && Harmless(e, c)
    ensures DstGoes(e, CallStep(e, c))
  {
  }

  lemma WriterGoes(e: Endpoint)
    requires WriterEnabled(e)
    ensures SrcGoes(e, WriterStep(e), Never) && DstGoes(e, WriterStep(e))
  {
    WriterUntouched(e);
  }

  /** How an incoming frame changes the stream, as far as the relay sees it. */
  ghost predicate Hears(s: Stream, f: Frame, t: Stream) {
    && s.read.buf <= t.read.buf && (s.read.err.Some? ==> t.read.err == s.read.err && t.read.buf == s.read.buf)
    && (s.write.err.Some? ==> t.write.err == s.write.err)
    && (s.write.err.None? && t.write.err.Some? ==> IsResetRead(f))
  }

  lemma DataHeard(s: Stream, f: Frame)
    requires f.Data?
    ensures var t := Store(SeeAck(s, f.ack), f.payload); Hears(s, f, if f.eof then SeeEnd(t, Eof) else t)
  {
  }

  lemma ResetHeard(s: Stream, f: Frame)
    requires f.Reset?
    ensures Hears(s, f, ProcessReset(s, f))
  {
  }

  lemma HeardGoes(e: Endpoint, f: Frame, t: Stream)
    requires Hears(e.s, f, t)
    ensures SrcGoes(e, Absorb(e, f, t), Never) && DstGoes(e, Absorb(e, f, t))
  {
  }

  lemma ReceiveGoes(e: Endpoint, f: Frame)
    requires Expected(e, f) && Inv(e) && Receive(e, f).Delivered?
    ensures SrcGoes(e, Receive(e, f).e, Never) && DstGoes(e, Receive(e, f).e)
  {
    if f.Data? {
      DataDelivered(e, f);
      DataHeard(e.s, f);
    } else if e.known && e.s.live && f.Reset? {
      ResetHeard(e.s, f);
    }
    HeardGoes(e, f, Dispatch(e.known, e.inp.frames != [], e.opener, e.s, f).stream);
  }

  // ----- steps of the two streams

  lemma Expects(d: Duplex, toA: bool)
    requires DuplexInv(d) && CanStep(d, DeliverStep(toA))
    ensures Expected(End(d, toA), Pending(End(d, !toA), End(d, toA))[0])
  {
    if toA && d.a.out.frames == [] { SilentBeforeOpen(d); }
    NextIsExpected(End(d, !toA), End(d, toA));
  }

  /** What is not a call on this end: its writer, or a frame for it. */
  lemma OtherStep(d: Duplex, st: Step, atA: bool)
    requires DuplexInv(d) && CanStep(d, st) && !(st.AppStep? && st.atA == atA)
    ensures SrcGoes(End(d, atA), End(Next(d, st), atA), Never) && DstGoes(End(d, atA), End(Next(d, st), atA))
  {
    match st
    case AppStep(_, _) =>
    case WriteStep(a) => if a == atA { WriterGoes(End(d, atA)); }
    case CreateStep =>
    case DeliverStep(a) =>
      if a == atA {
        Expects(d, a);
        ReceiveGoes(End(d, a), Pending(End(d, !a), End(d, a))[0]);
      }
  }

  lemma SrcStep(d: Duplex, st: Step, atA: bool)
    requires DuplexInv(d) && CanStep(d, st) && (st.AppStep? && st.atA == atA ==> !st.call.CallRead?)
    ensures SrcGoes(End(d, atA), End(Next(d, st), atA), if st.AppStep? && st.atA == atA then Gives(st.call) else Never)
  {
    if st.AppStep? && st.atA == atA { CallGoes(End(d, atA), st.call); } else { OtherStep(d, st, atA); }
  }

  lemma DstStep(d: Duplex, st: Step, atA: bool)
    requires DuplexInv(d) && CanStep(d, st) && (st.AppStep? && st.atA == atA ==> Harmless(End(d, atA), st.call))
    ensures DstGoes(End(d, atA), End(Next(d, st), atA))
  {
    if st.AppStep? && st.atA == atA { OtherCallGoes(End(d, atA), st.call); } else { OtherStep(d, st, atA); }
  }

  // ----- the invariant

  lemma FirstKeeps(s: State, st: Step)
    requires Whole(s) && CanDo(s, First(st))
    ensures Whole(Do(s, First(st)))
  {
    ReachableKeeps(s.d1);
    SrcStep(s.d1, st, s.srcA);
    Connection.ReachableStep(s.d1, st);
  }

  lemma SecondKeeps(s: State, st: Step)
    requires Whole(s) && CanDo(s, Second(st))
    ensures Whole(Do(s, Second(st)))
  {
    ReachableKeeps(s.d2);
    DstStep(s.d2, st, !s.srcA);
    Connection.ReachableStep(s.d2, st);
  }

  lemma OneMorePiece(done: seq<Byte>, buf: seq<Byte>, n: nat, k: nat)
    requires n + k <= |buf|
    ensures done + buf[..n] + buf[n..n + k] == done + buf[..n + k]
  {
    assert buf[..n] + buf[n..n + k] == buf[..n + k];
  }

  lemma AcceptKeeps(s: State, k: nat)
    requires Whole(s) && CanDo(s, Accept(k))
    ensures Whole(Do(s, Accept(k)))
  {
    Connection.ReachableStep(s.d2, Feed(s, k));
    OneMorePiece(Src(s).consumed, s.at.buf, s.at.n, k);
  }

  lemma DiscardKeeps(s: State)
    requires Whole(s) && CanDo(s, Discard)
    ensures Whole(Do(s, Discard))
  {
    if s.at.n > 0 { Connection.ReachableStep(s.d1, AppStep(s.srcA, CallRead(s.at.n))); }
    assert Src(s).s.read.buf[..s.at.n] == s.at.buf[..s.at.n];
  }

  lemma CloseKeeps(s: State)
    requires Whole(s) && CanDo(s, Close)
    ensures Whole(Do(s, Close))
  {
    Connection.ReachableStep(s.d2, Pass(s));
  }

  lemma RefuseKeeps(s: State)
    requires Whole(s) && CanDo(s, Refuse)
    ensures Whole(Do(s, Refuse))
  {
    Connection.ReachableStep(s.d1, TurnDown(s));
  }

  lemma StepKeeps(s: State, ev: Event)
    requires Whole(s) && CanDo(s, ev)
    ensures Whole(Do(s, ev))
  {
    match ev
    case First(st) => FirstKeeps(s, st);
    case Second(st) => SecondKeeps(s, st);
    case Look =>
    case Accept(k) => AcceptKeeps(s, k);
    case Discard => DiscardKeeps(s);
    case Close => CloseKeeps(s);
    case Refuse => RefuseKeeps(s);
  }

  // ----- whole runs

  ghost predicate IsRun(run: seq<State>, events: seq<Event>) {
    && |run| == |events| + 1
    && (exists srcA :: run[0] == State(srcA, Init(), Init(), Looking, false))
    && forall i :: 0 <= i < |events| ==> Follows(run[i], events[i], run[i + 1])
  }

  ghost predicate Follows(s: State, ev: Event, s': State) { CanDo(s, ev) && s' == Do(s, ev) }

  lemma FollowKeeps(s: State, ev: Event, s': State)
    requires Whole(s) && Follows(s, ev, s')
    ensures Whole(s')
  {
    StepKeeps(s, ev);
  }

  lemma {:induction false} RunKeeps(run: seq<State>, events: seq<Event>, k: nat)
    requires IsRun(run, events) && k < |run|
    ensures Whole(run[k])
  {
    if k == 0 {
      Connection.ReachableInit();
    } else {
      RunKeeps(run, events, k - 1);
      FollowKeeps(run[k - 1], events[k - 1], run[k]);
    }
  }

  function Near(s: State): Endpoint { End(s.d1, !s.srcA) }

  function FarEnd(s: State): Endpoint { End(s.d2, s.srcA) }

  lemma CarriedPrefix(src: Endpoint, dst: Endpoint, at: Where)
    requires Carries(src, dst, at)
    ensures dst.accepted <= src.consumed + src.s.read.buf
  {
    if at.Copying? { assert src.s.read.buf[..at.n] == at.buf[..at.n]; }
  }

  lemma WholePrefix(s: State)
    requires Whole(s)
    ensures FarEnd(s).consumed + FarEnd(s).s.read.buf <= Near(s).accepted
  {
    EndToEnd(s.d1, !s.srcA);
    EndToEnd(s.d2, !s.srcA);
    CarriedPrefix(Src(s), Dst(s), s.at);
  }

  /** On every run, what the far application has read or can read is a prefix of
      what the near one has written. */
  lemma NothingInvented(run: seq<State>, events: seq<Event>, k: nat)
    requires IsRun(run, events) && k < |run|
    ensures FarEnd(run[k]).consumed + FarEnd(run[k]).s.read.buf <= Near(run[k]).accepted
  {
    RunKeeps(run, events, k);
    WholePrefix(run[k]);
  }

  /** The far end of a transfer: all bytes have come through, and its error is what
      the near application gave to its close, over both streams; it is a normal end
      exactly if that was one. */
  ghost predicate CameThrough(near: Endpoint, src: Endpoint, far: Endpoint) {
    && far.consumed + far.s.read.buf == near.accepted
    && src.byPeer && src.s.read.err.Some? && near.given.write.With? && far.s.read.err.Some?
    && var given, between, seen := near.given.write.err, src.s.read.err.value, far.s.read.err.value;
       && (seen == Eof <==> Normal(given) || Bare100(given))
       && (seen != Eof ==> Crosses(given.value, between) && Crosses(between, seen))
  }

  lemma WholeComplete(s: State)
    requires Whole(s) && FarEnd(s).byPeer
    ensures CameThrough(Near(s), Src(s), FarEnd(s))
  {
    ReachableOrigins(s.d2);
    HowReadingEnds(s.d2, !s.srcA);
    assert s.passed;
    HowReadingEnds(s.d1, !s.srcA);
    EndToEnd(s.d1, !s.srcA);
    EndToEnd(s.d2, !s.srcA);
  }

  /** When the second stream ends for the far application, the first had ended for
      the relay, and every byte the near application wrote has come through:
      a truncated transfer never looks complete. A normal close arrives as one, and
      any other close with its error. */
  lemma NothingTruncated(run: seq<State>, events: seq<Event>, k: nat)
    requires IsRun(run, events) && k < |run| && FarEnd(run[k]).byPeer
    ensures CameThrough(Near(run[k]), Src(run[k]), FarEnd(run[k]))
  {
    RunKeeps(run, events, k);
    WholeComplete(run[k]);
  }

  /** The near application's writes fail with what the far application gave when it
      closed its read side, over both streams. */
  ghost predicate WasRefused(near: Endpoint, dst: Endpoint, far: Endpoint) {
    && far.given.read.With? && dst.s.write.err.Some? && near.s.write.err.Some?
    && var given, between, seen := far.given.read.err, dst.s.write.err.value, near.s.write.err.value;
       if Normal(given) then seen == Code(100) else Crosses(given.value, between) && Crosses(between, seen)
  }

  lemma WholeRefused(s: State)
    requires Whole(s) && Near(s).s.write.err.Some? && Near(s).given.write == Never
    ensures WasRefused(Near(s), Dst(s), FarEnd(s))
  {
    ReachableOrigins(s.d1);
    HowWritingEnds(s.d1, !s.srcA);
    HowWritingEnds(s.d2, !s.srcA);
  }

  /** A refusal travels back: if the near write side was closed by its peer, the far
      application has closed its read side. */
  lemma RefusalTravelsBack(run: seq<State>, events: seq<Event>, k: nat)
    requires IsRun(run, events) && k < |run| && Near(run[k]).s.write.err.Some? && Near(run[k]).given.write == Never
    ensures WasRefused(Near(run[k]), Dst(run[k]), FarEnd(run[k]))
  {
    RunKeeps(run, events, k);
    WholeRefused(run[k]);
  }

  /** A relay that is over leaves neither side open: its source cannot be read nor
      its destination written any more. */
  lemma LeavesNothingOpen(run: seq<State>, events: seq<Event>, k: nat)
    requires IsRun(run, events) && k < |run| && run[k].at.Over?
    ensures Src(run[k]).s.read.err.Some? && Dst(run[k]).s.write.err.Some?
    ensures Src(run[k]).given.read.With? ==> Src(run[k]).given.read.err == Dst(run[k]).s.write.err
  {
    RunKeeps(run, events, k);
  }
}

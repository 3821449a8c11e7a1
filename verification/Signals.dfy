/** What the two sides tell each other besides bytes: acknowledgements, and the
    error with which a side was closed. */
module Signals {
  import opened Common
  import opened Frames
  import opened Stream
  import opened Endpoint
  import opened EndpointProofs
  import opened Duplex
  import opened DuplexTheorems

  predicate IsAck(f: Frame) { f.Data? && f.ack }

  ghost predicate SaysAck(h: seq<Frame>) { exists i :: 0 <= i < |h| && IsAck(h[i]) }

  /** How the reader sees the end of the stream: ECLOSED is a normal end. */
  function EndError(f: Frame): Error
    requires IsEnd(f)
  {
    if f.Data? || f.err == ECLOSED then Eof else f.err
  }

  /** What becomes of an error on its way from the writer to the reader. */
  function Perceived(e: Error): Error { if e == ECLOSED then Eof else if Sent(e) == ECLOSED then Eof else Sent(e) }

  ghost predicate EndsWith(h: seq<Frame>, err: Error) { exists i :: 0 <= i < |h| && IsEnd(h[i]) && EndError(h[i]) == err }

  // ----- what one endpoint says and hears

  /** Acknowledgements said and heard are those on record. */
  ghost predicate Acked(e: Endpoint) {
    && (!e.skipped ==> (e.s.flags.seenAck <==> SaysAck(e.inp.frames)))
    && (e.skipped ==> !e.s.flags.seenAck)
    && (SaysAck(e.out.frames) ==> e.s.write.acked && !e.s.flags.needAck)
    && (!e.skipped && e.s.write.acked && !e.s.flags.needAck ==> SaysAck(e.out.frames))
  }

  ghost predicate EndsTruly(h: seq<Frame>, err: Option<Error>) {
    forall i :: 0 <= i < |h| && IsEnd(h[i]) ==> err.Some? && EndError(h[i]) == Perceived(err.value)
  }

  /** Ends said carry the write error; an end heard is the read error. */
  ghost predicate Ended(e: Endpoint) {
    && EndsTruly(e.out.frames, e.s.write.err)
    && (e.byPeer ==> e.s.read.err.Some? && EndsWith(e.inp.frames, e.s.read.err.value))
  }

  ghost predicate Told(e: Endpoint) { Acked(e) && Ended(e) }

  lemma SaysAppend(h: seq<Frame>, f: Frame)
    ensures SaysAck(h + [f]) <==> SaysAck(h) || IsAck(f)
    ensures forall err :: EndsWith(h, err) || (IsEnd(f) && EndError(f) == err) ==> EndsWith(h + [f], err)
  {
    var g := h + [f];
    assert g[|h|] == f;
    if SaysAck(h) {
      var i :| 0 <= i < |h| && IsAck(h[i]);
      assert IsAck(g[i]);
    }
    forall err | EndsWith(h, err) ensures EndsWith(g, err) {
      var i :| 0 <= i < |h| && IsEnd(h[i]) && EndError(h[i]) == err;
      assert IsEnd(g[i]) && EndError(g[i]) == err;
    }
  }

  // ----- the writer

  /** The stream `t` after emitting `f` in state `s`. */
  ghost predicate Truthful(s: Stream, f: Frame, t: Stream) {
    && (IsEnd(f) ==> s.write.err.Some? && EndError(f) == Perceived(s.write.err.value))
    && (IsAck(f) <==> s.flags.needAck && !t.flags.needAck)
    && (t.flags.needAck ==> s.flags.needAck)
    && SameTold(s, t)
  }

  predicate SameTold(s: Stream, t: Stream) {
    && t.write.err == s.write.err && t.read.err == s.read.err
    && t.write.acked == s.write.acked && t.flags.seenAck == s.flags.seenAck
  }

  lemma DataTruthful(s: Stream)
    ensures Truthful(s, DataFrame(Prepare(s), PreparedData(s)), AfterData(Prepare(s)))
  {
  }

  lemma ResetTruthful(s: Stream)
    requires WantsReset(s)
    ensures Truthful(s, ResetTurn(s).frame, ResetTurn(s).stream)
  {
  }

  lemma CtrlTruthful(s: Stream)
    requires !CtrlTurn(s).Quiet?
    ensures Truthful(s, CtrlTurn(s).frame, CtrlTurn(s).stream)
  {
    if WantsData(s) { DataTruthful(s); }
    else if WantsWindow(s) { }
    else if WantsReset(s) { ResetTruthful(s); }
    else { }
  }

  lemma DataTurnTruthful(s: Stream)
    requires Sendable(s) > 0
    ensures Truthful(s, DataTurn(s).frame, DataTurn(s).stream)
  {
    DataTruthful(s);
  }

  lemma EmitTold(e: Endpoint, f: Frame, t: Stream, e': Endpoint)
    requires Told(e) && !e.skipped && Truthful(e.s, f, t) && (e.s.flags.needAck ==> e.s.write.acked)
    requires e'.s == t && e'.out.frames == e.out.frames + [f] && e'.inp == e.inp
    requires e'.byPeer == e.byPeer && e'.skipped == e.skipped
    ensures Told(e')
  {
    SaysAppend(e.out.frames, f);
  }

  lemma SilentTold(e: Endpoint, e': Endpoint)
    requires Told(e) && SameTold(e.s, e'.s) && e'.s.flags.needAck == e.s.flags.needAck
    requires e'.out == e.out && e'.inp == e.inp && e'.byPeer == e.byPeer && e'.skipped == e.skipped
    ensures Told(e')
  {
  }

  lemma SkippedTold(e: Endpoint)
    requires Inv(e) && e.skipped && !e.s.flags.seenAck
    ensures Told(e)
  {
  }

  lemma TurnTold(e: Endpoint)
    requires Told(e) && !e.skipped && (e.s.flags.needAck ==> e.s.write.acked)
    ensures Told(Continue(e, CtrlTurn(e.s)))
  {
    var m := CtrlTurn(e.s);
    if m.Quiet? {
      SilentTold(e, Continue(e, m));
    } else {
      CtrlTruthful(e.s);
      EmitTold(e, m.frame, m.stream, Continue(e, m));
    }
  }

  lemma DataTold(e: Endpoint)
    requires Told(e) && !e.skipped && (e.s.flags.needAck ==> e.s.write.acked) && WriterEnabled(e) && e.writer == DataTaken
    ensures Told(WriterStep(e))
  {
    if Sendable(e.s) > 0 {
      DataTurnTruthful(e.s);
      EmitTold(e, DataTurn(e.s).frame, DataTurn(e.s).stream, WriterStep(e));
    } else {
      SilentTold(e, WriterStep(e));
    }
  }

  ghost predicate MayTurn(e: Endpoint) { Told(e) && !e.skipped && (e.s.flags.needAck ==> e.s.write.acked) }

  lemma CtrlTold(e: Endpoint)
    requires MayTurn(e) && WriterEnabled(e) && (e.writer.CtrlTaken? || e.writer.CtrlSent?)
    requires e.writer.CtrlTaken? ==> !NeverHappened(e.s)
    ensures Told(WriterStep(e))
  {
    if e.writer == CtrlSent(true) {
      var c := e.(s := Complete(e.s));
      SilentTold(e, c);
      TurnTold(c);
      assert WriterStep(e) == Continue(c, CtrlTurn(c.s));
    } else {
      TurnTold(e);
      assert WriterStep(e) == Continue(e, CtrlTurn(e.s));
    }
  }

  lemma RestTold(e: Endpoint)
    requires Told(e) && WriterEnabled(e) && (e.writer == Idle || e.writer == DataSent)
    ensures Told(WriterStep(e))
  {
    SilentTold(e, WriterStep(e));
  }

  lemma SkipTold(e: Endpoint)
    requires WriterEnabled(e) && e.writer == CtrlTaken && NeverHappened(e.s) && Inv(WriterStep(e))
    ensures Told(WriterStep(e))
  {
    SkippedTold(WriterStep(e));
  }

  lemma WriterTold(e: Endpoint)
    requires MayTurn(e) && WriterEnabled(e) && Inv(WriterStep(e))
    ensures Told(WriterStep(e))
  {
    match e.writer
    case CtrlTaken => if NeverHappened(e.s) { SkipTold(e); } else { CtrlTold(e); }
    case CtrlSent(_) => CtrlTold(e);
    case DataTaken => DataTold(e);
    case _ => RestTold(e);
  }

  // ----- the application

  lemma CallTold(e: Endpoint, c: Call)
    requires Inv(e) && Told(e) && CallEnabled(e, c)
    ensures Told(CallStep(e, c))
  {
  }

  // ----- incoming frames

  /** What hearing `f` does to the stream. */
  ghost predicate Hears(s: Stream, f: Frame, t: Stream) {
    && (t.flags.seenAck <==> s.flags.seenAck || IsAck(f))
    && t.write.acked == s.write.acked && t.flags.needAck == s.flags.needAck
    && (s.write.err.Some? ==> t.write.err == s.write.err)
    && (s.read.err.Some? ==> t.read.err == s.read.err)
    && (s.read.err.None? && t.read.err.Some? ==> IsEnd(f) && t.read.err == Some(EndError(f)))
  }

  lemma HearTold(e: Endpoint, f: Frame, e': Endpoint)
    requires Told(e) && !e.skipped && !e'.skipped && Hears(e.s, f, e'.s)
    requires e'.out == e.out && e'.inp.frames == e.inp.frames + [f]
    requires e'.byPeer == (e.byPeer || (e.s.read.err.None? && e'.s.read.err.Some?))
    ensures Told(e')
  {
    SaysAppend(e.inp.frames, f);
  }

  lemma DataHeard(s: Stream, f: Frame)
    requires f.Data?
    ensures var t := Store(SeeAck(s, f.ack), f.payload); Hears(s, f, if f.eof then SeeEnd(t, Eof) else t)
  {
  }

  lemma ResetHeard(s: Stream, f: Frame)
    requires f.Reset?
    ensures Hears(s, f, ProcessReset(s, f))
  {
  }

  lemma ReceiveTold(e: Endpoint, f: Frame)
    requires Inv(e) && Told(e) && Expected(e, f) && Receive(e, f).Delivered? && Inv(Receive(e, f).e)
    ensures Told(Receive(e, f).e)
  {
    var e' := Receive(e, f).e;
    assert !e.skipped;
    if f.Data? {
      DataDelivered(e, f);
      DataHeard(e.s, f);
    } else if e.known && e.s.live && f.Reset? {
      ResetHeard(e.s, f);
    }
    HearTold(e, f, e');
  }

  // ----- all runs

  lemma SkippedRests(e: Endpoint)
    requires Inv(e) && Told(e) && e.skipped && WriterEnabled(e) && Inv(WriterStep(e))
    ensures Told(WriterStep(e))
  {
    WriterEmits(e);
    assert WriterStep(e).skipped && WriterStep(e).out.frames == [];
    SeenAckKept(e);
    SkippedTold(WriterStep(e));
  }

  lemma TurnKeepsAck(e: Endpoint)
    ensures Continue(e, CtrlTurn(e.s)).s.flags.seenAck == e.s.flags.seenAck
  {
    if !CtrlTurn(e.s).Quiet? { CtrlTruthful(e.s); }
  }

  lemma SeenAckKept(e: Endpoint)
    requires WriterEnabled(e) && !e.s.flags.seenAck
    ensures !WriterStep(e).s.flags.seenAck
  {
    match e.writer
    case CtrlTaken => CtrlKeepsAck(e);
    case CtrlSent(_) => CtrlKeepsAck(e);
    case DataTaken => DataKeepsAck(e);
    case _ =>
  }

  lemma CtrlKeepsAck(e: Endpoint)
    requires WriterEnabled(e) && !e.s.flags.seenAck && (e.writer.CtrlTaken? || e.writer.CtrlSent?)
    ensures !WriterStep(e).s.flags.seenAck
  {
    if e.writer.CtrlTaken? && NeverHappened(e.s) {
      assert WriterStep(e).s == Skip(e.s);
    } else {
      var c := if e.writer == CtrlSent(true) then e.(s := Complete(e.s)) else e;
      TurnKeepsAck(c);
      assert WriterStep(e) == Continue(c, CtrlTurn(c.s));
    }
  }

  lemma DataKeepsAck(e: Endpoint)
    requires WriterEnabled(e) && !e.s.flags.seenAck && e.writer == DataTaken
    ensures !WriterStep(e).s.flags.seenAck
  {
    if Sendable(e.s) > 0 { DataTurnTruthful(e.s); }
  }

  ghost predicate BothTold(d: Duplex) { Told(d.a) && Told(d.b) }

  lemma StepTold(d: Duplex, st: Step)
    requires DuplexInv(d) && BothTold(d) && Enabled(d, st) && !Breaks(d, st) && DuplexInv(Next(d, st))
    ensures BothTold(Next(d, st))
  {
    match st
    case AppStep(atA, call) => CallTold(if atA then d.a else d.b, call);
    case WriteStep(atA) =>
      var e := if atA then d.a else d.b;
      if e.skipped { SkippedRests(e); } else { WriterTold(e); }
    case CreateStep => SilentTold(d.b, Created(d.b));
    case DeliverStep(toA) => DeliverTold(d, toA);
  }

  lemma DeliverTold(d: Duplex, toA: bool)
    requires DuplexInv(d) && BothTold(d) && Enabled(d, DeliverStep(toA)) && !Breaks(d, DeliverStep(toA))
    requires DuplexInv(Next(d, DeliverStep(toA)))
    ensures BothTold(Next(d, DeliverStep(toA)))
  {
    if toA {
      if d.a.out.frames == [] { SilentBeforeOpen(d); }
      NextIsExpected(d.b, d.a);
      ReceiveTold(d.a, Pending(d.b, d.a)[0]);
    } else {
      NextIsExpected(d.a, d.b);
      ReceiveTold(d.b, Pending(d.a, d.b)[0]);
    }
  }

  lemma FollowTold(d: Duplex, st: Step, d': Duplex)
    requires DuplexInv(d) && BothTold(d) && Follows(d, st, d')
    ensures DuplexInv(d') && BothTold(d')
  {
    StepKeeps(d, st);
    StepTold(d, st);
  }

  lemma {:induction false} RunTold(run: seq<Duplex>, steps: seq<Step>, k: nat)
    requires IsRun(run, steps) && k <= |steps|
    ensures DuplexInv(run[k]) && BothTold(run[k])
  {
    if k == 0 {
      InitKeeps();
    } else {
      RunTold(run, steps, k - 1);
      FollowTold(run[k - 1], steps[k - 1], run[k]);
    }
  }

  lemma ReachableTold(d: Duplex)
    requires Reachable(d)
    ensures DuplexInv(d) && BothTold(d)
  {
    var run, steps :| IsRun(run, steps) && run[|steps|] == d;
    RunTold(run, steps, |steps|);
  }

  /** The reader is told how the writer closed: ECLOSED as a normal end of
      stream, any other error as it crosses the wire. */
  lemma ErrorsAgree(d: Duplex, fromA: bool)
    requires Reachable(d) && Receiver(d, fromA).byPeer
    ensures Sender(d, fromA).s.write.err.Some?
    ensures Receiver(d, fromA).s.read.err == Some(Perceived(Sender(d, fromA).s.write.err.value))
  {
    ReachableTold(d);
    var snd, rcv := Sender(d, fromA), Receiver(d, fromA);
    var i :| 0 <= i < |rcv.inp.frames| && IsEnd(rcv.inp.frames[i]) && EndError(rcv.inp.frames[i]) == rcv.s.read.err.value;
    assert snd.out.frames[i] == rcv.inp.frames[i];
  }

  /** A stream only counts as acknowledged if the peer acknowledged it; and an
      acknowledgement that was sent has been seen once the wire is empty. */
  lemma AcknowledgementsAgree(d: Duplex, fromA: bool)
    requires Reachable(d)
    ensures var snd, rcv := Sender(d, fromA), Receiver(d, fromA);
            && (rcv.s.flags.seenAck ==> snd.s.write.acked)
            && (snd.s.write.acked && !snd.s.flags.needAck && !snd.skipped && Pending(snd, rcv) == [] ==>
                  rcv.s.flags.seenAck)
  {
    ReachableTold(d);
    var snd, rcv := Sender(d, fromA), Receiver(d, fromA);
    if rcv.s.flags.seenAck {
      var i :| 0 <= i < |rcv.inp.frames| && IsAck(rcv.inp.frames[i]);
      assert IsAck(snd.out.frames[i]);
    }
    if Pending(snd, rcv) == [] { assert rcv.inp.frames == snd.out.frames; }
    if rcv.skipped { assert snd == Acceptor(); }
  }
}

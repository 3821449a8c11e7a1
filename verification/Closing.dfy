/** How a side of a stream comes to be closed, and with which error: by the
    application that gave one, or by the peer. */
module Closing {
  import opened Common
  import opened Frames
  import opened Stream
  import opened Endpoint
  import opened EndpointProofs
  import opened Duplex
  import opened DuplexTheorems
  import Signals

  // ----- the writer

  /** The writer touches neither the bytes read nor the errors. */
  ghost predicate Untouched(e: Endpoint, e': Endpoint) {
    && e'.consumed == e.consumed && e'.accepted == e.accepted && e'.byPeer == e.byPeer && e'.inp == e.inp && e'.given == e.given
    && e'.s.read.buf == e.s.read.buf && e'.s.read.err == e.s.read.err && e'.s.write.err == e.s.write.err
    && e'.s.closeErr == e.s.closeErr
  }

  lemma TurnGoes(e: Endpoint)
    ensures Untouched(e, Continue(e, CtrlTurn(e.s)))
  {
    var m := CtrlTurn(e.s);
    if !m.Quiet? {
      Signals.CtrlTruthful(e.s);
      TurnReads(e.s);
    }
  }

  lemma TurnReads(s: Stream)
    requires !CtrlTurn(s).Quiet?
    ensures CtrlTurn(s).stream.read.buf == s.read.buf && CtrlTurn(s).stream.closeErr == s.closeErr
  {
  }

  lemma WriterUntouched(e: Endpoint)
    requires WriterEnabled(e)
    ensures Untouched(e, WriterStep(e))
  {
    match e.writer
    case CtrlTaken => CtrlUntouched(e);
    case CtrlSent(_) => CtrlUntouched(e);
    case DataTaken => DataUntouched(e);
    case _ =>
  }

  lemma CtrlUntouched(e: Endpoint)
    requires WriterEnabled(e) && (e.writer.CtrlTaken? || e.writer.CtrlSent?)
    ensures Untouched(e, WriterStep(e))
  {
    if e.writer.CtrlTaken? && NeverHappened(e.s) {
      assert WriterStep(e) == e.(s := Skip(e.s), writer := Idle, skipped := true);
    } else {
      var c := if e.writer == CtrlSent(true) then e.(s := Complete(e.s)) else e;
      TurnGoes(c);
      assert WriterStep(e) == Continue(c, CtrlTurn(c.s));
    }
  }

  lemma DataUntouched(e: Endpoint)
    requires WriterEnabled(e) && e.writer == DataTaken
    ensures Untouched(e, WriterStep(e))
  {
    if Sendable(e.s) > 0 {
      Signals.DataTurnTruthful(e.s);
      assert WriterStep(e).s == DataTurn(e.s).stream;
    } else {
      assert WriterStep(e) == e.(writer := Idle);
    }
  }

  /** A RESET of the read side says why the reader has closed. */
  ghost predicate Says(s: Stream, f: Frame) {
    IsResetRead(f) ==> s.read.err.Some? && f.err == Sent(if s.read.err.value == Eof then ECLOSED else s.read.err.value)
  }

  lemma WriterSays(e: Endpoint)
    requires WriterEnabled(e) && WriterFrame(e).Some?
    ensures Says(e.s, WriterFrame(e).value)
  {
  }

  // ----- the invariant

  ghost predicate ResetBy(h: seq<Frame>, err: Error) { exists i :: 0 <= i < |h| && IsResetRead(h[i]) && h[i].err == err }

  ghost predicate ResetsTruly(h: seq<Frame>, s: Stream) { forall i :: 0 <= i < |h| ==> Says(s, h[i]) }

  /** A side that is closed was closed by a call, with the error given to it, or
      by a frame of the peer, with the error it carries. */
  ghost predicate Origins(e: Endpoint) {
    && (e.s.read.err.None? ==> e.given.read == Never)
    && (e.s.write.err.None? ==> e.given.write == Never)
    && (e.s.read.err.Some? ==> (e.byPeer <==> e.given.read == Never))
    && (e.given.read.With? ==> e.s.read.err == Some(CloseError(e.given.read.err)))
    && (e.given.write.With? ==> e.s.write.err == Some(CloseError(e.given.write.err)))
    && (e.s.write.err.Some? && e.given.write == Never ==> ResetBy(e.inp.frames, e.s.write.err.value))
    && ResetsTruly(e.out.frames, e.s)
    && (e.s.closeErr.Some? ==> e.s.read.err.Some? && e.s.write.err.Some?)
    && (e.writer.CtrlSent? || e.writer.DataSent? ==> e.out.frames != [])
  }

  lemma CallOrigins(e: Endpoint, c: Call)
    requires Inv(e) && Origins(e) && CallEnabled(e, c)
    ensures Origins(CallStep(e, c))
  {
  }

  lemma WriterOrigins(e: Endpoint)
    requires Origins(e) && WriterEnabled(e)
    ensures Origins(WriterStep(e))
  {
    WriterUntouched(e);
    WriterEmits(e);
    if WriterFrame(e).Some? { WriterSays(e); }
    WriterHasSent(e);
  }

  lemma WriterHasSent(e: Endpoint)
    requires WriterEnabled(e)
    ensures WriterStep(e).writer.CtrlSent? || WriterStep(e).writer.DataSent? ==> WriterFrame(e).Some?
  {
    match e.writer
    case CtrlTaken => if !NeverHappened(e.s) { TurnHasSent(e); }
    case CtrlSent(data) => TurnHasSent(if data then e.(s := Complete(e.s)) else e);
    case _ =>
  }

  lemma TurnHasSent(e: Endpoint)
    ensures !CtrlTurn(e.s).Quiet? || Continue(e, CtrlTurn(e.s)).writer == Idle
  {
  }

  // ----- incoming frames

  /** What an incoming frame does to errors. */
  ghost predicate Hears(s: Stream, f: Frame, t: Stream) {
    && (s.read.err.Some? ==> t.read.err == s.read.err)
    && (s.write.err.Some? ==> t.write.err == s.write.err)
    && (s.write.err.None? && t.write.err.Some? ==> IsResetRead(f) && t.write.err == Some(f.err))
    && t.closeErr == s.closeErr
  }

  lemma DataHeard(s: Stream, f: Frame)
    requires f.Data?
    ensures var t := Store(SeeAck(s, f.ack), f.payload); Hears(s, f, if f.eof then SeeEnd(t, Eof) else t)
  {
  }

  lemma ResetHeard(s: Stream, f: Frame)
    requires f.Reset?
    ensures Hears(s, f, ProcessReset(s, f))
  {
  }

  lemma HeardOrigins(e: Endpoint, f: Frame, t: Stream)
    requires Inv(e) && Origins(e) && Hears(e.s, f, t)
    ensures Origins(Absorb(e, f, t))
  {
    var h, g := e.inp.frames, e.inp.frames + [f];
    if e.s.write.err.Some? && e.given.write == Never {
      var i :| 0 <= i < |h| && IsResetRead(h[i]) && h[i].err == e.s.write.err.value;
      assert IsResetRead(g[i]) && g[i].err == e.s.write.err.value;
    }
    assert g[|h|] == f;
  }

  lemma ReceiveOrigins(e: Endpoint, f: Frame)
    requires Inv(e) && Origins(e) && Expected(e, f) && Receive(e, f).Delivered?
    ensures Origins(Receive(e, f).e)
  {
    if f.Data? {
      DataDelivered(e, f);
      DataHeard(e.s, f);
    } else if e.known && e.s.live && f.Reset? {
      ResetHeard(e.s, f);
    }
    HeardOrigins(e, f, Dispatch(e.known, e.inp.frames != [], e.opener, e.s, f).stream);
  }

  // ----- all runs

  lemma DeliverOrigins(d: Duplex, toA: bool)
    requires DuplexInv(d) && Origins(d.a) && Origins(d.b) && Enabled(d, DeliverStep(toA)) && !Breaks(d, DeliverStep(toA))
    ensures Origins(Next(d, DeliverStep(toA)).a) && Origins(Next(d, DeliverStep(toA)).b)
  {
    if toA {
      if d.a.out.frames == [] { SilentBeforeOpen(d); }
      NextIsExpected(d.b, d.a);
      ReceiveOrigins(d.a, Pending(d.b, d.a)[0]);
    } else {
      NextIsExpected(d.a, d.b);
      ReceiveOrigins(d.b, Pending(d.a, d.b)[0]);
    }
  }

  lemma StepOrigins(d: Duplex, st: Step)
    requires DuplexInv(d) && Origins(d.a) && Origins(d.b) && Enabled(d, st) && !Breaks(d, st)
    ensures Origins(Next(d, st).a) && Origins(Next(d, st).b)
  {
    match st
    case AppStep(atA, call) => CallOrigins(if atA then d.a else d.b, call);
    case WriteStep(atA) => WriterOrigins(if atA then d.a else d.b);
    case CreateStep =>
    case DeliverStep(toA) => DeliverOrigins(d, toA);
  }

  lemma FollowOrigins(d: Duplex, st: Step, d': Duplex)
    requires DuplexInv(d) && Origins(d.a) && Origins(d.b) && Follows(d, st, d')
    ensures Origins(d'.a) && Origins(d'.b)
  {
    StepOrigins(d, st);
  }

  lemma {:induction false} RunOrigins(run: seq<Duplex>, steps: seq<Step>, k: nat)
    requires IsRun(run, steps) && k <= |steps|
    ensures Origins(run[k].a) && Origins(run[k].b)
  {
    if k == 0 {
      InitOrigins();
    } else {
      RunOrigins(run, steps, k - 1);
      RunKeeps(run, steps, k - 1);
      FollowOrigins(run[k - 1], steps[k - 1], run[k]);
    }
  }

  lemma InitOrigins()
    ensures Origins(Init().a) && Origins(Init().b)
  {
  }

  lemma ReachableOrigins(d: Duplex)
    requires Reachable(d)
    ensures DuplexInv(d) && Origins(d.a) && Origins(d.b)
  {
    var run, steps :| IsRun(run, steps) && run[|steps|] == d;
    RunKeeps(run, steps, |steps|);
    RunOrigins(run, steps, |steps|);
  }

  // ----- from one application to the other

  /** What was given to a close means a normal one. */
  predicate Normal(given: Option<Error>) { given.None? || given == Some(Eof) || given == Some(Code(100)) }

  /** An error without a message, of which only the code 100 arrives. */
  predicate Bare100(given: Option<Error>) {
    given.Some? && given.value.Custom? && given.value.text == "" && given.value.code == 100
  }

  /** An error given at one end as it shows at the other: codes and errors with a
      message arrive as they are, an error without a message as its bare code, and
      200 (connection closed) as 201 (shutting down). */
  ghost predicate Crosses(given: Error, seen: Error) {
    && (given == Code(200) ==> seen == Code(201))
    && (given.Code? && given.code != 200 ==> seen == given)
    && (given.Custom? && given.text != "" ==> seen == given)
    && (given.Custom? && given.text == "" ==> seen == Code(given.code))
  }

  /** A read side that the peer has ended reports what the peer's application gave
      when it closed its write side: a normal end for nothing, io.EOF or 100, also
      as the code of an error without a message; anything else as it crosses. */
  lemma HowReadingEnds(d: Duplex, fromA: bool)
    requires Reachable(d) && Receiver(d, fromA).byPeer
    ensures var given := Sender(d, fromA).given.write;
            && given.With? && Receiver(d, fromA).s.read.err.Some?
            && var seen := Receiver(d, fromA).s.read.err.value;
               && (seen == Eof <==> Normal(given.err) || Bare100(given.err))
               && (seen != Eof ==> Crosses(given.err.value, seen))
  {
    ReachableOrigins(d);
    var snd, rcv := Sender(d, fromA), Receiver(d, fromA);
    Signals.ErrorsAgree(d, fromA);
    if snd.given.write == Never {
      ResetIsSeen(snd.inp, rcv.out, snd.s.write.err.value);
      assert false;
    }
  }

  lemma ResetIsSeen(g: Log, h: Log, err: Error)
    requires Sound(h) && Behind(g, h) && ResetBy(g.frames, err)
    ensures h.reset && ResetBy(h.frames, err)
  {
    var i :| 0 <= i < |g.frames| && IsResetRead(g.frames[i]) && g.frames[i].err == err;
    assert IsResetRead(h.frames[i]) && h.frames[i].err == err;
    HasResetReadAt(h.frames);
  }

  /** A write side that the peer has closed fails with what the peer's application
      gave when it closed its read side: 100 for nothing or io.EOF. */
  lemma HowWritingEnds(d: Duplex, fromA: bool)
    requires Reachable(d) && Sender(d, fromA).s.write.err.Some? && Sender(d, fromA).given.write == Never
    ensures var given := Receiver(d, fromA).given.read;
            && given.With?
            && var seen := Sender(d, fromA).s.write.err.value;
               if Normal(given.err) then seen == Code(100) else Crosses(given.err.value, seen)
  {
    ReachableOrigins(d);
    var snd, rcv := Sender(d, fromA), Receiver(d, fromA);
    ResetIsSeen(snd.inp, rcv.out, snd.s.write.err.value);
  }

  // ----- a stream nobody hears of

  /** Opened and closed by its application before anything was written or sent. */
  predicate Unheard(e: Endpoint) { e.opener && e.out.frames == [] && e.accepted == [] && e.s.closeErr.Some? }

  lemma UnheardWriter(d: Duplex)
    requires Reachable(d) && Unheard(d.a) && WriterEnabled(d.a)
    ensures WriterFrame(d.a).None?
  {
    ReachableOrigins(d);
    SilentBeforeOpen(d);
    var e := d.a;
    assert e.s.write.wired == 0 && e.s.write.buf[0..] == e.s.write.buf;
    assert e.accepted == e.out.bytes + e.s.write.buf;
    assert e.s.write.buf == [];
    if e.skipped { assert e.s.flags.seenEOF && e.s.flags.sentEOF; }
  }

  lemma CallUnheard(e: Endpoint, c: Call)
    requires Unheard(e) && Origins(e) && CallEnabled(e, c)
    ensures Unheard(CallStep(e, c))
  {
  }

  lemma TurnUnheard(d: Duplex)
    requires Reachable(d) && Unheard(d.a) && WriterEnabled(d.a)
    ensures Unheard(WriterStep(d.a))
  {
    UnheardWriter(d);
    WriterEmits(d.a);
    WriterUntouched(d.a);
  }

  /** It leaves no trace: whatever happens next, no frame is ever sent for it. */
  lemma StaysUnheard(d: Duplex, st: Step)
    requires Reachable(d) && Unheard(d.a) && Enabled(d, st) && !Breaks(d, st)
    ensures Unheard(Next(d, st).a)
  {
    ReachableOrigins(d);
    match st
    case AppStep(atA, c) => if atA { CallUnheard(d.a, c); }
    case WriteStep(atA) => if atA { TurnUnheard(d); }
    case DeliverStep(toA) => SilentBeforeOpen(d);
    case CreateStep =>
  }
}

/** The stream machinery always comes to rest: without further application
    calls, only finitely many writer steps and deliveries are possible. */
module Settling {
  import opened Frames
  import opened Stream
  import opened Endpoint
  import opened EndpointProofs
  import opened Duplex
  import opened DuplexTheorems

  /** An upper bound on the frames an endpoint can still emit on its own. */
  function Todo(s: Stream): int {
    |s.write.buf| - s.write.wired + Count(s.flags.needOpen) + Count(s.flags.needAck && !s.flags.sentEOF)
    + Count(s.read.increment > 0) + Count(s.flags.needReset) + Count(!s.flags.sentEOF)
  }

  /** How far the writer is from putting the stream down. */
  function Busy(e: Endpoint): nat {
    4 * Count(e.s.inctrl) + 4 * Count(e.s.indata) +
    (match e.writer case Idle => 0 case CtrlTaken => 3 case DataTaken => 3 case CtrlSent(_) => 1 case DataSent => 1)
  }

  function Effort(e: Endpoint): int { 30 * Todo(e.s) + Busy(e) }

  function Rank(d: Duplex): int {
    Effort(d.a) + Effort(d.b) + 10 * |Pending(d.a, d.b)| + 10 * |Pending(d.b, d.a)| + Count(!d.b.known)
  }

  lemma RankIsNatural(d: Duplex)
    requires DuplexInv(d)
    ensures 0 <= Rank(d)
  {
  }

  /** `t` is left with fewer frames to send than `s`, and is queued as before. */
  ghost predicate LessTodo(s: Stream, t: Stream) {
    Todo(t) < Todo(s) && t.inctrl == s.inctrl && t.indata == s.indata
  }

  lemma DataLessTodo(s: Stream)
    requires s.write.wired == 0 && !s.flags.sentEOF && (s.flags.needOpen || s.flags.needAck || Sendable(s) > 0)
    ensures LessTodo(s, AfterData(Prepare(s)))
  {
  }

  lemma WindowLessTodo(s: Stream)
    requires WantsWindow(s)
    ensures LessTodo(s, WindowTurn(s).stream)
  {
  }

  lemma ResetLessTodo(s: Stream)
    requires WantsReset(s)
    ensures LessTodo(s, ResetTurn(s).stream)
  {
  }

  lemma EndLessTodo(s: Stream)
    requires WantsEnd(s) && !s.flags.sentEOF
    ensures LessTodo(s, EndTurn(s).stream)
  {
  }

  lemma CtrlTurnLessTodo(s: Stream)
    requires s.write.wired == 0 && (s.flags.needEOF ==> !s.flags.sentEOF) && !CtrlTurn(s).Quiet?
    ensures LessTodo(s, CtrlTurn(s).stream)
  {
    if WantsData(s) {
      DataLessTodo(s);
    } else if WantsWindow(s) {
      WindowLessTodo(s);
    } else if WantsReset(s) {
      ResetLessTodo(s);
    } else {
      EndLessTodo(s);
    }
  }

  lemma ContinueShrinks(e: Endpoint, m: Emission)
    requires e.writer == CtrlTaken || e.writer.CtrlSent?
    requires m.Quiet? || LessTodo(e.s, m.stream)
    ensures Effort(Continue(e, m)) + 10 * Count(FrameOf(m).Some?) < Effort(e)
  {
  }

  lemma CtrlTurnShrinks(e: Endpoint)
    requires Inv(e) && e.known && e.s.write.wired == 0 && (e.writer == CtrlTaken || e.writer.CtrlSent?)
    ensures Effort(Continue(e, CtrlTurn(e.s))) + 10 * Count(FrameOf(CtrlTurn(e.s)).Some?) < Effort(e)
  {
    if !CtrlTurn(e.s).Quiet? { CtrlTurnLessTodo(e.s); }
    ContinueShrinks(e, CtrlTurn(e.s));
  }

  lemma DataTurnShrinks(e: Endpoint)
    requires Inv(e) && e.known && e.writer == DataTaken
    ensures Effort(WriterStep(e)) + 10 * Count(FrameOf(DataTurn(e.s)).Some?) < Effort(e)
  {
    if Sendable(e.s) > 0 {
      DataLessTodo(e.s);
      assert Todo(DataTurn(e.s).stream) == Todo(AfterData(Prepare(e.s)));
    }
  }

  lemma ResumeShrinks(e: Endpoint)
    requires Inv(e) && WriterEnabled(e) && e.writer.CtrlSent?
    ensures Effort(WriterStep(e)) + 10 * Count(WriterFrame(e).Some?) < Effort(e)
  {
    if e.writer.data {
      CompleteKeeps(e, e.writer);
      var e1 := e.(s := Complete(e.s));
      assert Effort(e1) == Effort(e);
      CtrlTurnShrinks(e1);
    } else {
      CtrlTurnShrinks(e);
    }
  }

  lemma TakeShrinks(e: Endpoint)
    requires WriterEnabled(e) && e.writer == Idle
    ensures Effort(WriterStep(e)) < Effort(e)
  {
    if e.s.inctrl {
      assert WriterStep(e) == e.(s := e.s.(inctrl := false), writer := CtrlTaken);
    } else {
      assert WriterStep(e) == e.(s := e.s.(indata := false), writer := DataTaken);
    }
  }

  /** Every writer step takes effort away, more than the frame it sends adds. */
  lemma WriterShrinks(e: Endpoint)
    requires Inv(e) && WriterEnabled(e)
    ensures Effort(WriterStep(e)) + 10 * Count(WriterFrame(e).Some?) < Effort(e)
  {
    match e.writer
    case Idle => TakeShrinks(e);
    case CtrlTaken => BeginShrinks(e);
    case CtrlSent(data) => ResumeShrinks(e);
    case DataTaken => DataTurnShrinks(e);
    case DataSent => DoneShrinks(e);
  }

  lemma BeginShrinks(e: Endpoint)
    requires Inv(e) && WriterEnabled(e) && e.writer == CtrlTaken
    ensures Effort(WriterStep(e)) + 10 * Count(WriterFrame(e).Some?) < Effort(e)
  {
    if NeverHappened(e.s) { assert Todo(Skip(e.s)) <= Todo(e.s); } else { CtrlTurnShrinks(e); }
  }

  lemma DoneShrinks(e: Endpoint)
    requires Inv(e) && WriterEnabled(e) && e.writer == DataSent
    ensures Effort(WriterStep(e)) + 10 * Count(WriterFrame(e).Some?) < Effort(e)
  {
    assert Todo(Complete(e.s)) == Todo(e.s);
  }

  /** An incoming frame adds nothing to send; it can only queue the stream. */
  lemma DataEases(e: Endpoint, f: Frame)
    requires Inv(e) && Expected(e, f) && f.Data? && Receive(e, f).Delivered?
    ensures Todo(Receive(e, f).e.s) <= Todo(e.s)
  {
    DataDelivered(e, f);
  }

  lemma SeeResetEases(s: Stream, err: Error)
    requires s.write.wired <= |s.write.buf|
    ensures Todo(SeeReset(s, err)) <= Todo(s)
  {
  }

  lemma SeeEndEases(s: Stream, err: Error)
    ensures Todo(SeeEnd(s, err)) <= Todo(s)
  {
  }

  lemma ResetEases(s: Stream, f: Frame)
    requires f.Reset? && s.write.wired <= |s.write.buf|
    ensures Todo(ProcessReset(s, f)) <= Todo(s)
  {
    var err := if f.err == ECLOSED then Eof else f.err;
    SeeResetEases(s, f.err);
    if f.read && f.write {
      SeeEndEases(SeeReset(s, f.err), err);
    } else if f.write {
      SeeEndEases(s, err);
    }
  }

  lemma OtherEases(e: Endpoint, f: Frame)
    requires Inv(e) && !f.Data? && Receive(e, f).Delivered?
    ensures Todo(Receive(e, f).e.s) <= Todo(e.s)
  {
    if e.known && e.s.live {
      if f.Reset? {
        ResetEases(e.s, f);
      } else {
        assert Receive(e, f).e.s == ChangeWriteWindow(e.s, f.increment);
      }
    }
  }

  lemma PendingDrops(snd: Endpoint, rcv: Endpoint)
    requires Linked(snd, rcv) && Pending(snd, rcv) != []
    requires Receive(rcv, Pending(snd, rcv)[0]).Delivered?
    ensures var rcv' := Receive(rcv, Pending(snd, rcv)[0]).e;
            && |Pending(snd, rcv')| == |Pending(snd, rcv)| - 1
            && Pending(rcv', snd) == Pending(rcv, snd)
            && rcv'.writer == rcv.writer
  {
  }

  lemma BusyGrows(e: Endpoint, e': Endpoint)
    requires e'.writer == e.writer
    ensures Busy(e') <= Busy(e) + 8
  {
  }

  lemma DeliveryShrinks(snd: Endpoint, rcv: Endpoint)
    requires Inv(snd) && Inv(rcv) && snd.opener == !rcv.opener && !rcv.skipped
    requires Linked(snd, rcv) && Linked(rcv, snd) && Pending(snd, rcv) != [] && !NeedsCreate(rcv, Pending(snd, rcv)[0])
    requires Receive(rcv, Pending(snd, rcv)[0]).Delivered?
    ensures var rcv' := Receive(rcv, Pending(snd, rcv)[0]).e;
            && Effort(rcv') + 10 * |Pending(snd, rcv')| < Effort(rcv) + 10 * |Pending(snd, rcv)|
            && Pending(rcv', snd) == Pending(rcv, snd)
  {
    var f := Pending(snd, rcv)[0];
    NextIsExpected(snd, rcv);
    if f.Data? { DataEases(rcv, f); } else { OtherEases(rcv, f); }
    PendingDrops(snd, rcv);
    BusyGrows(rcv, Receive(rcv, f).e);
  }

  // ----- the whole stream

  predicate SystemStep(st: Step) { !st.AppStep? }

  lemma WriteStepShrinks(e: Endpoint, peer: Endpoint)
    requires Inv(e) && WriterEnabled(e) && Linked(e, peer)
    ensures var e' := WriterStep(e);
            && Effort(e') + 10 * |Pending(e', peer)| < Effort(e) + 10 * |Pending(e, peer)|
            && Pending(peer, e') == Pending(peer, e)
  {
    WriterShrinks(e);
    WriterEmits(e);
  }

  /** The writer does not create streams. */
  lemma WriterKnows(e: Endpoint)
    requires WriterEnabled(e)
    ensures WriterStep(e).known == e.known
  {
  }

  lemma WriteShrinks(d: Duplex, atA: bool)
    requires DuplexInv(d) && Enabled(d, WriteStep(atA))
    ensures Rank(Next(d, WriteStep(atA))) < Rank(d)
  {
    if atA {
      WriteStepShrinks(d.a, d.b);
    } else {
      WriteStepShrinks(d.b, d.a);
      WriterKnows(d.b);
    }
  }

  lemma DeliverShrinks(d: Duplex, toA: bool)
    requires DuplexInv(d) && Enabled(d, DeliverStep(toA)) && !Breaks(d, DeliverStep(toA))
    ensures Rank(Next(d, DeliverStep(toA))) < Rank(d)
  {
    if toA {
      if d.a.out.frames == [] { SilentBeforeOpen(d); }
      DeliveryShrinks(d.b, d.a);
    } else {
      DeliveryShrinks(d.a, d.b);
    }
  }

  lemma SystemStepShrinks(d: Duplex, st: Step)
    requires DuplexInv(d) && Enabled(d, st) && SystemStep(st) && !Breaks(d, st)
    ensures Rank(Next(d, st)) < Rank(d)
  {
    match st
    case WriteStep(atA) => WriteShrinks(d, atA);
    case CreateStep =>
    case DeliverStep(toA) => DeliverShrinks(d, toA);
  }

  lemma FollowShrinks(d: Duplex, st: Step, d': Duplex)
    requires DuplexInv(d) && Follows(d, st, d') && SystemStep(st)
    ensures Rank(d') < Rank(d)
  {
    SystemStepShrinks(d, st);
  }

  /** From any moment of a run, the machinery alone takes at most Rank steps. */
  lemma {:induction false} Settles(run: seq<Duplex>, steps: seq<Step>, i: nat, j: nat)
    requires IsRun(run, steps) && i <= j <= |steps|
    requires forall k :: i <= k < j ==> SystemStep(steps[k])
    ensures Rank(run[j]) + (j - i) <= Rank(run[i])
    ensures 0 <= Rank(run[j])
    decreases j - i
  {
    RunKeeps(run, steps, j);
    RankIsNatural(run[j]);
    if i < j {
      RunKeeps(run, steps, i);
      FollowShrinks(run[i], steps[i], run[i + 1]);
      Settles(run, steps, i + 1, j);
    }
  }

  /** The machinery stops exactly when the stream is quiescent. */
  lemma StopsWhenQuiescent(d: Duplex)
    requires Reachable(d)
    ensures Quiescent(d) <==> forall st :: SystemStep(st) ==> !Enabled(d, st)
  {
    ReachableKeeps(d);
    assert d.b.known || Rests(d.b);
    if !Quiescent(d) {
      var st :=
        if !Rests(d.a) then WriteStep(true) else if !Rests(d.b) then WriteStep(false)
        else if Pending(d.a, d.b) == [] then DeliverStep(true)
        else if NeedsCreate(d.b, Pending(d.a, d.b)[0]) then CreateStep else DeliverStep(false);
      assert SystemStep(st) && Enabled(d, st);
    }
  }
}

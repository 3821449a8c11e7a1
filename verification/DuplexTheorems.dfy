/** What holds on every run of a stream between two endpoints. */
module DuplexTheorems {
  import opened Common
  import opened Frames
  import opened Stream
  import opened Endpoint
  import opened EndpointProofs
  import opened Duplex

  /** A run: any interleaving of application calls, writer steps and deliveries. */
  ghost predicate IsRun(run: seq<Duplex>, steps: seq<Step>) {
    && |run| == |steps| + 1
    && run[0] == Init()
    && forall i :: 0 <= i < |steps| ==> Follows(run[i], steps[i], run[i + 1])
  }

  ghost predicate Follows(d: Duplex, st: Step, d': Duplex) {
    Enabled(d, st) && !Breaks(d, st) && d' == Next(d, st)
  }

  ghost predicate Reachable(d: Duplex) {
    exists run, steps :: IsRun(run, steps) && run[|steps|] == d
  }

  lemma {:induction false} RunKeeps(run: seq<Duplex>, steps: seq<Step>, k: nat)
    requires IsRun(run, steps) && k <= |steps|
    ensures DuplexInv(run[k])
  {
    if k == 0 {
      InitKeeps();
    } else {
      RunKeeps(run, steps, k - 1);
      assert Follows(run[k - 1], steps[k - 1], run[k]);
      StepKeeps(run[k - 1], steps[k - 1]);
    }
  }

  lemma ReachableKeeps(d: Duplex)
    requires Reachable(d)
    ensures DuplexInv(d)
  {
    var run, steps :| IsRun(run, steps) && run[|steps|] == d;
    RunKeeps(run, steps, |steps|);
  }

  // ----- protocol errors

  /** Two correct endpoints never raise EINVALIDSTREAM, EWINDOWOVERFLOW or
      EINVALIDFRAME against each other, whatever the interleaving, and no Go
      channel of a stream is closed twice. */
  lemma NeverBreaks(d: Duplex, st: Step)
    requires Reachable(d) && Enabled(d, st)
    ensures !Breaks(d, st)
    ensures forall e :: e in {d.a, d.b} ==>
              e.s.read.ackedCloses <= 1 && e.s.read.closes <= 1 && e.s.write.closes <= 1 && e.s.closes <= 1
  {
    ReachableKeeps(d);
    StepKeeps(d, st);
  }

  // ----- flow control

  function Sender(d: Duplex, fromA: bool): Endpoint { if fromA then d.a else d.b }

  function Receiver(d: Duplex, fromA: bool): Endpoint { if fromA then d.b else d.a }

  /** Credit is conserved: what the sender may still send, plus the data on the
      wire, plus the grants on the wire back, is what the receiver allows. */
  lemma CreditConserved(d: Duplex, fromA: bool)
    requires Reachable(d)
    ensures var snd, rcv := Sender(d, fromA), Receiver(d, fromA);
            var flying := snd.s.write.left + |Payload(Pending(snd, rcv))| + Increments(Pending(rcv, snd));
            flying <= rcv.s.read.left && (snd.s.live ==> flying == rcv.s.read.left)
  {
    ReachableKeeps(d);
    var snd, rcv := Sender(d, fromA), Receiver(d, fromA);
    OnTheWire(snd, rcv);
    OnTheWire(rcv, snd);
  }

  /** What is on the wire is what was sent but not yet processed. */
  lemma OnTheWire(snd: Endpoint, rcv: Endpoint)
    requires Linked(snd, rcv)
    ensures snd.out.bytes == rcv.inp.bytes + Payload(Pending(snd, rcv))
    ensures snd.out.credit == rcv.inp.credit + Increments(Pending(snd, rcv))
  {
    assert rcv.inp.frames == snd.out.frames[..|rcv.inp.frames|];
    SuffixTotals(snd.out.frames, |rcv.inp.frames|);
  }

  /** The read side never holds more than its window, and loses no credit while
      it is open: allowed, owed and buffered bytes add up to the window. */
  lemma WindowAccounted(d: Duplex, fromA: bool)
    requires Reachable(d)
    ensures var s := Receiver(d, fromA).s;
            && |s.read.buf| <= WINDOW
            && (s.read.err.None? ==> s.read.left + s.read.increment + |s.read.buf| == WINDOW)
            && (s.read.err.Some? ==> s.read.left + |s.read.buf| <= WINDOW)
  {
    ReachableKeeps(d);
  }

  // ----- integrity

  /** Bytes read plus bytes buffered are a prefix of the bytes Write accepted;
      they are all of them once the peer has ended the stream, so io.EOF is
      never reported for a truncated stream. */
  lemma EndToEnd(d: Duplex, fromA: bool)
    requires Reachable(d)
    ensures var snd, rcv := Sender(d, fromA), Receiver(d, fromA);
            && rcv.consumed + rcv.s.read.buf <= snd.accepted
            && (rcv.byPeer ==> rcv.consumed + rcv.s.read.buf == snd.accepted)
            && (rcv.s.read.err == Some(Eof) ==> rcv.byPeer)
  {
    ReachableKeeps(d);
    var snd, rcv := Sender(d, fromA), Receiver(d, fromA);
    BehindTotals(rcv.inp, snd.out);
    if rcv.byPeer {
      AllArrived(snd, rcv);
    }
  }

  lemma AllArrived(snd: Endpoint, rcv: Endpoint)
    requires Inv(snd) && Inv(rcv) && Linked(snd, rcv) && Linked(rcv, snd)
    requires rcv.byPeer
    ensures rcv.consumed + rcv.s.read.buf == snd.accepted
  {
    assert rcv.inp.ended;
    EndedBytes(rcv.inp, snd.out);
    BehindTotals(rcv.inp, snd.out);
    BehindTotals(snd.inp, rcv.out);
    assert !snd.skipped;
    assert snd.s.flags.sentEOF && !snd.s.flags.seenReset;
    assert snd.s.write.buf[snd.s.write.wired..] == [];
  }

  // ----- emissions

  /** Whatever an endpoint has emitted obeys the rules of the protocol. */
  lemma EmissionsLawful(d: Duplex, fromA: bool)
    requires Reachable(d)
    ensures ObeysProtocol(fromA, Sender(d, fromA).out.frames)
  {
    ReachableKeeps(d);
    LawfulMeansObeys(fromA, Sender(d, fromA).out.frames);
  }

  lemma CtrlTurnAfterEnd(s: Stream)
    requires s.read.increment == 0 && !s.flags.needReset && (s.flags.sentEOF ==> !s.flags.needEOF)
    ensures var f := FrameOf(CtrlTurn(s));
            f.Some? ==> !f.value.Window? && !IsResetRead(f.value) && !s.flags.sentEOF
  {
  }

  /** After the peer's end was seen nothing is granted and nothing is reset;
      after both ends nothing is sent at all. */
  lemma WriterAfterEnd(e: Endpoint)
    requires Inv(e) && WriterEnabled(e) && e.s.flags.seenEOF
    ensures var f := WriterFrame(e);
            f.Some? ==> !f.value.Window? && !IsResetRead(f.value) && !e.s.flags.sentEOF
  {
    CtrlTurnAfterEnd(e.s);
    CtrlTurnAfterEnd(Complete(e.s));
  }

  /** How a step extends what one endpoint has seen and sent. */
  ghost predicate Extends(e: Endpoint, e': Endpoint) {
    && Behind(e.inp, e'.inp) && Behind(e.out, e'.out)
    && (e.skipped ==> e'.skipped)
    && (e.s.flags.seenEOF ==> e'.s.flags.seenEOF)
    && (e.s.flags.sentEOF ==> e'.s.flags.sentEOF)
    && (e.s.flags.seenEOF ==> Muted(e.out.frames, e'.out.frames, e.s.flags.sentEOF))
  }

  /** No WINDOW and no RESET-READ was appended, or nothing at all. */
  ghost predicate Muted(h: seq<Frame>, h': seq<Frame>, silent: bool) {
    && |h| <= |h'|
    && (silent ==> h' == h)
    && forall i :: |h| <= i < |h'| ==> !h'[i].Window? && !IsResetRead(h'[i])
  }

  lemma FlagsExtend(e: Endpoint, e': Endpoint)
    requires Inv(e) && Inv(e')
    requires Sound(e.inp) && Sound(e'.inp) && Behind(e.inp, e'.inp)
    requires Sound(e.out) && Sound(e'.out) && Behind(e.out, e'.out)
    requires e.skipped ==> e'.skipped
    requires e.s.flags.seenEOF ==> Muted(e.out.frames, e'.out.frames, e.s.flags.sentEOF)
    ensures Extends(e, e')
  {
    BehindTotals(e.inp, e'.inp);
    BehindTotals(e.out, e'.out);
  }

  lemma CallExtends(e: Endpoint, c: Call)
    requires Inv(e) && CallEnabled(e, c) && Sound(e.inp) && Sound(e.out)
    ensures Extends(e, CallStep(e, c))
  {
    CallKeeps(e, c);
    var e' := CallStep(e, c);
    assert e'.inp == e.inp && e'.out == e.out && e'.skipped == e.skipped;
    FlagsExtend(e, e');
  }

  lemma WriterExtends(e: Endpoint)
    requires Inv(e) && WriterEnabled(e) && Sound(e.inp) && Sound(e.out) && Inv(WriterStep(e))
    ensures Extends(e, WriterStep(e))
  {
    WriterEmits(e);
    WriterLogs(e);
    if e.s.flags.seenEOF { WriterAfterEnd(e); }
    FlagsExtend(e, WriterStep(e));
  }

  lemma ReceiveExtends(e: Endpoint, f: Frame)
    requires Inv(e) && Sound(e.inp) && Sound(e.out)
    requires Receive(e, f).Delivered? && Inv(Receive(e, f).e)
    ensures Extends(e, Receive(e, f).e)
  {
    AddSound(e.inp, f);
    FlagsExtend(e, Receive(e, f).e);
  }

  lemma StepExtends(d: Duplex, st: Step)
    requires DuplexInv(d) && Enabled(d, st) && !Breaks(d, st) && DuplexInv(Next(d, st))
    ensures Extends(d.a, Next(d, st).a) && Extends(d.b, Next(d, st).b)
  {
    FlagsExtend(d.a, d.a);
    FlagsExtend(d.b, d.b);
    match st
    case AppStep(atA, call) => CallExtends(if atA then d.a else d.b, call);
    case WriteStep(atA) => WriterExtends(if atA then d.a else d.b);
    case CreateStep => FlagsExtend(d.b, Created(d.b));
    case DeliverStep(toA) => DeliverExtends(d, toA);
  }

  lemma DeliverExtends(d: Duplex, toA: bool)
    requires DuplexInv(d) && Enabled(d, DeliverStep(toA)) && !Breaks(d, DeliverStep(toA)) && DuplexInv(Next(d, DeliverStep(toA)))
    ensures var d' := Next(d, DeliverStep(toA)); if toA then Extends(d.a, d'.a) && d'.b == d.b else Extends(d.b, d'.b) && d'.a == d.a
  {
    if toA { ReceiveExtends(d.a, Pending(d.b, d.a)[0]); } else { ReceiveExtends(d.b, Pending(d.a, d.b)[0]); }
  }

  lemma ExtendsTransitive(e0: Endpoint, e1: Endpoint, e2: Endpoint)
    requires Extends(e0, e1) && Extends(e1, e2)
    ensures Extends(e0, e2)
  {
  }

  /** Between any two moments of a run: nothing is unsent or unseen, an endpoint
      that had seen its peer's end sends no WINDOW and no RESET-READ any more,
      and one that was fully closed sends nothing any more. */
  lemma {:induction false} RunExtends(run: seq<Duplex>, steps: seq<Step>, i: nat, j: nat)
    requires IsRun(run, steps) && i <= j <= |steps|
    ensures Extends(run[i].a, run[j].a) && Extends(run[i].b, run[j].b)
    decreases j - i
  {
    RunKeeps(run, steps, i);
    if i == j {
      FlagsExtend(run[i].a, run[i].a);
      FlagsExtend(run[i].b, run[i].b);
    } else {
      RunKeeps(run, steps, i + 1);
      assert Follows(run[i], steps[i], run[i + 1]);
      StepExtends(run[i], steps[i]);
      RunExtends(run, steps, i + 1, j);
      ExtendsTransitive(run[i].a, run[i + 1].a, run[j].a);
      ExtendsTransitive(run[i].b, run[i + 1].b, run[j].b);
    }
  }

  // ----- quiescence

  /** The writer has nothing queued and nothing in hand. */
  predicate Rests(e: Endpoint) { e.writer == Idle && !e.s.inctrl && !e.s.indata }

  predicate Quiescent(d: Duplex) {
    Rests(d.a) && Rests(d.b) && Pending(d.a, d.b) == [] && Pending(d.b, d.a) == []
  }

  /** No lost work: a resting endpoint owes no frame, and keeps bytes back only
      because its window is exhausted. */
  lemma NoLostWork(d: Duplex, atA: bool)
    requires Reachable(d) && Rests(Sender(d, atA))
    ensures var s := Sender(d, atA).s;
            && !s.flags.needOpen && (s.flags.needAck ==> s.flags.sentEOF) && s.read.increment == 0 && !s.flags.needReset
            && (s.flags.needEOF ==> s.write.buf != [])
            && s.write.wired == 0
            && (s.write.buf != [] ==> s.write.left == 0)
  {
    ReachableKeeps(d);
  }

  /** A stream only stalls because the application does not read: if nothing
      moves and bytes are held back, the reader has a full window unread. */
  lemma StallsOnlyOnReader(d: Duplex, fromA: bool)
    requires Reachable(d) && Quiescent(d)
    requires Sender(d, fromA).s.write.buf != []
    ensures var s := Receiver(d, fromA).s;
            s.read.err.None? && |s.read.buf| == WINDOW
  {
    NoLostWork(d, fromA);
    NoLostWork(d, !fromA);
    CreditConserved(d, fromA);
    ReachableKeeps(d);
    var snd, rcv := Sender(d, fromA), Receiver(d, fromA);
    assert !snd.s.flags.sentEOF && snd.s.live;
    BehindTotals(rcv.inp, snd.out);
    BehindTotals(snd.inp, rcv.out);
    assert rcv.s.read.err.Some? ==> rcv.s.flags.seenEOF || rcv.out.reset;
  }

  predicate ClosedBoth(e: Endpoint) { e.s.read.err.Some? && e.s.write.err.Some? }

  /** Complete cleanup: once both sides are closed at both ends and nothing
      moves any more, neither live map holds the stream, even if data was
      waiting for window when its reader went away. */
  lemma CleanedUp(d: Duplex)
    requires Reachable(d) && Quiescent(d)
    requires ClosedBoth(d.a) && (d.b.known ==> ClosedBoth(d.b))
    ensures !d.a.s.live && !(d.b.known && d.b.s.live)
  {
    ReachableKeeps(d);
    NoLostWork(d, true);
    NoLostWork(d, false);
    BehindTotals(d.a.inp, d.b.out);
    BehindTotals(d.b.inp, d.a.out);
    if d.a.s.write.buf != [] { StallsOnlyOnReader(d, true); }
    if d.b.s.write.buf != [] { StallsOnlyOnReader(d, false); }
    if !d.b.known {
      assert d.a.out.frames == [];
      assert d.a.skipped;
    } else {
      assert d.b.inp.frames == d.a.out.frames && d.a.inp.frames == d.b.out.frames;
      assert d.a.s.flags.sentEOF && d.b.s.flags.sentEOF;
    }
  }
}

/** A stream between its two endpoints: `a` opened it, `b` accepted it.

    The two wires are first-in first-out and are not stored: what `a` has
    emitted and `b` has not yet processed is on the wire from `a` to `b`. */
module Duplex {
  import opened Common
  import opened Frames
  import opened Stream
  import opened Endpoint
  import opened EndpointProofs

  datatype Duplex = Duplex(a: Endpoint, b: Endpoint)

  datatype Step =
    | AppStep(atA: bool, call: Call)  // the application calls into the stream
    | WriteStep(atA: bool)            // the connection's writer runs to its next unlock
    | CreateStep                      // the stream of an arriving OPEN frame is created
    | DeliverStep(toA: bool)          // the oldest frame on the wire is dispatched

  function Init(): Duplex { Duplex(Opener(), Acceptor()) }

  function Pending(snd: Endpoint, rcv: Endpoint): seq<Frame> {
    if |rcv.inp.frames| <= |snd.out.frames| then snd.out.frames[|rcv.inp.frames|..] else []
  }

  predicate Enabled(d: Duplex, st: Step) {
    match st
    case AppStep(atA, call) => CallEnabled(if atA then d.a else d.b, call)
    case WriteStep(atA) => WriterEnabled(if atA then d.a else d.b)
    case CreateStep => Pending(d.a, d.b) != [] && NeedsCreate(d.b, Pending(d.a, d.b)[0])
    case DeliverStep(toA) =>
      if toA then Pending(d.b, d.a) != [] && !NeedsCreate(d.a, Pending(d.b, d.a)[0])
      else Pending(d.a, d.b) != [] && !NeedsCreate(d.b, Pending(d.a, d.b)[0])
  }

  /** The step makes the connection fail with a protocol error. */
  predicate Breaks(d: Duplex, st: Step)
    requires Enabled(d, st)
  {
    st.DeliverStep? &&
    (if st.toA then Receive(d.a, Pending(d.b, d.a)[0]) else Receive(d.b, Pending(d.a, d.b)[0])).Broken?
  }

  function Next(d: Duplex, st: Step): Duplex
    requires Enabled(d, st) && !Breaks(d, st)
  {
    match st
    case AppStep(atA, call) => if atA then d.(a := CallStep(d.a, call)) else d.(b := CallStep(d.b, call))
    case WriteStep(atA) => if atA then d.(a := WriterStep(d.a)) else d.(b := WriterStep(d.b))
    case CreateStep => d.(b := Created(d.b))
    case DeliverStep(toA) =>
      if toA then d.(a := Receive(d.a, Pending(d.b, d.a)[0]).e) else d.(b := Receive(d.b, Pending(d.a, d.b)[0]).e)
  }

  // ----- the invariant

  /** What `snd` and `rcv` know about the direction from `snd` to `rcv`. */
  ghost predicate Linked(snd: Endpoint, rcv: Endpoint) {
    Sound(snd.out) && Sound(rcv.inp) && Behind(rcv.inp, snd.out)
  }

  ghost predicate DuplexInv(d: Duplex) {
    && Inv(d.a) && Inv(d.b)
    && d.a.opener && !d.b.opener
    && Linked(d.a, d.b) && Linked(d.b, d.a)
    && (d.b.known ==> d.a.out.frames != [])
  }

  lemma InitKeeps()
    ensures DuplexInv(Init())
  {
    InitInv();
  }

  /** Nothing has been sent by anyone before the opener's first frame. */
  lemma SilentBeforeOpen(d: Duplex)
    requires DuplexInv(d) && d.a.out.frames == []
    ensures d.a.inp.frames == [] && d.b == Acceptor()
  {
    assert !d.b.known;
  }

  /** The guarantee of the sender is what the receiver relies on. */
  lemma NextIsExpected(snd: Endpoint, rcv: Endpoint)
    requires Inv(snd) && Inv(rcv) && snd.opener == !rcv.opener && !rcv.skipped
    requires Linked(snd, rcv) && Linked(rcv, snd)
    requires Pending(snd, rcv) != [] && !NeedsCreate(rcv, Pending(snd, rcv)[0])
    ensures Expected(rcv, Pending(snd, rcv)[0])
    ensures Behind(Add(rcv.inp, Pending(snd, rcv)[0]), snd.out)
    ensures Sound(Add(rcv.inp, Pending(snd, rcv)[0]))
  {
    var f := snd.out.frames[|rcv.inp.frames|];
    assert Pending(snd, rcv)[0] == f;
    BehindNext(rcv.inp, snd.out);
    BehindTotals(snd.inp, rcv.out);
    AddSound(rcv.inp, f);
  }

  lemma DeliverTo(snd: Endpoint, rcv: Endpoint)
    requires Inv(snd) && Inv(rcv) && snd.opener == !rcv.opener && !rcv.skipped
    requires Linked(snd, rcv) && Linked(rcv, snd)
    requires Pending(snd, rcv) != [] && !NeedsCreate(rcv, Pending(snd, rcv)[0])
    ensures var r := Receive(rcv, Pending(snd, rcv)[0]);
            r.Delivered? && Inv(r.e) && Linked(snd, r.e) && Linked(r.e, snd) && r.e.opener == rcv.opener
  {
    NextIsExpected(snd, rcv);
    ReceiveKeeps(rcv, Pending(snd, rcv)[0]);
  }

  lemma DeliverKeeps(d: Duplex, toA: bool)
    requires DuplexInv(d) && Enabled(d, DeliverStep(toA))
    ensures !Breaks(d, DeliverStep(toA))
    ensures DuplexInv(Next(d, DeliverStep(toA)))
  {
    if toA {
      if d.a.out.frames == [] { SilentBeforeOpen(d); }
      DeliverTo(d.b, d.a);
    } else {
      DeliverTo(d.a, d.b);
    }
  }

  function Logged(l: Log, f: Option<Frame>): Log { if f.Some? then Add(l, f.value) else l }

  lemma ContinueEmits(e: Endpoint, m: Emission)
    ensures var e' := Continue(e, m);
            e'.out == Logged(e.out, FrameOf(m)) && e'.inp == e.inp && e'.opener == e.opener && e'.skipped == e.skipped
  {
  }

  /** The writer appends at most one frame. */
  lemma WriterEmits(e: Endpoint)
    requires WriterEnabled(e)
    ensures WriterStep(e).out == Logged(e.out, WriterFrame(e))
    ensures WriterStep(e).inp == e.inp && WriterStep(e).opener == e.opener
    ensures e.skipped ==> WriterStep(e).skipped
  {
    match e.writer {
      case Idle =>
      case CtrlTaken =>
        if !NeverHappened(e.s) { ContinueEmits(e, CtrlTurn(e.s)); }
      case CtrlSent(data) =>
        if data {
          ContinueEmits(e.(s := Complete(e.s)), CtrlTurn(Complete(e.s)));
        } else {
          ContinueEmits(e, CtrlTurn(e.s));
        }
      case DataTaken =>
        if Sendable(e.s) > 0 { assert DataTurn(e.s).SentData?; } else { assert DataTurn(e.s).Quiet?; }
      case DataSent =>
    }
  }

  lemma WriterLogs(e: Endpoint)
    requires WriterEnabled(e) && Sound(e.out)
    ensures var e' := WriterStep(e);
            Sound(e'.out) && Behind(e.out, e'.out) && e'.inp == e.inp && e'.opener == e.opener && (e.skipped ==> e'.skipped)
  {
    WriterEmits(e);
    if WriterFrame(e).Some? { AddSound(e.out, WriterFrame(e).value); }
  }

  lemma AppKeeps(d: Duplex, atA: bool, call: Call)
    requires DuplexInv(d) && Enabled(d, AppStep(atA, call))
    ensures DuplexInv(Next(d, AppStep(atA, call)))
  {
    CallKeeps(if atA then d.a else d.b, call);
  }

  lemma WriteKeeps(d: Duplex, atA: bool)
    requires DuplexInv(d) && Enabled(d, WriteStep(atA))
    ensures DuplexInv(Next(d, WriteStep(atA)))
  {
    var e := if atA then d.a else d.b;
    if NeverHappened(e.s) { SilentBeforeOpen(d); }
    WriterKeeps(e);
    WriterLogs(e);
  }

  lemma StepKeeps(d: Duplex, st: Step)
    requires DuplexInv(d) && Enabled(d, st)
    ensures !Breaks(d, st)
    ensures DuplexInv(Next(d, st))
  {
    match st
    case AppStep(atA, call) => AppKeeps(d, atA, call);
    case WriteStep(atA) => WriteKeeps(d, atA);
    case CreateStep => CreateKeeps(d.b);
    case DeliverStep(toA) => DeliverKeeps(d, toA);
  }
}

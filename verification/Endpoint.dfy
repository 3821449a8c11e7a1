/** One endpoint of a stream as a state machine: the stream, where the
    connection's writer currently is with it, and what has happened so far.

    Everything below is local to one endpoint. What it may rely on about its
    peer is that the frames arriving are a lawful history (Frames.Lawful); what
    it guarantees is that its own emissions are one. Duplex.dfy puts two
    endpoints together. */
module Endpoint {
  import opened Common
  import opened Frames
  import opened Stream

  /** Where the single writer of the connection is, as far as this stream is
      concerned. `CtrlSent` and `DataSent` are the points at which writeCtrl
      and writeData have dropped the stream lock to write a frame. */
  datatype Writer = Idle | CtrlTaken | CtrlSent(data: bool) | DataTaken | DataSent

  /** Whether a side was closed by the application, and what it gave to the call. */
  datatype Closed = Never | With(err: Option<Error>)

  datatype Given = Given(read: Closed, write: Closed)

  datatype Endpoint = Endpoint(
    opener: bool,        // this side allocated the stream id
    known: bool,         // the stream exists (or existed) on this side
    s: Stream,
    writer: Writer,
    accepted: seq<Byte>, // bytes accepted by Write so far
    consumed: seq<Byte>, // bytes returned by Read so far
    inp: Log,            // frames the connection has dispatched to this stream id
    out: Log,            // frames emitted
    skipped: bool,       // dropped by writeCtrl before anything was sent
    byPeer: bool,        // the read side was closed by a frame of the peer
    given: Given)        // the calls that closed a side that was open

  function Opener(): Endpoint {
    Endpoint(true, true, Outgoing(), Idle, [], [], EmptyLog(false), EmptyLog(true), false, false, Given(Never, Never))
  }

  function Acceptor(): Endpoint {
    Endpoint(false, false, Incoming(), Idle, [], [], EmptyLog(true), EmptyLog(false), false, false, Given(Never, Never))
  }

  // ----- steps

  datatype Call =
    | CallWrite(data: seq<Byte>)
    | CallRead(n: nat)
    | CallAcknowledge
    | CallCloseRead(err: Option<Error>)
    | CallCloseWrite(err: Option<Error>)
    | CallClose(err: Option<Error>)

  /** The call can run now (Read and Write block otherwise). One CallWrite is
      the part of a Write that fits the buffer without waiting. */
  predicate CallEnabled(e: Endpoint, c: Call) {
    e.known &&
    match c
    case CallWrite(data) => e.s.write.err.None? && 0 < |data| <= WRITE_BUFFER - |e.s.write.buf|
    case CallRead(n) => 0 < n <= |e.s.read.buf|
    case _ => true
  }

  function CallStep(e: Endpoint, c: Call): Endpoint
    requires CallEnabled(e, c)
  {
    match c
    case CallWrite(data) => e.(s := Write(e.s, data), accepted := e.accepted + data)
    case CallRead(n) => e.(s := Read(e.s, n), consumed := e.consumed + e.s.read.buf[..n])
    case CallAcknowledge => e.(s := Acknowledge(e.s))
    case CallCloseRead(err) => e.(s := SetReadError(e.s, CloseError(err)), given := e.given.(read := ReadGiven(e, err)))
    case CallCloseWrite(err) => e.(s := SetWriteError(e.s, CloseError(err)), given := e.given.(write := WriteGiven(e, err)))
    case CallClose(err) =>
      if e.s.closeErr.Some? then e
      else e.(s := Close(e.s, err), given := Given(ReadGiven(e, err), WriteGiven(e, err)))
  }

  function ReadGiven(e: Endpoint, err: Option<Error>): Closed {
    if e.s.read.err.None? then With(err) else e.given.read
  }

  function WriteGiven(e: Endpoint, err: Option<Error>): Closed {
    if e.s.write.err.None? then With(err) else e.given.write
  }

  /** The writer can act on this stream: it is queued, or the writer holds it. */
  predicate WriterEnabled(e: Endpoint) {
    e.known && (e.writer != Idle || e.s.inctrl || e.s.indata) && e.s.write.wired <= |e.s.write.buf|
  }

  function Continue(e: Endpoint, m: Emission): Endpoint {
    match m
    case Quiet => e.(writer := Idle)
    case SentData(s, f) => e.(s := s, writer := CtrlSent(true), out := Add(e.out, f))
    case SentOther(s, f) => e.(s := s, writer := CtrlSent(false), out := Add(e.out, f))
  }

  function WriterStep(e: Endpoint): Endpoint
    requires WriterEnabled(e)
  {
    match e.writer
    case Idle =>
      if e.s.inctrl then e.(s := e.s.(inctrl := false), writer := CtrlTaken)
      else e.(s := e.s.(indata := false), writer := DataTaken)
    case CtrlTaken =>
      if NeverHappened(e.s) then e.(s := Skip(e.s), writer := Idle, skipped := true)
      else Continue(e, CtrlTurn(e.s))
    case CtrlSent(data) =>
      if data then Continue(e.(s := Complete(e.s)), CtrlTurn(Complete(e.s)))
      else Continue(e, CtrlTurn(e.s))
    case DataTaken =>
      (match DataTurn(e.s)
       case Quiet => e.(writer := Idle)
       case SentData(s, f) => e.(s := s, writer := DataSent, out := Add(e.out, f))
       case SentOther(_, _) => e)
    case DataSent => e.(s := Complete(e.s), writer := Idle)
  }

  /** What the writer puts on the wire in its next step. */
  function WriterFrame(e: Endpoint): Option<Frame>
    requires WriterEnabled(e)
  {
    match e.writer
    case Idle => None
    case CtrlTaken => if NeverHappened(e.s) then None else FrameOf(CtrlTurn(e.s))
    case CtrlSent(data) => if data then FrameOf(CtrlTurn(Complete(e.s))) else FrameOf(CtrlTurn(e.s))
    case DataTaken => FrameOf(DataTurn(e.s))
    case DataSent => None
  }

  datatype Delivery = Delivered(e: Endpoint) | Broken(code: int)

  /** The frame opens a stream that has yet to be created: processDataFrame
      registers it and starts its handler before it processes the frame. */
  predicate NeedsCreate(e: Endpoint, f: Frame) { !e.known && !e.opener && IsOpen(f) && |f.payload| <= WINDOW }

  function Created(e: Endpoint): Endpoint { e.(known := true) }

  /** The connection dispatches one incoming frame. */
  function Receive(e: Endpoint, f: Frame): Delivery {
    match Dispatch(e.known, e.inp.frames != [], e.opener, e.s, f)
    case Fail(code) => Broken(code)
    case Ok(s) => Delivered(Absorb(e, f, s))
  }

  function Absorb(e: Endpoint, f: Frame, s: Stream): Endpoint {
    e.(known := e.known || IsOpen(f), s := s, inp := Add(e.inp, f),
       byPeer := e.byPeer || (e.s.read.err.None? && s.read.err.Some?))
  }

  // ----- invariants

  /** Flags, errors and channels agree with each other. */
  ghost predicate Consistent(e: Endpoint) {
    var s := e.s;
    && (e.known ==> (s.live <==> !(s.flags.seenEOF && s.flags.sentEOF)))
    && (s.flags.needEOF ==> s.write.err.Some?)
    && (s.flags.sentEOF ==> s.write.err.Some?)
    && (s.write.err.Some? ==> (s.flags.needEOF <==> !s.flags.sentEOF))
    && (s.flags.seenEOF ==> s.read.err.Some? && !s.flags.needReset)
    && (s.flags.needReset ==> s.read.err.Some?)
    && (s.write.err != Some(Eof))
    && (s.flags.needAck ==> s.write.acked)
    && s.read.closes == (if s.read.err.Some? then 1 else 0)
    && s.write.closes == (if s.write.err.Some? then 1 else 0)
    && s.closes == (if s.read.err.Some? && s.write.err.Some? then 1 else 0)
    && s.read.ackedCloses == (if s.read.err.Some? || s.flags.seenAck then 1 else 0)
  }

  /** Buffers and windows stay in range, whatever the peer's credit. */
  ghost predicate Bounded(e: Endpoint) {
    var s := e.s;
    && s.write.wired <= |s.write.buf| <= WRITE_BUFFER
    && (s.write.wired > 0 ==> e.writer == CtrlSent(true) || e.writer == DataSent)
    && (s.flags.sentEOF ==> |s.write.buf| == s.write.wired)
    && (s.flags.seenReset ==> s.write.err.Some? && s.write.buf == [])
    && 0 <= s.write.left && 0 <= s.read.left && 0 <= s.read.increment
    && (s.read.err.Some? ==> s.read.increment == 0)
    && s.read.left + s.read.increment + |s.read.buf| <= WINDOW
    && (s.read.err.None? ==> s.read.left + s.read.increment + |s.read.buf| == WINDOW)
  }

  /** Emissions so far are lawful and the flags remember what was emitted. */
  ghost predicate Emitted(e: Endpoint) {
    var s := e.s;
    && e.out.lawful && e.out.opener == e.opener && e.inp.opener == !e.opener
    && (s.flags.needOpen ==> e.opener && e.known && e.out.frames == [] && !s.flags.sentEOF)
    && (e.opener && !s.flags.needOpen && !e.skipped ==> e.out.frames != [])
    && (!e.skipped ==> (s.flags.sentEOF <==> e.out.ended))
    && (s.read.err.None? || s.flags.needReset ==> !e.out.reset)
    && (s.read.err.Some? ==> s.flags.seenEOF || s.flags.needReset || e.out.reset)
    && (e.skipped ==> e.opener && e.out.frames == [] && e.inp.frames == [] && s.flags.seenEOF && s.flags.sentEOF && !e.byPeer)
    && (e.byPeer ==> s.flags.seenEOF && !e.out.reset)
    && (e.opener ==> e.known)
    && (!e.known ==> e == Acceptor())
  }

  /** The flags remember what arrived. */
  ghost predicate Absorbed(e: Endpoint) {
    && (!e.skipped ==> (e.s.flags.seenEOF <==> e.inp.ended))
    && (e.s.flags.seenReset ==> e.inp.reset)
    && (e.s.live && e.inp.reset ==> e.s.flags.seenReset)
    && (e.inp.frames != [] ==> e.known)
    && (e.inp.frames == [] ==> e.inp == EmptyLog(!e.opener))
  }

  /** Both windows are exactly the credit granted minus the credit used. */
  ghost predicate Credited(e: Endpoint) {
    && |e.out.bytes| + e.s.write.left <= WINDOW + e.inp.credit
    && (e.s.live ==> |e.out.bytes| + e.s.write.left == WINDOW + e.inp.credit)
    && |e.inp.bytes| + e.s.read.left == WINDOW + e.out.credit
  }

  /** No byte is lost, duplicated or reordered inside the endpoint. */
  ghost predicate Intact(e: Endpoint)
    requires Bounded(e)
  {
    && e.out.bytes <= e.accepted
    && (!e.s.flags.seenReset ==> e.accepted == e.out.bytes + e.s.write.buf[e.s.write.wired..])
    && e.consumed + e.s.read.buf <= e.inp.bytes
    && (e.s.read.err.None? ==> e.consumed + e.s.read.buf == e.inp.bytes)
    && (e.byPeer ==> e.consumed + e.s.read.buf == e.inp.bytes)
    && (e.s.read.err == Some(Eof) ==> e.byPeer)
  }

  predicate CtrlWork(s: Stream) {
    || s.flags.needOpen
    || (s.flags.needAck && !s.flags.sentEOF)
    || s.read.increment > 0
    || s.flags.needReset
    || (s.flags.needEOF && |s.write.buf| == s.write.wired)
  }

  /** Pending work is always queued, or in the hands of the writer. */
  ghost predicate Scheduled(e: Endpoint) {
    && (CtrlWork(e.s) ==> e.s.inctrl || e.writer.CtrlTaken? || e.writer.CtrlSent?)
    && (ActiveData(e.s) ==> e.s.indata || e.writer == DataTaken)
  }

  ghost predicate Inv(e: Endpoint) { Kept(e) && Scheduled(e) }

  ghost predicate Kept(e: Endpoint)
  {
    && Bounded(e) && Consistent(e) && Emitted(e) && Absorbed(e)
    && Credited(e) && Intact(e)
  }
}

/** The state of one stream and the effect of every piece of code that runs
    while its lock is held.

    Fields and functions follow rawStream; the eight flag bits are booleans
    here. RawStream.dfy has the methods that update a stream in place. */
module Stream {
  import opened Common
  import opened Frames

  const WINDOW: int := 65536        // initial stream window, never changed
  const WRITE_BUFFER: int := 65536  // streamWriteBufferSize
  const MAX_PAYLOAD: int := 0xffffff

  datatype Flags = Flags(
    seenEOF: bool, sentEOF: bool, seenAck: bool, seenReset: bool,
    needOpen: bool, needAck: bool, needReset: bool, needEOF: bool)

  // `closes` fields count how often a Go channel has been closed; a second close panics

  datatype ReadSide = ReadSide(
    err: Option<Error>, buf: seq<Byte>, left: int, increment: int, ackedCloses: nat, closes: nat)

  datatype WriteSide = WriteSide(
    err: Option<Error>, buf: seq<Byte>, left: int, wired: nat, acked: bool, closes: nat)

  datatype Stream = Stream(
    live: bool,                // registered in the connection's live map
    flags: Flags, read: ReadSide, write: WriteSide,
    closeErr: Option<Error>, closes: nat,
    inctrl: bool, indata: bool)

  function Incoming(): Stream {
    Stream(true, Flags(false, false, false, false, false, false, false, false),
           ReadSide(None, [], WINDOW, 0, 0, 0), WriteSide(None, [], WINDOW, 0, false, 0),
           None, 0, false, false)
  }

  function Outgoing(): Stream { ScheduleCtrl(Incoming().(flags := Incoming().flags.(needOpen := true))) }

  // ----- scheduling

  function ScheduleCtrl(s: Stream): Stream { s.(inctrl := true) }

  function ScheduleData(s: Stream): Stream { s.(indata := true) }

  function Cleanup(s: Stream): Stream { s.(live := s.live && !(s.flags.seenEOF && s.flags.sentEOF)) }

  function Count(b: bool): nat { if b then 1 else 0 }

  // ----- closing

  function ClearWriteBuffer(s: Stream): Stream {
    s.(write := s.write.(buf := [], wired := 0), inctrl := s.inctrl || s.flags.needEOF)
  }

  function SetReadError(s: Stream, err: Error): Stream {
    var first := s.read.err.None?;
    var reset := first && !s.flags.seenEOF;
    s.(read := s.read.(err := if first then Some(err) else s.read.err,
                       increment := if first then 0 else s.read.increment,
                       closes := s.read.closes + Count(first),
                       ackedCloses := s.read.ackedCloses + Count(first && !s.flags.seenAck)),
       closes := s.closes + Count(first && s.write.err.Some?),
       flags := s.flags.(needReset := s.flags.needReset || reset),
       inctrl := s.inctrl || reset)
  }

  function SetWriteError(s: Stream, err: Error): Stream {
    var first := s.write.err.None?;
    s.(write := s.write.(err := if first then Some(err) else s.write.err, closes := s.write.closes + Count(first)),
       closes := s.closes + Count(first && s.read.err.Some?),
       flags := s.flags.(needEOF := s.flags.needEOF || first),
       inctrl := s.inctrl || (first && |s.write.buf| == s.write.wired))
  }

  /** No error (nil) or io.EOF given by the application is a normal close. */
  function CloseError(err: Option<Error>): (e: Error)
    ensures e != Eof
  {
    if err.None? || err == Some(Eof) then ECLOSED else err.value
  }

  /** The first close of the whole stream; later ones do nothing. */
  function Close(s: Stream, err: Option<Error>): Stream
    requires s.closeErr.None?
  {
    SetWriteError(SetReadError(s.(closeErr := Some(CloseError(err))), CloseError(err)), CloseError(err))
  }

  // ----- incoming frames

  datatype Outcome = Ok(stream: Stream) | Fail(code: int)

  const EINVALIDFRAME := 203
  const EWINDOWOVERFLOW := 204
  const EINVALIDSTREAM := 205

  function SeeAck(s: Stream, ack: bool): Stream {
    s.(flags := s.flags.(seenAck := s.flags.seenAck || ack),
       read := s.read.(ackedCloses := s.read.ackedCloses + Count(ack && s.read.err.None? && !s.flags.seenAck)))
  }

  function Store(s: Stream, data: seq<Byte>): Stream {
    s.(read := s.read.(buf := if s.read.err.None? then s.read.buf + data else s.read.buf,
                       left := s.read.left - |data|))
  }

  /** The peer's write side has ended with `err`. */
  function SeeEnd(s: Stream, err: Error): Stream {
    Cleanup(SetReadError(s.(flags := s.flags.(seenEOF := true, needReset := false)), err))
  }

  /** The peer will not read any more. */
  function SeeReset(s: Stream, err: Error): Stream {
    SetWriteError(ClearWriteBuffer(s.(flags := s.flags.(seenReset := true))), err)
  }

  function ProcessData(s: Stream, f: Frame): Outcome
    requires f.Data?
  {
    if s.flags.seenEOF then Fail(EINVALIDSTREAM) else
    var s1 := SeeAck(s, f.ack);
    if |f.payload| > 0 && |f.payload| > s1.read.left then Fail(EWINDOWOVERFLOW) else
    var s2 := Store(s1, f.payload);
    Ok(if f.eof then SeeEnd(s2, Eof) else s2)
  }

  function ProcessReset(s: Stream, f: Frame): Stream
    requires f.Reset?
  {
    var s1 := if f.read then SeeReset(s, f.err) else s;
    if f.write then SeeEnd(s1, if f.err == ECLOSED then Eof else f.err) else s1
  }

  function ChangeWriteWindow(s: Stream, diff: int): Stream {
    s.(write := s.write.(left := s.write.left + diff),
       indata := s.indata || (s.write.left <= 0 && |s.write.buf| - s.write.wired > 0 && s.write.left + diff > 0))
  }

  function ProcessWindow(s: Stream, f: Frame): Outcome
    requires f.Window?
  {
    if f.increment <= 0 then Fail(EINVALIDFRAME) else Ok(ChangeWriteWindow(s, f.increment))
  }

  /** Dispatch of one frame by the connection. `known` says that the stream was
      created, `begun` that it has processed its OPEN frame, and `owned` that
      this side allocated its id. For an OPEN frame the stream is created first,
      and its application may use it before the frame is processed. */
  function Dispatch(known: bool, begun: bool, owned: bool, s: Stream, f: Frame): Outcome {
    var found := known && s.live;
    match f
    case Data(open, _, _, payload) =>
      if open then
        if owned || begun then Fail(EINVALIDSTREAM)
        else if |payload| > WINDOW then Fail(EWINDOWOVERFLOW)
        else ProcessData(s, f)
      else if found then ProcessData(s, f) else Fail(EINVALIDSTREAM)
    case Reset(_, _, _) => Ok(if found then ProcessReset(s, f) else s)
    case Window(_) => if found then ProcessWindow(s, f) else Ok(s)
  }

  // ----- outgoing frames

  function Min(a: int, b: int): int { if a < b then a else b }

  /** How many bytes prepareDataLocked puts on the wire. */
  function Sendable(s: Stream): int { Min(Min(|s.write.buf|, s.write.left), MAX_PAYLOAD) }

  function Prepare(s: Stream): Stream {
    var n := Sendable(s);
    s.(write := s.write.(wired := if n > 0 then n else s.write.wired,
                         left := if n > 0 then s.write.left - n else s.write.left))
  }

  function PreparedData(s: Stream): seq<Byte> {
    var n := Sendable(s);
    if n > 0 then s.write.buf[..n] else []
  }

  /** The lock is taken again after a DATA frame was written. */
  function Complete(s: Stream): Stream
    requires s.write.wired <= |s.write.buf|
  {
    s.(write := s.write.(buf := s.write.buf[s.write.wired..], wired := 0))
  }

  predicate ActiveData(s: Stream) { s.write.left > 0 && |s.write.buf| - s.write.wired > 0 }

  predicate ActiveEOF(s: Stream) {
    |s.write.buf| == s.write.wired && s.flags.needEOF && !s.flags.needReset && s.write.err == Some(ECLOSED)
  }

  function SendEnd(s: Stream, end: bool): Stream {
    s.(flags := s.flags.(needEOF := s.flags.needEOF && !end, sentEOF := s.flags.sentEOF || end),
       live := s.live && !(end && s.flags.seenEOF))
  }

  /** The flags outgoingFlags picks for a DATA frame, and their effect. */
  function DataFrame(s: Stream, data: seq<Byte>): Frame { Data(s.flags.needOpen, s.flags.needAck, ActiveEOF(s), data) }

  function AfterData(s: Stream): Stream {
    SendEnd(s.(flags := s.flags.(needOpen := false, needAck := false)), ActiveEOF(s))
  }

  function Sent(e: Error): WireError { Decoded(if e == ECONNCLOSED then ECONNSHUTDOWN else e) }

  datatype Emission = Quiet | SentData(stream: Stream, frame: Frame) | SentOther(stream: Stream, frame: Frame)

  function FrameOf(m: Emission): Option<Frame> { if m.Quiet? then None else Some(m.frame) }

  // writeCtrl's loop sends the first of these frames that is pending

  predicate WantsData(s: Stream) { (s.flags.needOpen || s.flags.needAck) && !s.flags.sentEOF }

  predicate WantsWindow(s: Stream) { s.read.increment > 0 }

  predicate WantsReset(s: Stream) { s.flags.needReset && s.read.err.Some? }

  predicate WantsEnd(s: Stream) { s.write.buf == [] && s.flags.needEOF && s.write.err.Some? }

  function WindowTurn(s: Stream): Emission
    requires WantsWindow(s)
  {
    SentOther(s.(read := s.read.(left := s.read.left + s.read.increment, increment := 0)), Window(s.read.increment))
  }

  function ResetError(s: Stream): Error
    requires WantsReset(s)
  {
    if s.read.err.value == Eof then ECLOSED else s.read.err.value
  }

  /** One RESET serves both sides if they close with the same error. */
  predicate Coalesces(s: Stream)
    requires WantsReset(s)
  {
    s.write.buf == [] && s.flags.needEOF && s.write.err == Some(ResetError(s))
  }

  function ResetTurn(s: Stream): Emission
    requires WantsReset(s)
  {
    SentOther(SendEnd(s.(flags := s.flags.(needReset := false)), Coalesces(s)),
              Reset(true, Coalesces(s), Sent(ResetError(s))))
  }

  function EndTurn(s: Stream): Emission
    requires WantsEnd(s)
  {
    SentOther(SendEnd(s, true),
              if s.write.err.value != ECLOSED then Reset(false, true, Sent(s.write.err.value))
              else Data(false, false, true, []))
  }

  /** One turn of writeCtrl's loop, up to the point where it drops the lock. */
  function CtrlTurn(s: Stream): Emission {
    if WantsData(s) then SentData(AfterData(Prepare(s)), DataFrame(Prepare(s), PreparedData(s)))
    else if WantsWindow(s) then WindowTurn(s)
    else if WantsReset(s) then ResetTurn(s)
    else if WantsEnd(s) then EndTurn(s)
    else Quiet
  }

  /** Opened and closed before anything was sent: writeCtrl drops it silently. */
  predicate NeverHappened(s: Stream) { s.flags.needOpen && s.flags.needReset && s.flags.needEOF && s.write.buf == [] }

  function Skip(s: Stream): Stream {
    Cleanup(s.(flags := Flags(true, true, false, false, false, false, false, false)))
  }

  /** writeData, up to the point where it drops the lock. */
  function DataTurn(s: Stream): Emission {
    if Sendable(s) <= 0 then Quiet else
    var t := AfterData(Prepare(s));
    SentData(t.(indata := t.indata || ActiveData(t),
                inctrl := t.inctrl || (!ActiveData(t) && |t.write.buf| == t.write.wired && t.flags.needEOF)),
             DataFrame(Prepare(s), PreparedData(s)))
  }

  // ----- application calls

  function Write(s: Stream, data: seq<Byte>): Stream {
    s.(write := s.write.(buf := s.write.buf + data), indata := s.indata || s.write.left > 0)
  }

  function Read(s: Stream, n: nat): Stream
    requires n <= |s.read.buf|
  {
    var more := s.read.err.None? && n > 0;
    s.(read := s.read.(buf := s.read.buf[n..],
                       increment := if more then s.read.increment + n else s.read.increment),
       inctrl := s.inctrl || more)
  }

  function Acknowledge(s: Stream): Stream {
    var first := s.write.err.None? && !s.write.acked;
    s.(flags := s.flags.(needAck := s.flags.needAck || first),
       write := s.write.(acked := s.write.acked || first),
       inctrl := s.inctrl || first)
  }
}

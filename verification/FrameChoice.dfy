/** Which frames a stream sends, and which it refuses, in terms of its fields and
    of the protocol's numbers. */
module FrameChoice {
  import opened Common
  import opened Frames
  import opened Stream
  import opened Endpoint

  // ----- sending

  /** As much as is buffered and the window and the frame format allow. */
  predicate MostOf(data: seq<Byte>, s: Stream) {
    && data <= s.write.buf
    && |data| <= 0xff_ffff
    && (|data| > 0 ==> |data| <= s.write.left)
    && (|data| == |s.write.buf| || |data| == 0xff_ffff || |data| >= s.write.left)
  }

  /** Nothing is left behind the wired bytes of a side that closed normally, and no
      reset of the read side comes first. */
  predicate EndsHere(data: seq<Byte>, s: Stream) {
    && data == s.write.buf && s.flags.needEOF && !s.flags.needReset && s.write.err == Some(Code(100))
  }

  /** DATA carries what OPEN, ACK and EOF are owed, and as many bytes as it may;
      these are debited from the window and stay in the buffer as wired. */
  ghost predicate IsData(s: Stream, f: Frame, t: Stream) {
    && f.Data? && f.open == s.flags.needOpen && f.ack == s.flags.needAck
    && MostOf(f.payload, s) && (f.eof <==> EndsHere(f.payload, s))
    && !t.flags.needOpen && !t.flags.needAck
    && t.flags.needEOF == (s.flags.needEOF && !f.eof) && t.flags.sentEOF == (s.flags.sentEOF || f.eof)
    && t.write.buf == s.write.buf && t.write.wired == |f.payload| && t.write.left == s.write.left - |f.payload|
    && t.read == s.read
  }

  /** WINDOW returns all the credit that is owed. */
  predicate IsWindow(s: Stream, f: Frame, t: Stream) {
    && f.Window? && f.increment == s.read.increment > 0
    && t == s.(read := s.read.(left := s.read.left + s.read.increment, increment := 0))
  }

  /** RESET of the read side says why it was closed; it ends the write side as well
      if that was closed with the same error and has sent everything. */
  ghost predicate IsReset(s: Stream, f: Frame, t: Stream) {
    && s.read.err.Some? && f.Reset? && f.read
    && (var reason := if s.read.err == Some(Eof) then Code(100) else s.read.err.value;
        && OnWire(reason, f.err)
        && (f.write <==> s.write.buf == [] && s.flags.needEOF && s.write.err == Some(reason)))
    && !t.flags.needReset
    && t.flags.needEOF == (s.flags.needEOF && !f.write) && t.flags.sentEOF == (s.flags.sentEOF || f.write)
    && t.read == s.read && t.write == s.write
  }

  /** The end of a drained write side: an empty DATA with EOF after a normal close,
      RESET with the error after any other. */
  ghost predicate IsEndFrame(s: Stream, f: Frame, t: Stream) {
    && s.write.err.Some? && s.write.buf == [] && s.flags.needEOF
    && (s.write.err == Some(Code(100)) ==> f == Data(false, false, true, []))
    && (s.write.err != Some(Code(100)) ==> f.Reset? && !f.read && f.write && OnWire(s.write.err.value, f.err))
    && !t.flags.needEOF && t.flags.sentEOF && t.read == s.read && t.write == s.write
  }

  /** An error as RESET carries it. */
  ghost predicate OnWire(e: Error, w: Error) {
    && (e == Code(200) ==> w == Code(201))
    && (e.Code? && e.code != 200 ==> w == e)
    && (e.Custom? && e.text != "" ==> w == e)
    && (e.Custom? && e.text == "" ==> w == Code(e.code))
  }

  /** Control frames, in this order: OPEN and ACK, credit, the reset of the read
      side, the end of the write side; and nothing if none of them is due. */
  lemma WhatCtrlSends(s: Stream)
    requires s.write.wired == 0 && 0 <= s.write.left && 0 <= s.read.increment
    requires (s.flags.needReset ==> s.read.err.Some?) && (s.flags.needEOF ==> s.write.err.Some? && s.write.err != Some(Eof))
    ensures var m, f, t := CtrlTurn(s), s.flags, if CtrlTurn(s).Quiet? then s else CtrlTurn(s).stream;
            if (f.needOpen || f.needAck) && !f.sentEOF then m.SentData? && IsData(s, m.frame, t)
            else if s.read.increment > 0 then m.SentOther? && IsWindow(s, m.frame, t)
            else if f.needReset then m.SentOther? && IsReset(s, m.frame, t)
            else if s.write.buf == [] && f.needEOF then m.SentOther? && IsEndFrame(s, m.frame, t)
            else m.Quiet?
  {
    if (s.flags.needOpen || s.flags.needAck) && !s.flags.sentEOF { DataChosen(s); }
  }

  lemma DataChosen(s: Stream)
    requires s.write.wired == 0 && 0 <= s.write.left
    ensures IsData(s, DataFrame(Prepare(s), PreparedData(s)), AfterData(Prepare(s)))
  {
    var data := PreparedData(s);
    if |data| == |s.write.buf| { assert data == s.write.buf; }
  }

  /** A turn for data sends a DATA frame unless nothing is buffered or the window is
      used up. */
  lemma WhatDataSends(s: Stream)
    requires s.write.wired == 0 && 0 <= s.write.left
    ensures DataTurn(s).Quiet? <==> s.write.buf == [] || s.write.left == 0
    ensures !DataTurn(s).Quiet? ==>
      DataTurn(s).SentData? && DataTurn(s).frame.payload != [] && IsData(s, DataTurn(s).frame, DataTurn(s).stream)
  {
    DataChosen(s);
  }

  // ----- refusing

  /** The frame is for a stream that this side has, and has not seen the end of; or
      it opens one with an id of the peer's that has not been used. */
  ghost predicate MayCarryData(e: Endpoint, f: Frame) {
    if IsOpen(f) then !e.opener && e.inp.frames == []
    else e.known && !e.inp.ended && !e.skipped
  }

  /** Exactly what a peer must not do, from any state that is sound so far: DATA for
      a stream it may not use, more bytes than it was given credit for, and a WINDOW
      without credit for a stream in use. All else is accepted. */
  lemma WhatIsRefused(e: Endpoint, f: Frame)
    requires Inv(e)
    ensures Receive(e, f) == Broken(205) <==> f.Data? && !MayCarryData(e, f)
    ensures Receive(e, f) == Broken(204) <==>
      f.Data? && MayCarryData(e, f) && f.payload != [] && |e.inp.bytes| + |f.payload| > 65536 + (if IsOpen(f) then 0 else e.out.credit)
    ensures Receive(e, f) == Broken(203) <==> f == Window(0) && e.known && e.s.live
    ensures Receive(e, f).Delivered? <==>
      Receive(e, f) != Broken(205) && Receive(e, f) != Broken(204) && Receive(e, f) != Broken(203)
  {
  }
}

/** Every step of an endpoint keeps its invariant. */
module EndpointProofs {
  import opened Common
  import opened Frames
  import opened Stream
  import opened Endpoint

  lemma InitInv()
    ensures Inv(Opener()) && Inv(Acceptor())
  {
  }

  // ----- application calls

  lemma WriteKeeps(e: Endpoint, data: seq<Byte>)
    requires Inv(e) && CallEnabled(e, CallWrite(data))
    ensures Inv(CallStep(e, CallWrite(data)))
  {
    var w := e.s.write.wired;
    assert (e.s.write.buf + data)[w..] == e.s.write.buf[w..] + data;
  }

  lemma ReadKeeps(e: Endpoint, n: nat)
    requires Inv(e) && CallEnabled(e, CallRead(n))
    ensures Inv(CallStep(e, CallRead(n)))
  {
    assert e.s.read.buf == e.s.read.buf[..n] + e.s.read.buf[n..];
    assert e.consumed + e.s.read.buf == (e.consumed + e.s.read.buf[..n]) + e.s.read.buf[n..];
  }

  lemma AcknowledgeKeeps(e: Endpoint)
    requires Inv(e) && e.known
    ensures Inv(e.(s := Acknowledge(e.s)))
  {
  }

  lemma SetReadErrorKeeps(e: Endpoint, err: Error)
    requires Inv(e) && e.known && err != Eof
    ensures Inv(e.(s := SetReadError(e.s, err)))
  {
  }

  lemma SetWriteErrorKeeps(e: Endpoint, err: Error)
    requires Inv(e) && e.known && err != Eof
    ensures Inv(e.(s := SetWriteError(e.s, err)))
  {
  }

  /** What was given to the calls is history only. */
  lemma GivenKeeps(e: Endpoint, g: Given)
    requires Inv(e) && e.known
    ensures Inv(e.(given := g))
  {
  }

  lemma CloseKeeps(e: Endpoint, err: Option<Error>)
    requires Inv(e) && e.known && e.s.closeErr.None?
    ensures Inv(e.(s := Close(e.s, err)))
  {
    var c := CloseError(err);
    var e0 := e.(s := e.s.(closeErr := Some(c)));
    SetReadErrorKeeps(e0, c);
    SetWriteErrorKeeps(e0.(s := SetReadError(e0.s, c)), c);
  }

  lemma CloseReadKeeps(e: Endpoint, err: Option<Error>)
    requires Inv(e) && e.known
    ensures Inv(CallStep(e, CallCloseRead(err)))
  {
    SetReadErrorKeeps(e, CloseError(err));
    GivenKeeps(e.(s := SetReadError(e.s, CloseError(err))), CallStep(e, CallCloseRead(err)).given);
  }

  lemma CloseWriteKeeps(e: Endpoint, err: Option<Error>)
    requires Inv(e) && e.known
    ensures Inv(CallStep(e, CallCloseWrite(err)))
  {
    SetWriteErrorKeeps(e, CloseError(err));
    GivenKeeps(e.(s := SetWriteError(e.s, CloseError(err))), CallStep(e, CallCloseWrite(err)).given);
  }

  lemma CloseBothKeeps(e: Endpoint, err: Option<Error>)
    requires Inv(e) && e.known
    ensures Inv(CallStep(e, CallClose(err)))
  {
    if e.s.closeErr.None? {
      CloseKeeps(e, err);
      GivenKeeps(e.(s := Close(e.s, err)), CallStep(e, CallClose(err)).given);
    }
  }

  lemma CallKeeps(e: Endpoint, c: Call)
    requires Inv(e) && CallEnabled(e, c)
    ensures Inv(CallStep(e, c))
  {
    match c
    case CallWrite(data) => WriteKeeps(e, data);
    case CallRead(n) => ReadKeeps(e, n);
    case CallAcknowledge => AcknowledgeKeeps(e);
    case CallCloseRead(err) => CloseReadKeeps(e, err);
    case CallCloseWrite(err) => CloseWriteKeeps(e, err);
    case CallClose(err) => CloseBothKeeps(e, err);
  }

  // ----- the writer

  /** A DATA frame leaves with everything the window allows. */
  function SendData(e: Endpoint, w: Writer): Endpoint {
    e.(s := AfterData(Prepare(e.s)), writer := w, out := Add(e.out, DataFrame(Prepare(e.s), PreparedData(e.s))))
  }

  ghost predicate MaySendData(e: Endpoint, w: Writer) {
    && Inv(e) && e.known && e.s.write.wired == 0 && !e.s.flags.sentEOF
    && ((w == CtrlSent(true) && WantsData(e.s)) || (w == DataSent && Sendable(e.s) > 0))
  }

  lemma SendDataFits(e: Endpoint, w: Writer)
    requires MaySendData(e, w)
    ensures var e' := SendData(e, w);
            Bounded(e') && Consistent(e') && Emitted(e') && Absorbed(e') && Credited(e')
  {
  }

  lemma TakeFront(p: seq<Byte>, buf: seq<Byte>, n: nat)
    requires n <= |buf|
    ensures (p + buf[..n]) + buf[n..] == p + buf
    ensures p + buf[..n] <= p + buf
  {
    assert buf[..n] + buf[n..] == buf;
  }

  lemma SendDataIntact(e: Endpoint, w: Writer)
    requires MaySendData(e, w) && Bounded(SendData(e, w))
    ensures Intact(SendData(e, w))
  {
    var n := if Sendable(e.s) > 0 then Sendable(e.s) else 0;
    assert PreparedData(e.s) == e.s.write.buf[..n];
    TakeFront(e.out.bytes, e.s.write.buf, n);
    assert e.s.write.buf[e.s.write.wired..] == e.s.write.buf;
    assert SendData(e, w).out.bytes == e.out.bytes + e.s.write.buf[..n];
    assert e.s.flags.seenReset ==> SendData(e, w).out.bytes == e.out.bytes;
  }

  lemma SendDataKeeps(e: Endpoint, w: Writer)
    requires MaySendData(e, w)
    ensures Kept(SendData(e, w)) && !ActiveData(SendData(e, w).s)
  {
    SendDataFits(e, w);
    SendDataIntact(e, w);
  }

  lemma CtrlDataKeeps(e: Endpoint)
    requires Inv(e) && e.known && e.s.write.wired == 0 && WantsData(e.s)
    ensures Inv(Continue(e, CtrlTurn(e.s)))
  {
    SendDataKeeps(e, CtrlSent(true));
    assert Continue(e, CtrlTurn(e.s)) == SendData(e, CtrlSent(true));
  }

  lemma WindowKeeps(e: Endpoint)
    requires Inv(e) && e.known && e.s.write.wired == 0 && !WantsData(e.s) && WantsWindow(e.s)
    requires e.writer.CtrlTaken? || e.writer.CtrlSent?
    ensures Inv(Continue(e, WindowTurn(e.s)))
  {
    assert e.out.bytes + [] == e.out.bytes;
  }

  lemma ResetKeeps(e: Endpoint)
    requires Inv(e) && e.known && e.s.write.wired == 0 && !WantsData(e.s) && WantsReset(e.s)
    requires e.writer.CtrlTaken? || e.writer.CtrlSent?
    ensures Inv(Continue(e, ResetTurn(e.s)))
  {
    assert e.out.bytes + [] == e.out.bytes;
  }

  lemma EndKeeps(e: Endpoint)
    requires Inv(e) && e.known && e.s.write.wired == 0 && !WantsData(e.s) && WantsEnd(e.s)
    ensures Inv(Continue(e, EndTurn(e.s)))
  {
  }

  lemma CtrlTurnKeeps(e: Endpoint)
    requires Inv(e) && e.known && e.s.write.wired == 0
    requires e.writer.CtrlTaken? || e.writer.CtrlSent?
    ensures Inv(Continue(e, CtrlTurn(e.s)))
  {
    if WantsData(e.s) {
      CtrlDataKeeps(e);
    } else if WantsWindow(e.s) {
      WindowKeeps(e);
    } else if WantsReset(e.s) {
      ResetKeeps(e);
    } else if WantsEnd(e.s) {
      EndKeeps(e);
    } else {
      assert !CtrlWork(e.s);
    }
  }

  lemma SkipKeeps(e: Endpoint)
    requires Inv(e) && e.writer == CtrlTaken && NeverHappened(e.s) && e.inp.frames == []
    ensures Inv(e.(s := Skip(e.s), writer := Idle, skipped := true))
  {
  }

  lemma CompleteKeeps(e: Endpoint, w: Writer)
    requires Inv(e) && e.known
    requires (e.writer == CtrlSent(true) && w == e.writer) || (e.writer == DataSent && w == Idle)
    ensures Inv(e.(s := Complete(e.s), writer := w))
  {
    assert Complete(e.s).write.buf[0..] == e.s.write.buf[e.s.write.wired..];
  }

  /** The queue flags only matter to scheduling. */
  lemma QueuingKeeps(e: Endpoint, inctrl: bool, indata: bool)
    requires Kept(e) && e.known
    ensures Kept(e.(s := e.s.(inctrl := inctrl, indata := indata)))
  {
  }

  /** writeData leaves nothing behind that nobody will look at again. */
  lemma DataTurnSchedules(e: Endpoint)
    requires MaySendData(e, DataSent) && e.writer == DataTaken && DataTurn(e.s).SentData?
    requires Kept(SendData(e, DataSent)) && !ActiveData(SendData(e, DataSent).s)
    ensures Scheduled(SendData(e, DataSent).(s := DataTurn(e.s).stream))
  {
  }

  lemma DataTurnKeeps(e: Endpoint)
    requires Inv(e) && e.known && e.writer == DataTaken
    ensures Inv(WriterStep(e))
  {
    if Sendable(e.s) > 0 {
      SendDataKeeps(e, DataSent);
      DataTurnSchedules(e);
      var e' := SendData(e, DataSent);
      var t := DataTurn(e.s).stream;
      QueuingKeeps(e', t.inctrl, t.indata);
      assert e'.s.(inctrl := t.inctrl, indata := t.indata) == t;
      assert WriterStep(e) == e'.(s := t);
    } else {
      assert WriterStep(e) == e.(writer := Idle);
    }
  }

  lemma TakeKeeps(e: Endpoint)
    requires Inv(e) && e.known && e.writer == Idle && (e.s.inctrl || e.s.indata)
    ensures Inv(WriterStep(e))
  {
    if e.s.inctrl {
      QueuingKeeps(e, false, e.s.indata);
      assert WriterStep(e) == e.(s := e.s.(inctrl := false, indata := e.s.indata), writer := CtrlTaken);
    } else {
      QueuingKeeps(e, e.s.inctrl, false);
      assert WriterStep(e) == e.(s := e.s.(inctrl := e.s.inctrl, indata := false), writer := DataTaken);
    }
  }

  lemma WriterKeeps(e: Endpoint)
    requires Inv(e) && WriterEnabled(e)
    requires NeverHappened(e.s) ==> e.inp.frames == []
    ensures Inv(WriterStep(e))
  {
    match e.writer
    case Idle => TakeKeeps(e);
    case CtrlTaken => if NeverHappened(e.s) { SkipKeeps(e); } else { CtrlTurnKeeps(e); }
    case CtrlSent(data) =>
      if data {
        CompleteKeeps(e, e.writer);
        CtrlTurnKeeps(e.(s := Complete(e.s)));
      } else {
        CtrlTurnKeeps(e);
      }
    case DataTaken => DataTurnKeeps(e);
    case DataSent => CompleteKeeps(e, Idle);
  }

  // ----- incoming frames

  /** What an endpoint relies on when frame `f` arrives: it is the next frame
      of a lawful history, and its data fits the credit granted so far. */
  ghost predicate Expected(e: Endpoint, f: Frame) {
    && MayAdd(e.inp, f)
    && |e.inp.bytes| + |PayloadOf(f)| <= WINDOW + e.out.credit
    && !e.skipped
    && e.inp.opener == !e.opener
    && (IsOpen(f) ==> e.known)
  }

  lemma CreateKeeps(e: Endpoint)
    requires Inv(e) && !e.known
    ensures Inv(Created(e))
  {
  }

  lemma StoreKeeps(e: Endpoint, f: Frame)
    requires Inv(e) && Expected(e, f) && f.Data? && !f.eof
    ensures Inv(Absorb(e, f, Store(SeeAck(e.s, f.ack), f.payload)))
  {
    assert e.consumed + (e.s.read.buf + f.payload) == (e.consumed + e.s.read.buf) + f.payload;
  }

  /** Only the totals of the received frames matter. */
  lemma SameTotalsKeeps(e: Endpoint, l: Log)
    requires Inv(e) && e.inp.frames != [] && l.frames != []
    requires l.opener == e.inp.opener && l.bytes == e.inp.bytes && l.credit == e.inp.credit
    requires l.ended == e.inp.ended && l.reset == e.inp.reset
    ensures Inv(e.(inp := l))
  {
  }

  lemma EndKeepsReading(e: Endpoint, f: Frame, err: Error)
    requires Inv(e) && Expected(e, f) && e.known && e.s.live
    requires IsEnd(f) && !IsResetRead(f) && !IsOpen(f) && PayloadOf(f) == []
    ensures Inv(Absorb(e, f, SeeEnd(e.s, err)))
  {
    assert e.inp.bytes + [] == e.inp.bytes;
  }

  lemma StoreEndFits(e: Endpoint, f: Frame)
    requires Inv(e) && Expected(e, f) && f.Data? && f.eof
    ensures var e' := Absorb(e, f, SeeEnd(Store(SeeAck(e.s, f.ack), f.payload), Eof));
            Bounded(e') && Intact(e') && Credited(e') && Scheduled(e')
  {
    assert e.consumed + (e.s.read.buf + f.payload) == (e.consumed + e.s.read.buf) + f.payload;
  }

  lemma StoreEndKeeps(e: Endpoint, f: Frame)
    requires Inv(e) && Expected(e, f) && f.Data? && f.eof
    ensures Inv(Absorb(e, f, SeeEnd(Store(SeeAck(e.s, f.ack), f.payload), Eof)))
  {
    StoreEndFits(e, f);
  }

  lemma ResetReadKeeps(e: Endpoint, f: Frame)
    requires Inv(e) && Expected(e, f) && f.Reset? && e.known && e.s.live
    requires f.read && !f.write
    ensures Inv(Absorb(e, f, SeeReset(e.s, f.err)))
  {
    assert e.inp.bytes + [] == e.inp.bytes;
  }

  lemma ResetBothKeeps(e: Endpoint, f: Frame, err: Error)
    requires Inv(e) && Expected(e, f) && f.Reset? && e.known && e.s.live
    requires f.read && f.write
    ensures Inv(Absorb(e, f, SeeEnd(SeeReset(e.s, f.err), err)))
  {
    var f1, f2 := f.(write := false), f.(read := false);
    ResetReadKeeps(e, f1);
    var e1 := Absorb(e, f1, SeeReset(e.s, f.err));
    EndKeepsReading(e1, f2, err);
    var e2 := Absorb(e1, f2, SeeEnd(e1.s, err));
    assert e1.inp.bytes + [] == e1.inp.bytes;
    SameTotalsKeeps(e2, Add(e.inp, f));
  }

  lemma WindowFrameKeeps(e: Endpoint, f: Frame)
    requires Inv(e) && Expected(e, f) && f.Window? && e.known && e.s.live
    ensures Inv(Absorb(e, f, ChangeWriteWindow(e.s, f.increment)))
  {
    assert e.inp.bytes + [] == e.inp.bytes;
  }

  /** A frame without effect: RESET without flags, or a dead stream's rest. */
  lemma IgnoredKeeps(e: Endpoint, f: Frame)
    requires Inv(e) && Expected(e, f) && e.known
    requires !f.Data? && (e.s.live ==> f.Reset? && !f.read && !f.write)
    ensures Inv(Absorb(e, f, e.s))
  {
    assert e.inp.bytes + [] == e.inp.bytes;
  }

  lemma ResetKeepsFrame(e: Endpoint, f: Frame)
    requires Inv(e) && Expected(e, f) && f.Reset? && e.known && e.s.live
    ensures Inv(Absorb(e, f, ProcessReset(e.s, f)))
  {
    var err := if f.err == ECLOSED then Eof else f.err;
    if f.read && f.write {
      ResetBothKeeps(e, f, err);
    } else if f.read {
      ResetReadKeeps(e, f);
    } else if f.write {
      EndKeepsReading(e, f, err);
    } else {
      IgnoredKeeps(e, f);
    }
  }

  lemma DataDelivered(e: Endpoint, f: Frame)
    requires Inv(e) && Expected(e, f) && f.Data?
    ensures var t := Store(SeeAck(e.s, f.ack), f.payload);
            Dispatch(e.known, e.inp.frames != [], e.opener, e.s, f) == Ok(if f.eof then SeeEnd(t, Eof) else t)
  {
    assert !e.s.flags.seenEOF && |f.payload| <= e.s.read.left;
    assert e.known && e.s.live;
    if f.open { assert e.inp.frames == [] && |f.payload| <= WINDOW; }
  }

  /** An expected frame is processed without a connection error. */
  lemma ReceiveKeeps(e: Endpoint, f: Frame)
    requires Inv(e) && Expected(e, f)
    ensures Receive(e, f).Delivered?
    ensures Inv(Receive(e, f).e)
  {
    if f.Data? {
      DataDelivered(e, f);
      if f.eof { StoreEndKeeps(e, f); } else { StoreKeeps(e, f); }
    } else {
      OtherKeeps(e, f);
    }
  }

  lemma OtherKeeps(e: Endpoint, f: Frame)
    requires Inv(e) && Expected(e, f) && !f.Data?
    ensures Receive(e, f).Delivered?
    ensures Inv(Receive(e, f).e)
  {
    assert e.known;
    if !e.s.live {
      assert Dispatch(e.known, e.inp.frames != [], e.opener, e.s, f) == Ok(e.s);
      IgnoredKeeps(e, f);
    } else if f.Window? {
      assert Dispatch(e.known, e.inp.frames != [], e.opener, e.s, f) == Ok(ChangeWriteWindow(e.s, f.increment));
      WindowFrameKeeps(e, f);
    } else {
      assert Dispatch(e.known, e.inp.frames != [], e.opener, e.s, f) == Ok(ProcessReset(e.s, f));
      ResetKeepsFrame(e, f);
    }
  }
}

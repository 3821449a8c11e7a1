/** The stream object itself, its fields updated in place as the connection and
    the application call into it.

    Every method that runs with the stream lock held is proved to do exactly
    what the corresponding function of Stream.dfy says, so that the theorems
    about runs are about this code. A method that drops the lock to write a
    frame is split at that point, as the functions are. */
module RawStream {
  import opened Common
  import opened Frames
  import S = Stream

  class RawStream {
    var live: bool
    var flags: S.Flags
    var read: S.ReadSide
    var write: S.WriteSide
    var closeErr: Option<Error>
    var closes: nat
    var inctrl: bool
    var indata: bool

    /** The state as a value. */
    function View(): S.Stream
      reads this
    {
      S.Stream(live, flags, read, write, closeErr, closes, inctrl, indata)
    }

    constructor ()
      ensures View() == S.Incoming()
    {
      live, flags := true, S.Flags(false, false, false, false, false, false, false, false);
      read, write := S.ReadSide(None, [], S.WINDOW, 0, 0, 0), S.WriteSide(None, [], S.WINDOW, 0, false, 0);
      closeErr, closes, inctrl, indata := None, 0, false, false;
    }

    method NeedOpen()
      modifies this
      ensures View() == S.ScheduleCtrl(old(View()).(flags := old(flags).(needOpen := true)))
    {
      flags := flags.(needOpen := true);
      ScheduleCtrl();
    }

    method ScheduleCtrl()
      modifies this`inctrl
      ensures View() == S.ScheduleCtrl(old(View()))
    {
      inctrl := true;
    }

    method ScheduleData()
      modifies this`indata
      ensures View() == S.ScheduleData(old(View()))
    {
      indata := true;
    }

    method Cleanup()
      modifies this`live
      ensures View() == S.Cleanup(old(View()))
    {
      if flags.seenEOF && flags.sentEOF {
        live := false;
      }
    }

    method ClearWriteBuffer()
      modifies this`write, this`inctrl
      ensures View() == S.ClearWriteBuffer(old(View()))
    {
      write := write.(buf := [], wired := 0);
      if flags.needEOF {
        ScheduleCtrl();
      }
    }

    method SetReadError(err: Error) returns (preverror: Option<Error>)
      modifies this`read, this`closes, this`flags, this`inctrl
      ensures View() == S.SetReadError(old(View()), err)
      ensures preverror == old(read.err)
    {
      preverror := read.err;
      if preverror.None? {
        read := read.(err := Some(err), closes := read.closes + 1, increment := 0);
        if write.err.Some? {
          closes := closes + 1;
        }
        if !flags.seenAck {
          read := read.(ackedCloses := read.ackedCloses + 1);
        }
        if !flags.seenEOF {
          flags := flags.(needReset := true);
          ScheduleCtrl();
        }
      }
    }

    method SetWriteError(err: Error) returns (preverror: Option<Error>)
      modifies this`write, this`closes, this`flags, this`inctrl
      ensures View() == S.SetWriteError(old(View()), err)
      ensures preverror == old(write.err)
    {
      preverror := write.err;
      if preverror.None? {
        write := write.(err := Some(err), closes := write.closes + 1);
        if read.err.Some? {
          closes := closes + 1;
        }
        flags := flags.(needEOF := true);
        if |write.buf| == write.wired {
          ScheduleCtrl();
        }
      }
    }

    /** Of several closes only the first counts. A side that is still open ends
        with the error given, and with ECLOSED for none or io.EOF. */
    method CloseWithError(err: Option<Error>) returns (preverror: Option<Error>)
      modifies this
      ensures preverror == old(closeErr)
      ensures old(closeErr).Some? ==> View() == old(View())
      ensures old(closeErr).None? ==> View() == S.Close(old(View()), err)
      ensures old(closeErr).None? && err.Some? && err != Some(Eof) ==>
        && closeErr == err
        && read.err == (if old(read.err).None? then err else old(read.err))
        && write.err == (if old(write.err).None? then err else old(write.err))
      ensures old(closeErr).None? && (err.None? || err == Some(Eof)) ==>
        && closeErr == Some(Code(100))
        && read.err == (if old(read.err).None? then Some(Code(100)) else old(read.err))
        && write.err == (if old(write.err).None? then Some(Code(100)) else old(write.err))
    {
      var e := if err.None? || err == Some(Eof) then ECLOSED else err.value;
      preverror := closeErr;
      if preverror.None? {
        closeErr := Some(e);
        var _ := SetReadError(e);
        var _ := SetWriteError(e);
      }
    }

    method CloseReadWithError(err: Option<Error>) returns (preverror: Option<Error>)
      modifies this`read, this`closes, this`flags, this`inctrl
      ensures View() == S.SetReadError(old(View()), S.CloseError(err)) && preverror == old(read.err)
      ensures old(read.err).Some? ==> read.err == old(read.err)
      ensures old(read.err).None? ==> read.err == if err.None? || err == Some(Eof) then Some(Code(100)) else err
    {
      var e := if err.None? || err == Some(Eof) then ECLOSED else err.value;
      preverror := SetReadError(e);
    }

    method CloseWriteWithError(err: Option<Error>) returns (preverror: Option<Error>)
      modifies this`write, this`closes, this`flags, this`inctrl
      ensures View() == S.SetWriteError(old(View()), S.CloseError(err)) && preverror == old(write.err)
      ensures old(write.err).Some? ==> write.err == old(write.err)
      ensures old(write.err).None? ==> write.err == if err.None? || err == Some(Eof) then Some(Code(100)) else err
      ensures write.buf == old(write.buf)
    {
      var e := if err.None? || err == Some(Eof) then ECLOSED else err.value;
      preverror := SetWriteError(e);
    }

    method SeeAck(ack: bool)
      modifies this`read, this`flags
      ensures View() == S.SeeAck(old(View()), ack)
    {
      if ack {
        if read.err.None? && !flags.seenAck {
          read := read.(ackedCloses := read.ackedCloses + 1);
        }
        flags := flags.(seenAck := true);
      }
    }

    method Store(data: seq<Byte>)
      modifies this`read
      ensures View() == S.Store(old(View()), data)
    {
      if read.err.None? {
        read := read.(buf := read.buf + data);
      }
      read := read.(left := read.left - |data|);
    }

    method SeeEnd(err: Error)
      modifies this
      ensures View() == S.SeeEnd(old(View()), err)
    {
      flags := flags.(seenEOF := true, needReset := false);
      var _ := SetReadError(err);
      Cleanup();
    }

    method ProcessData(f: Frame) returns (error: Option<int>)
      requires f.Data?
      modifies this
      ensures error.Some? ==> S.ProcessData(old(View()), f) == S.Fail(error.value)
      ensures error.None? ==> S.ProcessData(old(View()), f) == S.Ok(View())
    {
      if flags.seenEOF {
        return Some(S.EINVALIDSTREAM);
      }
      SeeAck(f.ack);
      if |f.payload| > 0 && |f.payload| > read.left {
        return Some(S.EWINDOWOVERFLOW);
      }
      Store(f.payload);
      if !f.eof {
        return None;
      }
      SeeEnd(Eof);
      return None;
    }

    /** RESET READ fails writes with the frame's error and drops what is unsent;
        RESET WRITE ends reading with it, with ECLOSED as a normal end. A side that
        was closed before keeps its error. */
    method ProcessReset(f: Frame)
      requires f.Reset?
      modifies this
      ensures View() == S.ProcessReset(old(View()), f)
      ensures write.err == (if f.read && old(write.err).None? then Some(f.err) else old(write.err))
      ensures write.buf == (if f.read then [] else old(write.buf))
      ensures f.write && old(read.err).None? ==> read.err == if f.err == Code(100) then Some(Eof) else Some(f.err)
      ensures !f.write || old(read.err).Some? ==> read.err == old(read.err)
      ensures read.buf == old(read.buf)
    {
      if f.read {
        flags := flags.(seenReset := true);
        ClearWriteBuffer();
        var _ := SetWriteError(f.err);
      }
      if f.write {
        SeeEnd(if f.err == ECLOSED then Eof else f.err);
      }
    }

    method ChangeWriteWindow(diff: int)
      modifies this`write, this`indata
      ensures View() == S.ChangeWriteWindow(old(View()), diff)
    {
      if write.left <= 0 && |write.buf| - write.wired > 0 {
        write := write.(left := write.left + diff);
        if write.left > 0 {
          ScheduleData();
        }
      } else {
        write := write.(left := write.left + diff);
      }
    }

    method PrepareData() returns (data: seq<Byte>)
      modifies this`write
      ensures View() == S.Prepare(old(View()))
      ensures data == S.PreparedData(old(View()))
      ensures data <= write.buf == old(write.buf) && |data| <= 0xff_ffff
      ensures |data| == |write.buf| || |data| == 0xff_ffff || |data| >= old(write.left)
      ensures |data| > 0 ==> write.wired == |data| && write.left == old(write.left) - |data| >= 0
    {
      var n := |write.buf|;
      if n > write.left {
        n := write.left;
      }
      if n > S.MAX_PAYLOAD {
        n := S.MAX_PAYLOAD;
      }
      if n > 0 {
        data := write.buf[..n];
        write := write.(wired := n, left := write.left - n);
      } else {
        data := [];
      }
    }

    method OutgoingFlags() returns (open: bool, ack: bool, eof: bool)
      modifies this`flags, this`live
      ensures View() == S.AfterData(old(View()))
      ensures open == old(flags.needOpen) && ack == old(flags.needAck) && eof == S.ActiveEOF(old(View()))
    {
      open, ack, eof := flags.needOpen, flags.needAck, false;
      flags := flags.(needOpen := false, needAck := false);
      if |write.buf| == write.wired && flags.needEOF && !flags.needReset && write.err == Some(ECLOSED) {
        flags := flags.(needEOF := false, sentEOF := true);
        Cleanup();
        eof := true;
      }
    }

    // ----- the writer

    /** One turn of writeCtrl's loop: sends the first pending control frame, if
        any. The lock is dropped for the frame and the loop goes on afterwards. */
    method CtrlTurn() returns (frame: Option<Frame>, isData: bool)
      modifies this
      ensures frame.None? ==> S.CtrlTurn(old(View())).Quiet? && View() == old(View())
      ensures frame.Some? && isData ==> S.CtrlTurn(old(View())) == S.SentData(View(), frame.value)
      ensures frame.Some? && !isData ==> S.CtrlTurn(old(View())) == S.SentOther(View(), frame.value)
    {
      frame, isData := None, false;
      if (flags.needOpen || flags.needAck) && !flags.sentEOF {
        var data := PrepareData();
        var open, ack, eof := OutgoingFlags();
        return Some(Data(open, ack, eof, data)), true;
      }
      if read.increment > 0 {
        frame := Some(Window(read.increment));
        read := read.(left := read.left + read.increment, increment := 0);
        return;
      }
      if flags.needReset && read.err.Some? {
        frame := ResetTurn();
        return;
      }
      if write.buf == [] && flags.needEOF && write.err.Some? {
        frame := EndTurn();
      }
    }

    method ResetTurn() returns (frame: Option<Frame>)
      requires S.WantsReset(View())
      modifies this`flags, this`live
      ensures frame.Some? && S.ResetTurn(old(View())) == S.SentOther(View(), frame.value)
    {
      flags := flags.(needReset := false);
      var reset := if read.err.value == Eof then ECLOSED else read.err.value;
      var both := write.buf == [] && flags.needEOF && write.err == Some(reset);
      if both {
        flags := flags.(needEOF := false, sentEOF := true);
        Cleanup();
      }
      return Some(Reset(true, both, S.Sent(reset)));
    }

    method EndTurn() returns (frame: Option<Frame>)
      requires S.WantsEnd(View())
      modifies this`flags, this`live
      ensures frame.Some? && S.EndTurn(old(View())) == S.SentOther(View(), frame.value)
    {
      flags := flags.(needEOF := false, sentEOF := true);
      Cleanup();
      if write.err.value != ECLOSED {
        return Some(Reset(false, true, S.Sent(write.err.value)));
      }
      return Some(Data(false, false, true, []));
    }

    /** The check at the top of writeCtrl. */
    method SkipUnopened() returns (skipped: bool)
      modifies this`flags, this`live
      ensures skipped == S.NeverHappened(old(View()))
      ensures View() == if skipped then S.Skip(old(View())) else old(View())
    {
      skipped := flags.needOpen && flags.needReset && flags.needEOF && write.buf == [];
      if skipped {
        flags := S.Flags(true, true, false, false, false, false, false, false);
        Cleanup();
      }
    }

    /** writeData, up to the point where it drops the lock. */
    method DataTurn() returns (frame: Option<Frame>)
      modifies this
      ensures frame.None? ==> S.DataTurn(old(View())).Quiet? && View() == old(View())
      ensures frame.Some? ==> S.DataTurn(old(View())) == S.SentData(View(), frame.value)
    {
      var data := PrepareData();
      if |data| == 0 {
        return None;
      }
      var open, ack, eof := OutgoingFlags();
      if write.left > 0 && |write.buf| - write.wired > 0 {
        ScheduleData();
      } else if |write.buf| == write.wired && flags.needEOF {
        ScheduleCtrl();
      }
      return Some(Data(open, ack, eof, data));
    }

    /** The frame is written; the lock is held again. */
    method Complete()
      requires write.wired <= |write.buf|
      modifies this`write
      ensures View() == S.Complete(old(View()))
    {
      write := write.(buf := write.buf[write.wired..], wired := 0);
    }

    // ----- application calls

    method Append(piece: seq<Byte>)
      modifies this`write, this`indata
      ensures View() == S.Write(old(View()), piece)
    {
      write := write.(buf := write.buf + piece);
      if write.left > 0 { ScheduleData(); }
    }

    /** Write, up to the point where it would have to wait. All of `b` accepted is
        success; less comes with the write error, or without one if there is
        no room: then Write waits. */
    method Write(b: seq<Byte>) returns (n: nat, err: Option<Error>)
      requires |write.buf| <= S.WRITE_BUFFER
      modifies this`write, this`indata
      ensures n <= |b|
      ensures View() == if n == 0 then old(View()) else S.Write(old(View()), b[..n])
      ensures n < |b| ==> write.err.Some? || |write.buf| == 65536
      ensures write.buf == old(write.buf) + b[..n] && (n > 0 && write.left > 0 ==> indata)
      ensures old(write.err).Some? ==> n == 0
      ensures |write.buf| <= S.WRITE_BUFFER
      ensures err == if n < |b| || b == [] then old(write.err) else None
    {
      n := 0;
      while n < |b| && write.err.None? && |write.buf| < S.WRITE_BUFFER
        invariant n <= |b|
        invariant old(write.err).Some? ==> n == 0
        invariant |write.buf| <= S.WRITE_BUFFER
        invariant View() == if n == 0 then old(View()) else S.Write(old(View()), b[..n])
      {
        var taken := |b| - n;
        if taken > S.WRITE_BUFFER - |write.buf| {
          taken := S.WRITE_BUFFER - |write.buf|;
        }
        assert b[..n + taken] == b[..n] + b[n..n + taken];
        WriteTwice(old(View()), b[..n], b[n..n + taken]);
        Append(b[n..n + taken]);
        n := n + taken;
      }
      err := if n < |b| || |b| == 0 then write.err else None;
    }

    /** Read, if it need not wait: with the last bytes of a closed side comes its error. */
    method Read(want: nat) returns (data: seq<Byte>, err: Option<Error>)
      modifies this`read, this`inctrl
      ensures |data| == if want < |old(read.buf)| then want else |old(read.buf)|
      ensures data == old(read.buf)[..|data|]
      ensures View() == S.Read(old(View()), |data|)
      ensures read.buf == old(read.buf)[|data|..]
      ensures read.increment == old(read.increment) + if read.err.None? then |data| else 0
      ensures |data| > 0 && read.err.None? ==> inctrl
      ensures err == if read.buf == [] then old(read.err) else None
    {
      var n := if want < |read.buf| then want else |read.buf|;
      data := read.buf[..n];
      read := read.(buf := read.buf[n..]);
      if n > 0 && read.err.None? {
        read := read.(increment := read.increment + n);
        ScheduleCtrl();
      }
      err := if |read.buf| == 0 then read.err else None;
    }

    method Acknowledge() returns (err: Option<Error>)
      modifies this`flags, this`write, this`inctrl
      ensures View() == S.Acknowledge(old(View()))
      ensures err == old(write.err)
      ensures err.Some? || old(write.acked) ==> View() == old(View())
      ensures err.None? ==> write.acked && (!old(write.acked) ==> flags.needAck && inctrl)
    {
      err := write.err;
      if err.None? && !write.acked {
        flags := flags.(needAck := true);
        write := write.(acked := true);
        ScheduleCtrl();
      }
    }
  }

  lemma WriteTwice(s: S.Stream, x: seq<Byte>, y: seq<Byte>)
    ensures S.Write(S.Write(s, x), y) == S.Write(s, x + y)
    ensures x == [] ==> S.Write(s, x + y) == S.Write(s, y)
  {
    assert s.write.buf + (x + y) == s.write.buf + x + y;
    if x == [] { assert x + y == y; }
  }
}

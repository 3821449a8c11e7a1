/** A whole connection: many streams share two wires, two scheduler queues and
    one writer per side.

    Every step of the connection is at most one step of the stream it concerns,
    so each stream runs exactly as Duplex.dfy describes, and everything proved
    there holds for each stream of a connection. */
module Connection {
  import opened Common
  import opened Frames
  import opened Stream
  import opened Endpoint
  import opened EndpointProofs
  import opened Duplex
  import opened DuplexTheorems
  import opened Settling

  datatype Host = Host(
    streams: map<nat, Endpoint>,   // every stream this side has ever had
    ctrl: seq<nat>,                // streams that need to write control frames
    data: seq<nat>,                // streams that need to write data
    held: Option<nat>,             // the stream the writer is working on
    ready: bool,                   // writeready
    sent: seq<(nat, Frame)>,       // all stream frames sent, in wire order
    got: nat)                      // how many of the peer's frames were dispatched

  datatype Conn = Conn(x: Host, y: Host)

  function Start(): Conn {
    var h := Host(map[], [], [], None, false, [], 0);
    Conn(h, h)
  }

  /** The client (`x`) uses odd stream ids, the server (`y`) even ones. */
  predicate Owns(isX: bool, id: nat) { (id % 2 == 1) == isX }

  function At(h: Host, id: nat): Endpoint { if id in h.streams then h.streams[id] else Acceptor() }

  /** The stream `id` as a pair of endpoints, seen from host `h`. */
  function View(h: Host, peer: Host, isX: bool, id: nat): Duplex {
    if Owns(isX, id) then Duplex(At(h, id), At(peer, id)) else Duplex(At(peer, id), At(h, id))
  }

  function Push(q: seq<nat>, id: nat, was: bool, now: bool): seq<nat> {
    if now && !was then q + [id] else q
  }

  /** Stream `id` moves on to `e`; scheduling it queues it and wakes the writer. */
  function Put(h: Host, id: nat, e: Endpoint): Host {
    var prev := At(h, id).s;
    var wakes := (e.s.inctrl && !prev.inctrl) || (e.s.indata && !prev.indata);
    h.(streams := h.streams[id := e],
       ctrl := Push(h.ctrl, id, prev.inctrl, e.s.inctrl),
       data := Push(h.data, id, prev.indata, e.s.indata),
       ready := h.ready || wakes)
  }

  // ----- steps of one host

  function Open(h: Host, id: nat): Host { Put(h, id, Opener()) }

  function App(h: Host, id: nat, call: Call): Host
    requires id in h.streams && CallEnabled(h.streams[id], call)
  {
    Put(h, id, CallStep(h.streams[id], call))
  }

  /** writeFrames takes the next stream: control frames before data. */
  function Take(h: Host): Host
    requires h.held.None? && (h.ctrl != [] || h.data != [])
  {
    if h.ctrl != [] then
      var e := At(h, h.ctrl[0]);
      h.(ctrl := h.ctrl[1..], held := Some(h.ctrl[0]),
         streams := h.streams[h.ctrl[0] := e.(s := e.s.(inctrl := false), writer := CtrlTaken)])
    else
      var e := At(h, h.data[0]);
      h.(data := h.data[1..], held := Some(h.data[0]),
         streams := h.streams[h.data[0] := e.(s := e.s.(indata := false), writer := DataTaken)])
  }

  /** The writer goes on with the stream it holds. */
  function Work(h: Host): Host
    requires h.held.Some? && WriterEnabled(At(h, h.held.value))
  {
    var id := h.held.value;
    var e, f := WriterStep(At(h, id)), WriterFrame(At(h, id));
    Put(h, id, e).(held := if e.writer == Idle then None else h.held,
                   sent := if f.Some? then h.sent + [(id, f.value)] else h.sent)
  }

  /** The readloop dispatches one frame. */
  function Dispatched(h: Host, p: (nat, Frame)): Host
    requires Receive(At(h, p.0), p.1).Delivered?
  {
    Put(h, p.0, Receive(At(h, p.0), p.1).e).(got := h.got + 1)
  }

  datatype Action =
    | DoOpen(id: nat)
    | DoApp(id: nat, call: Call)
    | DoTake
    | DoWork
    | DoSleep            // writeFrames finds nothing to do and clears writeready
    | DoCreate           // the readloop creates the stream of an OPEN frame
    | DoDispatch

  predicate CanDo(h: Host, peer: Host, isX: bool, act: Action) {
    match act
    case DoOpen(id) => Owns(isX, id) && id !in h.streams
    case DoApp(id, call) => id in h.streams && CallEnabled(h.streams[id], call)
    case DoTake => h.held.None? && (h.ctrl != [] || h.data != [])
    case DoWork => h.held.Some? && WriterEnabled(At(h, h.held.value))
    case DoSleep => h.held.None? && h.ctrl == [] && h.data == []
    case DoCreate => h.got < |peer.sent| && NeedsCreate(At(h, peer.sent[h.got].0), peer.sent[h.got].1)
    case DoDispatch =>
      && h.got < |peer.sent| && !NeedsCreate(At(h, peer.sent[h.got].0), peer.sent[h.got].1)
      && Receive(At(h, peer.sent[h.got].0), peer.sent[h.got].1).Delivered?
  }

  function Do(h: Host, peer: Host, isX: bool, act: Action): Host
    requires CanDo(h, peer, isX, act)
  {
    match act
    case DoOpen(id) => Open(h, id)
    case DoApp(id, call) => App(h, id, call)
    case DoTake => Take(h)
    case DoWork => Work(h)
    case DoSleep => h.(ready := false)
    case DoCreate => Put(h, peer.sent[h.got].0, Created(At(h, peer.sent[h.got].0)))
    case DoDispatch => Dispatched(h, peer.sent[h.got])
  }

  ghost predicate Steps(c: Conn, c': Conn) {
    || (exists act :: CanDo(c.x, c.y, true, act) && c' == c.(x := Do(c.x, c.y, true, act)))
    || (exists act :: CanDo(c.y, c.x, false, act) && c' == c.(y := Do(c.y, c.x, false, act)))
  }

  // ----- the shared wire, stream by stream

  /** The frames of stream `id` among the frames of a connection. */
  function Of(w: seq<(nat, Frame)>, id: nat): seq<Frame> {
    if w == [] then [] else
    var rest := Of(w[..|w| - 1], id);
    if w[|w| - 1].0 == id then rest + [w[|w| - 1].1] else rest
  }

  lemma OfAppend(w: seq<(nat, Frame)>, p: (nat, Frame), id: nat)
    ensures Of(w + [p], id) == if p.0 == id then Of(w, id) + [p.1] else Of(w, id)
  {
    assert (w + [p])[..|w|] == w;
  }

  lemma {:induction false} OfPrefix(w: seq<(nat, Frame)>, k: nat, id: nat)
    requires k <= |w|
    ensures Of(w[..k], id) <= Of(w, id)
    decreases |w|
  {
    if k < |w| {
      OfPrefix(w[..|w| - 1], k, id);
      assert w[..|w| - 1][..k] == w[..k];
    } else {
      assert w[..k] == w;
    }
  }

  lemma OfOneMore(w: seq<(nat, Frame)>, k: nat, id: nat)
    requires k < |w|
    ensures Of(w[..k + 1], id) == if w[k].0 == id then Of(w[..k], id) + [w[k].1] else Of(w[..k], id)
  {
    assert w[..k + 1] == w[..k] + [w[k]];
    OfAppend(w[..k], w[k], id);
  }

  /** The next frame extends its own stream's share and no other's. */
  lemma OfNext(w: seq<(nat, Frame)>, k: nat)
    requires k < |w|
    ensures Of(w[..k + 1], w[k].0) == Of(w[..k], w[k].0) + [w[k].1]
    ensures Of(w[..k + 1], w[k].0) <= Of(w, w[k].0)
    ensures forall i :: i != w[k].0 ==> Of(w[..k + 1], i) == Of(w[..k], i)
  {
    OfOneMore(w, k, w[k].0);
    OfPrefix(w, k + 1, w[k].0);
    forall i | i != w[k].0 ensures Of(w[..k + 1], i) == Of(w[..k], i) { OfOneMore(w, k, i); }
  }

  // ----- the invariant

  /** Each queue holds exactly the streams whose flag says so, once. */
  ghost predicate Queued(h: Host) {
    && Distinct(h.ctrl) && Distinct(h.data)
    && (forall id :: id in h.ctrl <==> id in h.streams && h.streams[id].s.inctrl)
    && (forall id :: id in h.data <==> id in h.streams && h.streams[id].s.indata)
    && (h.ctrl != [] || h.data != [] || h.held.Some? ==> h.ready)
  }

  /** The writer works on at most one stream, the one it holds. */
  ghost predicate Holding(h: Host) {
    && (h.held.Some? ==> h.held.value in h.streams)
    && (forall id :: id in h.streams ==> (h.streams[id].writer != Idle <==> h.held == Some(id)))
  }

  /** Each stream has emitted its share of the wire, and absorbed its share of
      what was dispatched. */
  ghost predicate Shares(h: Host, peer: Host) {
    && h.got <= |peer.sent|
    && (forall id :: At(h, id).out.frames == Of(h.sent, id))
    && (forall id :: At(h, id).inp.frames == Of(peer.sent[..h.got], id))
  }

  ghost predicate HostInv(h: Host, peer: Host) { Queued(h) && Holding(h) && Shares(h, peer) }

  /** Every stream behaves like a stream of its own. */
  ghost predicate Projects(h: Host, peer: Host, isX: bool) {
    forall id :: if id in h.streams || id in peer.streams
                 then Reachable(View(h, peer, isX, id)) && (Owns(isX, id) ==> id in h.streams) && (!Owns(isX, id) ==> id in peer.streams)
                 else At(h, id) == Acceptor()
  }

  ghost predicate ConnInv(h: Host, peer: Host, isX: bool) {
    HostInv(h, peer) && HostInv(peer, h) && Projects(h, peer, isX)
  }

  lemma ExtendRun(run: seq<Duplex>, steps: seq<Step>, st: Step, d: Duplex)
    requires IsRun(run, steps) && Follows(run[|steps|], st, d)
    ensures IsRun(run + [d], steps + [st])
  {
    var run', steps' := run + [d], steps + [st];
    forall i | 0 <= i < |steps'| ensures Follows(run'[i], steps'[i], run'[i + 1]) {
      if i < |steps| { assert Follows(run[i], steps[i], run[i + 1]); }
    }
  }

  lemma ReachableStep(d: Duplex, st: Step)
    requires Reachable(d) && Enabled(d, st)
    ensures !Breaks(d, st) && Reachable(Next(d, st))
  {
    NeverBreaks(d, st);
    var run, steps :| IsRun(run, steps) && run[|steps|] == d;
    ExtendRun(run, steps, st, Next(d, st));
    assert (run + [Next(d, st)])[|steps + [st]|] == Next(d, st);
  }

  lemma ReachableInit()
    ensures Reachable(Init())
  {
    var run, steps: seq<Step> := [Init()], [];
    assert IsRun(run, steps) && run[|steps|] == Init();
  }

  lemma PutQueued(h: Host, id: nat, e: Endpoint)
    requires Queued(h)
    requires At(h, id).s.inctrl ==> e.s.inctrl
    requires At(h, id).s.indata ==> e.s.indata
    ensures Queued(Put(h, id, e))
  {
  }

  lemma PutProjects(h: Host, peer: Host, isX: bool, id: nat, e: Endpoint, h': Host)
    requires Projects(h, peer, isX)
    requires h'.streams == h.streams[id := e]
    requires Reachable(View(h', peer, isX, id)) && (!Owns(isX, id) ==> id in peer.streams)
    ensures Projects(h', peer, isX)
  {
    forall i | i != id
      ensures View(h', peer, isX, i) == View(h, peer, isX, i)
    {
    }
  }

  lemma InvOf(h: Host, peer: Host, isX: bool, id: nat)
    requires Projects(h, peer, isX) && id in h.streams
    ensures Inv(h.streams[id])
  {
    ReachableKeeps(View(h, peer, isX, id));
  }

  /** The peer is not affected by what a host does on its own. */
  lemma PeerShares(h: Host, h': Host, peer: Host)
    requires Shares(peer, h) && h.sent <= h'.sent
    ensures Shares(peer, h')
  {
    assert h'.sent[..peer.got] == h.sent[..peer.got];
  }

  lemma PutHolding(h: Host, id: nat, e: Endpoint)
    requires Holding(h) && e.writer == At(h, id).writer
    requires id !in h.streams ==> e.writer == Idle
    ensures Holding(Put(h, id, e))
  {
  }

  lemma PutShares(h: Host, peer: Host, id: nat, e: Endpoint)
    requires Shares(h, peer)
    requires e.out.frames == At(h, id).out.frames && e.inp.frames == At(h, id).inp.frames
    ensures Shares(Put(h, id, e), peer)
  {
  }

  /** A stream moves on without touching the wires or the writer. */
  lemma PutKeeps(h: Host, peer: Host, isX: bool, id: nat, e: Endpoint)
    requires ConnInv(h, peer, isX)
    requires At(h, id).s.inctrl ==> e.s.inctrl
    requires At(h, id).s.indata ==> e.s.indata
    requires e.writer == At(h, id).writer && (id !in h.streams ==> e.writer == Idle)
    requires e.out.frames == At(h, id).out.frames && e.inp.frames == At(h, id).inp.frames
    requires Reachable(View(Put(h, id, e), peer, isX, id)) && (!Owns(isX, id) ==> id in peer.streams)
    ensures ConnInv(Put(h, id, e), peer, isX)
  {
    PutQueued(h, id, e);
    PutHolding(h, id, e);
    PutShares(h, peer, id, e);
    PutProjects(h, peer, isX, id, e, Put(h, id, e));
    PeerShares(h, Put(h, id, e), peer);
  }

  lemma OpenKeeps(h: Host, peer: Host, isX: bool, id: nat)
    requires ConnInv(h, peer, isX) && Owns(isX, id) && id !in h.streams
    ensures ConnInv(Open(h, id), peer, isX)
  {
    assert id !in peer.streams;
    assert At(h, id) == Acceptor() && At(peer, id) == Acceptor();
    ReachableInit();
    PutKeeps(h, peer, isX, id, Opener());
  }

  lemma CallTouches(e: Endpoint, c: Call)
    requires CallEnabled(e, c)
    ensures var e' := CallStep(e, c);
            && e'.writer == e.writer && e'.out == e.out && e'.inp == e.inp
            && (e.s.inctrl ==> e'.s.inctrl) && (e.s.indata ==> e'.s.indata)
  {
  }

  lemma AppProjects(h: Host, h': Host, peer: Host, isX: bool, id: nat, call: Call)
    requires Projects(h, peer, isX) && id in h.streams && CallEnabled(h.streams[id], call)
    requires h'.streams == h.streams[id := CallStep(h.streams[id], call)]
    ensures Reachable(View(h', peer, isX, id)) && (!Owns(isX, id) ==> id in peer.streams)
  {
    var d := View(h, peer, isX, id);
    ReachableStep(d, AppStep(Owns(isX, id), call));
    assert View(h', peer, isX, id) == Next(d, AppStep(Owns(isX, id), call));
  }

  lemma AppKeeps(h: Host, peer: Host, isX: bool, id: nat, call: Call)
    requires ConnInv(h, peer, isX) && id in h.streams && CallEnabled(h.streams[id], call)
    ensures ConnInv(App(h, id, call), peer, isX)
  {
    AppProjects(h, App(h, id, call), peer, isX, id, call);
    CallTouches(h.streams[id], call);
    PutKeeps(h, peer, isX, id, CallStep(h.streams[id], call));
  }

  lemma TakeQueued(h: Host)
    requires Queued(h) && h.held.None? && (h.ctrl != [] || h.data != [])
    ensures Queued(Take(h))
  {
    var h' := Take(h);
    if h.ctrl != [] {
      assert forall id :: id in h.ctrl <==> id == h.ctrl[0] || id in h.ctrl[1..];
    } else {
      assert forall id :: id in h.data <==> id == h.data[0] || id in h.data[1..];
    }
  }

  /** Taking a stream off a queue is the writer's first step on it. */
  lemma TakeIsStep(h: Host, peer: Host, isX: bool, id: nat)
    requires ConnInv(h, peer, isX) && h.held.None? && (h.ctrl != [] || h.data != [])
    requires id == if h.ctrl != [] then h.ctrl[0] else h.data[0]
    ensures id in h.streams && h.streams[id].writer == Idle && WriterEnabled(h.streams[id])
    ensures Take(h).streams == h.streams[id := WriterStep(h.streams[id])]
  {
    if h.ctrl != [] { assert id in h.ctrl; } else { assert id in h.data && id !in h.ctrl; }
    InvOf(h, peer, isX, id);
  }

  lemma WriterProjects(h: Host, h': Host, peer: Host, isX: bool, id: nat)
    requires Projects(h, peer, isX) && id in h.streams && WriterEnabled(h.streams[id])
    requires h'.streams == h.streams[id := WriterStep(h.streams[id])]
    ensures Projects(h', peer, isX)
  {
    var d := View(h, peer, isX, id);
    ReachableStep(d, WriteStep(Owns(isX, id)));
    assert View(h', peer, isX, id) == Next(d, WriteStep(Owns(isX, id)));
    PutProjects(h, peer, isX, id, WriterStep(h.streams[id]), h');
  }

  lemma TakeHolding(h: Host, id: nat)
    requires Holding(h) && h.held.None? && (h.ctrl != [] || h.data != [])
    requires id == (if h.ctrl != [] then h.ctrl[0] else h.data[0]) && id in h.streams
    ensures Holding(Take(h))
  {
  }

  lemma TakeKeeps(h: Host, peer: Host, isX: bool)
    requires ConnInv(h, peer, isX) && h.held.None? && (h.ctrl != [] || h.data != [])
    ensures ConnInv(Take(h), peer, isX)
  {
    var id, h' := if h.ctrl != [] then h.ctrl[0] else h.data[0], Take(h);
    TakeIsStep(h, peer, isX, id);
    WriterProjects(h, h', peer, isX, id);
    TakeHolding(h, id);
    TakeQueued(h);
    PeerShares(h, h', peer);
    WriterEmits(h.streams[id]);
    TakeShares(h, h', peer, id, WriterStep(h.streams[id]));
  }

  lemma TakeShares(h: Host, h': Host, peer: Host, id: nat, e: Endpoint)
    requires Shares(h, peer) && h'.streams == h.streams[id := e] && h'.sent == h.sent && h'.got == h.got
    requires e.out.frames == At(h, id).out.frames && e.inp.frames == At(h, id).inp.frames
    ensures Shares(h', peer)
  {
  }

  /** A stream that was queued stays queued. */
  predicate StaysQueued(s: Stream, t: Stream) { (s.inctrl ==> t.inctrl) && (s.indata ==> t.indata) }

  lemma CtrlTurnTouches(e: Endpoint)
    requires Inv(e) && e.s.write.wired == 0
    ensures StaysQueued(e.s, Continue(e, CtrlTurn(e.s)).s)
  {
    if !CtrlTurn(e.s).Quiet? { CtrlTurnLessTodo(e.s); }
  }

  lemma WorkTouches(e: Endpoint)
    requires Inv(e) && WriterEnabled(e) && e.writer != Idle
    ensures StaysQueued(e.s, WriterStep(e).s)
  {
    match e.writer
    case CtrlTaken => if !NeverHappened(e.s) { CtrlTurnTouches(e); }
    case CtrlSent(data) =>
      if data {
        CompleteKeeps(e, e.writer);
        CtrlTurnTouches(e.(s := Complete(e.s)));
      } else {
        CtrlTurnTouches(e);
      }
    case DataTaken => DataTurnTouches(e);
    case DataSent =>
  }

  lemma DataTurnTouches(e: Endpoint)
    requires WriterEnabled(e) && e.writer == DataTaken
    ensures StaysQueued(e.s, WriterStep(e).s)
  {
    if Sendable(e.s) > 0 { assert StaysQueued(e.s, AfterData(Prepare(e.s))); }
  }

  lemma WorkShares(h: Host, peer: Host, id: nat, e: Endpoint, f: Option<Frame>, h': Host)
    requires Shares(h, peer)
    requires h'.streams == h.streams[id := e] && h'.got == h.got
    requires h'.sent == if f.Some? then h.sent + [(id, f.value)] else h.sent
    requires e.out == Logged(At(h, id).out, f) && e.inp == At(h, id).inp
    ensures Shares(h', peer)
  {
    forall i: nat ensures At(h', i).inp.frames == Of(peer.sent[..h'.got], i) { OthersAt(h, h', id, e, i); }
    forall i: nat ensures At(h', i).out.frames == Of(h'.sent, i) {
      OthersAt(h, h', id, e, i);
      if f.Some? { OfAppend(h.sent, (id, f.value), i); }
    }
  }

  lemma OthersAt(h: Host, h': Host, id: nat, e: Endpoint, i: nat)
    requires h'.streams == h.streams[id := e]
    ensures At(h', i) == if i == id then e else At(h, i)
  {
  }

  lemma WorkHolding(h: Host)
    requires Holding(h) && h.held.Some? && WriterEnabled(At(h, h.held.value))
    ensures Holding(Work(h))
  {
  }

  lemma WorkKeeps(h: Host, peer: Host, isX: bool)
    requires ConnInv(h, peer, isX) && h.held.Some? && WriterEnabled(At(h, h.held.value))
    ensures ConnInv(Work(h), peer, isX)
  {
    var id, h' := h.held.value, Work(h);
    var e := h.streams[id];
    WriterProjects(h, h', peer, isX, id);
    InvOf(h, peer, isX, id);
    WorkTouches(e);
    PutQueued(h, id, WriterStep(e));
    WorkHolding(h);
    WriterEmits(e);
    WorkShares(h, peer, id, WriterStep(e), WriterFrame(e), h');
    PeerShares(h, h', peer);
  }

  // ----- dispatch

  /** The next frame extends what its stream has absorbed, and no other stream. */
  lemma NextOfShare(h: Host, peer: Host)
    requires Shares(h, peer) && h.got < |peer.sent|
    ensures var (id, f) := peer.sent[h.got];
            && Of(peer.sent[..h.got + 1], id) == At(h, id).inp.frames + [f]
            && Of(peer.sent[..h.got + 1], id) <= Of(peer.sent, id)
            && forall i :: i != id ==> Of(peer.sent[..h.got + 1], i) == Of(peer.sent[..h.got], i)
  {
    OfNext(peer.sent, h.got);
    assert At(h, peer.sent[h.got].0).inp.frames == Of(peer.sent[..h.got], peer.sent[h.got].0);
  }

  lemma NextPending(e: Endpoint, to: Endpoint, f: Frame)
    requires to.inp.frames + [f] <= e.out.frames
    ensures Pending(e, to) != [] && Pending(e, to)[0] == f
  {
    assert (to.inp.frames + [f])[|to.inp.frames|] == f;
  }

  lemma NextOnWire(h: Host, peer: Host, isX: bool)
    requires ConnInv(h, peer, isX) && h.got < |peer.sent|
    ensures var (id, f) := peer.sent[h.got];
            && id in peer.streams
            && Pending(At(peer, id), At(h, id)) != []
            && Pending(At(peer, id), At(h, id))[0] == f
            && Of(peer.sent[..h.got + 1], id) == At(h, id).inp.frames + [f]
            && forall i :: i != id ==> Of(peer.sent[..h.got + 1], i) == Of(peer.sent[..h.got], i)
  {
    NextOfShare(h, peer);
    NextIsHeld(h, peer);
  }

  lemma NextIsHeld(h: Host, peer: Host)
    requires Shares(h, peer) && Shares(peer, h) && h.got < |peer.sent|
    ensures var (id, f) := peer.sent[h.got];
            id in peer.streams && Pending(At(peer, id), At(h, id)) != [] && Pending(At(peer, id), At(h, id))[0] == f
  {
    var (id, f) := peer.sent[h.got];
    NextOfShare(h, peer);
    assert At(peer, id).out.frames == Of(peer.sent, id);
    NextPending(At(peer, id), At(h, id), f);
  }

  lemma SeeEndTouches(s: Stream, err: Error)
    ensures StaysQueued(s, SeeEnd(s, err))
  {
  }

  lemma SeeResetTouches(s: Stream, err: Error)
    ensures StaysQueued(s, SeeReset(s, err))
  {
  }

  lemma ResetTouches(s: Stream, f: Frame)
    requires f.Reset?
    ensures StaysQueued(s, ProcessReset(s, f))
  {
    var err := if f.err == ECLOSED then Eof else f.err;
    SeeResetTouches(s, f.err);
    if f.read && f.write {
      SeeEndTouches(SeeReset(s, f.err), err);
    } else if f.write {
      SeeEndTouches(s, err);
    }
  }

  lemma DispatchTouches(e: Endpoint, f: Frame)
    requires Inv(e) && Expected(e, f) && Receive(e, f).Delivered?
    ensures StaysQueued(e.s, Receive(e, f).e.s)
  {
    if f.Data? {
      DataDelivered(e, f);
      var t := Store(SeeAck(e.s, f.ack), f.payload);
      assert StaysQueued(e.s, t);
      SeeEndTouches(t, Eof);
    } else if e.known && e.s.live {
      if f.Reset? { ResetTouches(e.s, f); } else { assert Receive(e, f).e.s == ChangeWriteWindow(e.s, f.increment); }
    }
  }

  /** What is next on the wire is what the stream's own model expects. */
  lemma DispatchExpected(h: Host, peer: Host, isX: bool)
    requires ConnInv(h, peer, isX) && h.got < |peer.sent| && !NeedsCreate(At(h, peer.sent[h.got].0), peer.sent[h.got].1)
    ensures var (id, f) := peer.sent[h.got];
            && Inv(At(h, id)) && Expected(At(h, id), f)
            && Reachable(View(h, peer, isX, id))
            && Enabled(View(h, peer, isX, id), DeliverStep(Owns(isX, id)))
  {
    var (id, f) := peer.sent[h.got];
    NextOnWire(h, peer, isX);
    var d := View(h, peer, isX, id);
    ReachableKeeps(d);
    if d.a.out.frames == [] { SilentBeforeOpen(d); }
    NextIsExpected(At(peer, id), At(h, id));
  }

  lemma DispatchProjects(h: Host, peer: Host, isX: bool)
    requires ConnInv(h, peer, isX) && CanDo(h, peer, isX, DoDispatch)
    ensures Projects(Dispatched(h, peer.sent[h.got]), peer, isX)
  {
    var (id, f) := peer.sent[h.got];
    var h' := Dispatched(h, (id, f));
    NextOnWire(h, peer, isX);
    DispatchExpected(h, peer, isX);
    var d := View(h, peer, isX, id);
    ReachableStep(d, DeliverStep(Owns(isX, id)));
    assert View(h', peer, isX, id) == Next(d, DeliverStep(Owns(isX, id)));
    PutProjects(h, peer, isX, id, Receive(At(h, id), f).e, h');
  }

  lemma GotShares(h: Host, h': Host, peer: Host, id: nat, e: Endpoint)
    requires Shares(h, peer) && h.got < |peer.sent|
    requires h'.streams == h.streams[id := e] && h'.sent == h.sent && h'.got == h.got + 1
    requires e.out.frames == At(h, id).out.frames && e.inp.frames == Of(peer.sent[..h.got + 1], id)
    requires forall i :: i != id ==> Of(peer.sent[..h.got + 1], i) == Of(peer.sent[..h.got], i)
    ensures Shares(h', peer)
  {
  }

  lemma DispatchShares(h: Host, peer: Host, isX: bool)
    requires ConnInv(h, peer, isX) && CanDo(h, peer, isX, DoDispatch)
    ensures Shares(Dispatched(h, peer.sent[h.got]), peer)
  {
    NextOnWire(h, peer, isX);
    var (id, f) := peer.sent[h.got];
    GotShares(h, Dispatched(h, (id, f)), peer, id, Receive(At(h, id), f).e);
  }

  lemma DispatchKeeps(h: Host, peer: Host, isX: bool)
    requires ConnInv(h, peer, isX) && CanDo(h, peer, isX, DoDispatch)
    ensures ConnInv(Dispatched(h, peer.sent[h.got]), peer, isX)
  {
    var (id, f) := peer.sent[h.got];
    var h' := Dispatched(h, (id, f));
    DispatchProjects(h, peer, isX);
    DispatchShares(h, peer, isX);
    DispatchExpected(h, peer, isX);
    DispatchTouches(At(h, id), f);
    PutQueued(h, id, Receive(At(h, id), f).e);
    PutHolding(h, id, Receive(At(h, id), f).e);
    PeerShares(h, h', peer);
  }

  lemma CreateKeepsConn(h: Host, peer: Host, isX: bool)
    requires ConnInv(h, peer, isX) && CanDo(h, peer, isX, DoCreate)
    ensures ConnInv(Do(h, peer, isX, DoCreate), peer, isX)
  {
    var (id, f) := peer.sent[h.got];
    NextOnWire(h, peer, isX);
    var d := View(h, peer, isX, id);
    ReachableKeeps(d);
    assert !Owns(isX, id);
    ReachableStep(d, CreateStep);
    var h' := Put(h, id, Created(At(h, id)));
    assert View(h', peer, isX, id) == Next(d, CreateStep);
    PutKeeps(h, peer, isX, id, Created(At(h, id)));
  }

  lemma SleepProjects(h: Host, peer: Host, isX: bool)
    requires Projects(h, peer, isX)
    ensures Projects(h.(ready := false), peer, isX)
  {
    var h' := h.(ready := false);
    forall id ensures View(h', peer, isX, id) == View(h, peer, isX, id) && At(h', id) == At(h, id) { }
  }

  lemma SleepKeeps(h: Host, peer: Host, isX: bool)
    requires ConnInv(h, peer, isX) && h.held.None? && h.ctrl == [] && h.data == []
    ensures ConnInv(h.(ready := false), peer, isX)
  {
    SleepProjects(h, peer, isX);
    PeerShares(h, h.(ready := false), peer);
  }

  lemma DoKeeps(h: Host, peer: Host, isX: bool, act: Action)
    requires ConnInv(h, peer, isX) && CanDo(h, peer, isX, act)
    ensures ConnInv(Do(h, peer, isX, act), peer, isX)
  {
    match act
    case DoOpen(id) => OpenKeeps(h, peer, isX, id);
    case DoApp(id, call) => AppKeeps(h, peer, isX, id, call);
    case DoTake => TakeKeeps(h, peer, isX);
    case DoWork => WorkKeeps(h, peer, isX);
    case DoSleep => SleepKeeps(h, peer, isX);
    case DoCreate => CreateKeepsConn(h, peer, isX);
    case DoDispatch => DispatchKeeps(h, peer, isX);
  }

  lemma Flip(h: Host, peer: Host, isX: bool)
    requires ConnInv(h, peer, isX)
    ensures ConnInv(peer, h, !isX)
  {
    assert forall id :: View(peer, h, !isX, id) == View(h, peer, isX, id);
  }

  // ----- every run of a connection

  ghost predicate IsConnRun(run: seq<Conn>) {
    && run != [] && run[0] == Start()
    && forall i :: 0 <= i < |run| - 1 ==> Steps(run[i], run[i + 1])
  }

  lemma {:induction false} ConnRunKeeps(run: seq<Conn>, k: nat)
    requires IsConnRun(run) && k < |run|
    ensures ConnInv(run[k].x, run[k].y, true)
  {
    if k > 0 {
      ConnRunKeeps(run, k - 1);
      var c, c' := run[k - 1], run[k];
      assert Steps(c, c');
      if act :| CanDo(c.x, c.y, true, act) && c' == c.(x := Do(c.x, c.y, true, act)) {
        DoKeeps(c.x, c.y, true, act);
      } else {
        var act :| CanDo(c.y, c.x, false, act) && c' == c.(y := Do(c.y, c.x, false, act));
        Flip(c.x, c.y, true);
        DoKeeps(c.y, c.x, false, act);
        Flip(c'.y, c'.x, false);
      }
    }
  }

  /** Every stream of a connection behaves like a stream on its own wires: at
      any moment of any run its two endpoints are in a state that the model of
      a single stream reaches. All theorems about single streams apply. */
  lemma StreamsAreIndependent(run: seq<Conn>, k: nat, id: nat)
    requires IsConnRun(run) && k < |run|
    requires id in run[k].x.streams || id in run[k].y.streams
    ensures Reachable(View(run[k].x, run[k].y, true, id))
  {
    ConnRunKeeps(run, k);
  }

  /** The connection never fails with a protocol error: any frame that is next
      on the wire can be dispatched. */
  lemma AlwaysDispatches(run: seq<Conn>, k: nat)
    requires IsConnRun(run) && k < |run|
    ensures var (x, y) := (run[k].x, run[k].y);
            && (x.got < |y.sent| ==> CanDo(x, y, true, DoCreate) || CanDo(x, y, true, DoDispatch))
            && (y.got < |x.sent| ==> CanDo(y, x, false, DoCreate) || CanDo(y, x, false, DoDispatch))
  {
    ConnRunKeeps(run, k);
    var x, y := run[k].x, run[k].y;
    if x.got < |y.sent| { HostDispatches(x, y, true); }
    Flip(x, y, true);
    if y.got < |x.sent| { HostDispatches(y, x, false); }
  }

  lemma Accepted(e: Endpoint, f: Frame)
    requires Inv(e) && Expected(e, f)
    ensures Receive(e, f).Delivered?
  {
    ReceiveKeeps(e, f);
  }

  lemma NextAccepted(h: Host, peer: Host, isX: bool)
    requires ConnInv(h, peer, isX) && h.got < |peer.sent| && !NeedsCreate(At(h, peer.sent[h.got].0), peer.sent[h.got].1)
    ensures Receive(At(h, peer.sent[h.got].0), peer.sent[h.got].1).Delivered?
  {
    DispatchExpected(h, peer, isX);
    Accepted(At(h, peer.sent[h.got].0), peer.sent[h.got].1);
  }

  lemma HostDispatches(h: Host, peer: Host, isX: bool)
    requires ConnInv(h, peer, isX) && h.got < |peer.sent|
    ensures CanDo(h, peer, isX, DoCreate) || CanDo(h, peer, isX, DoDispatch)
  {
    if !NeedsCreate(At(h, peer.sent[h.got].0), peer.sent[h.got].1) { NextAccepted(h, peer, isX); }
  }

  /** No lost work: when writeready is clear, or the writer finds both queues
      empty, no stream of that side owes a frame or holds sendable bytes; and a
      stream is in each queue at most once, exactly when its flag says so. */
  lemma NothingForgotten(run: seq<Conn>, k: nat, client: bool, id: nat)
    requires IsConnRun(run) && k < |run|
    requires id in (if client then run[k].x else run[k].y).streams
    ensures var h := if client then run[k].x else run[k].y;
            && Distinct(h.ctrl) && Distinct(h.data)
            && (id in h.ctrl <==> h.streams[id].s.inctrl)
            && (id in h.data <==> h.streams[id].s.indata)
            && (!h.ready || (h.held.None? && h.ctrl == [] && h.data == []) ==>
                  !CtrlWork(h.streams[id].s) && !ActiveData(h.streams[id].s) && h.streams[id].s.write.wired == 0)
  {
    ConnRunKeeps(run, k);
    Flip(run[k].x, run[k].y, true);
    var h, peer := if client then run[k].x else run[k].y, if client then run[k].y else run[k].x;
    InvOf(h, peer, client, id);
    assert h.ctrl == [] ==> id !in h.ctrl;
    assert h.data == [] ==> id !in h.data;
  }

  // ----- the order of service

  /** Streams are served in the order in which they were queued, and those with
      control frames first: in every step a place in line stays, or moves up by one
      because the first of its queue is taken. */
  lemma ServedInOrder(h: Host, peer: Host, isX: bool, act: Action, i: nat)
    requires CanDo(h, peer, isX, act)
    ensures var h' := Do(h, peer, isX, act);
            && (i < |h.ctrl| && act != DoTake ==> i < |h'.ctrl| && h'.ctrl[i] == h.ctrl[i])
            && (i < |h.ctrl| && act == DoTake ==>
                  if i == 0 then h'.held == Some(h.ctrl[0]) else i - 1 < |h'.ctrl| && h'.ctrl[i - 1] == h.ctrl[i])
            && (i < |h.data| && (act != DoTake || h.ctrl != []) ==> i < |h'.data| && h'.data[i] == h.data[i])
            && (i < |h.data| && act == DoTake && h.ctrl == [] ==>
                  if i == 0 then h'.held == Some(h.data[0]) else i - 1 < |h'.data| && h'.data[i - 1] == h.data[i])
  {
  }
}

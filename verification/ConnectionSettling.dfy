/** A whole connection comes to rest: without opened streams and application
    calls it takes finitely many steps, and stops with every stream quiescent. */
module ConnectionSettling {
  import opened Stream
  import opened Endpoint
  import opened Duplex
  import opened DuplexTheorems
  import opened Settling
  import opened Connection

  // ----- sums over the streams

  ghost function Sum(m: map<nat, int>): int
    decreases |m|
  {
    if m == map[] then 0 else var i :| i in m; m[i] + Sum(m - {i})
  }

  lemma {:induction false} SumTake(m: map<nat, int>, i: nat)
    requires i in m
    ensures Sum(m) == m[i] + Sum(m - {i})
    decreases |m|
  {
    var j :| j in m && Sum(m) == m[j] + Sum(m - {j});
    if j != i {
      SumTake(m - {j}, i);
      SumTake(m - {i}, j);
      assert m - {j} - {i} == m - {i} - {j};
    }
  }

  lemma SumDrops(m: map<nat, int>, m': map<nat, int>, i: nat)
    requires i in m && m'.Keys == m.Keys && m'[i] < m[i] && forall j :: j in m && j != i ==> m'[j] == m[j]
    ensures Sum(m') < Sum(m)
  {
    SumTake(m, i);
    SumTake(m', i);
    assert m - {i} == m' - {i};
  }

  lemma {:induction false} SumNatural(m: map<nat, int>)
    requires forall i :: i in m ==> 0 <= m[i]
    ensures 0 <= Sum(m)
    decreases |m|
  {
    if m != map[] {
      var i :| i in m;
      SumTake(m, i);
      SumNatural(m - {i});
    }
  }

  // ----- the rank of a connection

  function Ids(h: Host, peer: Host): set<nat> { h.streams.Keys + peer.streams.Keys }

  ghost function Ranks(h: Host, peer: Host, isX: bool): map<nat, int> {
    map id | id in Ids(h, peer) :: Rank(View(h, peer, isX, id))
  }

  ghost function Weight(c: Conn): int {
    2 * Sum(Ranks(c.x, c.y, true)) + Count(c.x.ready) + Count(c.y.ready)
  }

  lemma RanksFlip(h: Host, peer: Host, isX: bool)
    ensures Ranks(peer, h, !isX) == Ranks(h, peer, isX)
  {
    assert forall id :: View(peer, h, !isX, id) == View(h, peer, isX, id);
    assert Ids(peer, h) == Ids(h, peer);
  }

  lemma WeightIsNatural(c: Conn)
    requires ConnInv(c.x, c.y, true)
    ensures 0 <= Weight(c)
  {
    forall id | id in Ids(c.x, c.y) ensures 0 <= Rank(View(c.x, c.y, true, id)) {
      ReachableKeeps(View(c.x, c.y, true, id));
      RankIsNatural(View(c.x, c.y, true, id));
    }
    SumNatural(Ranks(c.x, c.y, true));
  }

  // ----- every machine step moves one stream

  /** Neither an application nor the opening of a stream. */
  predicate Machine(act: Action) { !act.DoOpen? && !act.DoApp? }

  /** The step of the host is a step of stream `id`, and no other stream moves. */
  ghost predicate Moves(h: Host, peer: Host, isX: bool, h': Host, id: nat, st: Step) {
    && id in Ids(h, peer) && h'.streams.Keys + peer.streams.Keys == Ids(h, peer)
    && SystemStep(st) && Enabled(View(h, peer, isX, id), st) && !Breaks(View(h, peer, isX, id), st)
    && View(h', peer, isX, id) == Next(View(h, peer, isX, id), st)
    && forall i :: i != id ==> View(h', peer, isX, i) == View(h, peer, isX, i)
  }

  lemma OneShrinks(d: Duplex, st: Step, d': Duplex)
    requires Reachable(d) && Enabled(d, st) && SystemStep(st) && !Breaks(d, st) && d' == Next(d, st)
    ensures Rank(d') < Rank(d)
  {
    ReachableKeeps(d);
    SystemStepShrinks(d, st);
  }

  lemma MoveShrinks(h: Host, peer: Host, isX: bool, h': Host, id: nat, st: Step)
    requires Projects(h, peer, isX) && Moves(h, peer, isX, h', id, st)
    ensures Sum(Ranks(h', peer, isX)) < Sum(Ranks(h, peer, isX))
  {
    OneShrinks(View(h, peer, isX, id), st, View(h', peer, isX, id));
    SumDrops(Ranks(h, peer, isX), Ranks(h', peer, isX), id);
  }

  /** The stream `id` becomes `e`. */
  lemma OneMoves(h: Host, peer: Host, isX: bool, h': Host, id: nat, e: Endpoint, st: Step)
    requires id in Ids(h, peer) && h'.streams == h.streams[id := e] && SystemStep(st)
    requires Enabled(View(h, peer, isX, id), st) && !Breaks(View(h, peer, isX, id), st)
    requires View(h', peer, isX, id) == Next(View(h, peer, isX, id), st)
    ensures Moves(h, peer, isX, h', id, st)
  {
    forall i | i != id ensures View(h', peer, isX, i) == View(h, peer, isX, i) { }
  }

  lemma WriterMoves(h: Host, peer: Host, isX: bool, h': Host, id: nat)
    requires id in h.streams && WriterEnabled(h.streams[id]) && h'.streams == h.streams[id := WriterStep(h.streams[id])]
    ensures Moves(h, peer, isX, h', id, WriteStep(Owns(isX, id)))
  {
    OneMoves(h, peer, isX, h', id, WriterStep(h.streams[id]), WriteStep(Owns(isX, id)));
  }

  lemma DispatchMoves(h: Host, peer: Host, isX: bool)
    requires ConnInv(h, peer, isX) && CanDo(h, peer, isX, DoDispatch)
    ensures var id := peer.sent[h.got].0;
            Moves(h, peer, isX, Do(h, peer, isX, DoDispatch), id, DeliverStep(Owns(isX, id)))
  {
    var (id, f) := peer.sent[h.got];
    NextOnWire(h, peer, isX);
    OneMoves(h, peer, isX, Dispatched(h, (id, f)), id, Receive(At(h, id), f).e, DeliverStep(Owns(isX, id)));
  }

  lemma CreateMoves(h: Host, peer: Host, isX: bool)
    requires ConnInv(h, peer, isX) && CanDo(h, peer, isX, DoCreate)
    ensures Moves(h, peer, isX, Do(h, peer, isX, DoCreate), peer.sent[h.got].0, CreateStep)
  {
    var (id, f) := peer.sent[h.got];
    NextOnWire(h, peer, isX);
    ReachableKeeps(View(h, peer, isX, id));
    OneMoves(h, peer, isX, Do(h, peer, isX, DoCreate), id, Created(At(h, id)), CreateStep);
  }

  lemma ActionMoves(h: Host, peer: Host, isX: bool, act: Action) returns (id: nat, st: Step)
    requires ConnInv(h, peer, isX) && CanDo(h, peer, isX, act) && Machine(act) && !act.DoSleep?
    ensures Moves(h, peer, isX, Do(h, peer, isX, act), id, st)
  {
    match act
    case DoTake =>
      id := if h.ctrl != [] then h.ctrl[0] else h.data[0];
      st := WriteStep(Owns(isX, id));
      TakeIsStep(h, peer, isX, id);
      WriterMoves(h, peer, isX, Take(h), id);
    case DoWork =>
      id := h.held.value;
      st := WriteStep(Owns(isX, id));
      WriterMoves(h, peer, isX, Work(h), id);
    case DoCreate =>
      id, st := peer.sent[h.got].0, CreateStep;
      CreateMoves(h, peer, isX);
    case DoDispatch =>
      id := peer.sent[h.got].0;
      st := DeliverStep(Owns(isX, id));
      DispatchMoves(h, peer, isX);
  }

  lemma SleepMovesNone(h: Host, peer: Host, isX: bool)
    ensures Ranks(h.(ready := false), peer, isX) == Ranks(h, peer, isX)
  {
    var h' := h.(ready := false);
    assert forall id :: View(h', peer, isX, id) == View(h, peer, isX, id);
  }

  lemma ActionShrinks(h: Host, peer: Host, isX: bool, act: Action)
    requires ConnInv(h, peer, isX) && CanDo(h, peer, isX, act) && Machine(act)
    ensures var h' := Do(h, peer, isX, act);
            if act.DoSleep? then Ranks(h', peer, isX) == Ranks(h, peer, isX) && !h'.ready
            else Sum(Ranks(h', peer, isX)) < Sum(Ranks(h, peer, isX))
  {
    if act.DoSleep? {
      SleepMovesNone(h, peer, isX);
    } else {
      var id, st := ActionMoves(h, peer, isX, act);
      MoveShrinks(h, peer, isX, Do(h, peer, isX, act), id, st);
    }
  }

  // ----- whole connections

  /** One side of the machinery acts and changes something: going to sleep again
      is not counted. */
  ghost predicate MachineStep(c: Conn, c': Conn) {
    && c' != c
    && (|| (exists act :: Machine(act) && CanDo(c.x, c.y, true, act) && c' == c.(x := Do(c.x, c.y, true, act)))
        || (exists act :: Machine(act) && CanDo(c.y, c.x, false, act) && c' == c.(y := Do(c.y, c.x, false, act))))
  }

  lemma StepShrinks(c: Conn, c': Conn)
    requires ConnInv(c.x, c.y, true) && MachineStep(c, c')
    ensures Weight(c') < Weight(c)
  {
    if act :| Machine(act) && CanDo(c.x, c.y, true, act) && c' == c.(x := Do(c.x, c.y, true, act)) {
      ActionShrinks(c.x, c.y, true, act);
    } else {
      var act :| Machine(act) && CanDo(c.y, c.x, false, act) && c' == c.(y := Do(c.y, c.x, false, act));
      Flip(c.x, c.y, true);
      ActionShrinks(c.y, c.x, false, act);
      RanksFlip(c.x, c.y, true);
      RanksFlip(c'.x, c'.y, true);
    }
  }

  /** From any moment of a run, the machinery alone takes at most Weight steps. */
  lemma {:induction false} ConnectionSettles(run: seq<Conn>, i: nat, j: nat)
    requires IsConnRun(run) && i <= j < |run|
    requires forall k :: i <= k < j ==> MachineStep(run[k], run[k + 1])
    ensures Weight(run[j]) + (j - i) <= Weight(run[i]) && 0 <= Weight(run[j])
    decreases j - i
  {
    ConnRunKeeps(run, j);
    WeightIsNatural(run[j]);
    if i < j {
      ConnRunKeeps(run, i);
      StepShrinks(run[i], run[i + 1]);
      ConnectionSettles(run, i + 1, j);
    }
  }

  // ----- where it stops

  /** Nothing that the machinery of this side can do changes anything. */
  ghost predicate Stopped(h: Host, peer: Host, isX: bool) {
    forall act :: Machine(act) && CanDo(h, peer, isX, act) ==> Do(h, peer, isX, act) == h
  }

  ghost predicate AllQuiescent(h: Host, peer: Host, isX: bool) {
    forall id :: id in Ids(h, peer) ==> Quiescent(View(h, peer, isX, id))
  }

  /** Writer and readloop have nothing to do. */
  predicate Idles(h: Host, peer: Host) {
    h.held.None? && h.ctrl == [] && h.data == [] && !h.ready && h.got == |peer.sent|
  }

  lemma NoneEnabled(h: Host, peer: Host, isX: bool, act: Action)
    requires ConnInv(h, peer, isX) && Stopped(h, peer, isX) && Machine(act) && !act.DoSleep?
    ensures !CanDo(h, peer, isX, act)
  {
    if CanDo(h, peer, isX, act) { ActionShrinks(h, peer, isX, act); }
  }

  lemma HeldIsEnabled(h: Host, peer: Host, isX: bool)
    requires ConnInv(h, peer, isX) && h.held.Some?
    ensures CanDo(h, peer, isX, DoWork)
  {
    InvOf(h, peer, isX, h.held.value);
  }

  lemma StoppedIdles(h: Host, peer: Host, isX: bool)
    requires ConnInv(h, peer, isX) && Stopped(h, peer, isX)
    ensures Idles(h, peer)
  {
    NoneEnabled(h, peer, isX, DoWork);
    NoneEnabled(h, peer, isX, DoTake);
    NoneEnabled(h, peer, isX, DoCreate);
    NoneEnabled(h, peer, isX, DoDispatch);
    if h.held.Some? { HeldIsEnabled(h, peer, isX); }
    if h.got < |peer.sent| { HostDispatches(h, peer, isX); }
    assert CanDo(h, peer, isX, DoSleep);
  }

  lemma IdlesRests(h: Host, peer: Host, id: nat)
    requires HostInv(h, peer) && Idles(h, peer)
    ensures Rests(At(h, id)) && At(h, id).inp.frames == Of(peer.sent, id)
  {
    assert peer.sent[..h.got] == peer.sent;
    if id in h.streams { assert id !in h.ctrl && id !in h.data; }
  }

  lemma IdlesQuiescent(h: Host, peer: Host, isX: bool)
    requires HostInv(h, peer) && HostInv(peer, h) && Idles(h, peer) && Idles(peer, h)
    ensures AllQuiescent(h, peer, isX)
  {
    forall id | id in Ids(h, peer) ensures Quiescent(View(h, peer, isX, id)) {
      IdlesRests(h, peer, id);
      IdlesRests(peer, h, id);
      assert At(h, id).out.frames == Of(h.sent, id) && At(peer, id).out.frames == Of(peer.sent, id);
    }
  }

  lemma QuiescentStopped(h: Host, peer: Host, isX: bool)
    requires ConnInv(h, peer, isX) && AllQuiescent(h, peer, isX) && !h.ready
    ensures Stopped(h, peer, isX)
  {
    forall act | Machine(act) && CanDo(h, peer, isX, act) ensures Do(h, peer, isX, act) == h {
      if !act.DoSleep? {
        var id, st := ActionMoves(h, peer, isX, act);
        var d := View(h, peer, isX, id);
        assert Quiescent(d);
        StopsWhenQuiescent(d);
        assert false;
      }
    }
  }

  /** On every run, the machinery of both sides has stopped exactly when every
      stream is quiescent and both writers are asleep. */
  lemma StopsExactly(run: seq<Conn>, k: nat)
    requires IsConnRun(run) && k < |run|
    ensures var (x, y) := (run[k].x, run[k].y);
            Stopped(x, y, true) && Stopped(y, x, false) <==> AllQuiescent(x, y, true) && !x.ready && !y.ready
  {
    ConnRunKeeps(run, k);
    var x, y := run[k].x, run[k].y;
    Flip(x, y, true);
    if Stopped(x, y, true) && Stopped(y, x, false) {
      StoppedIdles(x, y, true);
      StoppedIdles(y, x, false);
      IdlesQuiescent(x, y, true);
    }
    if AllQuiescent(x, y, true) && !x.ready && !y.ready {
      assert forall id :: View(y, x, false, id) == View(x, y, true, id);
      QuiescentStopped(x, y, true);
      QuiescentStopped(y, x, false);
    }
  }
}

// Runs that show what the assumptions of RelayTheorems are needed for.
module RelayWitnesses {
  import opened Relay
  import opened RelayShapes
  import opened RelayProtocol
  import opened RelayTheorems

  // One instance as start-up leaves it: wire 3, server 4, no client.
  function Ready(): Inst {
    Inst(3, 4, -1, WaitClient, Fifo(0, 0, false), Log(0, [], []))
  }

  function Start(): World {
    World([Ready()], Epoll(map[3 := Ctx(0, RoleWire), 4 := Ctx(0, RoleServer)], map[4 := Ctx(0, RoleServer)], false), [])
  }

  lemma StartOk()
    ensures Inv(Start()) && AllHealthy(Start()) && AllLogged(Start())
  {
    var w := Start();
    forall i: nat ensures InstOk(w, i) {}
    assert forall n: nat :: SentAt(w.insts[0].log, n);
  }

  const SERVER := Ctx(0, RoleServer)
  const WIRE := Ctx(0, RoleWire)
  const CLIENT := Ctx(0, RoleClient)

  function Tables(wire: bool, client: bool): map<int, Ctx> {
    if wire && client then map[3 := WIRE, 4 := SERVER, 5 := CLIENT]
    else if wire then map[3 := WIRE, 4 := SERVER]
    else map[4 := SERVER]
  }

  // The instance linked to its first client, both its descriptors ready.
  function Busy(fifo: Fifo): World {
    World([Inst(3, 4, 5, Relaying, fifo, Log(1, [], []))],
          Epoll(Tables(true, true), map[3 := WIRE, 5 := CLIENT], false),
          [Event(3, WIRE, 1), Event(5, CLIENT, 1)])
  }

  // A byte arrives, a client connects, and both descriptors are reported.
  lemma ReachBusy() returns (run: seq<Action>)
    ensures Runs(Start(), run) && After(Start(), run) == Busy(Fifo(1, 0, false))
  {
    run := [];
    var w1 := Start().(insts := [Ready().(fifo := Fifo(1, 0, false))]);
    Extend(Start(), run, WireMoves(0, Fifo(1, 0, false)));
    run := run + [WireMoves(0, Fifo(1, 0, false))];
    assert After(Start(), run) == w1;
    Extend(Start(), run, Collect([4]));
    run := run + [Collect([4])];
    assert After(Start(), run) == w1.(batch := [Event(4, SERVER, 0)]);
    Extend(Start(), run, HandleNext(ServerAnswer(Accepted(5))));
    run := run + [HandleNext(ServerAnswer(Accepted(5)))];
    assert After(Start(), run) == Busy(Fifo(1, 0, false)).(batch := []);
    Extend(Start(), run, Collect([3, 5]));
    run := run + [Collect([3, 5])];
  }

  lemma Further(run: seq<Action>, v: World, a: Action, v': World) returns (run': seq<Action>)
    requires Runs(Start(), run) && After(Start(), run) == v && Enabled(v, a) && Next(v, a) == v'
    ensures Runs(Start(), run') && After(Start(), run') == v' && run' == run + [a]
  {
    Extend(Start(), run, a);
    run' := run + [a];
  }

  const ONE: Fifo := Fifo(1, 0, false)
  const NONE: Fifo := Fifo(1, 1, false)

  function Left(wireFd: int, serverFd: int, state: State, fifo: Fifo): Inst {
    Inst(wireFd, serverFd, -1, state, fifo, Log(1, [1], []))
  }

  // --- what single handlers make of the linked instance ---

  const BOTH := Epoll(Tables(true, true), map[3 := WIRE, 5 := CLIENT], false)
  const NOTHING := Epoll(map[], map[], false)
  const LISTENING := Epoll(Tables(true, false), map[4 := SERVER], false)
  const ALONE := Epoll(Tables(false, false), map[], false)
  const ALONE_LISTENING := Epoll(Tables(false, false), map[4 := SERVER], false)

  function Linked(log: Log): Desk {
    Desk(Inst(3, 4, 5, Relaying, ONE, log), BOTH)
  }

  lemma NoClient()
    ensures Close(Del(BOTH, 5), 5) == Epoll(Tables(true, false), map[3 := WIRE], false)
  {
    assert Close(Del(BOTH, 5), 5).open == Tables(true, false);
    assert Close(Del(BOTH, 5), 5).watched == map[3 := WIRE];
  }

  lemma NoWatch()
    ensures Del(Epoll(Tables(true, false), map[3 := WIRE], false), 3) == Epoll(Tables(true, false), map[], false)
  {
    assert Del(Epoll(Tables(true, false), map[3 := WIRE], false), 3).watched == map[];
  }

  lemma NoWireLeft()
    ensures Close(Epoll(Tables(true, false), map[], false), 3) == ALONE
  {
    assert Close(Epoll(Tables(true, false), map[], false), 3).open == Tables(false, false);
    assert Close(Epoll(Tables(true, false), map[], false), 3).watched == map[];
  }

  lemma Stripped()
    ensures CloseIf(Close(Del(Close(Del(BOTH, 3), 3), 5), 5), 4) == NOTHING
  {
    assert CloseIf(Close(Del(Close(Del(BOTH, 3), 3), 5), 5), 4).open == map[];
    assert CloseIf(Close(Del(Close(Del(BOTH, 3), 3), 5), 5), 4).watched == map[];
  }

  lemma EofTakesOffline()
    ensures Dispatch(0, Linked(Log(1, [], [])), WireAnswer(WireEof(ONE, NoWire))) == Desk(Left(-1, -1, Relaying, NONE), NOTHING)
  {
    Stripped();
  }

  lemma LateDrainListens(log: Log)
    ensures CloseAndDrain(0, Desk(Inst(-1, 4, -1, Relaying, NONE, log), ALONE), FcntlFails)
         == Desk(Inst(-1, 4, -1, WaitClient, NONE, log), ALONE_LISTENING)
  {
    assert Del(ALONE, -1) == ALONE;
  }

  lemma SkippedDrainListens()
    ensures Dispatch(0, Linked(Log(1, [], [])), ClientAnswer(ClientEnds(FcntlFails)))
         == Desk(Inst(3, 4, -1, WaitClient, ONE, Log(1, [1], [])), LISTENING)
  {
    NoClient();
    NoWatch();
  }

  lemma AcceptLinks(log: Log)
    ensures OnServer(0, Desk(Inst(3, 4, -1, WaitClient, ONE, log), LISTENING), Accepted(5))
         == Linked(log.(session := log.session + 1))
  {
    var e := Del(Opened(LISTENING, 5, CLIENT), 4);
    assert e.watched == map[];
  }

  // --- the runs ---

  // A reopen that fails at end of file takes the instance offline; the client
  // event behind it in the same batch then aborts the process.
  lemma LateEventAborts() returns (run: seq<Action>)
    ensures Runs(Start(), run) && After(Start(), run).epoll.aborted
  {
    run := ReachBusy();
    var lost := HandleNext(WireAnswer(WireEof(ONE, NoWire)));
    var v := World([Left(-1, -1, Relaying, NONE)], NOTHING, [Event(5, CLIENT, 1)]);
    EofTakesOffline();
    run := Further(run, Busy(ONE), lost, v);
    var late := HandleNext(ClientAnswer(ClientEnds(FcntlFails)));
    run := Further(run, v, late, Next(v, late));
  }

  // A reopen that fails in the drain leaves the instance relaying without a wire;
  // a late client event sets it to waiting, and the next client aborts the process.
  lemma LostWireAborts() returns (run: seq<Action>)
    ensures Runs(Start(), run) && After(Start(), run).epoll.aborted
  {
    run := GoesAdrift();
    run := StaysStuck(run);
    var stuck := World([Inst(-1, 4, -1, WaitClient, NONE, LOGGED)], ALONE_LISTENING, []);
    run := Further(run, stuck, Collect([4]), stuck.(batch := [Event(4, SERVER, 1)]));
    run := AcceptsWithoutWire(run, stuck.(batch := [Event(4, SERVER, 1)]));
  }

  const LOGGED: Log := Log(1, [1], [Sent(1, 0, 0)])

  const CUT: Action := HandleNext(WireAnswer(CUT_SHORT))

  const CUT_SHORT: WireCall := CutShort(ONE, 0, Drains([], NONE, AtEof(NONE, NoWire)))

  lemma CutAllowed()
    ensures AnswerOk(Linked(Log(1, [], [])), WireAnswer(CUT_SHORT))
  {}

  lemma CutSetsAdrift()
    ensures Enabled(Busy(ONE), CUT)
    ensures Next(Busy(ONE), CUT) == World([Inst(-1, 4, -1, Relaying, NONE, LOGGED)], ALONE, [Event(5, CLIENT, 1)])
  {
    CutAllowed();
    CutLosesWire();
  }

  lemma GoesAdrift() returns (run: seq<Action>)
    ensures Runs(Start(), run)
    ensures After(Start(), run) == World([Inst(-1, 4, -1, Relaying, NONE, LOGGED)], ALONE, [Event(5, CLIENT, 1)])
  {
    run := ReachBusy();
    CutSetsAdrift();
    run := Further(run, Busy(ONE), CUT, Next(Busy(ONE), CUT));
  }

  lemma StaysStuck(run: seq<Action>) returns (run': seq<Action>)
    requires Runs(Start(), run)
    requires After(Start(), run) == World([Inst(-1, 4, -1, Relaying, NONE, LOGGED)], ALONE, [Event(5, CLIENT, 1)])
    ensures Runs(Start(), run')
    ensures After(Start(), run') == World([Inst(-1, 4, -1, WaitClient, NONE, LOGGED)], ALONE_LISTENING, [])
  {
    var adrift := World([Inst(-1, 4, -1, Relaying, NONE, LOGGED)], ALONE, [Event(5, CLIENT, 1)]);
    var stuck := World([Inst(-1, 4, -1, WaitClient, NONE, LOGGED)], ALONE_LISTENING, []);
    LateDrainListens(LOGGED);
    run' := Further(run, adrift, HandleNext(ClientAnswer(ClientEnds(FcntlFails))), stuck);
  }

  lemma CutLosesWire()
    ensures Dispatch(0, Linked(Log(1, [], [])), WireAnswer(CUT_SHORT))
         == Desk(Inst(-1, 4, -1, Relaying, NONE, Log(1, [1], [Sent(1, 0, 0)])), ALONE)
  {
    NoClient();
    NoWatch();
    NoWireLeft();
  }

  lemma AcceptsWithoutWire(run: seq<Action>, v: World) returns (run': seq<Action>)
    requires Runs(Start(), run) && After(Start(), run) == v && !v.epoll.aborted
    requires v.batch == [Event(4, SERVER, 1)] && |v.insts| == 1
    requires v.insts[0].state == WaitClient && v.insts[0].wireFd == -1 && v.insts[0].serverFd == 4
    requires v.epoll.open == Tables(false, false)
    ensures Runs(Start(), run') && After(Start(), run').epoll.aborted
  {
    var accepts := HandleNext(ServerAnswer(Accepted(5)));
    run' := Further(run, v, accepts, Next(v, accepts));
  }

  // When O_NONBLOCK cannot be set the drain is skipped, and the byte that was
  // waiting when session 1 ended is sent to session 2.
  lemma SkippedDrainLeaks() returns (run: seq<Action>)
    ensures Runs(Start(), run) && |After(Start(), run).insts| == 1
    ensures var log := After(Start(), run).insts[0].log; log.sent == [Sent(2, 0, 1)] && log.floors == [1]
  {
    run := ReachBusy();
    var half := Busy(ONE).(batch := [Event(5, CLIENT, 1)]);
    run := Further(run, Busy(ONE), HandleNext(WireAnswer(WireFails)), half);
    var waits := World([Inst(3, 4, -1, WaitClient, ONE, Log(1, [1], []))], LISTENING, []);
    SkippedDrainListens();
    assert DeskOf(half, 0) == Linked(Log(1, [], []));
    run := Further(run, half, HandleNext(ClientAnswer(ClientEnds(FcntlFails))), waits);
    run := SecondSession(run, waits);
  }

  lemma SecondSession(run: seq<Action>, waits: World) returns (run': seq<Action>)
    requires Runs(Start(), run) && After(Start(), run) == waits
    requires waits == World([Inst(3, 4, -1, WaitClient, ONE, Log(1, [1], []))], LISTENING, [])
    ensures Runs(Start(), run') && |After(Start(), run').insts| == 1
    ensures var log := After(Start(), run').insts[0].log; log.sent == [Sent(2, 0, 1)] && log.floors == [1]
  {
    var ready := waits.(batch := [Event(4, SERVER, 1)]);
    run' := Further(run, waits, Collect([4]), ready);
    var again := World([Inst(3, 4, 5, Relaying, ONE, Log(2, [1], []))], BOTH, []);
    AcceptLinks(Log(1, [1], []));
    assert DeskOf(ready, 0) == Desk(Inst(3, 4, -1, WaitClient, ONE, Log(1, [1], [])), LISTENING);
    run' := Further(run', ready, HandleNext(ServerAnswer(Accepted(5))), again);
    run' := SendsOldByte(run', again);
  }

  lemma SendsOldByte(run: seq<Action>, again: World) returns (run': seq<Action>)
    requires Runs(Start(), run) && After(Start(), run) == again
    requires again == World([Inst(3, 4, 5, Relaying, ONE, Log(2, [1], []))], BOTH, [])
    ensures Runs(Start(), run') && |After(Start(), run').insts| == 1
    ensures var log := After(Start(), run').insts[0].log; log.sent == [Sent(2, 0, 1)] && log.floors == [1]
  {
    var due := again.(batch := [Event(3, WIRE, 2)]);
    run' := Further(run, again, Collect([3]), due);
    run' := SendsDue(run', due);
  }

  lemma SendsDue(run: seq<Action>, due: World) returns (run': seq<Action>)
    requires Runs(Start(), run) && After(Start(), run) == due
    requires due == World([Inst(3, 4, 5, Relaying, ONE, Log(2, [1], []))], BOTH, [Event(3, WIRE, 2)])
    ensures Runs(Start(), run') && |After(Start(), run').insts| == 1
    ensures var log := After(Start(), run').insts[0].log; log.sent == [Sent(2, 0, 1)] && log.floors == [1]
  {
    var sends := HandleNext(WireAnswer(Forwarded(ONE)));
    run' := Further(run, due, sends, Next(due, sends));
  }
}

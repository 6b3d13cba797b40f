// What reaches the simulators of what the AUT has written.
module RelayEndToEnd {
  import opened Relay
  import opened RelayShapes
  import opened RelayProtocol
  import opened RelayTheorems
  import opened RelayLeaks
  import opened RelayCalls
  import opened RelayScripts
  import opened RelayJoint
  import opened RelayWire
  import D = UartDevice
  import U = UartProtocol
  import T = UartTheorems
  import Daemon = RelayDaemon
  import Loop = RelayLoop
  import Startup = RelayStartup

  // --- the start ---

  ghost predicate JointStart(j: Joint) {
    AllFit(j.world) && !j.world.epoll.aborted && AllCoupled(j)
  }

  // Opening the wire at start-up finds a device to which the new instance is coupled.
  lemma StartCouples(u: U.System, wire: nat, server: nat)
    requires U.Inv(u) && u.readers == map[] && !u.dev.wireOpen
    ensures U.Enabled(u, U.Wire(U.WireOpens))
    ensures var v := U.Next(u, U.Wire(U.WireOpens)); var f := View(v.dev);
      && !f.reset && f.gone <= f.arrived
      && Coupled(Inst(wire, server, -1, WaitClient, f, Log(0, [], [])), v)
  {
    U.StepKeepsInv(u, U.Wire(U.WireOpens));
  }

  // Before start-up nobody has the wire open; what opening it finds.
  ghost predicate Unopened(u: U.System) {
    U.Inv(u) && u.readers == map[] && !u.dev.wireOpen
  }

  function OpenedWire(u: U.System): U.System {
    if U.Enabled(u, U.Wire(U.WireOpens)) then U.Next(u, U.Wire(U.WireOpens)) else u
  }

  function AllOpened(uarts: seq<U.System>): seq<U.System> {
    seq(|uarts|, i requires 0 <= i < |uarts| => OpenedWire(uarts[i]))
  }

  ghost predicate AllUnopened(uarts: seq<U.System>) {
    forall i: nat | i < |uarts| :: Unopened(uarts[i])
  }

  // Each instance that starts has found its own device.
  predicate FindsItsOwn(a: Startup.Start, u: U.System) {
    a.Ready? ==> a.found == View(OpenedWire(u).dev)
  }

  ghost predicate AllFindTheirOwn(answers: seq<Startup.Start>, uarts: seq<U.System>) {
    |answers| == |uarts| && forall i: nat | i < |answers| :: FindsItsOwn(answers[i], uarts[i])
  }

  lemma StartedCouples(t: Inst, a: Startup.Start, u: U.System)
    requires Unopened(u) && FindsItsOwn(a, u) && Startup.Given(t, a)
    ensures Coupled(t, OpenedWire(u))
  {
    U.StepKeepsInv(u, U.Wire(U.WireOpens));
    StartCouples(u, a.wire, a.server);
  }

  // So a start-up that succeeds leads to a state from which the joint system runs.
  lemma StartsJoint(w: World, answers: seq<Startup.Start>, uarts: seq<U.System>)
    requires AllFit(w) && !w.epoll.aborted && |w.insts| == |answers| && Startup.AllGiven(w.insts, answers)
    requires AllUnopened(uarts) && AllFindTheirOwn(answers, uarts)
    ensures JointStart(Joint(w, AllOpened(uarts)))
  {
    forall i: nat | i < |w.insts| ensures Coupled(w.insts[i], AllOpened(uarts)[i]) {
      assert Startup.Given(w.insts[i], answers[i]) && Unopened(uarts[i]) && FindsItsOwn(answers[i], uarts[i]);
      StartedCouples(w.insts[i], answers[i], uarts[i]);
    }
  }

  // The daemon starting over its UARTs.
  method StartJoint(ep: Daemon.EpollSet, dir: Startup.SocketDir, answers: seq<Startup.Start>, ghost uarts: seq<U.System>)
    returns (ok: bool, insts: seq<Daemon.UartInstance>)
    requires ep.View() == Epoll(map[], map[], false) && Startup.AnswersOk(answers)
    requires AllUnopened(uarts) && AllFindTheirOwn(answers, uarts)
    modifies ep, dir
    ensures fresh(insts) && (ok ==> JointStart(Joint(Loop.WorldOf(insts, ep, []), AllOpened(uarts))))
  {
    ok, insts := Startup.StartAll(ep, dir, answers);
    if ok {
      StartsJoint(Loop.WorldOf(insts, ep, []), answers, uarts);
    }
  }

  // --- the streams of a UART only grow ---

  predicate Grows(d: D.Uart, d': D.Uart) {
    d.led.accepted <= d'.led.accepted && d.led.delivered <= d'.led.delivered
  }

  lemma AutGrows(s: U.System, x: U.AutStep)
    requires U.AutEnabled(s, x)
    ensures Grows(s.dev, U.AutNext(s, x).dev)
  {}

  lemma EngineGrows(s: U.System, x: U.EngineStep)
    requires U.EngineEnabled(s, x)
    ensures Grows(s.dev, U.EngineNext(s, x).dev)
  {}

  lemma PortGrows(s: U.System, x: U.PortStep)
    requires U.PortEnabled(s, x)
    ensures Grows(s.dev, U.PortNext(s, x).dev)
  {}

  lemma NotifiedGrows(d: D.Uart, n: U.Notifier)
    ensures Grows(d, U.Notified(d, n))
  {}

  lemma WireGrows(s: U.System, x: U.WireStep)
    requires U.WireEnabled(s, x)
    ensures Grows(s.dev, U.WireNext(s, x).dev)
  {}

  lemma UartStepGrows(s: U.System, a: U.Action)
    requires U.Enabled(s, a)
    ensures Grows(s.dev, U.Next(s, a).dev)
  {
    match a {
      case Aut(x) => AutGrows(s, x);
      case Engine(x) => EngineGrows(s, x);
      case TtyPort(x) => PortGrows(s, x);
      case Bus(x) => NotifiedGrows(s.dev, s.notifier);
      case Wire(x) => WireGrows(s, x);
      case Attr(x) =>
    }
  }

  lemma {:induction false} UartRunGrows(s: U.System, run: Run)
    requires U.Runs(s, run)
    ensures Grows(s.dev, U.After(s, run).dev)
  {
    if run != [] {
      UartRunGrows(s, run[..|run| - 1]);
      UartStepGrows(U.After(s, run[..|run| - 1]), run[|run| - 1]);
    }
  }

  lemma ReachGrows(u: U.System, run: Run)
    ensures Grows(u.dev, Reach(u, run).dev)
  {
    if U.Runs(u, run) {
      UartRunGrows(u, run);
    }
  }

  lemma CallGrows(u: U.System, c: Call)
    ensures Grows(u.dev, Entered(u, c).dev) && Grows(u.dev, Take(Entered(u, c)).dev)
  {
    ReachGrows(u, c.wait);
    ReachGrows(Reach(u, c.wait), c.run);
    if U.Enabled(Entered(u, c), LOCKS) {
      UartStepGrows(Entered(u, c), LOCKS);
    }
  }

  lemma CycleGrows(u: U.System, r: Reopened)
    ensures Grows(u.dev, Cycled(u, r).dev)
  {
    if U.Enabled(u, U.Wire(U.WireReleases)) {
      UartStepGrows(u, U.Wire(U.WireReleases));
    }
    if r.NewWire? && U.Enabled(Shut(u), U.Wire(U.WireOpens)) {
      UartStepGrows(Shut(u), U.Wire(U.WireOpens));
    }
  }

  lemma {:induction false} CallsGrow(u: U.System, calls: seq<Call>, n: nat)
    requires n <= |calls|
    ensures Grows(u.dev, AfterCalls(u, calls, n).dev)
  {
    if n > 0 {
      CallsGrow(u, calls, n - 1);
      CallGrows(AfterCalls(u, calls, n - 1), calls[n - 1]);
    }
  }

  lemma ClosingGrows(u: U.System, c: Call, wait: Run, r: Reopened)
    ensures Grows(u.dev, Cycled(Reach(Entered(u, c), wait), r).dev)
  {
    CallGrows(u, c);
    ReachGrows(Entered(u, c), wait);
    CycleGrows(Reach(Entered(u, c), wait), r);
  }

  lemma DrainGrows(u: U.System, a: DrainScript)
    ensures Grows(u.dev, AfterDrain(u, a).dev)
  {
    if a.Drained? {
      CallsGrow(u, a.calls, |a.calls|);
      var v := AfterCalls(u, a.calls, |a.calls|);
      match a.last {
        case Empties(c) => CallGrows(v, c);
        case Breaks(wait) => ReachGrows(v, wait);
        case Closes(c, wait, r) => ClosingGrows(v, c, wait, r);
      }
    }
  }

  lemma ScriptGrows(u: U.System, a: Script)
    ensures Grows(u.dev, AfterScript(u, a).dev)
  {
    if a.WireScript? && a.wire.AtEnd? {
      ClosingGrows(u, a.wire.call, a.wire.wait, a.wire.reopened);
    } else if a.WireScript? && a.wire.Relays? {
      CallGrows(u, a.wire.call);
    } else if a.WireScript? && a.wire.Cuts? {
      CallGrows(u, a.wire.call);
      DrainGrows(Take(Entered(u, a.wire.call)), a.wire.drain);
    } else if a.ClientScript? && a.client.Leaves? {
      DrainGrows(u, a.client.drain);
    }
  }

  // --- the bytes the simulators got ---

  // The first n stretches sent, one after the other.
  function Relayed(delivered: D.Bytes, sent: seq<Sent>, n: nat): D.Bytes
    requires n <= |sent|
  {
    if n == 0 then []
    else
      Relayed(delivered, sent, n - 1) +
      if sent[n - 1].from <= sent[n - 1].to <= |delivered| then delivered[sent[n - 1].from..sent[n - 1].to] else []
  }

  // All an instance has sent, over all its sessions.
  function Got(j: Joint, i: nat): D.Bytes
    requires i < |j.uarts| == |j.world.insts|
  {
    Relayed(j.uarts[i].dev.led.delivered, j.world.insts[i].log.sent, |j.world.insts[i].log.sent|)
  }

  function Length(sent: seq<Sent>, n: nat): nat
    requires n <= |sent|
  {
    if n == 0 then 0
    else Length(sent, n - 1) + if sent[n - 1].from <= sent[n - 1].to then sent[n - 1].to - sent[n - 1].from else 0
  }

  // The place in the delivered stream of byte x of what was sent, and the entry it
  // was sent with.
  function Place(sent: seq<Sent>, n: nat, x: nat): nat
    requires n <= |sent|
  {
    if n == 0 then 0
    else if x < Length(sent, n - 1) then Place(sent, n - 1, x)
    else sent[n - 1].from + (x - Length(sent, n - 1))
  }

  function Entry(sent: seq<Sent>, n: nat, x: nat): nat
    requires n <= |sent|
  {
    if n == 0 then 0 else if x < Length(sent, n - 1) then Entry(sent, n - 1, x) else n - 1
  }

  ghost predicate SentWithin(log: Log, end: nat) {
    forall n: nat :: StretchOk(log, end, n)
  }

  lemma {:induction false} RelayedAt(delivered: D.Bytes, log: Log, n: nat, x: nat)
    requires SentWithin(log, |delivered|) && n <= |log.sent| && x < Length(log.sent, n)
    ensures var m := Entry(log.sent, n, x);
      m < n && log.sent[m].from <= Place(log.sent, n, x) < log.sent[m].to <= |delivered|
    ensures x < |Relayed(delivered, log.sent, n)|
    ensures Relayed(delivered, log.sent, n)[x] == delivered[Place(log.sent, n, x)]
  {
    assert StretchOk(log, |delivered|, n - 1);
    RelayedLength(delivered, log, n - 1);
    if x < Length(log.sent, n - 1) {
      RelayedAt(delivered, log, n - 1, x);
    }
  }

  lemma {:induction false} RelayedLength(delivered: D.Bytes, log: Log, n: nat)
    requires SentWithin(log, |delivered|) && n <= |log.sent|
    ensures |Relayed(delivered, log.sent, n)| == Length(log.sent, n)
  {
    if n > 0 {
      assert StretchOk(log, |delivered|, n - 1);
      RelayedLength(delivered, log, n - 1);
    }
  }

  lemma {:induction false} PlacesIncrease(delivered: D.Bytes, log: Log, n: nat, x: nat, y: nat)
    requires SentWithin(log, |delivered|) && n <= |log.sent| && x < y < Length(log.sent, n)
    ensures Place(log.sent, n, x) < Place(log.sent, n, y)
  {
    if y < Length(log.sent, n - 1) {
      PlacesIncrease(delivered, log, n - 1, x, y);
    } else if x < Length(log.sent, n - 1) {
      RelayedAt(delivered, log, n - 1, x);
      StretchesApart(log, |delivered|, Entry(log.sent, n - 1, x), n - 1);
    }
  }

  lemma OrderedIsWithin(t: Inst, end: nat)
    requires Ordered(t) && t.fifo.arrived <= end
    ensures SentWithin(t.log, end)
  {
    forall n: nat ensures StretchOk(t.log, end, n) {
      assert StretchOk(t.log, t.fifo.gone, n);
    }
  }

  lemma JointOrdered(j: Joint, run: seq<JointAction>, i: nat)
    requires JointStart(j) && JointRuns(j, run) && i < |j.uarts|
    ensures var e := JointAfter(j, run);
      && i < |e.uarts| == |e.world.insts| && Coupled(e.world.insts[i], e.uarts[i])
      && SentWithin(e.world.insts[i].log, |e.uarts[i].dev.led.delivered|)
  {
    RunIsRelay(j, run);
    RunOrdered(j.world, RelayRun(j, run));
    var e := JointAfter(j, run);
    assert Coupled(e.world.insts[i], e.uarts[i]) && Ordered(e.world.insts[i]);
    OrderedIsWithin(e.world.insts[i], |e.uarts[i].dev.led.delivered|);
  }

  // Over any joint run, whatever fails: what the simulators of all sessions of an
  // instance got, put together, is a subsequence of what the AUT has written to
  // its UART; each byte is the one written, but for the one bit a bitflip changed.
  lemma SimulatorsGetSubsequence(j: Joint, run: seq<JointAction>, i: nat, x: nat, y: nat)
    requires JointStart(j) && JointRuns(j, run) && i < |j.uarts|
    requires var e := JointAfter(j, run); i < |e.uarts| == |e.world.insts| && x < y < |Got(e, i)|
    ensures var e := JointAfter(j, run); var l, sent := e.uarts[i].dev.led, e.world.insts[i].log.sent;
      var p, q := Place(sent, |sent|, x), Place(sent, |sent|, y);
      && T.Origin(l.fates, p, |l.fates|) < T.Origin(l.fates, q, |l.fates|) < |l.accepted|
      && T.Carrier(l.fates, p, |l.fates|) < |l.fates|
      && Got(e, i)[x] == T.PassedByte(l.accepted, l.fates[T.Carrier(l.fates, p, |l.fates|)], T.Origin(l.fates, p, |l.fates|))
  {
    JointOrdered(j, run, i);
    var e := JointAfter(j, run);
    var l, log := e.uarts[i].dev.led, e.world.insts[i].log;
    RelayedLength(l.delivered, log, |log.sent|);
    RelayedAt(l.delivered, log, |log.sent|, x);
    RelayedAt(l.delivered, log, |log.sent|, y);
    PlacesIncrease(l.delivered, log, |log.sent|, x, y);
    T.KeptSoFar(l, |l.fates|);
    T.OriginOrdered(l.fates, l.taken, Place(log.sent, |log.sent|, x), Place(log.sent, |log.sent|, y));
    T.DeliveredByte(l, Place(log.sent, |log.sent|, x));
  }

  // Of two bytes sent one after the other, in the same session or not, the first
  // was written by the AUT before the second.
  lemma RelayedInWrittenOrder(j: Joint, run: seq<JointAction>, i: nat, m: nat, n: nat, p: nat, q: nat)
    requires JointStart(j) && JointRuns(j, run) && i < |j.uarts|
    requires var e := JointAfter(j, run);
      && i < |e.uarts| == |e.world.insts| && m < n < |e.world.insts[i].log.sent|
      && e.world.insts[i].log.sent[m].from <= p < e.world.insts[i].log.sent[m].to
      && e.world.insts[i].log.sent[n].from <= q < e.world.insts[i].log.sent[n].to
    ensures var l := JointAfter(j, run).uarts[i].dev.led;
      T.Origin(l.fates, p, |l.fates|) < T.Origin(l.fates, q, |l.fates|) < |l.accepted|
  {
    JointOrdered(j, run, i);
    var e := JointAfter(j, run);
    var l, log := e.uarts[i].dev.led, e.world.insts[i].log;
    StretchesApart(log, |l.delivered|, m, n);
    assert StretchOk(log, |l.delivered|, n);
    T.KeptSoFar(l, |l.fates|);
    T.OriginOrdered(l.fates, l.taken, p, q);
  }

  // --- what was sent stays what it was ---

  predicate Extends(l: Log, l': Log) {
    l.floors <= l'.floors && l.sent <= l'.sent
  }

  lemma DispatchExtends(i: nat, d: Desk, a: Answer)
    ensures Extends(d.inst.log, Dispatch(i, d, a).inst.log)
  {
    if a.WireAnswer? && a.wire.CutShort? {
      DrainLeavesFifo(i, d.(inst := Send(d.inst, a.wire.at, a.wire.sent)), a.wire.drain);
    } else if a.ClientAnswer? && a.client.ClientEnds? {
      DrainLeavesFifo(i, d, a.client.drain);
    }
  }

  lemma {:induction false} RunExtends(w: World, run: seq<Action>, i: nat)
    requires Runs(w, run) && i < |w.insts|
    ensures |After(w, run).insts| == |w.insts| && Extends(w.insts[i].log, After(w, run).insts[i].log)
  {
    if run != [] {
      var front, a := run[..|run| - 1], run[|run| - 1];
      var v := After(w, front);
      RunExtends(w, front, i);
      if a.HandleNext? {
        DispatchExtends(v.batch[0].ctx.inst, DeskOf(v, v.batch[0].ctx.inst), a.answer);
      }
    }
  }

  lemma JointStepGrows(j: Joint, a: JointAction, i: nat)
    requires JointInv(j) && JointEnabled(j, a) && i < |j.uarts|
    ensures i < |JointNext(j, a).uarts| && Grows(j.uarts[i].dev, JointNext(j, a).uarts[i].dev)
  {
    StepKeepsSize(j, a);
    if a.Devices? && a.i == i {
      ReachGrows(j.uarts[i], a.run);
    } else if a.Handling? && j.world.batch[0].ctx.inst == i {
      ScriptGrows(j.uarts[i], a.script);
    }
  }

  lemma {:induction false} JointRunGrows(j: Joint, run: seq<JointAction>, i: nat)
    requires JointInv(j) && JointRuns(j, run) && i < |j.uarts|
    ensures i < |JointAfter(j, run).uarts| && Grows(j.uarts[i].dev, JointAfter(j, run).uarts[i].dev)
  {
    if run != [] {
      var front := run[..|run| - 1];
      JointRunGrows(j, front, i);
      RunIsRelay(j, front);
      JointStepGrows(JointAfter(j, front), run[|run| - 1], i);
    }
  }

  lemma {:induction false} SameRelayed(d: D.Bytes, d': D.Bytes, log: Log, sent': seq<Sent>, n: nat)
    requires d <= d' && SentWithin(log, |d|) && n <= |log.sent| && log.sent <= sent'
    ensures Relayed(d', sent', n) == Relayed(d, log.sent, n)
  {
    if n > 0 {
      assert StretchOk(log, |d|, n - 1);
      SameRelayed(d, d', log, sent', n - 1);
    }
  }

  lemma {:induction false} RelayedGrows(d: D.Bytes, sent: seq<Sent>, m: nat, n: nat)
    requires m <= n <= |sent|
    ensures Relayed(d, sent, m) <= Relayed(d, sent, n)
  {
    if m < n {
      RelayedGrows(d, sent, m, n - 1);
    }
  }

  // What the simulators have got never changes; a run only adds to it.
  lemma GotGrows(j: Joint, before: seq<JointAction>, j1: Joint, run: seq<JointAction>, i: nat)
    requires JointStart(j) && JointRuns(j, before) && j1 == JointAfter(j, before) && i < |j.uarts|
    requires JointRuns(j1, run)
    ensures var e := JointAfter(j1, run);
      i < |j1.uarts| == |j1.world.insts| && i < |e.uarts| == |e.world.insts| && Got(j1, i) <= Got(e, i)
  {
    JointOrdered(j, before, i);
    RunIsRelay(j, before);
    RunIsRelay(j1, run);
    JointRunGrows(j1, run, i);
    RunExtends(j1.world, RelayRun(j1, run), i);
    var e := JointAfter(j1, run);
    var d, d', log, log' := j1.uarts[i].dev.led.delivered, e.uarts[i].dev.led.delivered, j1.world.insts[i].log, e.world.insts[i].log;
    SameRelayed(d, d', log, log'.sent, |log.sent|);
    RelayedGrows(d', log'.sent, |log.sent|, |log'.sent|);
  }

  // --- session isolation ---

  predicate Completes(j: Joint, a: JointAction) {
    a.Handling? && JointEnabled(j, a) ==>
      var i := j.world.batch[0].ctx.inst;
      DrainCompletes(j.world.insts[i], Told(j.uarts[i], a.script))
  }

  predicate AllComplete(j: Joint, run: seq<JointAction>)
    requires JointRuns(j, run)
  {
    run == [] || (AllComplete(j, run[..|run| - 1]) && Completes(JointAfter(j, run[..|run| - 1]), run[|run| - 1]))
  }

  lemma {:induction false} CompleteInRelay(j: Joint, run: seq<JointAction>)
    requires JointInv(j) && JointRuns(j, run) && AllComplete(j, run)
    ensures Runs(j.world, RelayRun(j, run)) && DrainsComplete(j.world, RelayRun(j, run))
  {
    RunIsRelay(j, run);
    if run != [] {
      var front, a := run[..|run| - 1], run[|run| - 1];
      CompleteInRelay(j, front);
      RunIsRelay(j, front);
      var r := RelayRun(j, run);
      assert r[..|r| - 1] == RelayRun(j, front);
    }
  }

  // The step is a handler that ends a session of instance i.
  predicate EndsSession(j: Joint, a: JointAction, i: nat)
    requires JointEnabled(j, a)
  {
    && a.Handling? && j.world.batch[0].ctx.inst == i && i < |j.world.insts| && i < |JointNext(j, a).world.insts|
    && j.world.insts[i].clientFd >= 0 && JointNext(j, a).world.insts[i].clientFd < 0
  }

  // It notes how much had been delivered into rx_fifo when it was entered.
  lemma FloorIsDelivered(j: Joint, a: JointAction, i: nat)
    requires JointInv(j) && JointEnabled(j, a) && EndsSession(j, a, i)
    ensures i < |j.uarts|
    ensures JointNext(j, a).world.insts[i].log.floors == j.world.insts[i].log.floors + [|j.uarts[i].dev.led.delivered|]
  {
    StepIsRelay(j, a);
    assert InstOk(j.world, i) && Coupled(j.world.insts[i], j.uarts[i]);
    EndIsNoted(i, DeskOf(j.world, i), Told(j.uarts[i], a.script));
  }

  lemma EndIsNoted(i: nat, d: Desk, a: Answer)
    requires FdsOk(d.inst) && d.inst.clientFd >= 0 && Dispatch(i, d, a).inst.clientFd < 0
    ensures d.inst.wireFd >= 0
    ensures Dispatch(i, d, a).inst.log.floors == d.inst.log.floors + [d.inst.fifo.arrived]
  {
    if a.WireAnswer? && a.wire.CutShort? {
      DrainLeavesFifo(i, d.(inst := Send(d.inst, a.wire.at, a.wire.sent)), a.wire.drain);
    } else if a.ClientAnswer? && a.client.ClientEnds? {
      DrainLeavesFifo(i, d, a.client.drain);
    }
  }

  lemma LoggedSoFar(j: Joint, before: seq<JointAction>, i: nat)
    requires JointStart(j) && JointRuns(j, before) && AllComplete(j, before) && i < |j.uarts|
    ensures JointInv(JointAfter(j, before)) && i < |JointAfter(j, before).world.insts|
    ensures LogOk(JointAfter(j, before).world.insts[i], 0)
  {
    RunIsRelay(j, before);
    CompleteInRelay(j, before);
    RunLogged(j.world, RelayRun(j, before), i, 0);
  }

  lemma NotFatal(j1: Joint, a: JointAction, i: nat)
    requires JointInv(j1) && JointEnabled(j1, a) && EndsSession(j1, a, i)
    ensures !JointNext(j1, a).world.epoll.aborted
  {
    StepIsRelay(j1, a);
    assert InstOk(j1.world, i);
    HandleKeeps(j1.world, Told(j1.uarts[i], a.script));
  }

  lemma LoggedAfterEnd(j1: Joint, a: JointAction, i: nat)
    requires JointInv(j1) && JointEnabled(j1, a) && EndsSession(j1, a, i) && Completes(j1, a) && LogOk(j1.world.insts[i], 0)
    ensures var j2 := JointNext(j1, a);
      && JointInv(j2) && !j2.world.epoll.aborted && i < |j2.uarts| == |j2.world.insts| && LogOk(j2.world.insts[i], 0)
      && j2.world.insts[i].log.session == j1.world.insts[i].log.session && j2.world.insts[i].clientFd < 0
  {
    StepIsRelay(j1, a);
    JointStepKeeps(j1, a);
    StepLogged(j1.world, AsRelay(j1, a), i, 0);
    NotFatal(j1, a, i);
    SessionKept(i, DeskOf(j1.world, i), Told(j1.uarts[i], a.script));
  }

  lemma LaterFrom(w: World, run: seq<Action>, i: nat, n: nat)
    requires Inv(w) && Runs(w, run) && DrainsComplete(w, run) && i < |w.insts| && LogOk(w.insts[i], 0)
    requires w.insts[i].clientFd < 0 && w.insts[i].log.floors != []
    requires i < |After(w, run).insts| && n < |After(w, run).insts[i].log.sent|
    requires After(w, run).insts[i].log.sent[n].session > w.insts[i].log.session
    ensures var f := w.insts[i].log.floors; f[|f| - 1] <= After(w, run).insts[i].log.sent[n].from
  {
    RunLogged(w, run, i, 0);
    RunExtends(w, run, i);
    var log, log' := w.insts[i].log, After(w, run).insts[i].log;
    var k := |log.floors| - 1;
    assert SentAt(log', n) && log'.floors[k] == log.floors[k];
  }

  // If all drains are complete: from the moment the handler that ends a session is
  // entered, nothing that was in rx_fifo of the UART then, or had left it before,
  // is sent to any later session.
  lemma LaterSessionsGetLaterBytes(j: Joint, before: seq<JointAction>, j1: Joint, a: JointAction, after: seq<JointAction>, i: nat, n: nat)
    requires JointStart(j) && JointRuns(j, before) && AllComplete(j, before) && j1 == JointAfter(j, before)
    requires i < |j.uarts| && JointEnabled(j1, a) && EndsSession(j1, a, i) && Completes(j1, a)
    requires JointRuns(JointNext(j1, a), after) && AllComplete(JointNext(j1, a), after)
    requires var e := JointAfter(JointNext(j1, a), after);
      && i < |e.world.insts| && n < |e.world.insts[i].log.sent|
      && e.world.insts[i].log.sent[n].session > j1.world.insts[i].log.session
    ensures i < |j1.uarts|
    ensures |j1.uarts[i].dev.led.delivered| <= JointAfter(JointNext(j1, a), after).world.insts[i].log.sent[n].from
  {
    LoggedSoFar(j, before, i);
    LoggedAfterEnd(j1, a, i);
    FloorIsDelivered(j1, a, i);
    var j2 := JointNext(j1, a);
    RunIsRelay(j2, after);
    CompleteInRelay(j2, after);
    LaterFrom(j2.world, RelayRun(j2, after), i, n);
  }

  // --- a RESET of the bus ---

  // Once the bus was reset under the open wire of an instance between two of its
  // handlers, whatever fails and whatever the drains do: nothing that was in rx_fifo
  // of its UART then is ever sent to any simulator.
  lemma ResetReachesSimulators(j1: Joint, after: seq<JointAction>, i: nat, n: nat)
    requires JointInv(j1) && !j1.world.epoll.aborted && JointRuns(j1, after) && i < |j1.uarts|
    requires i < |j1.world.insts| && j1.world.insts[i].wireFd >= 0 && j1.uarts[i].dev.resetPending
    requires var e := JointAfter(j1, after);
      i < |e.world.insts| && |j1.world.insts[i].log.sent| <= n < |e.world.insts[i].log.sent|
    ensures |j1.uarts[i].dev.led.delivered| <= JointAfter(j1, after).world.insts[i].log.sent[n].from
  {
    RunIsRelay(j1, after);
    assert Coupled(j1.world.insts[i], j1.uarts[i]) && HistoryOk(j1.world.insts[i]);
    ResetStopsRelay(j1.world, RelayRun(j1, after), i, n);
  }
}

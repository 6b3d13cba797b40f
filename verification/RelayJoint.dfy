// The daemon and its UARTs as one system.  Every step of it is a step of the relay
// protocol, and the fifo an instance believes in is the one of its UART.
module RelayJoint {
  import opened Relay
  import opened RelayShapes
  import opened RelayProtocol
  import opened RelayTheorems
  import opened RelayLeaks
  import opened RelayCalls
  import opened RelayScripts
  import opened RelayWire
  import U = UartProtocol

  datatype Joint = Joint(world: World, uarts: seq<U.System>)

  datatype JointAction = Poll(fds: seq<int>) | Devices(i: nat, run: Run) | Handling(script: Script)

  // --- what the handler is told ---

  function WireTold(u: U.System, a: WireScript): WireCall {
    match a
    case WireBreaks => WireFails
    case AtEnd(c, wait, r) => WireEof(View(Reach(Entered(u, c), wait).dev), r)
    case Relays(c) => Forwarded(View(Entered(u, c).dev))
    case Cuts(c, n, drain) => CutShort(View(Entered(u, c).dev), n, DrainTold(Take(Entered(u, c)), drain))
  }

  function ClientTold(u: U.System, a: ClientScript): ClientCall {
    match a
    case Forwards(_, _) => FromClient
    case Leaves(drain) => ClientEnds(DrainTold(u, drain))
  }

  function Told(u: U.System, a: Script): Answer {
    match a
    case ServerScript(x) => ServerAnswer(x)
    case WireScript(x) => WireAnswer(WireTold(u, x))
    case ClientScript(x) => ClientAnswer(ClientTold(u, x))
  }

  // --- where the device is left ---

  function WriteBytes(u: U.System, count: nat, grants: seq<nat>): U.System {
    var x := U.Wire(U.WireWrites(count, grants));
    if U.Enabled(u, x) then U.Next(u, x) else u
  }

  function AfterScript(u: U.System, a: Script): U.System {
    match a
    case ServerScript(_) => u
    case WireScript(x) => (
      match x
      case WireBreaks => u
      case AtEnd(c, wait, r) => Cycled(Reach(Entered(u, c), wait), r)
      case Relays(c) => Take(Entered(u, c))
      case Cuts(c, _, drain) => AfterDrain(Take(Entered(u, c)), drain))
    case ClientScript(x) => (
      match x
      case Forwards(count, grants) => WriteBytes(u, count, grants)
      case Leaves(drain) => AfterDrain(u, drain))
  }

  predicate ScriptOk(u: U.System, a: Script) {
    match a
    case ServerScript(_) => true
    case WireScript(x) => (
      match x
      case WireBreaks => true
      case AtEnd(c, wait, _) => FindsEnd(u, c, false) && U.Runs(Entered(u, c), wait) && Environment(wait)
      case Relays(c) => FindsBytes(u, c, false)
      case Cuts(c, _, drain) => FindsBytes(u, c, false) && DrainScriptOk(Take(Entered(u, c)), drain))
    case ClientScript(x) => x.Leaves? ==> DrainScriptOk(u, x.drain)
  }

  // --- the descriptor part of what the relay asks of an answer ---

  predicate DrainNumbers(d: Desk, a: Drain) {
    a.Drains? ==>
      d.inst.wireFd >= 0 && (a.end.AtEof? ==> Unused(Close(d.epoll, d.inst.wireFd), a.end.reopened))
  }

  predicate WireNumbers(d: Desk, a: WireCall) {
    match a
    case WireFails => true
    case WireEof(_, r) => d.inst.wireFd >= 0 && Unused(Close(d.epoll, d.inst.wireFd), r)
    case Forwarded(_) => d.inst.wireFd >= 0 && d.inst.clientFd >= 0
    case CutShort(at, n, drain) =>
      d.inst.wireFd >= 0 && n < Amount(at) && DrainNumbers(DelWire(ClientClose(d)), drain)
  }

  predicate ClientNumbers(d: Desk, a: ClientCall) {
    match a
    case FromClient => d.inst.clientFd >= 0
    case ClientEnds(drain) => DrainNumbers(DelWire(ClientClose(d)), drain)
  }

  predicate NumbersOk(d: Desk, a: Answer) {
    match a
    case ServerAnswer(x) => d.inst.state == WaitClient ==> ServerOk(d, x)
    case WireAnswer(x) => d.inst.state == Relaying ==> WireNumbers(d, x)
    case ClientAnswer(x) => d.inst.state == Relaying ==> ClientNumbers(d, x)
  }

  // --- the steps ---

  // The handler gets past its state guard, so it calls.
  predicate Calls(t: Inst, a: Script) {
    if a.ServerScript? then t.state == WaitClient else t.state == Relaying
  }

  function Moved(t: Inst, u: U.System, run: Run): Fifo {
    if t.wireFd >= 0 then View(Reach(u, run).dev) else t.fifo
  }

  predicate SameSize(j: Joint) {
    |j.uarts| == |j.world.insts|
  }

  predicate JointEnabled(j: Joint, a: JointAction) {
    && SameSize(j) && !j.world.epoll.aborted
    && match a
       case Poll(fds) => Enabled(j.world, Collect(fds))
       case Devices(i, run) => i < |j.uarts| && U.Runs(j.uarts[i], run) && Environment(run)
       case Handling(x) =>
         && j.world.batch != [] && j.world.batch[0].ctx.inst < |j.uarts|
         && var i := j.world.batch[0].ctx.inst;
            && RoleFits(j.world.batch[0].ctx.role, Told(j.uarts[i], x))
            && NumbersOk(DeskOf(j.world, i), Told(j.uarts[i], x))
            && (Calls(j.world.insts[i], x) ==> ScriptOk(j.uarts[i], x))
  }

  // The step of the relay protocol that it is.
  function AsRelay(j: Joint, a: JointAction): Action
    requires JointEnabled(j, a)
  {
    match a
    case Poll(fds) => Collect(fds)
    case Devices(i, run) => WireMoves(i, Moved(j.world.insts[i], j.uarts[i], run))
    case Handling(x) => HandleNext(Told(j.uarts[j.world.batch[0].ctx.inst], x))
  }

  function UartsAfter(j: Joint, a: JointAction): seq<U.System>
    requires JointEnabled(j, a)
  {
    match a
    case Poll(_) => j.uarts
    case Devices(i, run) => j.uarts[i := Reach(j.uarts[i], run)]
    case Handling(x) =>
      var i := j.world.batch[0].ctx.inst;
      if Calls(j.world.insts[i], x) then j.uarts[i := AfterScript(j.uarts[i], x)] else j.uarts
  }

  function JointNext(j: Joint, a: JointAction): Joint
    requires JointEnabled(j, a)
  {
    var x := AsRelay(j, a);
    Joint(if Enabled(j.world, x) then Next(j.world, x) else j.world, UartsAfter(j, a))
  }

  predicate JointRuns(j: Joint, run: seq<JointAction>)
    decreases |run|, 0
  {
    run == [] || (JointRuns(j, run[..|run| - 1]) && JointEnabled(JointAfter(j, run[..|run| - 1]), run[|run| - 1]))
  }

  function JointAfter(j: Joint, run: seq<JointAction>): Joint
    requires JointRuns(j, run)
    decreases |run|, 1
  {
    if run == [] then j else JointNext(JointAfter(j, run[..|run| - 1]), run[|run| - 1])
  }

  // --- the coupling ---

  // While the wire is open the fifo the instance believes in is the one of its UART.
  ghost predicate Coupled(t: Inst, u: U.System) {
    && U.Inv(u) && u.readers == map[]
    && (t.wireFd >= 0 ==> u.dev.wireOpen && View(u.dev) == t.fifo)
    && t.fifo.arrived <= |u.dev.led.delivered|
  }

  ghost predicate AllCoupled(j: Joint) {
    SameSize(j) && forall i: nat | i < |j.uarts| :: Coupled(j.world.insts[i], j.uarts[i])
  }

  lemma EndAllowed(d: Desk, u: U.System, c: Call, wait: Run, r: Reopened)
    requires Coupled(d.inst, u) && FindsEnd(u, c, false) && U.Runs(Entered(u, c), wait) && Environment(wait)
    requires WireNumbers(d, WireTold(u, AtEnd(c, wait, r)))
    ensures WireOk(d, WireTold(u, AtEnd(c, wait, r)))
  {
    EndAsExpected(u, c, false);
    WaitIsMove(Entered(u, c), wait);
  }

  lemma DrainAllowed(d: Desk, a: Drain)
    requires DrainNumbers(d, a) && DrainDevice(d.inst.fifo, a)
    ensures DrainOk(d, a)
  {}

  lemma SendApart(d: Desk, at: Fifo, n: nat)
    ensures var e, e' := DelWire(ClientClose(d)), DelWire(ClientClose(d.(inst := Send(d.inst, at, n))));
      e'.epoll == e.epoll && e'.inst.wireFd == e.inst.wireFd && e'.inst.fifo == ReadSome(at)
  {}

  lemma CutAllowed(d: Desk, u: U.System, c: Call, n: nat, drain: DrainScript)
    requires Coupled(d.inst, u) && FindsBytes(u, c, false) && DrainScriptOk(Take(Entered(u, c)), drain)
    requires WireNumbers(d, WireTold(u, Cuts(c, n, drain)))
    ensures WireOk(d, WireTold(u, Cuts(c, n, drain)))
  {
    BytesAsExpected(u, c, false);
    DrainAsExpected(Take(Entered(u, c)), drain);
    CutDrainAllowed(d, View(Entered(u, c).dev), n, DrainTold(Take(Entered(u, c)), drain));
  }

  lemma CutDrainAllowed(d: Desk, at: Fifo, n: nat, told: Drain)
    requires ReadOk(d.inst.fifo, at) && WireNumbers(d, CutShort(at, n, told)) && DrainDevice(ReadSome(at), told)
    ensures WireOk(d, CutShort(at, n, told))
  {
    SendApart(d, at, n);
    DrainAllowed(DelWire(ClientClose(d.(inst := Send(d.inst, at, n)))), told);
  }

  lemma WireAllowed(d: Desk, u: U.System, x: WireScript)
    requires Coupled(d.inst, u) && ScriptOk(u, WireScript(x)) && WireNumbers(d, WireTold(u, x))
    ensures WireOk(d, WireTold(u, x))
  {
    match x {
      case WireBreaks =>
      case AtEnd(c, wait, r) => EndAllowed(d, u, c, wait, r);
      case Relays(c) => BytesAsExpected(u, c, false);
      case Cuts(c, n, drain) => CutAllowed(d, u, c, n, drain);
    }
  }

  lemma ClientAllowed(d: Desk, u: U.System, x: ClientScript)
    requires Coupled(d.inst, u) && ScriptOk(u, ClientScript(x)) && ClientNumbers(d, ClientTold(u, x))
    requires d.inst.wireFd < 0 ==> d.inst.clientFd < 0
    ensures ClientOk(d, ClientTold(u, x))
  {
    if x.Leaves? && d.inst.wireFd >= 0 {
      DrainAsExpected(u, x.drain);
    }
  }

  // Coupled to its UART, an instance is never told what the relay does not allow.
  lemma AnswersAllowed(d: Desk, u: U.System, x: Script)
    requires Coupled(d.inst, u) && FdsOk(d.inst) && NumbersOk(d, Told(u, x)) && (Calls(d.inst, x) ==> ScriptOk(u, x))
    ensures AnswerOk(d, Told(u, x))
  {
    match x {
      case ServerScript(a) =>
      case WireScript(a) =>
        if d.inst.state == Relaying {
          WireAllowed(d, u, a);
        }
      case ClientScript(a) =>
        if d.inst.state == Relaying {
          ClientAllowed(d, u, a);
        }
    }
  }

  // --- every step keeps the coupling ---

  lemma DrainLeavesFifo(i: nat, d: Desk, a: Drain)
    ensures var t := CloseAndDrain(i, d, a).inst;
      && t.fifo == DrainLeaves(d.inst.fifo, a) && t.log == d.inst.log
      && t.wireFd == (if a.Drains? && a.end.AtEof? then
                        (match a.end.reopened case NoWire => -1 case NewWire(fd) => fd) else d.inst.wireFd)
  {}

  lemma DrainCouples(i: nat, d: Desk, u: U.System, a: DrainScript)
    requires Ready(u) && View(u.dev) == d.inst.fifo && DrainScriptOk(u, a)
    ensures Coupled(CloseAndDrain(i, d, DrainTold(u, a)).inst, AfterDrain(u, a))
  {
    DrainAsExpected(u, a);
    DrainLeavesFifo(i, d, DrainTold(u, a));
  }

  lemma EofCouples(i: nat, d: Desk, u: U.System, c: Call, wait: Run, r: Reopened)
    requires Ready(u) && d.inst.state == Relaying && FindsEnd(u, c, false) && U.Runs(Entered(u, c), wait) && Environment(wait)
    ensures var x := AtEnd(c, wait, r);
      Coupled(OnWire(i, d, WireTold(u, x)).inst, AfterScript(u, WireScript(x)))
  {
    CloseAsExpected(u, c, false, wait, r);
  }

  lemma WireCouples(i: nat, d: Desk, u: U.System, x: WireScript)
    requires Coupled(d.inst, u) && d.inst.state == Relaying && ScriptOk(u, WireScript(x))
    requires WireNumbers(d, WireTold(u, x))
    ensures Coupled(OnWire(i, d, WireTold(u, x)).inst, AfterScript(u, WireScript(x)))
  {
    match x {
      case WireBreaks =>
      case AtEnd(c, wait, r) => EofCouples(i, d, u, c, wait, r);
      case Relays(c) => BytesAsExpected(u, c, false);
      case Cuts(c, n, drain) =>
        BytesAsExpected(u, c, false);
        DrainCouples(i, d.(inst := Send(d.inst, View(Entered(u, c).dev), n)), Take(Entered(u, c)), drain);
    }
  }

  lemma WriteCouples(t: Inst, u: U.System, count: nat, grants: seq<nat>)
    requires Coupled(t, u)
    ensures Coupled(t, WriteBytes(u, count, grants))
  {
    if u.dev.wireOpen {
      U.StepKeepsInv(u, U.Wire(U.WireWrites(count, grants)));
    }
  }

  lemma ClientCouples(i: nat, d: Desk, u: U.System, x: ClientScript)
    requires Coupled(d.inst, u) && d.inst.state == Relaying && ScriptOk(u, ClientScript(x))
    requires ClientNumbers(d, ClientTold(u, x))
    ensures Coupled(OnClient(i, d, ClientTold(u, x)).inst, AfterScript(u, ClientScript(x)))
  {
    match x {
      case Forwards(count, grants) => WriteCouples(d.inst, u, count, grants);
      case Leaves(drain) =>
        if d.inst.wireFd >= 0 {
          DrainCouples(i, d, u, drain);
        } else {
          DrainLeavesFifo(i, d, FcntlFails);
        }
    }
  }

  lemma HandlingCouples(i: nat, d: Desk, u: U.System, x: Script)
    requires Coupled(d.inst, u) && NumbersOk(d, Told(u, x)) && Calls(d.inst, x) && ScriptOk(u, x)
    ensures Coupled(Dispatch(i, d, Told(u, x)).inst, AfterScript(u, x))
  {
    match x {
      case ServerScript(a) =>
      case WireScript(a) => WireCouples(i, d, u, a);
      case ClientScript(a) => ClientCouples(i, d, u, a);
    }
  }

  lemma IdleHandling(i: nat, d: Desk, u: U.System, x: Script)
    requires !Calls(d.inst, x)
    ensures Dispatch(i, d, Told(u, x)).inst == d.inst
  {}

  lemma DevicesCouple(t: Inst, u: U.System, run: Run)
    requires Coupled(t, u) && t.fifo.gone <= t.fifo.arrived && U.Runs(u, run) && Environment(run)
    ensures Later(t.fifo, Moved(t, u, run)) && Coupled(t.(fifo := Moved(t, u, run)), Reach(u, run))
  {
    RunIsMove(u, run);
    U.RunKeepsInv(u, run);
    WaitKeepsReaders(u, run);
  }

  ghost predicate JointInv(j: Joint) {
    && AllCoupled(j) && AllHistories(j.world)
    && (j.world.epoll.aborted || Inv(j.world))
  }

  // Every step of the joint system is a step of the relay protocol.
  lemma StepIsRelay(j: Joint, a: JointAction)
    requires JointInv(j) && JointEnabled(j, a)
    ensures Enabled(j.world, AsRelay(j, a)) && JointNext(j, a).world == Next(j.world, AsRelay(j, a))
  {
    match a {
      case Poll(fds) =>
      case Devices(i, run) =>
        assert Coupled(j.world.insts[i], j.uarts[i]) && HistoryOk(j.world.insts[i]);
        DevicesCouple(j.world.insts[i], j.uarts[i], run);
      case Handling(x) =>
        var i := j.world.batch[0].ctx.inst;
        assert Coupled(j.world.insts[i], j.uarts[i]) && InstOk(j.world, i);
        AnswersAllowed(DeskOf(j.world, i), j.uarts[i], x);
    }
  }

  lemma MoverCouples(j: Joint, a: JointAction, i: nat)
    requires JointInv(j) && JointEnabled(j, a) && i < |j.uarts|
    requires (a.Devices? && a.i == i) || (a.Handling? && j.world.batch[0].ctx.inst == i)
    ensures i < |JointNext(j, a).world.insts| && i < |JointNext(j, a).uarts|
    ensures Coupled(JointNext(j, a).world.insts[i], JointNext(j, a).uarts[i])
  {
    StepIsRelay(j, a);
    assert Coupled(j.world.insts[i], j.uarts[i]) && HistoryOk(j.world.insts[i]);
    if a.Devices? {
      DevicesCouple(j.world.insts[i], j.uarts[i], a.run);
    } else if Calls(j.world.insts[i], a.script) {
      HandlingCouples(i, DeskOf(j.world, i), j.uarts[i], a.script);
    } else {
      IdleHandling(i, DeskOf(j.world, i), j.uarts[i], a.script);
    }
  }

  predicate Moves(j: Joint, a: JointAction, k: nat) {
    (a.Devices? && a.i == k) || (a.Handling? && j.world.batch != [] && j.world.batch[0].ctx.inst == k)
  }

  lemma OthersStay(j: Joint, a: JointAction, k: nat)
    requires JointInv(j) && JointEnabled(j, a) && k < |j.uarts| && !Moves(j, a, k)
    ensures var j' := JointNext(j, a);
      SameSize(j') && |j'.uarts| == |j.uarts| && j'.world.insts[k] == j.world.insts[k] && j'.uarts[k] == j.uarts[k]
  {
    StepIsRelay(j, a);
  }

  lemma StepKeepsSize(j: Joint, a: JointAction)
    requires JointInv(j) && JointEnabled(j, a)
    ensures SameSize(JointNext(j, a)) && |JointNext(j, a).uarts| == |j.uarts|
  {
    StepIsRelay(j, a);
  }

  lemma JointStepKeeps(j: Joint, a: JointAction)
    requires JointInv(j) && JointEnabled(j, a)
    ensures JointInv(JointNext(j, a))
  {
    StepIsRelay(j, a);
    StepKeepsSize(j, a);
    StepKeepsInv(j.world, AsRelay(j, a));
    StepKeepsHistories(j.world, AsRelay(j, a));
    var j' := JointNext(j, a);
    forall k: nat | k < |j'.uarts| ensures Coupled(j'.world.insts[k], j'.uarts[k]) {
      assert Coupled(j.world.insts[k], j.uarts[k]);
      if Moves(j, a, k) {
        MoverCouples(j, a, k);
      } else {
        OthersStay(j, a, k);
      }
    }
  }

  // --- runs ---

  function RelayRun(j: Joint, run: seq<JointAction>): seq<Action>
    requires JointRuns(j, run)
  {
    if run == [] then []
    else
      RelayRun(j, run[..|run| - 1]) + [AsRelay(JointAfter(j, run[..|run| - 1]), run[|run| - 1])]
  }

  // Every run of the joint system is a run of the relay protocol, and the coupling
  // holds at its end.
  lemma {:induction false} RunIsRelay(j: Joint, run: seq<JointAction>)
    requires JointInv(j) && JointRuns(j, run)
    ensures JointInv(JointAfter(j, run)) && |JointAfter(j, run).uarts| == |j.uarts|
    ensures Runs(j.world, RelayRun(j, run)) && After(j.world, RelayRun(j, run)) == JointAfter(j, run).world
  {
    if run != [] {
      var front, a := run[..|run| - 1], run[|run| - 1];
      RunIsRelay(j, front);
      var v := JointAfter(j, front);
      StepIsRelay(v, a);
      StepKeepsSize(v, a);
      JointStepKeeps(v, a);
      Extend(j.world, RelayRun(j, front), AsRelay(v, a));
    }
  }
}

// A bus RESET that signals while a read call of the daemon is under way.
module RelayResets {
  import opened Relay
  import opened RelayShapes
  import opened RelayProtocol
  import opened RelayTheorems
  import opened RelayCalls
  import opened RelayScripts
  import opened RelayJoint
  import opened RelayWire
  import U = UartProtocol
  import T = UartTheorems
  import Readers = UartReaders

  // The read call with which the wire handler begins, if it comes to an answer.
  predicate BeginsWith(x: WireScript, c: Call) {
    match x
    case WireBreaks => false
    case AtEnd(c', _, _) => Continues(c, c')
    case Relays(c') => Continues(c, c')
    case Cuts(c', _, _) => Continues(c, c')
  }

  // The next event is for the wire of instance i, which is linked, and its handler
  // has come as far as c.
  ghost predicate Reading(j: Joint, i: nat, c: Call) {
    && JointInv(j) && !j.world.epoll.aborted && i < |j.uarts|
    && j.world.batch != [] && j.world.batch[0].ctx == Ctx(i, RoleWire)
    && ShapeOf(j.world.insts[i]).Linked?
    && CallOk(j.uarts[i], c, false)
  }

  // From there the handler ends with x, and then the joint system runs on; entry n
  // of what is sent since is older than what has been delivered by e.
  predicate SendsOld(j: Joint, i: nat, x: WireScript, after: seq<JointAction>, n: nat, e: U.System)
    requires i < |j.world.insts|
  {
    && JointEnabled(j, Handling(WireScript(x))) && JointRuns(JointNext(j, Handling(WireScript(x))), after)
    && var v := JointAfter(JointNext(j, Handling(WireScript(x))), after);
      && i < |v.world.insts| && |j.world.insts[i].log.sent| <= n < |v.world.insts[i].log.sent|
      && v.world.insts[i].log.sent[n].from < |e.dev.led.delivered|
  }

  ghost predicate CanSendOld(j: Joint, i: nat, c: Call)
    requires Reading(j, i, c)
  {
    exists x, after, n: nat :: BeginsWith(x, c) && SendsOld(j, i, x, after, n, Entered(j.uarts[i], c))
  }

  // --- the call is past its flag check: it relays what was there ---

  lemma CallGoesOn(u: U.System, c: Call, more: Run)
    requires CallOk(u, c, false) && U.Runs(Entered(u, c), more) && Environment(more)
    ensures var c' := Call(c.wait, c.run + more);
      Continues(c, c') && CallOk(u, c', false) && Entered(u, c') == U.After(Entered(u, c), more)
  {
    U.Join(Reach(u, c.wait), c.run, more);
    OwnGoesOn(c.run, more);
  }

  lemma OwnGoesOn(run: Run, more: Run)
    requires OwnSteps(run, false) && Environment(more)
    ensures OwnSteps(run + more, false)
  {
    forall k | 1 <= k < |run + more| ensures OwnStep((run + more)[k]) {
      if |run| <= k {
        assert (run + more)[k] == more[k - |run|] && more[k - |run|] in more;
      }
    }
  }

  lemma EntersSound(u: U.System, c: Call)
    requires Ready(u) && CallOk(u, c, false)
    ensures U.Inv(Entered(u, c))
  {
    WaitIsMove(u, c.wait);
    U.RunKeepsInv(Reach(u, c.wait), c.run);
  }

  // If the port is still being opened, that ends first.
  lemma Activated(u: U.System, c: Call) returns (c': Call)
    requires Ready(u) && CallOk(u, c, false)
    requires T.PastFlag(Entered(u, c), READER) && Entered(u, c).dev.rx != []
    ensures Continues(c, c') && FindsBytes(u, c', false)
    ensures View(Entered(u, c').dev) == View(Entered(u, c).dev)
  {
    EntersSound(u, c);
    var more := Readers.Activates(Entered(u, c));
    c' := GoneOn(u, c, more);
  }

  lemma GoneOn(u: U.System, c: Call, more: Run) returns (c': Call)
    requires CallOk(u, c, false) && U.Runs(Entered(u, c), more) && Environment(more)
    requires var e := U.After(Entered(u, c), more); T.PastFlag(e, READER) && e.dev.portActive && e.dev.rx != []
    ensures Continues(c, c') && FindsBytes(u, c', false) && Entered(u, c') == U.After(Entered(u, c), more)
  {
    CallGoesOn(u, c, more);
    c' := Call(c.wait, c.run + more);
  }

  lemma RelaysNow(j: Joint, i: nat, c: Call)
    requires Reading(j, i, c) && FindsBytes(j.uarts[i], c, false)
    ensures JointEnabled(j, Handling(WireScript(Relays(c))))
    ensures var t' := JointNext(j, Handling(WireScript(Relays(c)))).world.insts; var f := View(Entered(j.uarts[i], c).dev);
      i < |t'| && t'[i].log.sent == Send(j.world.insts[i], f, Amount(f)).log.sent
  {
    assert InstOk(j.world, i);
    StepIsRelay(j, Handling(WireScript(Relays(c))));
  }

  lemma OldIsSent(j: Joint, i: nat, c: Call)
    requires Reading(j, i, c) && T.PastFlag(Entered(j.uarts[i], c), READER)
    requires Entered(j.uarts[i], c).dev.rx != []
    ensures CanSendOld(j, i, c)
  {
    assert Coupled(j.world.insts[i], j.uarts[i]);
    var c' := Activated(j.uarts[i], c);
    RelayedIsOld(j, i, c, c');
  }

  lemma RelayedIsOld(j: Joint, i: nat, c: Call, c': Call)
    requires Reading(j, i, c) && Continues(c, c') && FindsBytes(j.uarts[i], c', false)
    requires View(Entered(j.uarts[i], c').dev) == View(Entered(j.uarts[i], c).dev)
    ensures CanSendOld(j, i, c)
  {
    var e := Entered(j.uarts[i], c);
    assert Coupled(j.world.insts[i], j.uarts[i]);
    BytesAsExpected(j.uarts[i], c', false);
    SentIsOld(j, i, c', e);
    assert BeginsWith(Relays(c'), c) && SendsOld(j, i, Relays(c'), [], |j.world.insts[i].log.sent|, e);
  }

  lemma SentIsOld(j: Joint, i: nat, c: Call, e: U.System)
    requires Reading(j, i, c) && FindsBytes(j.uarts[i], c, false) && View(Entered(j.uarts[i], c).dev).gone < |e.dev.led.delivered|
    ensures SendsOld(j, i, Relays(c), [], |j.world.insts[i].log.sent|, e)
  {
    RelaysNow(j, i, c);
  }

  // --- otherwise it does not ---

  lemma MoreDelivered(u: U.System, c: Call, c': Call)
    requires Ready(u) && CallOk(u, c, false) && CallOk(u, c', false) && Continues(c, c')
    ensures U.Inv(Entered(u, c)) && T.FatesStay(Entered(u, c).dev.led, Entered(u, c').dev.led)
  {
    var u1, n := Reach(u, c.wait), |c.run|;
    WaitIsMove(u, c.wait);
    U.RunKeepsInv(u1, c.run);
    U.Split(u1, c'.run, n);
    assert c'.run[..n] == c.run;
    T.RunFatesStay(Entered(u, c), c'.run[n..]);
  }

  // Nothing that had arrived by the state in which t was is left, or is sent by a.
  predicate Spares(t: Inst, a: WireCall) {
    match a
    case WireFails => false
    case WireEof(closed, _) => t.fifo.arrived <= closed.arrived
    case Forwarded(at) => t.fifo.arrived <= at.gone
    case CutShort(at, _, _) => t.fifo.arrived <= at.gone
  }

  lemma SparingShelters(i: nat, t: Inst, d: Desk, a: WireCall)
    requires d.inst.state == Relaying && FdsOk(d.inst) && WireOk(d, a) && Spares(t, a)
    requires t.log == d.inst.log && t.fifo.gone <= t.fifo.arrived
    ensures Sheltered(t, Dispatch(i, d, WireAnswer(a)).inst)
  {
    if a.CutShort? {
      DrainShelters(i, t, d.(inst := Send(d.inst, a.at, a.sent)), a.drain);
    }
  }

  // Such is the answer of a handler that has come as far as c.
  lemma TellsSparing(u: U.System, c: Call, x: WireScript)
    requires Ready(u) && CallOk(u, c, false) && BeginsWith(x, c) && ScriptOk(u, WireScript(x))
    requires var e := Entered(u, c); e.dev.resetPending && (e.dev.rx == [] || !T.PastFlag(e, READER))
    ensures var f := View(Entered(u, c).dev); f.gone <= f.arrived
    ensures forall t: Inst | t.fifo == View(Entered(u, c).dev) :: Spares(t, WireTold(u, x))
  {
    var e := Entered(u, c);
    var c' := x.call;
    MoreDelivered(u, c, c');
    if x.AtEnd? {
      EndAsExpected(u, c', false);
      WaitIsMove(Entered(u, c'), x.wait);
    } else {
      SignalInsideCall(u, c, c', false);
    }
  }

  lemma HandlerGoesOn(j: Joint, i: nat, c: Call, x: WireScript)
    requires Reading(j, i, c) && JointEnabled(j, Handling(WireScript(x)))
    ensures var j' := JointNext(j, Handling(WireScript(x)));
      && JointInv(j') && !j'.world.epoll.aborted && |j'.uarts| == |j.uarts| && i < |j'.world.insts|
      && j'.world.insts[i] == Dispatch(i, DeskOf(j.world, i), WireAnswer(WireTold(j.uarts[i], x))).inst
  {
    var a := Handling(WireScript(x));
    StepIsRelay(j, a);
    JointStepKeeps(j, a);
    StepKeepsSize(j, a);
    HandleKeeps(j.world, WireAnswer(WireTold(j.uarts[i], x)));
  }

  lemma HandlerShelters(j: Joint, i: nat, c: Call, x: WireScript, t: Inst)
    requires Reading(j, i, c) && BeginsWith(x, c) && JointEnabled(j, Handling(WireScript(x)))
    requires var e := Entered(j.uarts[i], c); e.dev.resetPending && (e.dev.rx == [] || !T.PastFlag(e, READER))
    requires t == j.world.insts[i].(fifo := View(Entered(j.uarts[i], c).dev))
    ensures Sheltered(t, Dispatch(i, DeskOf(j.world, i), WireAnswer(WireTold(j.uarts[i], x))).inst)
  {
    assert Coupled(j.world.insts[i], j.uarts[i]) && InstOk(j.world, i);
    TellsSparing(j.uarts[i], c, x);
    AnswersAllowed(DeskOf(j.world, i), j.uarts[i], WireScript(x));
    SparingShelters(i, t, DeskOf(j.world, i), WireTold(j.uarts[i], x));
  }

  lemma StaysSheltered(t: Inst, j: Joint, after: seq<JointAction>, i: nat)
    requires JointInv(j) && !j.world.epoll.aborted && JointRuns(j, after)
    requires i < |j.world.insts| && Sheltered(t, j.world.insts[i])
    ensures i < |JointAfter(j, after).world.insts| && Sheltered(t, JointAfter(j, after).world.insts[i])
  {
    RunIsRelay(j, after);
    RunShelters(t, j.world, RelayRun(j, after), i);
  }

  lemma NeverSendsOld(j: Joint, i: nat, c: Call, x: WireScript, after: seq<JointAction>, n: nat)
    requires Reading(j, i, c) && BeginsWith(x, c)
    requires var e := Entered(j.uarts[i], c); e.dev.resetPending && (e.dev.rx == [] || !T.PastFlag(e, READER))
    ensures !SendsOld(j, i, x, after, n, Entered(j.uarts[i], c))
  {
    var a := Handling(WireScript(x));
    if JointEnabled(j, a) && JointRuns(JointNext(j, a), after) {
      var t := j.world.insts[i].(fifo := View(Entered(j.uarts[i], c).dev));
      HandlerGoesOn(j, i, c, x);
      HandlerShelters(j, i, c, x, t);
      StaysSheltered(t, JointNext(j, a), after, i);
    }
  }

  // A RESET under a read call of the daemon: once the flag is set, a byte that was
  // in rx_fifo by then can still be sent to a simulator if and only if there is one
  // and the call is between its last look at the flag and its lock section.
  lemma OldIsSentIffPastFlag(j: Joint, i: nat, c: Call)
    requires Reading(j, i, c) && Entered(j.uarts[i], c).dev.resetPending
    ensures CanSendOld(j, i, c) <==> T.PastFlag(Entered(j.uarts[i], c), READER) && Entered(j.uarts[i], c).dev.rx != []
  {
    var e := Entered(j.uarts[i], c);
    if T.PastFlag(e, READER) && e.dev.rx != [] {
      OldIsSent(j, i, c);
    } else {
      forall x, after, n: nat | BeginsWith(x, c) ensures !SendsOld(j, i, x, after, n, e) {
        NeverSendsOld(j, i, c, x, after, n);
      }
    }
  }

  // So it happens: from every state in which a linked instance is about to read from
  // a device that has something, a whole RESET fits into the call, and what was in
  // rx_fifo before is sent by that very step.
  lemma ResetOvertakesRelay(j: Joint, i: nat)
    requires JointInv(j) && !j.world.epoll.aborted && i < |j.uarts|
    requires j.world.batch != [] && j.world.batch[0].ctx == Ctx(i, RoleWire) && ShapeOf(j.world.insts[i]).Linked?
    requires var u := j.uarts[i];
      u.dev.portActive && u.dev.rx != [] && !u.dev.resetPending && u.work.Idle? && u.notifier.NoEvent?
    ensures JointEnabled(j, Handling(WireScript(Relays(RESET_CALL))))
    ensures Entered(j.uarts[i], RESET_CALL).dev.resetPending
    ensures SendsOld(j, i, Relays(RESET_CALL), [], |j.world.insts[i].log.sent|, j.uarts[i])
    ensures var j' := JointNext(j, Handling(WireScript(Relays(RESET_CALL))));
      && i < |j'.uarts| && j'.uarts[i].dev.resetPending && j'.uarts[i].notifier.NoEvent?
  {
    assert Coupled(j.world.insts[i], j.uarts[i]) && InstOk(j.world, i);
    ResetOvertakesCall(j.uarts[i]);
    RelaysNow(j, i, RESET_CALL);
    SentIsOld(j, i, RESET_CALL, j.uarts[i]);
    TakenAtEnd(j.uarts[i]);
  }

  lemma TakenAtEnd(u: U.System)
    requires FindsBytes(u, RESET_CALL, false)
    requires Entered(u, RESET_CALL).dev.resetPending && Entered(u, RESET_CALL).notifier.NoEvent?
    ensures Take(Entered(u, RESET_CALL)).dev.resetPending && Take(Entered(u, RESET_CALL)).notifier.NoEvent?
  {}
}

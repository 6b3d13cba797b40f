// The last close of the TTY port step by step, with the transmit engine still
// running beside it: what outlives the close, and what that does to the fifos and
// to the drop counter.
module UartClose {
  import opened UartDevice
  import opened UartProtocol
  import opened UartReset
  import W = UartWhole

  // Something of the transmit engine is left.
  predicate Alive(s: System) {
    s.dev.timer.Armed? || s.dev.workPending || !s.work.Idle?
  }

  predicate Reopens(a: Action) {
    a.TtyPort? && a.step.ActivateTx?
  }

  // The port is not opened again.
  predicate StaysClosed(run: seq<Action>) {
    forall a | a in run :: !Reopens(a)
  }

  // --- what cancelling the timer first lets through ---

  // The work item will start the timer if nothing flushes tx_fifo before.
  predicate WillRearm(s: System) {
    match s.work
    case Idle => s.dev.workPending && |s.dev.tx| > BURST
    case AtDequeue => |s.dev.tx| > BURST
    case AtRearm(_) => true
    case _ => s.dev.tx != []
  }

  ghost predicate Outlives(s: System, run: seq<Action>) {
    Runs(s, run) && StaysClosed(run) && After(s, run).port.Closed? && Alive(After(s, run))
  }

  ghost predicate CanOutlive(s: System) {
    exists run :: Outlives(s, run)
  }

  // The work item is cancelled and nothing of the engine is left.
  predicate Rests(s: System) {
    && !Alive(s) && s.writers == map[]
    && (s.port.CloseCount? || s.port.CloseTx? || s.port.CloseRx? || s.port.Closed?)
  }

  // The engine comes to rest before the work item is cancelled, and stays so.
  predicate ComesToRest(s: System) {
    Rests(s) || (s.port.CloseWork? && s.dev.timer.Off? && s.writers == map[] && !WillRearm(s))
  }

  // Nothing of the engine, the port or the writers has moved, and tx_fifo has not grown.
  predicate StaysBehind(s: System, s': System) {
    && s'.work == s.work && s'.port == s.port && s'.writers == s.writers
    && |s'.dev.tx| <= |s.dev.tx|
    && (s.dev.timer.Off? ==> s'.dev.timer.Off?)
    && (s'.dev.workPending ==> s.dev.workPending)
  }

  lemma BehindRests(s: System, s': System)
    requires StaysBehind(s, s')
    ensures Rests(s) ==> Rests(s')
    ensures ComesToRest(s) ==> ComesToRest(s')
  {}

  lemma NotifiedBehind(s: System, x: BusStep)
    requires BusEnabled(s, x)
    ensures StaysBehind(s, BusNext(s, x))
  {}

  lemma WireBehind(s: System, x: WireStep)
    requires WireEnabled(s, x)
    ensures StaysBehind(s, WireNext(s, x))
  {}

  lemma AttrBehind(s: System, x: AttrStep)
    ensures StaysBehind(s, AttrNext(s, x))
  {}

  lemma OthersStayBehind(s: System, a: Action)
    requires Enabled(s, a) && (a.Bus? || a.Wire? || a.Attr?)
    ensures StaysBehind(s, Next(s, a))
  {
    match a {
      case Bus(x) => NotifiedBehind(s, x);
      case Wire(x) => WireBehind(s, x);
      case Attr(x) => AttrBehind(s, x);
    }
  }

  lemma EngineRests(s: System, x: EngineStep)
    requires ComesToRest(s) && EngineEnabled(s, x)
    ensures ComesToRest(EngineNext(s, x)) && !Rests(s)
  {}

  lemma PortRests(s: System, x: PortStep)
    requires PortEnabled(s, x) && !x.ActivateTx?
    ensures ComesToRest(s) ==> ComesToRest(PortNext(s, x))
    ensures Rests(s) ==> Rests(PortNext(s, x))
  {}

  lemma StepRests(s: System, a: Action)
    requires ComesToRest(s) && Enabled(s, a) && !Reopens(a)
    ensures ComesToRest(Next(s, a)) && (Rests(s) ==> Rests(Next(s, a)))
  {
    if a.Bus? || a.Wire? || a.Attr? {
      OthersStayBehind(s, a);
      BehindRests(s, Next(s, a));
    } else if a.Engine? {
      EngineRests(s, a.engine);
    } else if a.TtyPort? {
      PortRests(s, a.step);
    }
  }

  lemma {:induction false} RunRests(s: System, run: seq<Action>)
    requires ComesToRest(s) && Runs(s, run) && StaysClosed(run)
    ensures ComesToRest(After(s, run)) && (Rests(s) ==> Rests(After(s, run)))
  {
    if run != [] {
      assert run[|run| - 1] in run;
      RunRests(s, run[..|run| - 1]);
      StepRests(After(s, run[..|run| - 1]), run[|run| - 1]);
    }
  }

  // --- and the run that gets through ---

  // A run from s that leaves the port closed for good has come to v.
  ghost predicate Reached(s: System, run: seq<Action>, v: System) {
    Runs(s, run) && StaysClosed(run) && After(s, run) == v && Inv(v)
  }

  lemma On(s: System, run: seq<Action>, v: System, a: Action) returns (run': seq<Action>)
    requires Reached(s, run, v) && Enabled(v, a) && !Reopens(a)
    ensures Reached(s, run', Next(v, a))
  {
    run' := Further(s, run, v, a);
  }

  lemma NothingDone(s: System)
    requires Inv(s)
    ensures Reached(s, [], s)
  {
    NothingYet(s);
  }

  // The engine has started the timer, and the work item is still to be cancelled.
  predicate Rearmed(v: System) {
    v.port.CloseWork? && v.work.Idle? && v.dev.timer.Armed?
  }

  lemma FromRearm(s: System, run: seq<Action>, v: System) returns (run': seq<Action>, v': System)
    requires Reached(s, run, v) && v.port.CloseWork? && v.work.AtRearm?
    ensures Reached(s, run', v') && Rearmed(v') && v'.dev.tx == v.dev.tx
  {
    run' := On(s, run, v, Engine(WorkRearms(0, 0)));
    v' := Next(v, Engine(WorkRearms(0, 0)));
  }

  lemma FromCheck(s: System, run: seq<Action>, v: System) returns (run': seq<Action>, v': System)
    requires Reached(s, run, v) && v.port.CloseWork? && v.work.AtRearmCheck? && v.dev.tx != []
    ensures Reached(s, run', v') && Rearmed(v')
  {
    run' := On(s, run, v, Engine(WorkChecks));
    run', v' := FromRearm(s, run', Next(v, Engine(WorkChecks)));
  }

  lemma FromEnqueue(s: System, run: seq<Action>, v: System) returns (run': seq<Action>, v': System)
    requires Reached(s, run, v) && v.port.CloseWork? && v.work.AtEnqueue? && v.dev.tx != []
    ensures Reached(s, run', v') && Rearmed(v')
  {
    assert BurstOk(v.dev, v.work.k);
    run' := On(s, run, v, Engine(WorkEnqueues));
    run', v' := FromCheck(s, run', Next(v, Engine(WorkEnqueues)));
  }

  lemma FromGates(s: System, run: seq<Action>, v: System) returns (run': seq<Action>, v': System)
    requires Reached(s, run, v) && v.port.CloseWork? && v.work.AtGates? && v.dev.tx != []
    ensures Reached(s, run', v') && Rearmed(v')
  {
    assert BurstOk(v.dev, v.work.k);
    var w := Draws(0, 0, 0);
    W.VerdictFits(v.dev.attrs, v.work.bytes, w);
    run' := On(s, run, v, Engine(WorkDecides(w)));
    var v1 := Next(v, Engine(WorkDecides(w)));
    if v1.work.AtEnqueue? {
      run', v' := FromEnqueue(s, run', v1);
    } else {
      run', v' := FromCheck(s, run', v1);
    }
  }

  lemma FromDequeue(s: System, run: seq<Action>, v: System) returns (run': seq<Action>, v': System)
    requires Reached(s, run, v) && v.port.CloseWork? && v.work.AtDequeue? && |v.dev.tx| > BURST
    ensures Reached(s, run', v') && Rearmed(v')
  {
    run' := On(s, run, v, Engine(WorkDequeues));
    run', v' := FromGates(s, run', Next(v, Engine(WorkDequeues)));
  }

  lemma FromIdle(s: System, run: seq<Action>, v: System) returns (run': seq<Action>, v': System)
    requires Reached(s, run, v) && v.port.CloseWork? && v.work.Idle? && v.dev.workPending && |v.dev.tx| > BURST
    ensures Reached(s, run', v') && Rearmed(v')
  {
    run' := On(s, run, v, Engine(WorkStarts));
    run', v' := FromDequeue(s, run', Next(v, Engine(WorkStarts)));
  }

  lemma Rearms(s: System) returns (run: seq<Action>, v: System)
    requires Inv(s) && s.port.CloseWork? && WillRearm(s)
    ensures Reached(s, run, v) && Rearmed(v)
  {
    NothingDone(s);
    if s.work.Idle? {
      run, v := FromIdle(s, [], s);
    } else if s.work.AtDequeue? {
      run, v := FromDequeue(s, [], s);
    } else if s.work.AtGates? {
      run, v := FromGates(s, [], s);
    } else if s.work.AtEnqueue? {
      run, v := FromEnqueue(s, [], s);
    } else if s.work.AtRearmCheck? {
      run, v := FromCheck(s, [], s);
    } else {
      run, v := FromRearm(s, [], s);
    }
  }

  // The rest of the close goes on past an armed timer.
  lemma ClosesPast(s: System, run: seq<Action>, v: System) returns (run': seq<Action>, v': System)
    requires Reached(s, run, v) && v.port.CloseCount?
    ensures Reached(s, run', v') && v'.port.Closed? && v'.dev.timer == v.dev.timer && v'.work == v.work
    ensures v'.dev.rxCap == 0
  {
    run' := On(s, run, v, TtyPort(CountsTx));
    var v1 := Next(v, TtyPort(CountsTx));
    run' := On(s, run', v1, TtyPort(FreesTx));
    var v2 := Next(v1, TtyPort(FreesTx));
    run' := On(s, run', v2, TtyPort(FreesRx));
    v' := Next(v2, TtyPort(FreesRx));
  }

  lemma WorkIsCancelled(s: System, run: seq<Action>, v: System) returns (run': seq<Action>, v': System)
    requires Reached(s, run, v) && v.port.CloseWork? && v.work.Idle?
    ensures Reached(s, run', v') && v' == v.(dev := v.dev.(workPending := false), port := CloseCount)
  {
    run' := On(s, run, v, TtyPort(StopsWork));
    v' := Next(v, TtyPort(StopsWork));
  }

  lemma RearmerOutlives(s: System)
    requires Inv(s) && s.port.CloseWork? && WillRearm(s)
    ensures CanOutlive(s)
  {
    var run, v := Rearms(s);
    run, v := WorkIsCancelled(s, run, v);
    run, v := ClosesPast(s, run, v);
    assert Outlives(s, run);
  }

  // s is a state in which the last close has just cancelled the timer: a timer can be
  // armed, or work pending or running, when the close is over if and only if the work
  // item will start the timer again, being past its last look at tx_fifo or having
  // more to send than the burst it takes.
  lemma OutlivesIffRearms(s: System)
    requires Inv(s) && s.port.CloseWork? && s.dev.timer.Off?
    ensures CanOutlive(s) <==> WillRearm(s)
  {
    if WillRearm(s) {
      RearmerOutlives(s);
    } else {
      forall run | Runs(s, run) && StaysClosed(run) ensures !Outlives(s, run) {
        RunRests(s, run);
      }
    }
  }

  lemma CancelledRests(s: System)
    requires Inv(s) && s.port.CloseCount? && !Alive(s)
    ensures Rests(s)
  {}

  // Once the work item is cancelled with no timer armed, nothing of the engine comes
  // back until the port is opened again.
  lemma RestIsFinal(s: System, run: seq<Action>)
    requires Inv(s) && s.port.CloseCount? && !Alive(s)
    requires Runs(s, run) && StaysClosed(run)
    ensures Rests(After(s, run))
  {
    CancelledRests(s);
    RunRests(s, run);
  }

  // --- a burst for a fifo that is gone ---

  // The work item is about to deliver into rx_fifo, which is not allocated.
  predicate DeliversNowhere(s: System) {
    s.work.AtEnqueue? && s.dev.rxCap == 0
  }

  ghost predicate CanDeliverNowhere(s: System) {
    exists run :: Runs(s, run) && StaysClosed(run) && DeliversNowhere(After(s, run))
  }

  // There is nothing to take, and no writer brings anything.
  predicate NothingToTake(s: System) {
    && s.dev.tx == [] && (s.work.Idle? || s.work.AtDequeue?) && s.writers == map[]
    && (ClosesTx(s.port) || s.port.CloseRx? || s.port.Closed?)
  }

  lemma EngineTakesNothing(s: System, x: EngineStep)
    requires NothingToTake(s) && EngineEnabled(s, x)
    ensures NothingToTake(EngineNext(s, x))
  {}

  lemma PortTakesNothing(s: System, x: PortStep)
    requires NothingToTake(s) && PortEnabled(s, x) && !x.ActivateTx?
    ensures NothingToTake(PortNext(s, x))
  {}

  lemma StepTakesNothing(s: System, a: Action)
    requires NothingToTake(s) && Enabled(s, a) && !Reopens(a)
    ensures NothingToTake(Next(s, a))
  {
    if a.Bus? || a.Wire? || a.Attr? {
      OthersStayBehind(s, a);
    } else if a.Engine? {
      EngineTakesNothing(s, a.engine);
    } else if a.TtyPort? {
      PortTakesNothing(s, a.step);
    }
  }

  lemma {:induction false} RunTakesNothing(s: System, run: seq<Action>)
    requires NothingToTake(s) && Runs(s, run) && StaysClosed(run)
    ensures NothingToTake(After(s, run))
  {
    if run != [] {
      assert run[|run| - 1] in run;
      RunTakesNothing(s, run[..|run| - 1]);
      StepTakesNothing(After(s, run[..|run| - 1]), run[|run| - 1]);
    }
  }

  // The timer fires, and the work item takes a burst.
  lemma TakesOne(s: System, run: seq<Action>, v: System) returns (run': seq<Action>, v': System)
    requires Reached(s, run, v) && v.port.CloseCount? && v.work.Idle? && v.dev.timer.Armed? && v.dev.tx != []
    ensures Reached(s, run', v') && v'.port.CloseCount? && v'.work.AtGates?
  {
    run' := On(s, run, v, Engine(TimerFires));
    var v1 := Next(v, Engine(TimerFires));
    run' := On(s, run', v1, Engine(WorkStarts));
    var v2 := Next(v1, Engine(WorkStarts));
    run' := On(s, run', v2, Engine(WorkDequeues));
    v' := Next(v2, Engine(WorkDequeues));
  }

  // Without fault rates the gates let it pass.
  lemma PassesOne(s: System, run: seq<Action>, v: System) returns (run': seq<Action>, v': System)
    requires Reached(s, run, v) && v.port.CloseCount? && v.work.AtGates?
    ensures Reached(s, run', v') && v'.port.CloseCount? && v'.work.AtEnqueue?
  {
    run' := On(s, run, v, Attr(Configure(NO_FAULTS)));
    var v1 := Next(v, Attr(Configure(NO_FAULTS)));
    assert BurstOk(v1.dev, v1.work.k);
    run' := On(s, run', v1, Engine(WorkDecides(Draws(0, 0, 0))));
    v' := Next(v1, Engine(WorkDecides(Draws(0, 0, 0))));
  }

  lemma BurstGoesNowhere(s: System, run: seq<Action>, v: System) returns (run': seq<Action>, v': System)
    requires Reached(s, run, v) && v.port.CloseCount? && v.work.Idle? && v.dev.timer.Armed? && v.dev.tx != []
    ensures Reached(s, run', v') && v'.port.Closed? && DeliversNowhere(v')
  {
    run', v' := TakesOne(s, run, v);
    run', v' := PassesOne(s, run', v');
    run', v' := ClosesPast(s, run', v');
  }

  // s is a state in which the last close has just cancelled the work item: the item
  // can come to deliver a burst when rx_fifo is gone if and only if a timer was left
  // armed and something is still queued.
  lemma DeliversNowhereIffArmed(s: System)
    requires Inv(s) && s.port.CloseCount? && s.work.Idle? && !s.dev.workPending
    ensures CanDeliverNowhere(s) <==> s.dev.timer.Armed? && s.dev.tx != []
  {
    if s.dev.timer.Armed? && s.dev.tx != [] {
      NothingDone(s);
      var run, v := BurstGoesNowhere(s, [], s);
    } else {
      forall run | Runs(s, run) && StaysClosed(run) ensures !DeliversNowhere(After(s, run)) {
        if s.dev.tx == [] {
          RunTakesNothing(s, run);
        } else {
          RestIsFinal(s, run);
        }
      }
    }
  }

  // --- what the close counts as dropped ---

  // From the count until tx_fifo is freed.
  predicate AllCounted(s: System, run: seq<Action>)
    requires Runs(s, run)
  {
    After(s, run).port.CloseTx? && (run == [] || AllCounted(s, run[..|run| - 1]))
  }

  // Bytes may have left tx_fifo; none has come, and no close has counted any.
  predicate OnlyTakes(l: Ledger, l': Ledger) {
    l'.accepted == l.accepted && l'.closeDrops == l.closeDrops && l.taken <= l'.taken
  }

  lemma DecidedTakes(s: System, w: Draws)
    requires EngineEnabled(s, WorkDecides(w))
    ensures OnlyTakes(s.dev.led, Decided(s, w).dev.led)
  {}

  lemma EngineTakes(s: System, x: EngineStep)
    requires EngineEnabled(s, x)
    ensures OnlyTakes(s.dev.led, EngineNext(s, x).dev.led)
  {
    if x.WorkDecides? {
      DecidedTakes(s, x.draws);
    }
  }

  lemma PortTakes(s: System, x: PortStep)
    requires PortEnabled(s, x) && s.port.CloseTx?
    ensures OnlyTakes(s.dev.led, PortNext(s, x).dev.led)
  {}

  lemma NotifiedTakes(d: Uart, n: Notifier)
    ensures OnlyTakes(d.led, Notified(d, n).led)
  {}

  lemma BusTakes(s: System, x: BusStep)
    requires BusEnabled(s, x)
    ensures OnlyTakes(s.dev.led, BusNext(s, x).dev.led)
  {
    NotifiedTakes(s.dev, s.notifier);
  }

  lemma WireTakes(s: System, x: WireStep)
    requires WireEnabled(s, x)
    ensures OnlyTakes(s.dev.led, WireNext(s, x).dev.led)
  {}

  lemma AttrTakes(s: System, x: AttrStep)
    ensures OnlyTakes(s.dev.led, AttrNext(s, x).dev.led)
  {}

  lemma NoMoreAccepted(s: System, a: Action)
    requires Enabled(s, a) && s.writers == map[] && s.port.CloseTx?
    ensures OnlyTakes(s.dev.led, Next(s, a).dev.led)
  {
    match a {
      case Aut(x) =>
      case Engine(x) => EngineTakes(s, x);
      case TtyPort(x) => PortTakes(s, x);
      case Bus(x) => BusTakes(s, x);
      case Wire(x) => WireTakes(s, x);
      case Attr(x) => AttrTakes(s, x);
    }
  }

  lemma {:induction false} OnlyTaken(s: System, run: seq<Action>)
    requires Inv(s) && s.port.CloseTx? && Runs(s, run) && AllCounted(s, run)
    ensures OnlyTakes(s.dev.led, After(s, run).dev.led)
  {
    if run != [] {
      OnlyTaken(s, run[..|run| - 1]);
      RunKeepsInv(s, run[..|run| - 1]);
      NoMoreAccepted(After(s, run[..|run| - 1]), run[|run| - 1]);
    }
  }

  // The last close counts what is queued, and frees tx_fifo some time later.  What it
  // has counted is what it then throws away and what left tx_fifo in between, to be
  // delivered or flushed; so it counts exactly what it throws away if and only if
  // nothing left.
  lemma CountedAndTaken(s: System, run: seq<Action>)
    requires Inv(s) && s.port.CloseCount?
    requires Runs(Next(s, TtyPort(CountsTx)), run) && AllCounted(Next(s, TtyPort(CountsTx)), run)
    ensures var e := After(Next(s, TtyPort(CountsTx)), run);
      && e.dev.led.closeDrops == s.dev.led.closeDrops + |s.dev.tx|
      && s.dev.led.taken <= e.dev.led.taken
      && |s.dev.tx| == |e.dev.tx| + (e.dev.led.taken - s.dev.led.taken)
      && Next(e, TtyPort(FreesTx)).dev.led.closeDrops == e.dev.led.closeDrops
      && Next(e, TtyPort(FreesTx)).dev.led.taken == |e.dev.led.accepted|
  {
    var s1 := Next(s, TtyPort(CountsTx));
    StepKeepsInv(s, TtyPort(CountsTx));
    OnlyTaken(s1, run);
    RunKeepsInv(s1, run);
  }

  // --- such a run ---

  // A second byte comes when the work item has delivered the first one.
  predicate Between(v: System, tx: Bytes) {
    && v.port.Open? && v.busUp && v.dev.attrs == NO_FAULTS && v.dev.txCap == BUF_MIN && v.dev.tx == tx
    && v.work.AtRearmCheck?
  }

  lemma FirstDelivered(s: System) returns (run: seq<Action>, v: System)
    requires Initial(s)
    ensures At(s, run, v) && Between(v, []) && v.writers == map[]
  {
    run, v := PortOpens(s);
    run, v := ByteQueued(s, run, v);
    run, v := WriterArms(s, run, v);
    run, v := WorkTakes(s, run, v);
    run, v := BurstArrives(s, run, v);
  }

  lemma SecondQueued(s: System, run: seq<Action>, v: System) returns (run': seq<Action>, v': System)
    requires At(s, run, v) && Between(v, []) && v.writers == map[]
    ensures At(s, run', v') && Between(v', [NUL]) && 1 in v'.writers && v'.writers[1].ToArm? && v'.writers.Keys == {1}
  {
    run' := Go(s, run, v, Aut(WriteBegins(1, [NUL])));
    var v0 := Next(v, Aut(WriteBegins(1, [NUL])));
    run' := Go(s, run', v0, Aut(WriteGates(1)));
    var v1 := Next(v0, Aut(WriteGates(1)));
    run' := Go(s, run', v1, Aut(WriteQueues(1)));
    v' := Next(v1, Aut(WriteQueues(1)));
  }

  // The writer is done, the work item sees the byte, and the last close begins.
  lemma CloseBegins(s: System, run: seq<Action>, v: System) returns (run': seq<Action>, v': System)
    requires At(s, run, v) && Between(v, [NUL]) && 1 in v.writers && v.writers[1].ToArm? && v.writers.Keys == {1}
    ensures At(s, run', v') && v'.port.CloseWork? && v'.dev.timer.Off? && v'.work.AtRearm? && v'.dev.tx == [NUL]
  {
    run' := Go(s, run, v, Aut(WriteArms(1)));
    var v0 := Next(v, Aut(WriteArms(1)));
    assert v0.writers.Keys == {};
    run' := Go(s, run', v0, Engine(WorkChecks));
    var v1 := Next(v0, Engine(WorkChecks));
    run' := Go(s, run', v1, TtyPort(StopsTimer));
    v' := Next(v1, TtyPort(StopsTimer));
  }

  // From a new device, a state v in which the last close has just cancelled the timer,
  // and a run from there after which the port is closed and the work item about to
  // deliver into the freed fifo.
  lemma EngineOutlivesClose(s: System) returns (before: seq<Action>, v: System, run: seq<Action>, e: System)
    requires Initial(s)
    ensures Runs(s, before) && After(s, before) == v && v.port.CloseWork? && v.dev.timer.Off?
    ensures Runs(v, run) && StaysClosed(run) && After(v, run) == e && e.port.Closed? && Alive(e) && DeliversNowhere(e)
  {
    before, v := FirstDelivered(s);
    before, v := SecondQueued(s, before, v);
    before, v := CloseBegins(s, before, v);
    NothingDone(v);
    run, e := FromRearm(v, [], v);
    run, e := WorkIsCancelled(v, run, e);
    run, e := BurstGoesNowhere(v, run, e);
  }

  // --- unloading the module ---

  // With the port closed, a timer that was cancelled is armed again and the work item
  // does not run: so exit finds it when it has cancelled the work item too.
  ghost predicate ArmedAgain(s: System, run: seq<Action>) {
    && Runs(s, run) && StaysClosed(run)
    && After(s, run).work.Idle? && After(s, run).dev.timer.Armed?
  }

  predicate NeverArms(s: System) {
    s.port.Closed? && s.dev.timer.Off? && s.dev.tx == [] && s.writers == map[] && !s.work.AtRearm?
  }

  lemma EngineNeverArms(s: System, x: EngineStep)
    requires NeverArms(s) && EngineEnabled(s, x)
    ensures NeverArms(EngineNext(s, x))
  {}

  lemma {:induction false} RunNeverArms(s: System, run: seq<Action>)
    requires NeverArms(s) && Runs(s, run) && StaysClosed(run)
    ensures NeverArms(After(s, run))
  {
    if run != [] {
      var front, a := run[..|run| - 1], run[|run| - 1];
      assert a in run;
      RunNeverArms(s, front);
      if a.Engine? {
        EngineNeverArms(After(s, front), a.engine);
      } else if !a.TtyPort? && !a.Aut? {
        OthersStayBehind(After(s, front), a);
      }
    }
  }

  // Exit cancels the timer once more, and then the work item.  s is a state right after
  // the first of the two: a timer can be armed after the second if and only if the work
  // item was past its last look at tx_fifo.
  lemma ExitLeavesTimerIffRearm(s: System)
    requires Inv(s) && s.port.Closed? && s.dev.timer.Off?
    ensures (exists run :: ArmedAgain(s, run)) <==> s.work.AtRearm?
  {
    if s.work.AtRearm? {
      NothingDone(s);
      var run := On(s, [], s, Engine(WorkRearms(0, 0)));
      assert ArmedAgain(s, run);
    } else {
      forall run | Runs(s, run) && StaysClosed(run) ensures !ArmedAgain(s, run) {
        RunNeverArms(s, run);
      }
    }
  }
}

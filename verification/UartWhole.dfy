// The functions that run a callback of the UART in one piece are runs of the
// protocol in which only that callback moves.
module UartWhole {
  import opened FaultGate
  import opened UartDevice
  import opened UartProtocol

  // --- the work item ---

  // After the burst was decided: deliver it, if it was not dropped.
  function Delivered(d: Uart, k: nat, bytes: Bytes, w: Draws): Uart
    requires bytes != [] && k < |d.led.fates|
  {
    match Decide(d.attrs, |bytes|, w)
    case Drop => DropBurst(d, k, |bytes|)
    case Send(f) => if FlipFits(f, |bytes|) then EnqueueRx(d, k, Corrupt(bytes, f), f) else d
  }

  lemma DecidedRun(s: System, run: seq<Action>, v: System, w: Draws) returns (run': seq<Action>)
    requires Runs(s, run) && After(s, run) == v
    requires v.work.AtGates? && v.work.bytes != [] && v.work.k < |v.dev.led.fates|
    ensures Runs(s, run')
    ensures var a, n := v.dev.attrs, |v.work.bytes|;
      After(s, run') == v.(dev := Delivered(v.dev, v.work.k, v.work.bytes, w),
                           work := AtRearmCheck(Pace(v.dev.baud, n, a.latency, a.jitter)))
  {
    VerdictFits(v.dev.attrs, v.work.bytes, w);
    run' := Further(s, run, v, Engine(WorkDecides(w)));
    var v1 := Next(v, Engine(WorkDecides(w)));
    if v1.work.AtEnqueue? {
      run' := Further(s, run', v1, Engine(WorkEnqueues));
    }
  }

  lemma VerdictFits(a: Attrs, bytes: Bytes, w: Draws)
    requires bytes != []
    ensures Decide(a, |bytes|, w).Send? ==> FlipFits(Decide(a, |bytes|, w).flip, |bytes|)
  {}

  lemma RearmRun(s: System, run: seq<Action>, v: System, hi: Draw, lo: Draw) returns (run': seq<Action>)
    requires Runs(s, run) && After(s, run) == v && v.work.AtRearmCheck?
    ensures Runs(s, run')
    ensures After(s, run') == v.(dev := if v.dev.tx == [] then v.dev else StartTimer(v.dev, PacedDelay(v.work.pace, hi, lo)),
                                 work := Idle)
  {
    run' := Further(s, run, v, Engine(WorkChecks));
    var v1 := Next(v, Engine(WorkChecks));
    if v1.work.AtRearm? {
      run' := Further(s, run', v1, Engine(WorkRearms(hi, lo)));
    }
  }

  lemma DeliveredKeeps(d: Uart, k: nat, bytes: Bytes, w: Draws)
    requires bytes != [] && k < |d.led.fates|
    ensures Delivered(d, k, bytes, w).tx == d.tx && Delivered(d, k, bytes, w).baud == d.baud
    ensures Delivered(d, k, bytes, w).attrs == d.attrs
  {}

  // A work run with nothing beside it.
  lemma WorkIsRun(s: System, w: Draws, hi: Draw, lo: Draw) returns (run: seq<Action>)
    requires s.work.Idle? && s.dev.workPending
    ensures Runs(s, run)
    ensures After(s, run) == s.(dev := WorkAlone(s.dev.(workPending := false), w, hi, lo))
  {
    assert Runs(s, []) && After(s, []) == s;
    run := Further(s, [], s, Engine(WorkStarts));
    var v := Next(s, Engine(WorkStarts));
    run := Further(s, run, v, Engine(WorkDequeues));
    if v.dev.tx != [] {
      var v1 := Next(v, Engine(WorkDequeues));
      run := DecidedRun(s, run, v1, w);
      DeliveredKeeps(v1.dev, v1.work.k, v1.work.bytes, w);
      VerdictFits(v1.dev.attrs, v1.work.bytes, w);
      run := RearmRun(s, run, After(s, run), hi, lo);
    }
  }

  // --- RESET ---

  function Stepped(v: System): System {
    v.(dev := Notified(v.dev, v.notifier), notifier := NextPlace(v.notifier), busUp := v.busUp || v.notifier.ResetSignal?)
  }

  const THREE_STEPS := [Bus(NotifierStep), Bus(NotifierStep), Bus(NotifierStep)]

  lemma NotifierRun(s: System, run: seq<Action>, v: System) returns (run': seq<Action>, v': System)
    requires Runs(s, run) && After(s, run) == v && v.work.Idle? && !v.notifier.NoEvent?
    ensures run' == run + [Bus(NotifierStep)] && Runs(s, run') && After(s, run') == v'
    ensures v' == Stepped(v) && v'.work.Idle? && v'.notifier == NextPlace(v.notifier)
  {
    run' := Further(s, run, v, Bus(NotifierStep));
    v' := Stepped(v);
  }

  // What the six steps of the RESET callback do to the device.
  lemma SixSteps(d: Uart)
    ensures var d1 := Notified(Notified(Notified(d, ResetTimer), ResetWork), ResetFlush);
      Notified(Notified(Notified(d1, ResetAttrs), ResetStats), ResetSignal) == ResetAlone(d)
  {}

  lemma ThreeSteps(s: System, run: seq<Action>, v: System) returns (run': seq<Action>, v': System)
    requires Runs(s, run) && After(s, run) == v && v.work.Idle? && (v.notifier.ResetTimer? || v.notifier.ResetAttrs?)
    ensures run' == run + THREE_STEPS && Runs(s, run') && After(s, run') == v'
    ensures v' == Stepped(Stepped(Stepped(v)))
  {
    run', v' := NotifierRun(s, run, v);
    run', v' := NotifierRun(s, run', v');
    run', v' := NotifierRun(s, run', v');
  }

  // The RESET callback with nothing beside it.
  lemma ResetIsRun(s: System) returns (run: seq<Action>)
    requires s.work.Idle? && s.notifier.NoEvent?
    ensures run == [Bus(BusReset)] + THREE_STEPS + THREE_STEPS
    ensures Runs(s, run) && After(s, run) == s.(dev := ResetAlone(s.dev), busUp := true)
  {
    assert Runs(s, []) && After(s, []) == s;
    run := Further(s, [], s, Bus(BusReset));
    var v := Next(s, Bus(BusReset));
    run := CallbackRun(s, run, v);
  }

  lemma CallbackRun(s: System, run: seq<Action>, v: System) returns (run': seq<Action>)
    requires Runs(s, run) && After(s, run) == v && v.work.Idle? && v.notifier.ResetTimer?
    ensures run' == run + THREE_STEPS + THREE_STEPS
    ensures Runs(s, run') && After(s, run') == v.(dev := ResetAlone(v.dev), notifier := NoEvent, busUp := true)
  {
    var v';
    run', v' := ThreeSteps(s, run, v);
    run', v' := ThreeSteps(s, run', v');
    SixSteps(v.dev);
  }

  // --- DOWN ---

  // The bus goes down with nothing beside it: what is queued is thrown away and counted.
  lemma DownIsRun(s: System) returns (run: seq<Action>)
    requires s.work.Idle? && s.notifier.NoEvent? && s.busUp
    ensures run == [Bus(BusDown)] + THREE_STEPS && Runs(s, run)
    ensures After(s, run) == s.(dev := FlushTx(s.dev.(timer := Off, workPending := false), true), busUp := false)
  {
    assert Runs(s, []) && After(s, []) == s;
    run := Further(s, [], s, Bus(BusDown));
    var v := Next(s, Bus(BusDown));
    run, v := NotifierRun(s, run, v);
    run, v := NotifierRun(s, run, v);
    run, v := NotifierRun(s, run, v);
  }

  // --- the first open ---

  // The first open with nothing beside it: both fifos of the sizes that are set, empty,
  // and the port active.
  lemma OpenIsRun(s: System, tx: nat, rx: nat) returns (run: seq<Action>)
    requires s.port.Closed? && 64 <= tx <= 65536 && 64 <= rx <= 65536
    ensures run == [TtyPort(ActivateTx(tx)), TtyPort(ActivateRx(rx, true)), TtyPort(ActivateDone)] && Runs(s, run)
    ensures After(s, run) == s.(dev := s.dev.(txCap := tx, rxCap := rx, portActive := true), port := Open)
  {
    assert Runs(s, []) && After(s, []) == s;
    var v1 := s.(dev := s.dev.(txCap := tx), port := TxReady);
    var v2 := s.(dev := s.dev.(txCap := tx, rxCap := rx), port := BothReady);
    run := PortRun(s, [], s, ActivateTx(tx), v1);
    run := PortRun(s, run, v1, ActivateRx(rx, true), v2);
    run := PortRun(s, run, v2, ActivateDone, s.(dev := s.dev.(txCap := tx, rxCap := rx, portActive := true), port := Open));
  }

  // No other size is taken.
  lemma SizesTaken(s: System, x: PortStep)
    requires PortEnabled(s, x) && (x.ActivateTx? || x.ActivateRx?)
    ensures 64 <= x.size <= 65536
  {}

  // --- the last close ---

  // The last close with nothing beside it.
  lemma CloseIsRun(s: System) returns (run: seq<Action>)
    requires s.port.Open? && s.writers == map[] && s.work.Idle?
    ensures run == [TtyPort(StopsTimer), TtyPort(StopsWork), TtyPort(CountsTx), TtyPort(FreesTx), TtyPort(FreesRx)]
    ensures Runs(s, run) && After(s, run) == s.(dev := CloseAlone(s.dev), port := Closed)
  {
    assert Runs(s, []) && After(s, []) == s;
    var v1 := s.(dev := s.dev.(timer := Off), port := CloseWork);
    var v2 := s.(dev := s.dev.(timer := Off, workPending := false), port := CloseCount);
    run := PortRun(s, [], s, StopsTimer, v1);
    run := PortRun(s, run, v1, StopsWork, v2);
    run := CloseEnds(s, run, v2);
  }

  lemma CloseEnds(s: System, run: seq<Action>, v: System) returns (run': seq<Action>)
    requires Runs(s, run) && After(s, run) == v && v.port.CloseCount?
    ensures run' == run + [TtyPort(CountsTx), TtyPort(FreesTx), TtyPort(FreesRx)]
    ensures Runs(s, run') && After(s, run') == v.(dev := FreeRx(FreeTx(CountTx(v.dev))), port := Closed)
  {
    var v1 := v.(dev := CountTx(v.dev), port := CloseTx);
    var v2 := v.(dev := FreeTx(CountTx(v.dev)), port := CloseRx);
    run' := PortRun(s, run, v, CountsTx, v1);
    run' := PortRun(s, run', v1, FreesTx, v2);
    run' := PortRun(s, run', v2, FreesRx, v.(dev := FreeRx(FreeTx(CountTx(v.dev))), port := Closed));
  }

  lemma PortRun(s: System, run: seq<Action>, v: System, x: PortStep, v': System) returns (run': seq<Action>)
    requires Runs(s, run) && After(s, run) == v && PortEnabled(v, x) && PortNext(v, x) == v'
    ensures run' == run + [TtyPort(x)] && Runs(s, run') && After(s, run') == v'
  {
    run' := Further(s, run, v, TtyPort(x));
  }
}

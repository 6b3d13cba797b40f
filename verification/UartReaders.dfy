// What a bus RESET does to the bytes that are in rx_fifo when it signals.
module UartReaders {
  import opened UartDevice
  import opened UartProtocol
  import opened UartTheorems
  import opened UartReset
  import W = UartWhole

  // The locked section of reader r hands out a byte that had been delivered by s0.
  predicate TakesOld(s0: System, s: System, r: nat) {
    && Enabled(s, Wire(ReadLocks(r)))
    && s.dev.led.consumed < |s0.dev.led.delivered|
    && s.dev.led.consumed < Next(s, Wire(ReadLocks(r))).dev.led.consumed
  }

  ghost predicate CanTakeOld(s0: System, r: nat) {
    exists run :: Runs(s0, run) && TakesOld(s0, After(s0, run), r)
  }

  // --- only a reader past its flag check can ---

  lemma OnlyPastFlagTakes(s0: System, s: System, r: nat)
    requires TakesOld(s0, s, r)
    ensures PastFlag(s, r)
  {}

  lemma EmptyTakesNone(s0: System, run: seq<Action>, r: nat)
    requires Inv(s0) && s0.dev.rx == [] && Runs(s0, run)
    ensures !TakesOld(s0, After(s0, run), r)
  {
    RunFatesStay(s0, run);
  }

  // --- and it can ---

  lemma TakesNow(s0: System, s: System, r: nat)
    requires Inv(s) && PastFlag(s, r) && s.dev.portActive && s.dev.rx != []
    requires s.dev.led.consumed < |s0.dev.led.delivered|
    ensures TakesOld(s0, s, r)
  {}

  // A port that holds bytes but is not active yet is about to be.
  lemma Activates(s: System) returns (run: seq<Action>)
    requires Inv(s) && s.dev.rx != []
    ensures run == (if s.dev.portActive then [] else [TtyPort(ActivateDone)]) && Runs(s, run)
    ensures var v := After(s, run);
      && Inv(v) && v.dev.portActive && v.dev.rx == s.dev.rx && v.dev.led == s.dev.led && v.readers == s.readers
      && v.dev.resetPending == s.dev.resetPending
  {
    NothingYet(s);
    run := [];
    if !s.dev.portActive {
      run := Further(s, [], s, TtyPort(ActivateDone));
    }
  }

  // RESET isolation of rx_fifo.  s0 is any state with a wire session open and the
  // reset flag set: from then on a reader can take a byte that had been delivered
  // by then if and only if there is one and the reader stood between its last look
  // at the flag and its lock.
  lemma OldIsReadIffPastFlag(s0: System, r: nat)
    requires Inv(s0) && s0.dev.wireOpen && s0.dev.resetPending
    ensures CanTakeOld(s0, r) <==> PastFlag(s0, r) && s0.dev.rx != []
  {
    if PastFlag(s0, r) && s0.dev.rx != [] {
      var run := Activates(s0);
      TakesNow(s0, After(s0, run), r);
    } else {
      forall run | Runs(s0, run) ensures !TakesOld(s0, After(s0, run), r) {
        StaysUnread(s0, run, r);
      }
    }
  }

  lemma StaysUnread(s0: System, run: seq<Action>, r: nat)
    requires Inv(s0) && Runs(s0, run) && s0.dev.wireOpen && s0.dev.resetPending
    requires !PastFlag(s0, r) || s0.dev.rx == []
    ensures !TakesOld(s0, After(s0, run), r)
  {
    if s0.dev.rx == [] {
      EmptyTakesNone(s0, run, r);
    } else if TakesOld(s0, After(s0, run), r) {
      ResetIsolation(s0, run, r);
      OnlyPastFlagTakes(s0, After(s0, run), r);
    }
  }

  // --- such a run ---

  lemma WireIsOpened(s: System, run: seq<Action>, v: System) returns (run': seq<Action>, v': System)
    requires At(s, run, v) && Bare(v, Open, BUF_MIN, BUF_MIN, false)
    ensures At(s, run', v') && Bare(v', Open, BUF_MIN, BUF_MIN, true)
  {
    run' := Go(s, run, v, Wire(WireOpens));
    v' := Next(v, Wire(WireOpens));
  }

  // One byte is in rx_fifo of an open wire, and nothing else goes on.
  predicate OneByte(v: System) {
    && v.port.Open? && v.dev.wireOpen && !v.dev.resetPending && v.dev.rx == [NUL]
    && v.work.Idle? && v.notifier.NoEvent? && v.readers == map[]
  }

  lemma WorkEnds(s: System, run: seq<Action>, v: System) returns (run': seq<Action>, v': System)
    requires At(s, run, v) && v.work.AtRearmCheck? && v.dev.tx == []
    ensures At(s, run', v') && v' == v.(work := Idle)
  {
    run' := Go(s, run, v, Engine(WorkChecks));
    v' := Next(v, Engine(WorkChecks));
  }

  lemma OneByteArrives(s: System) returns (run: seq<Action>, v: System)
    requires Initial(s)
    ensures At(s, run, v) && OneByte(v)
  {
    run, v := PortOpens(s);
    run, v := WireIsOpened(s, run, v);
    run, v := ByteQueued(s, run, v);
    run, v := WriterArms(s, run, v);
    run, v := WorkTakes(s, run, v);
    run, v := BurstArrives(s, run, v);
    run, v := WorkEnds(s, run, v);
  }

  const LATE_READER: seq<Action> := [Wire(ReadBegins(0, 1, false)), Wire(ReadWakes(0))]

  lemma ReaderPasses(s: System) returns (v: System)
    requires Inv(s) && OneByte(s)
    ensures Runs(s, LATE_READER) && After(s, LATE_READER) == v && Inv(v)
    ensures PastFlag(v, 0) && v.dev == s.dev && v.dev.portActive && v.work.Idle? && v.notifier.NoEvent?
  {
    NothingYet(s);
    var run := Further(s, [], s, Wire(ReadBegins(0, 1, false)));
    var v1 := Next(s, Wire(ReadBegins(0, 1, false)));
    run := Further(s, run, v1, Wire(ReadWakes(0)));
    v := Next(v1, Wire(ReadWakes(0)));
    assert run == LATE_READER;
  }

  // The callback does not touch rx_fifo.
  lemma ResetLeavesRx(d: Uart)
    ensures var d' := ResetAlone(d);
      && d'.rx == d.rx && d'.led.consumed == d.led.consumed && d'.led.delivered == d.led.delivered
      && d'.wireOpen == d.wireOpen && d'.portActive == d.portActive && d'.resetPending
  {}

  // The whole callback, after which the reader takes what it had seen before.
  lemma ResetPasses(v: System) returns (run: seq<Action>)
    requires Inv(v) && PastFlag(v, 0) && v.dev.portActive && v.dev.wireOpen && v.dev.rx != []
    requires v.work.Idle? && v.notifier.NoEvent?
    ensures run == [Bus(BusReset)] + W.THREE_STEPS + W.THREE_STEPS && Runs(v, run)
    ensures var e := After(v, run);
      Inv(e) && e.notifier.NoEvent? && e.dev.resetPending && e.dev.wireOpen && TakesOld(v, e, 0)
  {
    run := W.ResetIsRun(v);
    RunKeepsInv(v, run);
    ResetLeavesRx(v.dev);
    TakesNow(v, After(v, run), 0);
  }

  // From a new device: a wire_read passes its flag check, the whole RESET runs, and
  // then the byte that was in rx_fifo is read.
  lemma ReadOvertakenByReset(s: System) returns (before: seq<Action>, v: System, run: seq<Action>)
    requires Initial(s)
    ensures Runs(s, before) && After(s, before) == v && v.notifier.NoEvent? && !v.dev.resetPending && v.dev.rx == [NUL]
    ensures run == [Bus(BusReset)] + W.THREE_STEPS + W.THREE_STEPS && Runs(v, run)
    ensures var e := After(v, run);
      e.notifier.NoEvent? && e.dev.resetPending && e.dev.wireOpen && TakesOld(v, e, 0)
  {
    before, v := OneByteArrives(s);
    var late := ReaderPasses(v);
    Join(s, before, LATE_READER);
    before, v := before + LATE_READER, late;
    run := ResetPasses(v);
  }
}

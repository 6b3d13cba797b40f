// What a bus RESET does to the bytes that are on their way to the wire.
module UartReset {
  import opened UartDevice
  import opened UartLedger
  import opened UartProtocol
  import opened UartTheorems

  // The callback flushes tx_fifo.
  function Flushed(s: System): System
    requires s.notifier.ResetFlush?
  {
    Next(s, Bus(NotifierStep))
  }

  // What stands in tx_fifo when RESET flushes it never reaches a reader: no byte
  // delivered in any later run comes from there.
  lemma QueuedStaysAway(s: System, run: seq<Action>, p: nat)
    requires Inv(s) && s.notifier.ResetFlush? && Runs(Flushed(s), run)
    requires p < |After(Flushed(s), run).dev.led.delivered|
    ensures var f := After(Flushed(s), run).dev.led.fates;
      Origin(f, p, |f|) < s.dev.led.taken || |s.dev.led.accepted| <= Origin(f, p, |f|)
  {
    StepKeepsInv(s, Bus(NotifierStep));
    if s.dev.tx != [] {
      FlushedStaysAway(Flushed(s), run, |s.dev.led.fates|, p);
    }
  }

  // --- which bytes still arrive ---

  // The work item holds the burst of accepted byte o, before its delivery.
  predicate HeldAt(s: System, o: nat) {
    && HoldsBurst(s.work) && s.work.k < |s.dev.led.fates|
    && s.dev.led.fates[s.work.k].from <= o < s.dev.led.fates[s.work.k].from + s.dev.led.fates[s.work.k].len
  }

  // Accepted byte o is put into rx_fifo between s and e, as byte p of the stream.
  predicate ArrivesAt(s: System, e: System, o: nat, p: nat) {
    |s.dev.led.delivered| <= p < |e.dev.led.delivered| && Origin(e.dev.led.fates, p, |e.dev.led.fates|) == o
  }

  ghost predicate CanArrive(s: System, o: nat)
    requires s.notifier.ResetFlush?
  {
    exists run, p: nat :: Runs(Flushed(s), run) && ArrivesAt(s, After(Flushed(s), run), o, p)
  }

  lemma {:induction false} FateOf(fates: seq<Fate>, end: nat, o: nat, n: nat) returns (j: nat)
    requires Chain(fates, end) && n <= |fates| && o < Start(fates, n)
    ensures j < n && fates[j].from <= o < fates[j].from + fates[j].len
  {
    assert Linked(fates, n - 1);
    if fates[n - 1].from <= o {
      j := n - 1;
    } else {
      j := FateOf(fates, end, o, n - 1);
    }
  }

  lemma {:induction false} SameSum(a: seq<Fate>, b: seq<Fate>, to: Share, n: nat)
    requires n <= |a| && n <= |b| && (forall j | 0 <= j < n :: a[j] == b[j])
    ensures Sum(a, to, n) == Sum(b, to, n)
  {
    if n > 0 {
      SameSum(a, b, to, n - 1);
    }
  }

  // A byte of a burst that had passed by then had been delivered by then.
  lemma PassedIsBefore(l: Ledger, l': Ledger, j: nat, p: nat)
    requires LedgerOk(l) && LedgerOk(l') && FatesStay(l, l') && j < |l.fates| && l.fates[j].how.Passed?
    requires forall k | 0 <= k <= j :: !l.fates[k].how.InFlight?
    requires p < Sum(l'.fates, Kept, j + 1)
    ensures p < |l.delivered|
  {
    SameSum(l.fates, l'.fates, Kept, j + 1);
    KeptSoFar(l, |l.fates|);
    SumGrows(l.fates, Kept, j + 1, |l.fates|);
  }

  // Both stretches hold the byte, so they are the same.
  lemma SameFate(fates: seq<Fate>, end: nat, j: nat, c: nat, o: nat)
    requires Chain(fates, end) && j < |fates| && c < |fates|
    requires fates[j].from <= o < fates[j].from + fates[j].len
    requires fates[c].from <= o < fates[c].from + fates[c].len
    ensures j == c
  {
    if j < c {
      StartsInOrder(fates, end, j, c);
    } else if c < j {
      StartsInOrder(fates, end, c, j);
    }
  }

  lemma SettledIsBefore(l: Ledger, l': Ledger, j: nat, p: nat, o: nat)
    requires LedgerOk(l) && LedgerOk(l') && FatesStay(l, l') && p < |l'.delivered|
    requires Origin(l'.fates, p, |l'.fates|) == o
    requires j < |l.fates| && l.fates[j].from <= o < l.fates[j].from + l.fates[j].len
    requires !l.fates[j].how.InFlight? && SettledBelow(l, j)
    ensures p < |l.delivered|
  {
    DeliveredByte(l', p);
    var c := Carrier(l'.fates, p, |l'.fates|);
    SameFate(l'.fates, l'.taken, j, c, o);
    KeptSoFar(l', |l'.fates|);
    CarrierHolds(l'.fates, l'.taken, p, |l'.fates|);
    PassedIsBefore(l, l', j, p);
  }

  // If fate j has passed, nothing before it is undecided.
  predicate SettledBelow(l: Ledger, j: nat) {
    j < |l.fates| && (l.fates[j].how.Passed? ==> forall k | 0 <= k <= j :: !l.fates[k].how.InFlight?)
  }

  lemma OnlyOneUndecided(d: Uart, w: Work, j: nat)
    requires WorkOk(d, w) && j < |d.led.fates| && !(HoldsBurst(w) && w.k == j)
    ensures !d.led.fates[j].how.InFlight? && SettledBelow(d.led, j)
  {
    if HoldsBurst(w) {
      assert InFlightAt(d.led, w.k);
    }
  }

  lemma OnlyHeldArrives(s: System, run: seq<Action>, o: nat, p: nat)
    requires Inv(s) && s.notifier.ResetFlush? && o < |s.dev.led.accepted|
    requires Runs(Flushed(s), run) && ArrivesAt(s, After(Flushed(s), run), o, p)
    ensures HeldAt(s, o)
  {
    var s' := Flushed(s);
    StepKeepsInv(s, Bus(NotifierStep));
    RunKeepsInv(s', run);
    RunFatesStay(s', run);
    var l := s'.dev.led;
    var j := FateOf(l.fates, l.taken, o, |l.fates|);
    if !HeldAt(s, o) {
      HeldIsSame(s, o, j);
      OnlyOneUndecided(s'.dev, s'.work, j);
      SettledIsBefore(l, After(s', run).dev.led, j, p, o);
    }
  }

  lemma HeldIsSame(s: System, o: nat, j: nat)
    requires Inv(s) && s.notifier.ResetFlush? && !HeldAt(s, o)
    requires var f := Flushed(s).dev.led.fates; j < |f| && f[j].from <= o < f[j].from + f[j].len
    ensures !(HoldsBurst(Flushed(s).work) && Flushed(s).work.k == j)
  {}

  // --- a held burst can arrive ---

  lemma {:induction false} Above(keys: set<nat>) returns (r: nat)
    ensures forall j: nat | j in keys :: j < r
  {
    if keys == {} {
      r := 0;
    } else {
      var k :| k in keys;
      var rest := keys - {k};
      var q := Above(rest);
      r := if k < q then q else k + 1;
      assert forall j: nat | j in keys :: j in rest || j == k;
    }
  }

  // The engine has not moved, and nothing new was delivered.
  predicate Parked(v: System, v': System) {
    v'.work == v.work && v'.dev.led.fates == v.dev.led.fates && v'.dev.led.delivered == v.dev.led.delivered
  }

  // How many steps a port is away from being active.
  function Away(p: Port): nat {
    match p
    case Closed => 3
    case TxReady => 2
    case BothReady => 1
    case _ => 0
  }

  lemma OneStepUp(v: System) returns (x: PortStep)
    requires Inv(v) && Away(v.port) > 0
    ensures PortEnabled(v, x) && Parked(v, PortNext(v, x)) && Away(PortNext(v, x).port) == Away(v.port) - 1
  {
    x := if v.port.Closed? then ActivateTx(BUF_MIN) else if v.port.TxReady? then ActivateRx(BUF_MIN, true) else ActivateDone;
  }

  // Whatever the port is about, it can come to be active.
  lemma {:induction false} GetsPort(s: System, run: seq<Action>, v: System) returns (run': seq<Action>, v': System)
    requires Inv(s) && Runs(s, run) && After(s, run) == v && Inv(v)
    ensures Runs(s, run') && After(s, run') == v' && Inv(v') && v'.dev.portActive && Parked(v, v')
    decreases Away(v.port)
  {
    run', v' := run, v;
    if Away(v.port) > 0 {
      var x := OneStepUp(v);
      run' := Further(s, run, v, TtyPort(x));
      run', v' := GetsPort(s, run', PortNext(v, x));
    }
  }

  // One read call that takes as much as it can.
  lemma ReadOnce(s: System, run: seq<Action>, v: System) returns (run': seq<Action>, v': System)
    requires Inv(s) && Runs(s, run) && After(s, run) == v && Inv(v)
    requires v.dev.portActive && v.dev.wireOpen && !v.dev.resetPending && v.dev.rx != []
    ensures Runs(s, run') && After(s, run') == v' && Inv(v') && Parked(v, v')
    ensures v'.dev.portActive && v'.dev.wireOpen && !v'.dev.resetPending && |v'.dev.rx| < |v.dev.rx|
  {
    var r := Above(v.readers.Keys);
    run' := Further(s, run, v, Wire(ReadBegins(r, PAGE, true)));
    var v1 := v.(readers := v.readers[r := ToLock(PAGE, true)]);
    assert Next(v, Wire(ReadBegins(r, PAGE, true))) == v1;
    run', v' := LockOnce(s, run', v1, r);
  }

  lemma LockOnce(s: System, run: seq<Action>, v: System, r: nat) returns (run': seq<Action>, v': System)
    requires Inv(s) && Runs(s, run) && After(s, run) == v && Inv(v)
    requires v.dev.portActive && v.dev.rx != [] && r in v.readers && v.readers[r] == ToLock(PAGE, true)
    ensures Runs(s, run') && After(s, run') == v' && Inv(v') && Parked(v, v') && |v'.dev.rx| < |v.dev.rx|
    ensures v'.dev.portActive && v'.dev.wireOpen == v.dev.wireOpen && v'.dev.resetPending == v.dev.resetPending
  {
    run' := Further(s, run, v, Wire(ReadLocks(r)));
    v' := ReadNext(v, r);
  }

  lemma {:induction false} ReadAll(s: System, run: seq<Action>, v: System) returns (run': seq<Action>)
    requires Inv(s) && Runs(s, run) && After(s, run) == v && Inv(v)
    requires v.dev.portActive && v.dev.wireOpen && !v.dev.resetPending
    ensures Runs(s, run') && After(s, run').dev.rx == [] && After(s, run').dev.portActive && Parked(v, After(s, run'))
    decreases |v.dev.rx|
  {
    run' := run;
    if v.dev.rx != [] {
      var v';
      run', v' := ReadOnce(s, run, v);
      run' := ReadAll(s, run', v');
    }
  }

  // Whoever reads or has the wire open, rx_fifo can be emptied.
  lemma {:induction false} EmptyRx(s: System, run: seq<Action>, v: System) returns (run': seq<Action>)
    requires Inv(s) && Runs(s, run) && After(s, run) == v && Inv(v) && v.dev.portActive
    ensures Runs(s, run') && After(s, run').dev.rx == [] && After(s, run').dev.portActive && Parked(v, After(s, run'))
    decreases |v.readers|
  {
    if v.dev.rx == [] {
      run' := run;
    } else if !v.dev.wireOpen {
      run' := Further(s, run, v, Wire(WireOpens));
      run' := ReadAll(s, run', Next(v, Wire(WireOpens)));
    } else if !v.dev.resetPending {
      run' := ReadAll(s, run, v);
    } else if v.readers == map[] {
      run' := Further(s, run, v, Wire(WireReleases));
    } else {
      var r :| r in v.readers;
      var a := if v.readers[r].ToWait? then Wire(ReadWakes(r)) else Wire(ReadLocks(r));
      run' := Further(s, run, v, a);
      OneReaderFewer(v, r);
      run' := EmptyRx(s, run', Next(v, a));
    }
  }

  lemma OneReaderFewer(v: System, r: nat)
    requires Inv(v) && v.dev.portActive && r in v.readers && v.dev.resetPending && v.dev.rx != []
    ensures var a := if v.readers[r].ToWait? then Wire(ReadWakes(r)) else Wire(ReadLocks(r));
      && Enabled(v, a) && Parked(v, Next(v, a)) && Next(v, a).readers == v.readers - {r}
      && Next(v, a).dev.portActive && |v.readers - {r}| < |v.readers|
  {
    assert (v.readers - {r}).Keys == v.readers.Keys - {r};
  }

  // The burst of fate k is delivered from the first of its bytes on.
  lemma {:induction false} OriginAt(fates: seq<Fate>, k: nat, j: nat, n: nat)
    requires k < n <= |fates| && j < Part(fates[k], Kept)
    ensures Origin(fates, Sum(fates, Kept, k) + j, n) == fates[k].from + j
    decreases n
  {
    if k < n - 1 {
      SumGrows(fates, Kept, k + 1, n - 1);
      OriginAt(fates, k, j, n - 1);
    }
  }

  // Nothing after the undecided burst was delivered yet.
  lemma {:induction false} NothingAfter(fates: seq<Fate>, k: nat, n: nat)
    requires k <= n <= |fates| && forall j | k <= j < n :: Part(fates[j], Kept) == 0
    ensures Sum(fates, Kept, n) == Sum(fates, Kept, k)
  {
    if k < n {
      NothingAfter(fates, k, n - 1);
    }
  }

  // Delivered in full, the undecided burst comes next in the stream.
  lemma SettledOrigin(l: Ledger, k: nat, flip: Flip, out: Bytes, o: nat)
    requires LedgerOk(l) && InFlightAt(l, k) && l.fates[k].from <= o < l.fates[k].from + l.fates[k].len
    ensures var f := Settle(l, k, Passed(flip, l.fates[k].len), out).fates;
      Origin(f, |l.delivered| + (o - l.fates[k].from), |f|) == o
  {
    KeptSoFar(l, |l.fates|);
    NothingAfter(l.fates, k, |l.fates|);
    var f := Settle(l, k, Passed(flip, l.fates[k].len), out).fates;
    SameSum(l.fates, f, Kept, k);
    OriginAt(f, k, o - l.fates[k].from, |f|);
  }

  lemma BurstHasRoom(v: System)
    requires Inv(v) && v.work.AtEnqueue? && v.dev.rx == [] && v.dev.portActive
    ensures InFlightAt(v.dev.led, v.work.k) && |v.work.bytes| == v.dev.led.fates[v.work.k].len
    ensures Fits(v.work.bytes, 0, v.dev.rxCap) == |v.work.bytes|
  {
    assert Linked(v.dev.led.fates, v.work.k);
  }

  lemma EnqueueDelivers(v: System, o: nat) returns (p: nat)
    requires Inv(v) && v.work.AtEnqueue? && HeldAt(v, o) && v.dev.rx == [] && v.dev.portActive
    ensures EngineEnabled(v, WorkEnqueues) && ArrivesAt(v, EngineNext(v, WorkEnqueues), o, p)
  {
    p := |v.dev.led.delivered| + (o - v.dev.led.fates[v.work.k].from);
    BurstHasRoom(v);
    SettledOrigin(v.dev.led, v.work.k, v.work.flip, v.work.bytes[..|v.work.bytes|], o);
  }

  // With the burst decided: get an active port, make room in rx_fifo and deliver.
  lemma DeliversFrom(s: System, run: seq<Action>, v: System, o: nat) returns (run': seq<Action>, p: nat)
    requires Inv(s) && Runs(s, run) && After(s, run) == v && Inv(v)
    requires v.work.AtEnqueue? && HeldAt(v, o)
    ensures Runs(s, run') && ArrivesAt(v, After(s, run'), o, p)
  {
    var v1;
    run', v1 := GetsPort(s, run, v);
    run' := EmptyRx(s, run', v1);
    RunKeepsInv(s, run');
    run', p := EnqueueRun(s, run', After(s, run'), o);
  }

  lemma EnqueueRun(s: System, run: seq<Action>, v: System, o: nat) returns (run': seq<Action>, p: nat)
    requires Inv(s) && Runs(s, run) && After(s, run) == v && Inv(v)
    requires v.work.AtEnqueue? && HeldAt(v, o) && v.dev.portActive && v.dev.rx == []
    ensures Runs(s, run') && ArrivesAt(v, After(s, run'), o, p)
  {
    p := EnqueueDelivers(v, o);
    run' := Further(s, run, v, Engine(WorkEnqueues));
  }

  lemma NothingYet(s: System)
    requires Inv(s)
    ensures Runs(s, []) && After(s, []) == s
  {}

  // From the flush on: clear the attributes, let the gates pass the burst, make
  // room in rx_fifo, deliver.
  lemma HeldRun(s: System, o: nat) returns (run: seq<Action>, p: nat)
    requires Inv(s) && s.notifier.ResetFlush? && HeldAt(s, o)
    ensures Runs(Flushed(s), run) && ArrivesAt(s, After(Flushed(s), run), o, p)
  {
    StepKeepsInv(s, Bus(NotifierStep));
    run, p := RunFromFlush(Flushed(s), o);
  }

  lemma RunFromFlush(s: System, o: nat) returns (run: seq<Action>, p: nat)
    requires Inv(s) && s.notifier.ResetAttrs? && HeldAt(s, o)
    ensures Runs(s, run) && ArrivesAt(s, After(s, run), o, p)
  {
    NothingYet(s);
    if s.work.AtGates? {
      var v;
      run, v := PassesGates(s, [], o);
      run, p := DeliversFrom(s, run, v, o);
    } else {
      run, p := DeliversFrom(s, [], s, o);
    }
  }

  lemma HeldCanArrive(s: System, o: nat)
    requires Inv(s) && s.notifier.ResetFlush? && HeldAt(s, o)
    ensures CanArrive(s, o)
  {
    var run, p := HeldRun(s, o);
  }

  lemma PassesGates(s': System, run: seq<Action>, o: nat) returns (run': seq<Action>, v: System)
    requires Inv(s') && Runs(s', run) && After(s', run) == s'
    requires s'.notifier.ResetAttrs? && s'.work.AtGates? && HeldAt(s', o)
    ensures Runs(s', run') && After(s', run') == v && Inv(v)
    ensures v.work.AtEnqueue? && HeldAt(v, o) && v.dev.led.delivered == s'.dev.led.delivered
  {
    run' := Further(s', run, s', Bus(NotifierStep));
    var v1 := Next(s', Bus(NotifierStep));
    run', v := BurstPasses(s', run', v1, o);
  }

  // Without fault rates no draw stops the burst.
  lemma BurstPasses(s': System, run: seq<Action>, v1: System, o: nat) returns (run': seq<Action>, v: System)
    requires Inv(s') && Runs(s', run) && After(s', run) == v1 && Inv(v1)
    requires v1.dev.attrs == NO_FAULTS && v1.work.AtGates? && HeldAt(v1, o)
    ensures Runs(s', run') && After(s', run') == v && Inv(v)
    ensures v.work.AtEnqueue? && HeldAt(v, o) && v.dev.led.delivered == v1.dev.led.delivered
  {
    assert BurstOk(v1.dev, v1.work.k);
    run' := Further(s', run, v1, Engine(WorkDecides(Draws(0, 0, 0))));
    v := Next(v1, Engine(WorkDecides(Draws(0, 0, 0))));
  }

  // With the fine steps of the callback: a byte accepted before the flush can still
  // be put into rx_fifo after it if and only if the work item holds its burst then.
  lemma ArrivesIffHeld(s: System, o: nat)
    requires Inv(s) && s.notifier.ResetFlush? && o < |s.dev.led.accepted|
    ensures CanArrive(s, o) <==> HeldAt(s, o)
  {
    if CanArrive(s, o) {
      var run, p: nat :| Runs(Flushed(s), run) && ArrivesAt(s, After(Flushed(s), run), o, p);
      OnlyHeldArrives(s, run, o, p);
    }
    if HeldAt(s, o) {
      HeldCanArrive(s, o);
    }
  }

  // --- such a run ---

  // The run from a new device s has come to v.
  ghost predicate At(s: System, run: seq<Action>, v: System) {
    Initial(s) && Runs(s, run) && After(s, run) == v && Inv(v)
  }

  lemma Go(s: System, run: seq<Action>, v: System, a: Action) returns (run': seq<Action>)
    requires At(s, run, v) && Enabled(v, a)
    ensures run' == run + [a] && At(s, run', Next(v, a))
  {
    Extend(s, run, a);
    run' := run + [a];
    StepKeepsInv(v, a);
  }

  // An open port in its first moments: the byte, if it was queued, has not been
  // delivered, and nothing else was.
  predicate Early(v: System, tx: Bytes) {
    && v.port.Open? && v.busUp && v.dev.attrs == NO_FAULTS && v.dev.tx == tx && v.dev.rx == []
    && v.dev.txCap == v.dev.rxCap == BUF_MIN && v.readers == map[]
  }

  predicate Bare(v: System, port: Port, txCap: nat, rxCap: nat, wire: bool) {
    && v.port == port && v.dev.txCap == txCap && v.dev.rxCap == rxCap
    && v.busUp && v.dev.attrs == NO_FAULTS && v.dev.tx == [] && v.dev.rx == []
    && v.readers == map[] && v.writers == map[] && v.work.Idle? && v.notifier.NoEvent?
    && v.dev.wireOpen == wire && !v.dev.resetPending
  }

  lemma NewIsBare(s: System)
    requires Initial(s)
    ensures Bare(s, Closed, 0, 0, false)
  {}

  lemma Begin(s: System)
    requires Initial(s) && Inv(s)
    ensures At(s, [], s)
  {
    NothingYet(s);
  }

  lemma GetsTx(s: System, run: seq<Action>, v: System) returns (run': seq<Action>, v': System)
    requires At(s, run, v) && Bare(v, Closed, 0, 0, false)
    ensures At(s, run', v') && Bare(v', TxReady, BUF_MIN, 0, false)
  {
    run' := Go(s, run, v, TtyPort(ActivateTx(BUF_MIN)));
    v' := Next(v, TtyPort(ActivateTx(BUF_MIN)));
  }

  lemma GetsRx(s: System, run: seq<Action>, v: System) returns (run': seq<Action>, v': System)
    requires At(s, run, v) && Bare(v, TxReady, BUF_MIN, 0, false)
    ensures At(s, run', v') && Bare(v', BothReady, BUF_MIN, BUF_MIN, false)
  {
    run' := Go(s, run, v, TtyPort(ActivateRx(BUF_MIN, true)));
    v' := Next(v, TtyPort(ActivateRx(BUF_MIN, true)));
  }

  lemma GetsActive(s: System, run: seq<Action>, v: System) returns (run': seq<Action>, v': System)
    requires At(s, run, v) && Bare(v, BothReady, BUF_MIN, BUF_MIN, false)
    ensures At(s, run', v') && Bare(v', Open, BUF_MIN, BUF_MIN, false)
  {
    run' := Go(s, run, v, TtyPort(ActivateDone));
    v' := Next(v, TtyPort(ActivateDone));
  }

  lemma PortOpens(s: System) returns (run: seq<Action>, v: System)
    requires Initial(s)
    ensures At(s, run, v) && Bare(v, Open, BUF_MIN, BUF_MIN, false)
  {
    NewIsBare(s);
    InitialOk(s);
    Begin(s);
    run, v := GetsTx(s, [], s);
    run, v := GetsRx(s, run, v);
    run, v := GetsActive(s, run, v);
  }

  // The AUT writes one byte and is about to start the timer.
  lemma ByteQueued(s: System, run: seq<Action>, v: System) returns (run': seq<Action>, v': System)
    requires At(s, run, v) && Bare(v, Open, BUF_MIN, BUF_MIN, v.dev.wireOpen)
    ensures At(s, run', v') && Early(v', [NUL]) && v'.dev.wireOpen == v.dev.wireOpen && !v'.dev.resetPending
    ensures v'.writers.Keys == {0}
    ensures v'.work.Idle? && 0 in v'.writers && v'.writers[0].ToArm? && v'.notifier.NoEvent?
  {
    run' := Go(s, run, v, Aut(WriteBegins(0, [NUL])));
    var v0 := Next(v, Aut(WriteBegins(0, [NUL])));
    run' := Go(s, run', v0, Aut(WriteGates(0)));
    var v1 := Next(v0, Aut(WriteGates(0)));
    run' := Go(s, run', v1, Aut(WriteQueues(0)));
    v' := Next(v1, Aut(WriteQueues(0)));
  }

  lemma WriterArms(s: System, run: seq<Action>, v: System) returns (run': seq<Action>, v': System)
    requires At(s, run, v) && Early(v, [NUL]) && v.work.Idle? && 0 in v.writers && v.writers[0].ToArm?
    ensures At(s, run', v') && Early(v', [NUL]) && v'.work.Idle? && v'.dev.timer.Armed? && v'.notifier == v.notifier
    ensures v'.writers == v.writers - {0}
    ensures v'.dev.wireOpen == v.dev.wireOpen && v'.dev.resetPending == v.dev.resetPending
  {
    run' := Go(s, run, v, Aut(WriteArms(0)));
    v' := Next(v, Aut(WriteArms(0)));
  }

  lemma ResetBegins(s: System, run: seq<Action>, v: System) returns (run': seq<Action>, v': System)
    requires At(s, run, v) && v.notifier.NoEvent?
    ensures At(s, run', v') && v' == v.(notifier := ResetTimer)
  {
    run' := Go(s, run, v, Bus(BusReset));
    v' := Next(v, Bus(BusReset));
  }

  // The callback cancels timer and work; then the writer starts the timer.
  lemma CancelsComeEarly(s: System, run: seq<Action>, v: System) returns (run': seq<Action>, v': System)
    requires At(s, run, v) && Early(v, [NUL])
    requires v.work.Idle? && 0 in v.writers && v.writers[0].ToArm? && v.notifier.ResetTimer?
    ensures run <= run' && At(s, run', v') && Early(v', [NUL])
    ensures v'.work.Idle? && v'.dev.timer.Armed? && v'.notifier.ResetFlush?
  {
    run' := Go(s, run, v, Bus(NotifierStep));
    var v1 := Next(v, Bus(NotifierStep));
    run' := Go(s, run', v1, Bus(NotifierStep));
    var v2 := Next(v1, Bus(NotifierStep));
    run' := Go(s, run', v2, Aut(WriteArms(0)));
    v' := Next(v2, Aut(WriteArms(0)));
  }

  // The work item takes the byte.
  lemma WorkTakes(s: System, run: seq<Action>, v: System) returns (run': seq<Action>, v': System)
    requires At(s, run, v) && Early(v, [NUL]) && v.work.Idle? && v.dev.timer.Armed?
    ensures run <= run' && At(s, run', v') && Early(v', [])
    ensures v'.work.AtGates? && v'.work.bytes == [NUL] && v'.notifier == v.notifier
    ensures v'.dev.wireOpen == v.dev.wireOpen && v'.dev.resetPending == v.dev.resetPending && v'.writers == v.writers
  {
    run' := Go(s, run, v, Engine(TimerFires));
    var v1 := Next(v, Engine(TimerFires));
    run' := Go(s, run', v1, Engine(WorkStarts));
    var v2 := Next(v1, Engine(WorkStarts));
    run' := Go(s, run', v2, Engine(WorkDequeues));
    v' := Next(v2, Engine(WorkDequeues));
  }

  lemma CallbackClears(s: System, run: seq<Action>, v: System) returns (run': seq<Action>, v': System)
    requires At(s, run, v) && Early(v, []) && v.notifier.ResetFlush?
    ensures run <= run' && At(s, run', v') && Early(v', []) && v'.work == v.work && v'.notifier.ResetStats?
  {
    run' := Go(s, run, v, Bus(NotifierStep));
    var v1 := Next(v, Bus(NotifierStep));
    run' := Go(s, run', v1, Bus(NotifierStep));
    v' := Next(v1, Bus(NotifierStep));
  }

  lemma CallbackEnds(s: System, run: seq<Action>, v: System) returns (run': seq<Action>, v': System)
    requires At(s, run, v) && Early(v, []) && v.notifier.ResetStats?
    ensures run <= run' && At(s, run', v') && Early(v', []) && v'.work == v.work
    ensures v'.notifier.NoEvent? && v'.dev.resetPending
  {
    run' := Go(s, run, v, Bus(NotifierStep));
    var v1 := Next(v, Bus(NotifierStep));
    run' := Go(s, run', v1, Bus(NotifierStep));
    v' := Next(v1, Bus(NotifierStep));
  }

  lemma BurstArrives(s: System, run: seq<Action>, v: System) returns (run': seq<Action>, v': System)
    requires At(s, run, v) && Early(v, []) && v.work.AtGates? && v.work.bytes == [NUL]
    ensures run <= run' && At(s, run', v') && v'.dev.rx == [NUL]
    ensures v'.notifier == v.notifier && v'.dev.resetPending == v.dev.resetPending
    ensures v'.port == v.port && v'.readers == v.readers && v'.dev.wireOpen == v.dev.wireOpen
    ensures v'.work.AtRearmCheck? && v'.dev.tx == [] && v'.dev.txCap == v.dev.txCap && v'.dev.attrs == v.dev.attrs
    ensures v'.writers == v.writers && v'.busUp == v.busUp
  {
    assert BurstOk(v.dev, v.work.k);
    run' := Go(s, run, v, Engine(WorkDecides(Draws(0, 0, 0))));
    var v1 := Next(v, Engine(WorkDecides(Draws(0, 0, 0))));
    run' := Go(s, run', v1, Engine(WorkEnqueues));
    v' := Next(v1, Engine(WorkEnqueues));
  }

  // From a new device: the only byte that is queued when RESET begins is in
  // rx_fifo after the callback has ended.
  lemma QueuedByteSurvivesReset(s: System) returns (before: seq<Action>, v: System, run: seq<Action>, e: System)
    requires Initial(s)
    ensures At(s, before, v) && v.notifier.ResetTimer? && v.dev.tx == [NUL] && v.dev.rx == []
    ensures before <= run && At(s, run, e) && e.notifier.NoEvent? && e.dev.resetPending && e.dev.rx == [NUL]
  {
    before, v := PortOpens(s);
    before, v := ByteQueued(s, before, v);
    before, v := ResetBegins(s, before, v);
    run, e := CancelsComeEarly(s, before, v);
    run, e := WorkTakes(s, run, e);
    run, e := CallbackClears(s, run, e);
    run, e := CallbackEnds(s, run, e);
    run, e := BurstArrives(s, run, e);
  }
}

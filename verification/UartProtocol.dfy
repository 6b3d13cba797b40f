// One UART with everything that runs beside it: AUT writers, the transmit timer
// and its work item, wire readers, the wire session, the TTY port and the bus
// notifier, interleaved one critical section at a time.
module UartProtocol {
  import opened FaultGate
  import opened UartDevice
  import opened UartLedger

  // What a work run remembers for its rearm: rate and attributes as it read
  // them, and the length of its burst.
  datatype Pace = Pace(baud: nat, n: nat, latency: nat, jitter: nat)

  datatype Work =
    | Idle
    | AtDequeue
    | AtGates(k: nat, bytes: Bytes)
    | AtEnqueue(k: nat, bytes: Bytes, flip: Flip, pace: Pace)
    | AtRearmCheck(pace: Pace)
    | AtRearm(pace: Pace)

  // An AUT write past the check of the bus: about to look at the device's own gate,
  // to queue its bytes, or to start the timer.
  datatype Writer = ToGate(bytes: Bytes) | ToQueue(bytes: Bytes, baud: nat) | ToArm(baud: nat)

  // A wire_read past its first check: about to wait, or to take the lock.
  datatype Reader = ToWait(count: nat) | ToLock(count: nat, nonblock: bool)

  // The bus notifier callback of this device; bus commands are serialised.
  datatype Notifier =
    | NoEvent
    | DownTimer | DownWork | DownFlush
    | ResetTimer | ResetWork | ResetFlush | ResetAttrs | ResetStats | ResetSignal

  // The TTY port between its first open and its last close.  While closing it is
  // about to cancel the work item, to count what is queued, to free tx_fifo, or to
  // free rx_fifo.
  datatype Port = Closed | TxReady | BothReady | Open | CloseWork | CloseCount | CloseTx | CloseRx

  datatype System = System(
    dev: Uart,
    busUp: bool,
    port: Port,
    work: Work,
    writers: map<nat, Writer>,
    readers: map<nat, Reader>,
    notifier: Notifier)

  // --- the AUT writing ---

  datatype AutStep = WriteBegins(t: nat, bytes: Bytes) | WriteGates(t: nat) | WriteQueues(t: nat) | WriteArms(t: nat)

  predicate AutEnabled(s: System, x: AutStep) {
    match x
    case WriteBegins(t, _) => t !in s.writers && s.port.Open?
    case WriteGates(t) => t in s.writers && s.writers[t].ToGate?
    case WriteQueues(t) => t in s.writers && s.writers[t].ToQueue?
    case WriteArms(t) => t in s.writers && s.writers[t].ToArm?
  }

  function AutNext(s: System, x: AutStep): System
    requires AutEnabled(s, x)
  {
    match x
    case WriteBegins(t, bytes) => if s.busUp then s.(writers := s.writers[t := ToGate(bytes)]) else s
    case WriteGates(t) =>
      if s.dev.attrs.enabled then s.(writers := s.writers[t := ToQueue(s.writers[t].bytes, s.dev.baud)])
      else s.(writers := s.writers - {t})
    case WriteQueues(t) =>
      if Fits(s.writers[t].bytes, |s.dev.tx|, s.dev.txCap) > 0
      then s.(dev := EnqueueTx(s.dev, s.writers[t].bytes), writers := s.writers[t := ToArm(s.writers[t].baud)])
      else s.(writers := s.writers - {t})
    case WriteArms(t) => s.(dev := StartTimer(s.dev, ByteNs(s.writers[t].baud)), writers := s.writers - {t})
  }

  // --- the transmit engine: timer and work item ---

  datatype EngineStep =
    | TimerFires | WorkStarts | WorkDequeues | WorkDecides(draws: Draws) | WorkEnqueues
    | WorkChecks | WorkRearms(hi: Draw, lo: Draw)

  predicate EngineEnabled(s: System, x: EngineStep) {
    match x
    case TimerFires => s.dev.timer.Armed?
    case WorkStarts => s.dev.workPending && s.work.Idle?
    case WorkDequeues => s.work.AtDequeue?
    case WorkDecides(_) => s.work.AtGates? && s.work.bytes != [] && s.work.k < |s.dev.led.fates|
    case WorkEnqueues => s.work.AtEnqueue? && s.work.k < |s.dev.led.fates|
    case WorkChecks => s.work.AtRearmCheck?
    case WorkRearms(_, _) => s.work.AtRearm?
  }

  // What the verdict on a burst makes of the work item and the device.
  function Decided(s: System, w: Draws): System
    requires s.work.AtGates? && s.work.bytes != [] && s.work.k < |s.dev.led.fates|
  {
    var a, n := s.dev.attrs, |s.work.bytes|;
    var pace := Pace(s.dev.baud, n, a.latency, a.jitter);
    match Decide(a, n, w)
    case Drop => s.(dev := DropBurst(s.dev, s.work.k, n), work := AtRearmCheck(pace))
    case Send(f) =>
      if FlipFits(f, n) then s.(work := AtEnqueue(s.work.k, Corrupt(s.work.bytes, f), f, pace)) else s
  }

  function EngineNext(s: System, x: EngineStep): System
    requires EngineEnabled(s, x)
  {
    match x
    case TimerFires => s.(dev := s.dev.(timer := Off, workPending := true))
    case WorkStarts => s.(dev := s.dev.(workPending := false), work := AtDequeue)
    case WorkDequeues =>
      if s.dev.tx == [] then s.(work := Idle)
      else s.(dev := Dequeue(s.dev), work := AtGates(|s.dev.led.fates|, s.dev.tx[..BurstLen(s.dev)]))
    case WorkDecides(w) => Decided(s, w)
    case WorkEnqueues =>
      s.(dev := EnqueueRx(s.dev, s.work.k, s.work.bytes, s.work.flip), work := AtRearmCheck(s.work.pace))
    case WorkChecks => s.(work := if s.dev.tx == [] then Idle else AtRearm(s.work.pace))
    case WorkRearms(hi, lo) => s.(dev := StartTimer(s.dev, PacedDelay(s.work.pace, hi, lo)), work := Idle)
  }

  function PacedDelay(p: Pace, hi: Draw, lo: Draw): nat {
    RearmDelay(p.baud, p.n, p.latency, p.jitter, hi, lo)
  }

  // --- the TTY port opening and closing ---

  datatype PortStep =
    | ActivateTx(size: nat) | ActivateRx(size: nat, ok: bool) | ActivateDone
    | StopsTimer | StopsWork | CountsTx | FreesTx | FreesRx

  predicate PortEnabled(s: System, x: PortStep) {
    match x
    case ActivateTx(size) => s.port.Closed? && BUF_MIN <= size <= BUF_MAX
    case ActivateRx(size, _) => s.port.TxReady? && BUF_MIN <= size <= BUF_MAX
    case ActivateDone => s.port.BothReady?
    // the TTY layer lets no write run into the last close
    case StopsTimer => s.port.Open? && s.writers == map[]
    // cancelling the work item waits until it is not running
    case StopsWork => s.port.CloseWork? && s.work.Idle?
    case CountsTx => s.port.CloseCount?
    case FreesTx => s.port.CloseTx?
    case FreesRx => s.port.CloseRx?
  }

  function PortNext(s: System, x: PortStep): System
    requires PortEnabled(s, x)
  {
    match x
    case ActivateTx(size) => s.(dev := s.dev.(txCap := size), port := TxReady)
    case ActivateRx(size, ok) =>
      if ok then s.(dev := s.dev.(rxCap := size), port := BothReady) else s.(dev := s.dev.(txCap := 0), port := Closed)
    case ActivateDone => s.(dev := s.dev.(portActive := true), port := Open)
    case StopsTimer => s.(dev := s.dev.(timer := Off), port := CloseWork)
    case StopsWork => s.(dev := s.dev.(workPending := false), port := CloseCount)
    case CountsTx => s.(dev := CountTx(s.dev), port := CloseTx)
    case FreesTx => s.(dev := FreeTx(s.dev), port := CloseRx)
    case FreesRx => s.(dev := FreeRx(s.dev), port := Closed)
  }

  // --- the bus: commands, and the callback of this device step by step ---

  datatype BusStep = BusDown | BusUp | BusReset | NotifierStep

  predicate BusEnabled(s: System, x: BusStep) {
    match x
    case NotifierStep => !s.notifier.NoEvent? && (s.notifier.DownWork? || s.notifier.ResetWork? ==> s.work.Idle?)
    case _ => s.notifier.NoEvent?
  }

  // What the callback does to the device at each of its places.
  function Notified(d: Uart, n: Notifier): Uart {
    match n
    case NoEvent => d
    case DownTimer => d.(timer := Off)
    case DownWork => d.(workPending := false)
    case DownFlush => FlushTx(d, true)
    case ResetTimer => d.(timer := Off)
    case ResetWork => d.(workPending := false)
    case ResetFlush => FlushTx(d, false)
    case ResetAttrs => d.(attrs := NO_FAULTS)
    case ResetStats => ClearStats(d)
    case ResetSignal => d.(resetPending := true)
  }

  function NextPlace(n: Notifier): Notifier {
    match n
    case DownTimer => DownWork
    case DownWork => DownFlush
    case ResetTimer => ResetWork
    case ResetWork => ResetFlush
    case ResetFlush => ResetAttrs
    case ResetAttrs => ResetStats
    case ResetStats => ResetSignal
    case _ => NoEvent
  }

  function BusNext(s: System, x: BusStep): System
    requires BusEnabled(s, x)
  {
    match x
    case BusDown => if s.busUp then s.(busUp := false, notifier := DownTimer) else s
    case BusUp => s.(busUp := true)
    case BusReset => s.(notifier := ResetTimer)
    case NotifierStep =>
      s.(dev := Notified(s.dev, s.notifier), notifier := NextPlace(s.notifier), busUp := s.busUp || s.notifier.ResetSignal?)
  }

  // --- the wire device ---

  datatype WireStep =
    | WireOpens | WireReleases
    | ReadBegins(r: nat, count: nat, nonblock: bool) | ReadWakes(r: nat) | ReadLocks(r: nat)
    | WireWrites(count: nat, grants: seq<nat>)

  predicate WireEnabled(s: System, x: WireStep) {
    match x
    case WireOpens => !s.dev.wireOpen
    // the file is released when its last user is gone, so no read is under way
    case WireReleases => s.dev.wireOpen && s.readers == map[]
    case ReadBegins(r, _, _) => s.dev.wireOpen && r !in s.readers
    // a blocked reader wakes when there is something to see
    case ReadWakes(r) => r in s.readers && s.readers[r].ToWait? && (s.dev.rx != [] || !s.dev.portActive || s.dev.resetPending)
    case ReadLocks(r) => r in s.readers && s.readers[r].ToLock?
    case WireWrites(_, _) => s.dev.wireOpen
  }

  // The locked section of wire_read.
  function ReadNext(s: System, r: nat): System
    requires r in s.readers && s.readers[r].ToLock?
  {
    if !s.dev.portActive then s.(readers := s.readers - {r})
    else if s.dev.rx == [] && !s.readers[r].nonblock then
      s.(readers := s.readers[r := ToWait(s.readers[r].count)])
    else s.(dev := TakeRx(s.dev, r, s.readers[r].count), readers := s.readers - {r})
  }

  function WireNext(s: System, x: WireStep): System
    requires WireEnabled(s, x)
  {
    match x
    case WireOpens => s.(dev := s.dev.(wireOpen := true, resetPending := false))
    case WireReleases => s.(dev := DiscardRx(s.dev).(wireOpen := false))
    case ReadBegins(r, count, nonblock) =>
      // a call takes no more than one page
      if count == 0 || s.dev.resetPending then s
      else s.(readers := s.readers[r := if nonblock then ToLock(Min(count, PAGE), true) else ToWait(Min(count, PAGE))])
    case ReadWakes(r) =>
      if s.dev.resetPending then s.(readers := s.readers - {r})
      else s.(readers := s.readers[r := ToLock(s.readers[r].count, false)])
    case ReadLocks(r) => ReadNext(s, r)
    case WireWrites(count, grants) => s.(dev := CountWireWrite(s.dev, Insert(count, 0, grants)))
  }

  // --- attributes ---

  datatype AttrStep = Configure(attrs: Attrs) | SetBaud(baud: nat) | ClearCounters

  predicate AttrsAccepted(a: Attrs) {
    a.latency <= MAX_FAULT_NS && a.jitter <= MAX_FAULT_NS && a.dropPpm <= PPM && a.flipPpm <= PPM
  }

  predicate AttrEnabled(x: AttrStep) {
    x.Configure? ==> AttrsAccepted(x.attrs)
  }

  function AttrNext(s: System, x: AttrStep): System {
    match x
    case Configure(attrs) => s.(dev := s.dev.(attrs := attrs))
    case SetBaud(baud) => s.(dev := s.dev.(baud := baud))
    case ClearCounters => s.(dev := ClearStats(s.dev))
  }

  // --- the step relation ---

  datatype Action =
    | Aut(aut: AutStep)
    | Engine(engine: EngineStep)
    | TtyPort(step: PortStep)
    | Bus(bus: BusStep)
    | Wire(wire: WireStep)
    | Attr(attr: AttrStep)

  predicate Enabled(s: System, a: Action) {
    match a
    case Aut(x) => AutEnabled(s, x)
    case Engine(x) => EngineEnabled(s, x)
    case TtyPort(x) => PortEnabled(s, x)
    case Bus(x) => BusEnabled(s, x)
    case Wire(x) => WireEnabled(s, x)
    case Attr(x) => AttrEnabled(x)
  }

  function Next(s: System, a: Action): System
    requires Enabled(s, a)
  {
    match a
    case Aut(x) => AutNext(s, x)
    case Engine(x) => EngineNext(s, x)
    case TtyPort(x) => PortNext(s, x)
    case Bus(x) => BusNext(s, x)
    case Wire(x) => WireNext(s, x)
    case Attr(x) => AttrNext(s, x)
  }

  // --- runs ---

  predicate Runs(s: System, run: seq<Action>)
    decreases |run|, 0
  {
    run == [] || (Runs(s, run[..|run| - 1]) && Enabled(After(s, run[..|run| - 1]), run[|run| - 1]))
  }

  function After(s: System, run: seq<Action>): System
    requires Runs(s, run)
    decreases |run|, 1
  {
    if run == [] then s else Next(After(s, run[..|run| - 1]), run[|run| - 1])
  }

  lemma Extend(s: System, run: seq<Action>, a: Action)
    requires Runs(s, run) && Enabled(After(s, run), a)
    ensures Runs(s, run + [a]) && After(s, run + [a]) == Next(After(s, run), a)
  {
    assert (run + [a])[..|run + [a]| - 1] == run;
  }

  // A run, and a run from where it ends, are one run.
  lemma {:induction false} Join(s: System, run: seq<Action>, more: seq<Action>)
    requires Runs(s, run) && Runs(After(s, run), more)
    ensures Runs(s, run + more) && After(s, run + more) == After(After(s, run), more)
  {
    if more == [] {
      assert run + more == run;
    } else {
      var front := more[..|more| - 1];
      Join(s, run, front);
      Extend(s, run + front, more[|more| - 1]);
      LastOfBoth(run, more);
    }
  }

  lemma LastOfBoth(run: seq<Action>, more: seq<Action>)
    requires more != []
    ensures run + more[..|more| - 1] + [more[|more| - 1]] == run + more
  {}

  lemma FrontOfBoth(run: seq<Action>, n: nat)
    requires n < |run|
    ensures var front := run[..|run| - 1];
      && front[..n] == run[..n] && run[n..] != []
      && run[n..][..|run[n..]| - 1] == front[n..] && run[n..][|run[n..]| - 1] == run[|run| - 1]
  {}

  lemma {:induction false} Split(s: System, run: seq<Action>, n: nat)
    requires Runs(s, run) && n <= |run|
    ensures Runs(s, run[..n]) && Runs(After(s, run[..n]), run[n..])
    ensures After(After(s, run[..n]), run[n..]) == After(s, run)
    decreases |run|
  {
    if n == |run| {
      assert run[..n] == run && run[n..] == [];
    } else {
      var front := run[..|run| - 1];
      Split(s, front, n);
      FrontOfBoth(run, n);
    }
  }

  // --- what every step keeps ---

  // The last close is under way and has yet to free tx_fifo.
  predicate ClosesTx(p: Port) {
    p.CloseWork? || p.CloseCount? || p.CloseTx?
  }

  // The allocation of the fifos follows the life of the port.
  ghost predicate PortOk(s: System) {
    && (s.dev.txCap > 0 <==> s.port.TxReady? || s.port.BothReady? || s.port.Open? || ClosesTx(s.port))
    && (s.dev.rxCap > 0 <==> s.port.BothReady? || s.port.Open? || ClosesTx(s.port) || s.port.CloseRx?)
    && (s.dev.rxCap > 0 ==> s.dev.rxCap >= BUF_MIN)
    && (s.dev.portActive <==> s.port.Open? || ClosesTx(s.port) || s.port.CloseRx?)
    && (s.readers != map[] ==> s.dev.wireOpen)
    && (!s.port.Open? ==> s.writers == map[])
    && (!s.port.Open? && !ClosesTx(s.port) ==> s.dev.tx == [])
  }

  // The work item holds exactly the undecided burst, if there is one.
  ghost predicate BurstOk(d: Uart, k: nat) {
    InFlightAt(d.led, k) && d.led.fates[k].from + d.led.fates[k].len <= |d.led.accepted|
  }

  ghost predicate WorkOk(d: Uart, w: Work) {
    match w
    case AtGates(k, bytes) => BurstOk(d, k) && bytes == Raw(d.led, k) && bytes != []
    case AtEnqueue(k, bytes, flip, _) =>
      BurstOk(d, k) && FlipFits(flip, d.led.fates[k].len) && bytes == Corrupt(Raw(d.led, k), flip)
    case _ => NoneInFlight(d.led)
  }

  ghost predicate DataOk(d: Uart, w: Work) {
    UartOk(d) && WorkOk(d, w)
  }

  ghost predicate SomeoneArms(s: System) {
    exists t :: t in s.writers && s.writers[t].ToArm?
  }

  // A queued byte never waits for nothing: the timer, the work item, a writer, a
  // callback of the bus or the last close still looks after it.
  ghost predicate Attended(s: System) {
    || s.dev.timer.Armed?
    || s.dev.workPending
    || !s.work.Idle?
    || SomeoneArms(s)
    || s.notifier.DownWork? || s.notifier.DownFlush? || s.notifier.ResetWork? || s.notifier.ResetFlush?
    || ClosesTx(s.port)
  }

  ghost predicate NoneStranded(s: System) {
    s.dev.tx != [] ==> Attended(s)
  }

  ghost predicate Inv(s: System) {
    && DataOk(s.dev, s.work)
    && PortOk(s)
    && NoneStranded(s)
    && AttrsAccepted(s.dev.attrs)
  }

  // --- the data: fifos, ledger, statistics and the burst in flight ---

  // The burst in flight does not mind what is accepted, flushed, read or
  // counted beside it.
  ghost predicate SameBurst(l: Ledger, l': Ledger) {
    && l.accepted <= l'.accepted
    && |l.fates| <= |l'.fates| && l'.fates[..|l.fates|] == l.fates
    && (forall j | |l.fates| <= j < |l'.fates| :: l'.fates[j].how.Flushed?)
  }

  lemma BurstStays(d: Uart, d': Uart, k: nat)
    requires BurstOk(d, k) && SameBurst(d.led, d'.led)
    ensures BurstOk(d', k) && Raw(d'.led, k) == Raw(d.led, k) && d'.led.fates[k] == d.led.fates[k]
  {
    assert forall j | 0 <= j < |d.led.fates| :: d'.led.fates[j] == d.led.fates[j];
  }

  lemma NoBurstStays(d: Uart, d': Uart)
    requires NoneInFlight(d.led) && SameBurst(d.led, d'.led)
    ensures NoneInFlight(d'.led)
  {
    assert forall j | 0 <= j < |d.led.fates| :: d'.led.fates[j] == d.led.fates[j];
  }

  predicate HoldsBurst(w: Work) {
    w.AtGates? || w.AtEnqueue?
  }

  lemma WorkStays(d: Uart, d': Uart, w: Work)
    requires WorkOk(d, w) && SameBurst(d.led, d'.led)
    ensures WorkOk(d', w)
  {
    if HoldsBurst(w) {
      BurstStays(d, d', w.k);
    } else {
      NoBurstStays(d, d');
    }
  }

  lemma FlushSame(d: Uart, counted: bool)
    ensures SameBurst(d.led, FlushTx(d, counted).led)
  {}

  lemma AcceptSame(d: Uart, bytes: Bytes)
    ensures SameBurst(d.led, EnqueueTx(d, bytes).led)
  {}

  predicate SameData(d: Uart, d': Uart) {
    d'.led == d.led && d'.stats == d.stats && d'.tx == d.tx && d'.rx == d.rx
  }

  predicate SameCaps(d: Uart, d': Uart) {
    d'.txCap == d.txCap && d'.rxCap == d.rxCap
  }

  // Nothing the ledger speaks of has changed.
  lemma Untouched(d: Uart, d': Uart, w: Work)
    requires DataOk(d, w) && SameData(d, d') && |d.tx| <= d'.txCap && |d.rx| <= d'.rxCap
    ensures DataOk(d', w)
  {
    FlushSame(d, true);
    WorkStays(d, d', w);
  }

  lemma FlushKeepsData(d: Uart, counted: bool, w: Work)
    requires DataOk(d, w)
    ensures DataOk(FlushTx(d, counted), w)
    ensures FlushTx(d, counted).tx == [] && FlushTx(d, counted).rx == d.rx && SameCaps(d, FlushTx(d, counted))
  {
    FlushKeeps(d, counted);
    FlushSame(d, counted);
    WorkStays(d, FlushTx(d, counted), w);
  }

  lemma DiscardKeepsData(d: Uart, w: Work)
    requires DataOk(d, w)
    ensures DataOk(DiscardRx(d), w)
  {
    DiscardKeeps(d);
    WorkStays(d, DiscardRx(d), w);
  }

  lemma ClearKeepsData(d: Uart, w: Work)
    requires DataOk(d, w)
    ensures DataOk(ClearStats(d), w)
  {
    ClearKeeps(d);
    WorkStays(d, ClearStats(d), w);
  }

  lemma EnqueueKeepsData(d: Uart, bytes: Bytes, w: Work)
    requires DataOk(d, w)
    ensures DataOk(EnqueueTx(d, bytes), w)
  {
    EnqueueTxKeeps(d, bytes);
    AcceptSame(d, bytes);
    WorkStays(d, EnqueueTx(d, bytes), w);
  }

  lemma TakeKeepsData(d: Uart, r: nat, count: nat, w: Work)
    requires DataOk(d, w)
    ensures DataOk(TakeRx(d, r, count), w)
  {
    TakeRxKeeps(d, r, count);
    WorkStays(d, TakeRx(d, r, count), w);
  }

  lemma SimulatorKeepsData(d: Uart, r: Inserted, w: Work)
    requires DataOk(d, w)
    ensures DataOk(CountWireWrite(d, r), w)
  {
    WireWriteKeeps(d, r);
    WorkStays(d, CountWireWrite(d, r), w);
  }

  lemma AutKeepsData(s: System, x: AutStep)
    requires DataOk(s.dev, s.work) && AutEnabled(s, x)
    ensures DataOk(AutNext(s, x).dev, AutNext(s, x).work)
  {
    if x.WriteQueues? {
      EnqueueKeepsData(s.dev, s.writers[x.t].bytes, s.work);
    } else {
      Untouched(s.dev, AutNext(s, x).dev, s.work);
    }
  }

  lemma DecidedKeeps(s: System, w: Draws)
    requires DataOk(s.dev, s.work) && EngineEnabled(s, WorkDecides(w))
    ensures DataOk(Decided(s, w).dev, Decided(s, w).work)
  {
    var f := Decide(s.dev.attrs, |s.work.bytes|, w);
    if f.Drop? {
      DropKeeps(s.dev, s.work.k);
    } else {
      assert FlipFits(f.flip, |s.work.bytes|);
    }
  }

  lemma EnqueuesKeeps(s: System)
    requires DataOk(s.dev, s.work) && EngineEnabled(s, WorkEnqueues)
    ensures DataOk(EngineNext(s, WorkEnqueues).dev, EngineNext(s, WorkEnqueues).work)
  {
    EnqueueRxKeeps(s.dev, s.work.k, s.work.bytes, s.work.flip);
  }

  lemma DequeuesKeeps(s: System)
    requires DataOk(s.dev, s.work) && EngineEnabled(s, WorkDequeues)
    ensures DataOk(EngineNext(s, WorkDequeues).dev, EngineNext(s, WorkDequeues).work)
  {
    if s.dev.tx != [] {
      DequeueKeeps(s.dev);
    }
  }

  lemma EngineLeavesData(s: System, x: EngineStep)
    requires EngineEnabled(s, x) && (x.TimerFires? || x.WorkStarts? || x.WorkChecks? || x.WorkRearms?)
    ensures SameData(s.dev, EngineNext(s, x).dev) && SameCaps(s.dev, EngineNext(s, x).dev)
    ensures EngineNext(s, x).work == s.work || (!HoldsBurst(s.work) && !HoldsBurst(EngineNext(s, x).work))
  {}

  lemma OtherIdleWork(d: Uart, w: Work, w': Work)
    requires DataOk(d, w) && !HoldsBurst(w) && !HoldsBurst(w')
    ensures DataOk(d, w')
  {}

  lemma EngineKeepsData(s: System, x: EngineStep)
    requires DataOk(s.dev, s.work) && EngineEnabled(s, x)
    ensures DataOk(EngineNext(s, x).dev, EngineNext(s, x).work)
  {
    if x.WorkDequeues? {
      DequeuesKeeps(s);
    } else if x.WorkDecides? {
      DecidedKeeps(s, x.draws);
    } else if x.WorkEnqueues? {
      EnqueuesKeeps(s);
    } else {
      EngineLeavesData(s, x);
      var s' := EngineNext(s, x);
      Untouched(s.dev, s'.dev, s.work);
      if s'.work != s.work {
        OtherIdleWork(s'.dev, s.work, s'.work);
      }
    }
  }

  lemma FreeTxKeeps(d: Uart, w: Work)
    requires DataOk(d, w)
    ensures DataOk(FreeTx(d), w)
  {
    FlushKeepsData(d, false, w);
    Untouched(FlushTx(d, false), FreeTx(d), w);
  }

  lemma CountKeepsData(d: Uart, w: Work)
    requires DataOk(d, w)
    ensures DataOk(CountTx(d), w)
  {
    CountKeeps(d);
    WorkStays(d, CountTx(d), w);
  }

  lemma FreeRxKeeps(d: Uart, w: Work)
    requires DataOk(d, w)
    ensures DataOk(FreeRx(d), w) && DataOk(DiscardRx(d).(wireOpen := false), w)
  {
    DiscardKeepsData(d, w);
    Untouched(DiscardRx(d), FreeRx(d), w);
    Untouched(DiscardRx(d), DiscardRx(d).(wireOpen := false), w);
  }

  lemma PortKeepsData(s: System, x: PortStep)
    requires DataOk(s.dev, s.work) && PortOk(s) && PortEnabled(s, x)
    ensures DataOk(PortNext(s, x).dev, PortNext(s, x).work)
  {
    if x.CountsTx? {
      CountKeepsData(s.dev, s.work);
    } else if x.FreesTx? {
      FreeTxKeeps(s.dev, s.work);
    } else if x.FreesRx? {
      FreeRxKeeps(s.dev, s.work);
    } else {
      Untouched(s.dev, PortNext(s, x).dev, s.work);
    }
  }

  lemma NotifiedLeavesData(d: Uart, n: Notifier)
    requires !n.DownFlush? && !n.ResetFlush? && !n.ResetStats?
    ensures SameData(d, Notified(d, n)) && SameCaps(d, Notified(d, n))
  {}

  lemma NotifiedKeepsData(d: Uart, n: Notifier, w: Work)
    requires DataOk(d, w)
    ensures DataOk(Notified(d, n), w)
  {
    if n.DownFlush? || n.ResetFlush? {
      FlushKeepsData(d, n.DownFlush?, w);
    } else if n.ResetStats? {
      ClearKeepsData(d, w);
    } else {
      NotifiedLeavesData(d, n);
      Untouched(d, Notified(d, n), w);
    }
  }

  lemma BusKeepsData(s: System, x: BusStep)
    requires DataOk(s.dev, s.work) && BusEnabled(s, x)
    ensures DataOk(BusNext(s, x).dev, BusNext(s, x).work)
  {
    if x.NotifierStep? {
      NotifiedKeepsData(s.dev, s.notifier, s.work);
    }
  }

  lemma WireKeepsData(s: System, x: WireStep)
    requires DataOk(s.dev, s.work) && WireEnabled(s, x)
    ensures DataOk(WireNext(s, x).dev, WireNext(s, x).work)
  {
    if x.ReadLocks? {
      TakeKeepsData(s.dev, x.r, s.readers[x.r].count, s.work);
    } else if x.WireWrites? {
      SimulatorKeepsData(s.dev, Insert(x.count, 0, x.grants), s.work);
    } else if x.WireReleases? {
      FreeRxKeeps(s.dev, s.work);
    } else {
      Untouched(s.dev, WireNext(s, x).dev, s.work);
    }
  }

  lemma AttrKeepsData(s: System, x: AttrStep)
    requires DataOk(s.dev, s.work)
    ensures DataOk(AttrNext(s, x).dev, AttrNext(s, x).work)
  {
    if x.ClearCounters? {
      ClearKeepsData(s.dev, s.work);
    } else {
      Untouched(s.dev, AttrNext(s, x).dev, s.work);
    }
  }

  lemma StepKeepsData(s: System, a: Action)
    requires DataOk(s.dev, s.work) && PortOk(s) && Enabled(s, a)
    ensures DataOk(Next(s, a).dev, Next(s, a).work)
  {
    match a {
      case Aut(x) => AutKeepsData(s, x);
      case Engine(x) => EngineKeepsData(s, x);
      case TtyPort(x) => PortKeepsData(s, x);
      case Bus(x) => BusKeepsData(s, x);
      case Wire(x) => WireKeepsData(s, x);
      case Attr(x) => AttrKeepsData(s, x);
    }
  }

  // --- the port ---

  predicate SameAllocation(s: System, s': System) {
    s'.port == s.port && SameCaps(s.dev, s'.dev) && s'.dev.portActive == s.dev.portActive
  }

  lemma AutKeepsPort(s: System, x: AutStep)
    requires PortOk(s) && AutEnabled(s, x)
    ensures SameAllocation(s, AutNext(s, x)) && s.port.Open? && PortOk(AutNext(s, x))
  {}

  lemma EngineKeepsPort(s: System, x: EngineStep)
    requires PortOk(s) && EngineEnabled(s, x)
    ensures SameAllocation(s, EngineNext(s, x)) && PortOk(EngineNext(s, x))
  {
    if x.WorkDecides? {
      DecidedKeepsPort(s, x.draws);
    }
  }

  lemma DecidedKeepsPort(s: System, w: Draws)
    requires PortOk(s) && EngineEnabled(s, WorkDecides(w))
    ensures SameAllocation(s, Decided(s, w)) && PortOk(Decided(s, w))
  {}

  lemma PortMoves(s: System, x: PortStep)
    requires PortOk(s) && PortEnabled(s, x)
    ensures PortOk(PortNext(s, x))
  {}

  lemma NotifiedKeepsPort(d: Uart, n: Notifier)
    ensures SameCaps(d, Notified(d, n)) && Notified(d, n).portActive == d.portActive
    ensures d.tx == [] ==> Notified(d, n).tx == []
  {}

  lemma BusKeepsPort(s: System, x: BusStep)
    requires BusEnabled(s, x)
    ensures SameAllocation(s, BusNext(s, x))
    ensures PortOk(s) ==> PortOk(BusNext(s, x))
  {
    NotifiedKeepsPort(s.dev, s.notifier);
  }

  lemma WireKeepsPort(s: System, x: WireStep)
    requires WireEnabled(s, x)
    ensures SameAllocation(s, WireNext(s, x))
    ensures PortOk(s) ==> PortOk(WireNext(s, x))
  {}

  lemma AttrKeepsPort(s: System, x: AttrStep)
    ensures SameAllocation(s, AttrNext(s, x))
    ensures PortOk(s) ==> PortOk(AttrNext(s, x))
  {}

  lemma StepKeepsPort(s: System, a: Action)
    requires PortOk(s) && Enabled(s, a)
    ensures PortOk(Next(s, a))
  {
    match a {
      case Aut(x) => AutKeepsPort(s, x);
      case Engine(x) => EngineKeepsPort(s, x);
      case TtyPort(x) => PortMoves(s, x);
      case Bus(x) => BusKeepsPort(s, x);
      case Wire(x) => WireKeepsPort(s, x);
      case Attr(x) => AttrKeepsPort(s, x);
    }
  }

  // --- no stranded byte ---

  lemma AutStrandsNone(s: System, x: AutStep)
    requires NoneStranded(s) && AutEnabled(s, x)
    ensures NoneStranded(AutNext(s, x))
  {
    var s' := AutNext(s, x);
    if x.WriteQueues? && Fits(s.writers[x.t].bytes, |s.dev.tx|, s.dev.txCap) > 0 {
      assert s'.writers[x.t].ToArm?;
    } else if !x.WriteArms? && SomeoneArms(s) {
      var t :| t in s.writers && s.writers[t].ToArm?;
      assert t in s'.writers && s'.writers[t].ToArm?;
    }
  }

  lemma EngineStrandsNone(s: System, x: EngineStep)
    requires NoneStranded(s) && EngineEnabled(s, x)
    ensures NoneStranded(EngineNext(s, x))
  {}

  lemma NotifiedAttends(s: System)
    requires NoneStranded(s) && BusEnabled(s, NotifierStep)
    ensures NoneStranded(BusNext(s, NotifierStep))
  {
    NotifiedTx(s.dev, s.notifier);
  }

  // Only the two flushes take from tx_fifo; timer and work item are cancelled
  // just before them.
  lemma NotifiedTx(d: Uart, n: Notifier)
    ensures Notified(d, n).tx == if n.DownFlush? || n.ResetFlush? then [] else d.tx
    ensures !n.DownTimer? && !n.ResetTimer? ==> Notified(d, n).timer == d.timer
    ensures !n.DownWork? && !n.ResetWork? ==> Notified(d, n).workPending == d.workPending
  {}

  lemma PortStrandsNone(s: System, x: PortStep)
    requires NoneStranded(s) && PortEnabled(s, x)
    ensures NoneStranded(PortNext(s, x))
  {}

  lemma WireStrandsNone(s: System, x: WireStep)
    requires NoneStranded(s) && WireEnabled(s, x)
    ensures NoneStranded(WireNext(s, x))
  {}

  lemma StepStrandsNone(s: System, a: Action)
    requires NoneStranded(s) && Enabled(s, a)
    ensures NoneStranded(Next(s, a))
  {
    match a {
      case Aut(x) => AutStrandsNone(s, x);
      case Engine(x) => EngineStrandsNone(s, x);
      case TtyPort(x) => PortStrandsNone(s, x);
      case Bus(x) => BusStrandsNone(s, x);
      case Wire(x) => WireStrandsNone(s, x);
      case Attr(x) => AttrStrandsNone(s, x);
    }
  }

  lemma BusStrandsNone(s: System, x: BusStep)
    requires NoneStranded(s) && BusEnabled(s, x)
    ensures NoneStranded(BusNext(s, x))
  {
    if x.NotifierStep? {
      NotifiedAttends(s);
    }
  }

  lemma AttrStrandsNone(s: System, x: AttrStep)
    requires NoneStranded(s)
    ensures NoneStranded(AttrNext(s, x))
  {}

  // --- all of it ---

  lemma AutAttrs(s: System, x: AutStep)
    requires AutEnabled(s, x)
    ensures AutNext(s, x).dev.attrs == s.dev.attrs
  {}

  lemma EngineAttrs(s: System, x: EngineStep)
    requires EngineEnabled(s, x)
    ensures EngineNext(s, x).dev.attrs == s.dev.attrs
  {}

  lemma PortAttrs(s: System, x: PortStep)
    requires PortEnabled(s, x)
    ensures PortNext(s, x).dev.attrs == s.dev.attrs
  {}

  lemma WireAttrs(s: System, x: WireStep)
    requires WireEnabled(s, x)
    ensures WireNext(s, x).dev.attrs == s.dev.attrs
  {}

  lemma AttrsStay(s: System, a: Action)
    requires AttrsAccepted(s.dev.attrs) && Enabled(s, a)
    ensures AttrsAccepted(Next(s, a).dev.attrs)
  {
    match a {
      case Aut(x) => AutAttrs(s, x);
      case Engine(x) => EngineAttrs(s, x);
      case TtyPort(x) => PortAttrs(s, x);
      case Bus(x) => NotifiedAttrs(s.dev, s.notifier);
      case Wire(x) => WireAttrs(s, x);
      case Attr(x) =>
    }
  }

  lemma NotifiedAttrs(d: Uart, n: Notifier)
    ensures Notified(d, n).attrs == if n.ResetAttrs? then NO_FAULTS else d.attrs
  {}

  lemma StepKeepsInv(s: System, a: Action)
    requires Inv(s) && Enabled(s, a)
    ensures Inv(Next(s, a))
  {
    StepKeepsData(s, a);
    StepKeepsPort(s, a);
    StepStrandsNone(s, a);
    AttrsStay(s, a);
  }

  // One more step of a run that has come to v.
  lemma Further(s: System, run: seq<Action>, v: System, a: Action) returns (run': seq<Action>)
    requires Runs(s, run) && After(s, run) == v && Enabled(v, a)
    ensures run' == run + [a] && Runs(s, run') && After(s, run') == Next(v, a)
    ensures Inv(v) ==> Inv(Next(v, a))
  {
    Extend(s, run, a);
    run' := run + [a];
    if Inv(v) {
      StepKeepsInv(v, a);
    }
  }

  lemma {:induction false} RunKeepsInv(s: System, run: seq<Action>)
    requires Inv(s) && Runs(s, run)
    ensures Inv(After(s, run))
  {
    if run != [] {
      RunKeepsInv(s, run[..|run| - 1]);
      StepKeepsInv(After(s, run[..|run| - 1]), run[|run| - 1]);
    }
  }

  predicate EmptyLedger(l: Ledger) {
    && |l.accepted| == l.taken == |l.fates| == |l.outs| == |l.delivered| == l.consumed == l.discarded == |l.readLog| == 0
    && l.rxBytes == l.rxOverruns == l.closeDrops == 0 && l.sums == l.base == NO_TOTALS
  }

  // The state right after the module has created the device.
  predicate Initial(s: System) {
    && EmptyLedger(s.dev.led) && s.dev.stats == NO_STATS && |s.dev.tx| == |s.dev.rx| == 0
    && s.dev.attrs == NO_FAULTS && s.dev.txCap == s.dev.rxCap == 0 && !s.dev.portActive
    && s.dev.timer.Off? && !s.dev.workPending && !s.dev.wireOpen && !s.dev.resetPending
    && s.busUp && s.port.Closed? && s.work.Idle? && s.writers == map[] && s.readers == map[] && s.notifier.NoEvent?
  }

  lemma FreshIsInitial()
    ensures Initial(System(FreshUart(), true, Closed, Idle, map[], map[], NoEvent))
  {}

  lemma EmptyIsOk(d: Uart, w: Work)
    requires EmptyLedger(d.led) && d.stats == NO_STATS && |d.tx| == |d.rx| == 0 && w.Idle?
    ensures DataOk(d, w)
  {
    EmptyLedgerOk(d.led);
    EmptyStatsOk(d.stats, d.led.sums);
  }

  lemma InitialOk(s: System)
    requires Initial(s)
    ensures Inv(s)
  {
    EmptyIsOk(s.dev, s.work);
  }
}

// Pacing: how long the transmit engine takes to empty tx_fifo when no one writes,
// cancels, flushes or changes the pace.
module UartDrain {
  import opened Counters
  import opened FaultGate
  import opened UartDevice
  import opened UartProtocol

  // --- the earliest start of work run number k (from 1) ---

  function Earliest(byteNs: nat, latency: nat, k: nat): nat {
    if k <= 1 then byteNs else Earliest(byteNs, latency, k - 1) + byteNs * BURST + latency
  }

  lemma {:induction false} EarliestClosedForm(byteNs: nat, latency: nat, k: nat)
    requires k >= 1
    ensures Earliest(byteNs, latency, k) == byteNs * (1 + BURST * (k - 1)) + (k - 1) * latency
  {
    if k > 1 {
      EarliestClosedForm(byteNs, latency, k - 1);
      Distribute(byteNs, 1 + BURST * (k - 2), BURST);
      Distribute(latency, k - 2, 1);
    }
  }

  lemma Distribute(a: nat, b: nat, c: nat)
    ensures a * (b + c) == a * b + a * c
  {}

  // Jitter of at most that much may have been added k - 1 times.
  predicate OnTime(t: nat, byteNs: nat, latency: nat, jitter: nat, k: nat) {
    k >= 1 && Earliest(byteNs, latency, k) <= t <= Earliest(byteNs, latency, k) + Times(k - 1, jitter)
  }

  function Times(n: nat, x: nat): nat {
    if n == 0 then 0 else Times(n - 1, x) + x
  }

  lemma {:induction false} TimesIsProduct(n: nat, x: nat)
    ensures Times(n, x) == n * x
  {
    if n > 0 {
      TimesIsProduct(n - 1, x);
      Distribute(x, n - 1, 1);
    }
  }

  // --- the delays fit the types of the kernel ---

  const KTIME_MAX: nat := 0x7fff_ffff_ffff_ffff

  lemma ByteNsBound(baud: nat)
    ensures ByteNs(baud) <= 10 * NSEC_PER_SEC
  {
    if baud != 0 {
      Quotient(10 * NSEC_PER_SEC, baud);
    }
  }

  lemma Quotient(a: nat, b: nat)
    requires b > 0
    ensures a / b <= a
  {
    NoSmaller(a / b, b);
  }

  lemma NoSmaller(q: nat, b: nat)
    requires b > 0
    ensures q <= b * q
  {
    MulMonotone(1, b, q);
  }

  lemma JitterBound(jitter: nat, hi: Draw, lo: Draw)
    ensures (hi * U32 + lo) % (jitter + 1) <= jitter
  {}

  // For every baud rate, burst and accepted attribute the rearm delay is a valid
  // ktime, and so are the products it is computed from; the sampled jitter lies
  // in [0, jitter].
  lemma DelayFits(baud: nat, n: nat, a: Attrs, hi: Draw, lo: Draw)
    requires n <= BURST && AttrsAccepted(a)
    ensures ByteNs(baud) * n <= KTIME_MAX && hi * U32 + lo < U64
    ensures var d := RearmDelay(baud, n, a.latency, a.jitter, hi, lo);
      ByteNs(baud) * n + a.latency <= d <= ByteNs(baud) * n + a.latency + a.jitter <= KTIME_MAX
  {
    ByteNsBound(baud);
    MulMonotone(n, BURST, ByteNs(baud));
    MulMonotone(ByteNs(baud), 10 * NSEC_PER_SEC, BURST);
    if a.jitter > 0 {
      JitterBound(a.jitter, hi, lo);
    }
  }

  // --- the engine, and what may go on beside it ---

  // The delays of the timers that fired, the bursts that were taken, and the steps of
  // the engine.
  datatype Clock = Clock(elapsed: nat, bursts: nat, steps: nat)

  function Tick(s: System, x: EngineStep, c: Clock): Clock
    requires EngineEnabled(s, x)
  {
    Clock(if x.TimerFires? then c.elapsed + s.dev.timer.delay else c.elapsed,
          if x.WorkDequeues? && s.dev.tx != [] then c.bursts + 1 else c.bursts,
          c.steps + 1)
  }

  function Clocked(s: System, run: seq<Action>): Clock
    requires Runs(s, run)
  {
    if run == [] then Clock(0, 0, 0)
    else
      var front, a := run[..|run| - 1], run[|run| - 1];
      if a.Engine? then Tick(After(s, front), a.engine, Clocked(s, front)) else Clocked(s, front)
  }

  // What does not change: n bytes to send at this pace.
  datatype Job = Job(n: nat, baud: nat, latency: nat, jitter: nat)

  // Not a write, a cancel or a flush, and not a change of the pace: whatever the
  // simulator does, the bus coming up, cleared counters, and new fault rates.
  predicate Aside(a: Action, j: Job) {
    match a
    case Wire(_) => true
    case Bus(x) => x.BusUp?
    case Attr(x) => (
      match x
      case Configure(attrs) => attrs.latency == j.latency && attrs.jitter == j.jitter
      case SetBaud(baud) => baud == j.baud
      case ClearCounters => true)
    case _ => false
  }

  predicate LeftAlone(run: seq<Action>, j: Job) {
    forall a | a in run :: a.Engine? || Aside(a, j)
  }

  predicate Queued(tx: Bytes, j: Job, k: nat) {
    |tx| == if BURST * k <= j.n then j.n - BURST * k else 0
  }

  predicate Due(t: nat, j: Job, k: nat) {
    OnTime(t, ByteNs(j.baud), j.latency, j.jitter, k)
  }

  predicate PaceOf(p: Pace, j: Job, tx: Bytes) {
    p.baud == j.baud && p.latency == j.latency && p.jitter == j.jitter && (tx != [] ==> p.n == BURST)
  }

  predicate SameJob(s: System, j: Job) {
    s.dev.baud == j.baud && s.dev.attrs.latency == j.latency && s.dev.attrs.jitter == j.jitter
  }

  // Where the engine stands after k bursts.
  predicate Drains(s: System, j: Job, c: Clock) {
    var k := c.bursts;
    && SameJob(s, j)
    && Queued(s.dev.tx, j, k)
    && match s.work
       case Idle =>
         if s.dev.timer.Armed? then s.dev.tx != [] && !s.dev.workPending && Due(c.elapsed + s.dev.timer.delay, j, k + 1)
         else if s.dev.workPending then s.dev.tx != [] && Due(c.elapsed, j, k + 1)
         else s.dev.tx == [] && Due(c.elapsed, j, k)
       case AtDequeue => Resting(s) && s.dev.tx != [] && Due(c.elapsed, j, k + 1)
       case AtGates(_, bytes) => Resting(s) && Due(c.elapsed, j, k) && (s.dev.tx != [] ==> |bytes| == BURST)
       case AtEnqueue(_, bytes, _, p) => Resting(s) && Due(c.elapsed, j, k) && PaceOf(p, j, s.dev.tx)
       case AtRearmCheck(p) => Resting(s) && Due(c.elapsed, j, k) && PaceOf(p, j, s.dev.tx)
       case AtRearm(p) => Resting(s) && Due(c.elapsed, j, k) && PaceOf(p, j, s.dev.tx) && s.dev.tx != []
  }

  predicate Resting(s: System) {
    s.dev.timer.Off? && !s.dev.workPending
  }

  lemma RearmIsOnTime(t: nat, p: Pace, j: Job, k: nat, hi: Draw, lo: Draw)
    requires Due(t, j, k) && p == Pace(j.baud, BURST, j.latency, j.jitter)
    ensures Due(t + PacedDelay(p, hi, lo), j, k + 1)
  {
    if j.jitter > 0 {
      JitterBound(j.jitter, hi, lo);
    }
  }

  lemma TakesBurst(d: Uart, j: Job, k: nat)
    requires Queued(d.tx, j, k) && d.tx != []
    ensures Queued(Dequeue(d).tx, j, k + 1)
    ensures Dequeue(d).tx != [] ==> BurstLen(d) == BURST
    ensures |d.tx[..BurstLen(d)]| == BurstLen(d)
  {}

  lemma DequeueDrains(s: System, j: Job, c: Clock)
    requires Drains(s, j, c) && EngineEnabled(s, WorkDequeues)
    ensures Drains(EngineNext(s, WorkDequeues), j, Tick(s, WorkDequeues, c))
  {
    TakesBurst(s.dev, j, c.bursts);
  }

  lemma DecideDrains(s: System, j: Job, c: Clock, w: Draws)
    requires Drains(s, j, c) && EngineEnabled(s, WorkDecides(w))
    ensures Drains(EngineNext(s, WorkDecides(w)), j, Tick(s, WorkDecides(w), c))
  {}

  lemma EnqueueDrains(s: System, j: Job, c: Clock)
    requires Drains(s, j, c) && EngineEnabled(s, WorkEnqueues)
    ensures Drains(EngineNext(s, WorkEnqueues), j, Tick(s, WorkEnqueues, c))
  {}

  lemma RearmDrains(s: System, j: Job, c: Clock, hi: Draw, lo: Draw)
    requires Drains(s, j, c) && EngineEnabled(s, WorkRearms(hi, lo))
    ensures Drains(EngineNext(s, WorkRearms(hi, lo)), j, Tick(s, WorkRearms(hi, lo), c))
  {
    RearmIsOnTime(c.elapsed, s.work.pace, j, c.bursts, hi, lo);
  }

  lemma OtherDrains(s: System, j: Job, c: Clock, x: EngineStep)
    requires Drains(s, j, c) && EngineEnabled(s, x) && (x.TimerFires? || x.WorkStarts? || x.WorkChecks?)
    ensures Drains(EngineNext(s, x), j, Tick(s, x, c))
  {}

  lemma StepDrains(s: System, j: Job, c: Clock, x: EngineStep)
    requires Drains(s, j, c) && EngineEnabled(s, x)
    ensures Drains(EngineNext(s, x), j, Tick(s, x, c))
  {
    match x {
      case WorkDequeues => DequeueDrains(s, j, c);
      case WorkDecides(w) => DecideDrains(s, j, c, w);
      case WorkEnqueues => EnqueueDrains(s, j, c);
      case WorkRearms(hi, lo) => RearmDrains(s, j, c, hi, lo);
      case TimerFires => OtherDrains(s, j, c, x);
      case WorkStarts => OtherDrains(s, j, c, x);
      case WorkChecks => OtherDrains(s, j, c, x);
    }
  }

  // --- how far there is to go ---

  function Rank(s: System): nat {
    match s.work
    case Idle => if s.dev.timer.Armed? then 2 else if s.dev.workPending then 1 else 0
    case AtDequeue => 0
    case AtGates(_, _) => 6
    case AtEnqueue(_, _, _, _) => 5
    case AtRearmCheck(_) => 4
    case AtRearm(_) => 3
  }

  function Distance(s: System): nat {
    8 * |s.dev.tx| + Rank(s)
  }

  lemma StepComesCloser(s: System, j: Job, c: Clock, x: EngineStep)
    requires Inv(s) && Drains(s, j, c) && EngineEnabled(s, x)
    ensures Distance(EngineNext(s, x)) < Distance(s)
  {
    if x.WorkDequeues? {
      TakesBurst(s.dev, j, c.bursts);
    } else if x.WorkDecides? {
      DecideRank(s, x.draws);
    }
  }

  lemma DecideRank(s: System, w: Draws)
    requires Inv(s) && EngineEnabled(s, WorkDecides(w))
    ensures EngineNext(s, WorkDecides(w)).dev.tx == s.dev.tx && Rank(EngineNext(s, WorkDecides(w))) < 6
  {
    var v := Decide(s.dev.attrs, |s.work.bytes|, w);
    assert v.Send? ==> FlipFits(v.flip, |s.work.bytes|);
  }

  predicate Unmoved(s: System, s': System) {
    s'.work == s.work && s'.dev.tx == s.dev.tx && s'.dev.timer == s.dev.timer && s'.dev.workPending == s.dev.workPending
  }

  predicate SamePace(s: System, s': System) {
    && s'.dev.baud == s.dev.baud
    && s'.dev.attrs.latency == s.dev.attrs.latency && s'.dev.attrs.jitter == s.dev.attrs.jitter
  }

  lemma WireUnmoved(s: System, x: WireStep)
    requires WireEnabled(s, x)
    ensures Unmoved(s, WireNext(s, x)) && SamePace(s, WireNext(s, x))
  {}

  lemma AttrUnmoved(s: System, x: AttrStep, j: Job)
    requires SameJob(s, j) && Aside(Attr(x), j)
    ensures Unmoved(s, AttrNext(s, x)) && SamePace(s, AttrNext(s, x))
  {}

  lemma AsideUnmoved(s: System, j: Job, a: Action)
    requires SameJob(s, j) && Enabled(s, a) && Aside(a, j)
    ensures Unmoved(s, Next(s, a)) && SamePace(s, Next(s, a))
  {
    if a.Wire? {
      WireUnmoved(s, a.wire);
    } else if a.Attr? {
      AttrUnmoved(s, a.attr, j);
    }
  }

  lemma UnmovedDrains(s: System, s': System, j: Job, c: Clock)
    requires Drains(s, j, c) && Unmoved(s, s') && SamePace(s, s')
    ensures Drains(s', j, c) && Distance(s') == Distance(s)
  {}

  // What goes on beside it leaves the engine where it stands.
  lemma AsideDrains(s: System, j: Job, c: Clock, a: Action)
    requires Drains(s, j, c) && Enabled(s, a) && Aside(a, j)
    ensures Drains(Next(s, a), j, c) && Distance(Next(s, a)) == Distance(s)
  {
    AsideUnmoved(s, j, a);
    UnmovedDrains(s, Next(s, a), j, c);
  }

  lemma {:induction false} RunDrains(s: System, j: Job, run: seq<Action>)
    requires Inv(s) && Drains(s, j, Clock(0, 0, 0)) && Runs(s, run) && LeftAlone(run, j)
    ensures Inv(After(s, run)) && Drains(After(s, run), j, Clocked(s, run))
    ensures Distance(After(s, run)) + Clocked(s, run).steps <= Distance(s)
  {
    if run != [] {
      var front, a := run[..|run| - 1], run[|run| - 1];
      assert a in run;
      RunDrains(s, j, front);
      var e := After(s, front);
      StepKeepsInv(e, a);
      if a.Engine? {
        StepDrains(e, j, Clocked(s, front), a.engine);
        StepComesCloser(e, j, Clocked(s, front), a.engine);
      } else {
        AsideDrains(e, j, Clocked(s, front), a);
      }
    }
  }

  // Some engine step is always possible until the fifo is empty.
  lemma NotStuck(s: System, j: Job, c: Clock) returns (x: EngineStep)
    requires Inv(s) && Drains(s, j, c)
    ensures EngineEnabled(s, x) || (s.work.Idle? && Resting(s) && s.dev.tx == [])
  {
    match s.work {
      case Idle => x := if s.dev.timer.Armed? then TimerFires else WorkStarts;
      case AtDequeue => x := WorkDequeues;
      case AtGates(k, _) => x := WorkDecides(Draws(0, 0, 0));
      case AtEnqueue(k, _, _, _) => x := WorkEnqueues;
      case AtRearmCheck(_) => x := WorkChecks;
      case AtRearm(_) => x := WorkRearms(0, 0);
    }
  }

  // n bytes queued and the timer armed for one byte time, as a write leaves them, and
  // then no further write, cancel, flush or change of the pace, whatever else goes on
  // beside it: the engine takes no more than 8 n + 2 steps, whatever the gates decide;
  // when it cannot move any more the fifo is empty, it took ceil(n / 64) bursts, and
  // the last of them was scheduled between
  // byteNs * (1 + 64 * (K - 1)) + (K - 1) * latency and that plus
  // (K - 1) * jitter after the start.
  lemma DrainTime(s: System, j: Job, run: seq<Action>)
    requires Inv(s) && s.work.Idle? && !s.dev.workPending
    requires j == Job(|s.dev.tx|, s.dev.baud, s.dev.attrs.latency, s.dev.attrs.jitter) && j.n > 0
    requires s.dev.timer == Armed(ByteNs(j.baud))
    requires Runs(s, run) && LeftAlone(run, j)
    ensures Clocked(s, run).steps <= 8 * j.n + 2
    ensures (forall x :: !EngineEnabled(After(s, run), x)) ==>
      var k := Clocked(s, run).bursts;
      && After(s, run).dev.tx == []
      && BURST * (k - 1) < j.n <= BURST * k
      && Within(Clocked(s, run).elapsed, j, k)
  {
    RunDrains(s, j, run);
    var e, c := After(s, run), Clocked(s, run);
    if forall x :: !EngineEnabled(e, x) {
      var x := NotStuck(e, j, c);
      BurstsExact(s, j, run);
      StoppedInTime(e, j, c);
    }
  }

  predicate Within(t: nat, j: Job, k: nat) {
    k >= 1
    && ByteNs(j.baud) * (1 + BURST * (k - 1)) + (k - 1) * j.latency <= t
    && t <= ByteNs(j.baud) * (1 + BURST * (k - 1)) + (k - 1) * j.latency + (k - 1) * j.jitter
  }

  lemma DueMeansWithin(t: nat, j: Job, k: nat)
    requires Due(t, j, k)
    ensures Within(t, j, k)
  {
    EarliestClosedForm(ByteNs(j.baud), j.latency, k);
    TimesIsProduct(k - 1, j.jitter);
  }

  lemma StoppedInTime(s: System, j: Job, c: Clock)
    requires Drains(s, j, c) && s.work.Idle? && Resting(s) && s.dev.tx == []
    ensures Within(c.elapsed, j, c.bursts) && j.n <= BURST * c.bursts
  {
    DueMeansWithin(c.elapsed, j, c.bursts);
  }

  // No burst was empty: the last one still found bytes.
  lemma {:induction false} BurstsExact(s: System, j: Job, run: seq<Action>)
    requires Inv(s) && Drains(s, j, Clock(0, 0, 0)) && Runs(s, run) && LeftAlone(run, j)
    ensures var k := Clocked(s, run).bursts; k >= 1 ==> BURST * (k - 1) < j.n
  {
    if run != [] {
      var front := run[..|run| - 1];
      BurstsExact(s, j, front);
      RunDrains(s, j, front);
    }
  }
}

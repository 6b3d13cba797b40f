// What the steps of a UART come to, in the numbers of the driver, and what follows
// for whole runs: when a write is taken, when a burst is delivered, how long a byte is.
module UartEffects {
  import opened Counters
  import opened FaultGate
  import opened UartDevice
  import opened UartProtocol
  import Drain = UartDrain

  // --- the AUT writing ---

  // A write gets past the bus only while it is up and past the device only while that is
  // enabled; then as much as there is room for is queued.
  lemma WriteEffect(s: System, x: AutStep)
    requires AutEnabled(s, x)
    ensures var s' := AutNext(s, x); var t := x.t;
      match x
      case WriteBegins(_, bytes) => s' == if s.busUp then s.(writers := s.writers[t := ToGate(bytes)]) else s
      case WriteGates(_) =>
        if s.dev.attrs.enabled then s' == s.(writers := s.writers[t := ToQueue(s.writers[t].bytes, s.dev.baud)])
        else s' == s.(writers := s.writers - {t})
      case WriteQueues(_) =>
        var bytes := s.writers[t].bytes; var n := Room(|bytes|, |s.dev.tx|, s.dev.txCap);
        && s'.dev.tx == s.dev.tx + bytes[..n] && s'.dev.led.accepted == s.dev.led.accepted + bytes[..n]
        && s'.dev.timer == s.dev.timer && s'.dev.rx == s.dev.rx && s'.dev.stats == s.dev.stats
        && s'.writers == (if n > 0 then s.writers[t := ToArm(s.writers[t].baud)] else s.writers - {t})
      case WriteArms(_) =>
        && s'.dev == s.dev.(timer := s'.dev.timer) && s'.writers == s.writers - {t}
        && s'.dev.timer.Armed? && IsByteTime(s'.dev.timer.delay, s.writers[t].baud)
  {
    if x.WriteArms? {
      ByteTime(s.writers[x.t].baud);
    }
  }

  // No writer is past the gate of the device.
  ghost predicate NonePast(s: System) {
    forall t | t in s.writers :: s.writers[t].ToGate?
  }

  // Nothing has been accepted, and no writer has got past the gate.
  predicate NoGain(s: System, s': System) {
    s'.writers == s.writers && s'.dev.led.accepted == s.dev.led.accepted
  }

  lemma DecidedGains(s: System, w: Draws)
    requires EngineEnabled(s, WorkDecides(w))
    ensures NoGain(s, Decided(s, w))
  {}

  lemma EngineGains(s: System, x: EngineStep)
    requires EngineEnabled(s, x)
    ensures NoGain(s, EngineNext(s, x))
  {
    if x.WorkDecides? {
      DecidedGains(s, x.draws);
    }
  }

  lemma PortGains(s: System, x: PortStep)
    requires PortEnabled(s, x)
    ensures NoGain(s, PortNext(s, x))
  {}

  lemma BusGains(s: System, x: BusStep)
    requires BusEnabled(s, x)
    ensures NoGain(s, BusNext(s, x))
  {}

  lemma WireGains(s: System, x: WireStep)
    requires WireEnabled(s, x)
    ensures NoGain(s, WireNext(s, x))
  {}

  lemma AttrGains(s: System, x: AttrStep)
    ensures NoGain(s, AttrNext(s, x))
  {}

  lemma OthersGainNothing(s: System, a: Action)
    requires Enabled(s, a) && !a.Aut?
    ensures NoGain(s, Next(s, a))
  {
    match a {
      case Engine(x) => EngineGains(s, x);
      case TtyPort(x) => PortGains(s, x);
      case Bus(x) => BusGains(s, x);
      case Wire(x) => WireGains(s, x);
      case Attr(x) => AttrGains(s, x);
    }
  }

  lemma GateGains(s: System, x: AutStep)
    requires AutEnabled(s, x) && NonePast(s) && !s.dev.attrs.enabled
    ensures NonePast(AutNext(s, x)) && AutNext(s, x).dev == s.dev
  {}

  // In every run in which the device stays disabled, nothing more is accepted than what
  // writers past its gate then bring: with none of them, nothing.
  predicate DisabledThroughout(s: System, run: seq<Action>)
    requires Runs(s, run)
  {
    !After(s, run).dev.attrs.enabled && (run == [] || DisabledThroughout(s, run[..|run| - 1]))
  }

  lemma {:induction false} DisabledAcceptsNothing(s: System, run: seq<Action>)
    requires Runs(s, run) && DisabledThroughout(s, run) && NonePast(s)
    ensures NonePast(After(s, run)) && After(s, run).dev.led.accepted == s.dev.led.accepted
  {
    if run != [] {
      var front, a := run[..|run| - 1], run[|run| - 1];
      DisabledAcceptsNothing(s, front);
      DisabledThere(s, front);
      if a.Aut? {
        GateGains(After(s, front), a.aut);
      } else {
        OthersGainNothing(After(s, front), a);
      }
    }
  }

  lemma DisabledThere(s: System, run: seq<Action>)
    requires Runs(s, run) && DisabledThroughout(s, run)
    ensures !After(s, run).dev.attrs.enabled
  {}

  // The bus stays down.
  predicate DownThroughout(s: System, run: seq<Action>)
    requires Runs(s, run)
  {
    !After(s, run).busUp && (run == [] || DownThroughout(s, run[..|run| - 1]))
  }

  lemma DownThere(s: System, run: seq<Action>)
    requires Runs(s, run) && DownThroughout(s, run)
    ensures !After(s, run).busUp
  {}

  lemma DownStep(s: System, a: Action)
    requires Enabled(s, a) && !s.busUp && s.writers == map[]
    ensures NoGain(s, Next(s, a))
  {
    if !a.Aut? {
      OthersGainNothing(s, a);
    }
  }

  // And while the bus is down nothing is accepted but what is under way.
  lemma {:induction false} DownAcceptsNothing(s: System, run: seq<Action>)
    requires Runs(s, run) && DownThroughout(s, run) && s.writers == map[]
    ensures NoGain(s, After(s, run))
  {
    if run != [] {
      var front, a := run[..|run| - 1], run[|run| - 1];
      DownAcceptsNothing(s, front);
      DownThere(s, front);
      DownStep(After(s, front), a);
    }
  }

  // --- one burst ---

  // The burst in hand becomes a gate drop if and only if the device is disabled or the
  // drop gate fires; it is counted then, and rx_fifo is not touched.  Otherwise it goes
  // on to rx_fifo, with one bit flipped if the flip gate fires.
  lemma DecisionEffect(s: System, w: Draws)
    requires Inv(s) && EngineEnabled(s, WorkDecides(w))
    ensures var a, k, n, s' := s.dev.attrs, s.work.k, |s.work.bytes|, EngineNext(s, WorkDecides(w));
      && (s'.dev.led.fates[k].how == GateDrop <==> !a.enabled || (a.dropPpm != 0 && w.drop % 1000000 < a.dropPpm))
      && (if s'.dev.led.fates[k].how == GateDrop then
            s'.work.AtRearmCheck? && Dropped(s.dev, s'.dev, n) && s'.dev.stats.tx == s.dev.stats.tx
          else
            && s'.work.AtEnqueue? && s'.dev == s.dev && s'.work.k == k
            && |s'.work.bytes| == n && Flipped(a, w, s.work.bytes, s'.work.bytes))
  {
    assert BurstOk(s.dev, s.work.k);
    VerdictEffect(s.dev.attrs, s.work.bytes, w);
    DropEffect(s.dev, s.work.k, |s.work.bytes|);
  }

  // The burst that passed is put into rx_fifo as far as there is room; the rest of it is
  // counted as overrun.
  lemma DeliveryEffect(s: System)
    requires Inv(s) && EngineEnabled(s, WorkEnqueues)
    ensures var k, bytes, s' := s.work.k, s.work.bytes, EngineNext(s, WorkEnqueues);
      var n := Room(|bytes|, |s.dev.rx|, s.dev.rxCap);
      && s'.dev.led.fates[k].how == Passed(s.work.flip, n)
      && s'.dev.rx == s.dev.rx + bytes[..n] && s'.dev.led.delivered == s.dev.led.delivered + bytes[..n]
      && s'.dev.stats == s.dev.stats.(overruns := (s.dev.stats.overruns + (|bytes| - n)) % 0x1_0000_0000_0000_0000)
      && s'.work == AtRearmCheck(s.work.pace)
  {
    AddIsModulo(s.dev.stats.overruns, |s.work.bytes| - Room(|s.work.bytes|, |s.dev.rx|, s.dev.rxCap));
  }

  // The burst that is taken: at most 64 bytes, the oldest, and they are counted.
  lemma TakingEffect(s: System)
    requires EngineEnabled(s, WorkDequeues)
    ensures var s', b := EngineNext(s, WorkDequeues), Burst(s.dev);
      if s.dev.tx == [] then s' == s.(work := Idle)
      else
        && s'.work == AtGates(|s.dev.led.fates|, b) && s'.dev.tx == s.dev.tx[|b|..]
        && s'.dev.stats == s.dev.stats.(tx := (s.dev.stats.tx + |b|) % 0x1_0000_0000_0000_0000)
        && s'.dev.rx == s.dev.rx && s'.dev.attrs == s.dev.attrs
  {
    if s.dev.tx != [] {
      TakenEffect(s.dev);
    }
  }

  // The pause before the next burst.
  lemma RearmEffect(s: System, hi: Draw, lo: Draw)
    requires EngineEnabled(s, WorkRearms(hi, lo))
    ensures var s', p := EngineNext(s, WorkRearms(hi, lo)), s.work.pace;
      && s'.work.Idle? && s'.dev == s.dev.(timer := s'.dev.timer) && s'.dev.timer.Armed?
      && IsPause(s'.dev.timer.delay, p.baud, p.n, p.latency, p.jitter, hi, lo)
  {
    PauseTime(s.work.pace.baud, s.work.pace.n, s.work.pace.latency, s.work.pace.jitter, hi, lo);
  }

  // --- runs in which no burst gets through ---

  predicate Blocks(a: Attrs) {
    !a.enabled || a.dropPpm == 1000000
  }

  predicate BlocksThroughout(s: System, run: seq<Action>)
    requires Runs(s, run)
  {
    Blocks(After(s, run).dev.attrs) && (run == [] || BlocksThroughout(s, run[..|run| - 1]))
  }

  lemma BlocksThere(s: System, run: seq<Action>)
    requires Runs(s, run) && BlocksThroughout(s, run)
    ensures Blocks(After(s, run).dev.attrs)
  {}

  // No burst has got past the gates since s: nothing was delivered but, perhaps, what the
  // work item was about to deliver there.
  ghost predicate OnlyLast(s: System, s': System) {
    if s'.work.AtEnqueue? then
      s.work.AtEnqueue? && s'.work.bytes == s.work.bytes && s'.dev.led.delivered == s.dev.led.delivered
    else
      exists n: nat :: DeliveredUpTo(s, s', n)
  }

  predicate DeliveredUpTo(s: System, s': System, n: nat) {
    var last := if s.work.AtEnqueue? then s.work.bytes else [];
    n <= |last| && s'.dev.led.delivered == s.dev.led.delivered + last[..n]
  }

  lemma BlockedEngine(s: System, x: EngineStep)
    requires Inv(s) && EngineEnabled(s, x) && Blocks(s.dev.attrs) && !x.WorkEnqueues?
    ensures EngineNext(s, x).dev.led.delivered == s.dev.led.delivered
    ensures if EngineNext(s, x).work.AtEnqueue? then EngineNext(s, x).work == s.work else !s.work.AtEnqueue?
  {
    if x.WorkDecides? {
      DecisionEffect(s, x.draws);
    }
  }

  lemma OthersDeliverNothing(s: System, a: Action)
    requires Enabled(s, a) && !a.Engine?
    ensures Next(s, a).work == s.work && Next(s, a).dev.led.delivered == s.dev.led.delivered
  {
    match a {
      case Aut(x) => AutDelivers(s, x);
      case TtyPort(x) => PortDelivers(s, x);
      case Bus(x) => BusDelivers(s, x);
      case Wire(x) => WireDelivers(s, x);
      case Attr(x) =>
    }
  }

  lemma AutDelivers(s: System, x: AutStep)
    requires AutEnabled(s, x)
    ensures AutNext(s, x).work == s.work && AutNext(s, x).dev.led.delivered == s.dev.led.delivered
  {}

  lemma PortDelivers(s: System, x: PortStep)
    requires PortEnabled(s, x)
    ensures PortNext(s, x).work == s.work && PortNext(s, x).dev.led.delivered == s.dev.led.delivered
  {}

  lemma BusDelivers(s: System, x: BusStep)
    requires BusEnabled(s, x)
    ensures BusNext(s, x).work == s.work && BusNext(s, x).dev.led.delivered == s.dev.led.delivered
  {}

  lemma WireDelivers(s: System, x: WireStep)
    requires WireEnabled(s, x)
    ensures WireNext(s, x).work == s.work && WireNext(s, x).dev.led.delivered == s.dev.led.delivered
  {}

  lemma BlockedStep(s0: System, s: System, a: Action)
    requires Inv(s) && Enabled(s, a) && Blocks(s.dev.attrs) && OnlyLast(s0, s)
    ensures OnlyLast(s0, Next(s, a))
  {
    if !a.Engine? {
      OthersDeliverNothing(s, a);
      SameDelivered(s0, s, Next(s, a));
    } else if a.engine.WorkEnqueues? {
      DeliveryEffect(s);
      assert DeliveredUpTo(s0, Next(s, a), Room(|s.work.bytes|, |s.dev.rx|, s.dev.rxCap));
    } else {
      BlockedEngine(s, a.engine);
      SameDelivered(s0, s, Next(s, a));
    }
  }

  lemma SameDelivered(s0: System, s: System, s': System)
    requires OnlyLast(s0, s) && s'.dev.led.delivered == s.dev.led.delivered
    requires if s'.work.AtEnqueue? then s'.work == s.work else !s.work.AtEnqueue?
    ensures OnlyLast(s0, s')
  {
    if !s.work.AtEnqueue? {
      var n: nat :| DeliveredUpTo(s0, s, n);
      assert DeliveredUpTo(s0, s', n);
    }
  }

  // In every run in which the device stays disabled, or its drop rate at the maximum, no
  // burst that is decided from then on is delivered, whatever else goes on.
  lemma {:induction false} BlockedDeliversNothing(s: System, run: seq<Action>)
    requires Inv(s) && Runs(s, run) && BlocksThroughout(s, run)
    ensures OnlyLast(s, After(s, run))
    ensures !s.work.AtEnqueue? ==> After(s, run).dev.led.delivered == s.dev.led.delivered
  {
    if run == [] {
      assert DeliveredUpTo(s, s, 0);
    } else {
      var front := run[..|run| - 1];
      BlockedDeliversNothing(s, front);
      RunKeepsInv(s, front);
      BlocksThere(s, front);
      BlockedStep(s, After(s, front), run[|run| - 1]);
    }
  }

  // --- readers, in their locked section ---

  lemma ReadEffect(s: System, r: nat)
    requires WireEnabled(s, ReadLocks(r))
    ensures var s', x := WireNext(s, ReadLocks(r)), s.readers[r];
      var n := if x.count < |s.dev.rx| then x.count else |s.dev.rx|;
      if !s.dev.portActive then s' == s.(readers := s.readers - {r})
      else if s.dev.rx == [] && !x.nonblock then s' == s.(readers := s.readers[r := ToWait(x.count)])
      else s'.readers == s.readers - {r} && s'.dev.rx == s.dev.rx[n..] && s'.dev.led.consumed == s.dev.led.consumed + n
  {}

  // A call that asks for nothing, or finds the flag, is over at once; any other asks for
  // no more than 4096 bytes, and waits if it may until there is something to see.
  lemma CallEffect(s: System, r: nat, count: nat, nonblock: bool)
    requires WireEnabled(s, ReadBegins(r, count, nonblock))
    ensures var s' := WireNext(s, ReadBegins(r, count, nonblock)); var n := if count < 4096 then count else 4096;
      s' == if count == 0 || s.dev.resetPending then s
            else s.(readers := s.readers[r := if nonblock then ToLock(n, true) else ToWait(n)])
  {}

  lemma WaitEffect(s: System, r: nat)
    requires r in s.readers && s.readers[r].ToWait?
    ensures WireEnabled(s, ReadWakes(r)) <==> s.dev.rx != [] || !s.dev.portActive || s.dev.resetPending
    ensures WireEnabled(s, ReadWakes(r)) ==>
      var s' := WireNext(s, ReadWakes(r));
      if s.dev.resetPending then s' == s.(readers := s.readers - {r})
      else s' == s.(readers := s.readers[r := ToLock(s.readers[r].count, false)])
  {}

  // One session at a time; opening one clears the flag, and releasing it, when no read is
  // under way, throws away what is queued.
  lemma SessionEffect(s: System)
    ensures WireEnabled(s, WireOpens) <==> !s.dev.wireOpen
    ensures WireEnabled(s, WireOpens) ==> WireNext(s, WireOpens) == s.(dev := s.dev.(wireOpen := true, resetPending := false))
    ensures WireEnabled(s, WireReleases) <==> s.dev.wireOpen && s.readers == map[]
    ensures WireEnabled(s, WireReleases) ==>
      var d, d' := s.dev, WireNext(s, WireReleases).dev;
      && !d'.wireOpen && d'.rx == [] && d'.resetPending == d.resetPending && d'.tx == d.tx && d'.stats == d.stats
      && d'.led.consumed == d.led.consumed + |d.rx| && d'.led.discarded == d.led.discarded + |d.rx|
  {}

  // A write of the simulator counts what went through and what its last chunk lost, and
  // touches neither fifo.
  lemma SimulatorEffect(s: System, count: nat, grants: seq<nat>)
    requires WireEnabled(s, WireWrites(count, grants))
    ensures var d, d', r := s.dev, WireNext(s, WireWrites(count, grants)).dev, Insert(count, 0, grants);
      && d'.stats == d.stats.(rx := (d.stats.rx + r.done) % 0x1_0000_0000_0000_0000,
                              overruns := (d.stats.overruns + r.lost) % 0x1_0000_0000_0000_0000)
      && d' == d.(stats := d'.stats, led := d'.led) && d'.led.accepted == d.led.accepted && d'.led.delivered == d.led.delivered
  {
    AddIsModulo(s.dev.stats.rx, Insert(count, 0, grants).done);
    AddIsModulo(s.dev.stats.overruns, Insert(count, 0, grants).lost);
  }

  // --- the attributes and the timer ---

  // Faults up to ten seconds and one million are taken, each as it is set.
  lemma AttrEffect(s: System, x: AttrStep)
    requires AttrEnabled(x)
    ensures x.Configure? ==> x.attrs.latency <= 10000000000 && x.attrs.jitter <= 10000000000
    ensures x.Configure? ==> x.attrs.dropPpm <= 1000000 && x.attrs.flipPpm <= 1000000
    ensures var d, d' := s.dev, AttrNext(s, x).dev;
      match x
      case Configure(attrs) => d' == d.(attrs := attrs)
      case SetBaud(baud) => d' == d.(baud := baud)
      case ClearCounters => d' == d.(stats := Stats(0, 0, 0, 0), led := d'.led) && d'.led.accepted == d.led.accepted
  {}

  lemma FaultsTaken(a: Attrs)
    requires a.latency <= 10000000000 && a.jitter <= 10000000000 && a.dropPpm <= 1000000 && a.flipPpm <= 1000000
    ensures AttrEnabled(Configure(a))
  {}

  // An armed timer fires once, and the work item starts once for it.
  lemma TimerEffect(s: System)
    ensures s.dev.timer.Armed? ==>
      EngineEnabled(s, TimerFires) && EngineNext(s, TimerFires) == s.(dev := s.dev.(timer := Off, workPending := true))
    ensures s.dev.workPending && s.work.Idle? ==>
      EngineEnabled(s, WorkStarts) && EngineNext(s, WorkStarts) == s.(dev := s.dev.(workPending := false), work := AtDequeue)
  {}

  // --- the drain, in bits and baud ---

  lemma UpperTimes(b: nat, r: nat, n: nat)
    requires b * r <= 10000000000
    ensures b * n * r <= 10000000000 * n
  {
    assert b * n * r == (b * r) * n;
    MulMonotone(b * r, 10000000000, n);
  }

  lemma LowerTimes(b: nat, r: nat, n: nat)
    requires 10000000000 < (b + 1) * r && n > 0
    ensures 10000000000 * n < (b + 1) * n * r
  {
    assert (b + 1) * n * r == ((b + 1) * r) * n;
    StrictTimes(10000000000, (b + 1) * r, n);
  }

  lemma StrictTimes(a: nat, b: nat, n: nat)
    requires a < b && n > 0
    ensures a * n < b * n
  {}

  // The last burst of a drain of n bytes at r baud starts when the first byte and 64 for
  // each burst before it have passed, at ten bits each and a nanosecond of rounding for
  // each byte, with the latencies and at most the jitters in between.
  predicate InBits(t: nat, j: Drain.Job, k: nat) {
    var r, bytes, pauses := if j.baud == 0 then 9600 else j.baud, 1 + 64 * (k - 1), (k - 1) * j.latency;
    && k >= 1 && pauses <= t
    && 10000000000 * bytes < (t - pauses + bytes) * r
    && (t - pauses - (k - 1) * j.jitter) * r <= 10000000000 * bytes
  }

  lemma WithinInBits(t: nat, j: Drain.Job, k: nat)
    requires Drain.Within(t, j, k)
    ensures InBits(t, j, k)
  {
    var r, bytes, pauses := if j.baud == 0 then 9600 else j.baud, 1 + 64 * (k - 1), (k - 1) * j.latency;
    var b := ByteNs(j.baud);
    ByteTime(j.baud);
    UpperTimes(b, r, bytes);
    LowerTimes(b, r, bytes);
    assert (b + 1) * bytes == b * bytes + bytes;
    TimesGrows((b + 1) * bytes, t - pauses + bytes, r);
    TimesGrows(t - pauses - (k - 1) * j.jitter, b * bytes, r);
  }

  lemma TimesGrows(x: int, y: int, r: nat)
    requires x <= y
    ensures x * r <= y * r
  {}

  lemma DrainTimeInBits(s: System, j: Drain.Job, run: seq<Action>)
    requires Inv(s) && s.work.Idle? && !s.dev.workPending
    requires j == Drain.Job(|s.dev.tx|, s.dev.baud, s.dev.attrs.latency, s.dev.attrs.jitter) && j.n > 0
    requires s.dev.timer.Armed? && IsByteTime(s.dev.timer.delay, j.baud)
    requires Runs(s, run) && Drain.LeftAlone(run, j)
    requires forall x :: !EngineEnabled(After(s, run), x)
    ensures var c := Drain.Clocked(s, run);
      After(s, run).dev.tx == [] && 64 * (c.bursts - 1) < j.n <= 64 * c.bursts && InBits(c.elapsed, j, c.bursts)
  {
    OneByteTime(s.dev.timer.delay, j.baud);
    Drain.DrainTime(s, j, run);
    WithinInBits(Drain.Clocked(s, run).elapsed, j, Drain.Clocked(s, run).bursts);
  }

  // There is only one such time.
  lemma OneByteTime(t: nat, baud: nat)
    requires IsByteTime(t, baud)
    ensures t == ByteNs(baud)
  {
    ByteTime(baud);
    var r, b := if baud == 0 then 9600 else baud, ByteNs(baud);
    if t < b {
      MulMonotone(t + 1, b, r);
    } else if b < t {
      MulMonotone(b + 1, t, r);
    }
  }

  // Every pause from the time of n bytes and the latency up to that and the jitter is
  // sampled for some draws.
  lemma PauseReached(baud: nat, n: nat, latency: nat, jitter: nat, x: nat) returns (hi: Draw, lo: Draw)
    requires x <= jitter <= 10000000000
    ensures RearmDelay(baud, n, latency, jitter, hi, lo) == ByteNs(baud) * n + latency + x
  {
    hi, lo := SplitDraws(x);
    SmallRest(x, jitter + 1);
    SampledAs(baud, n, latency, jitter, hi, lo, x);
  }

  lemma SampledAs(baud: nat, n: nat, latency: nat, jitter: nat, hi: Draw, lo: Draw, x: nat)
    requires hi * U32 + lo == x && x <= jitter && x % (jitter + 1) == x
    ensures RearmDelay(baud, n, latency, jitter, hi, lo) == ByteNs(baud) * n + latency + x
  {}
}

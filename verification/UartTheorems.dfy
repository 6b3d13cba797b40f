// What one UART guarantees over every interleaving.
module UartTheorems {
  import opened UartDevice
  import opened UartLedger
  import opened UartProtocol
  import opened Streams

  // --- no stranded byte ---

  // In every run a queued byte is looked after; so once nothing is armed,
  // pending, running or half-way, the transmit fifo is empty.
  lemma NoStrandedByte(s: System, run: seq<Action>)
    requires Initial(s) && Runs(s, run)
    ensures NoneStranded(After(s, run))
    ensures !Attended(After(s, run)) ==> After(s, run).dev.tx == []
  {
    InitialOk(s);
    RunKeepsInv(s, run);
  }

  // --- fifos are touched only while they are allocated ---

  // A reader under the lock, a writer and the section that takes a burst find their
  // fifo allocated; UartClose says when the section that delivers one does.
  lemma FifosAllocated(s: System, run: seq<Action>)
    requires Initial(s) && Runs(s, run)
    ensures var e := After(s, run);
      && (e.dev.portActive ==> e.dev.rxCap > 0)
      && (e.writers != map[] ==> e.dev.txCap > 0)
      && (e.dev.tx != [] ==> e.dev.txCap > 0)
  {
    InitialOk(s);
    RunKeepsInv(s, run);
  }

  // --- byte conservation ---

  lemma ConservationInRuns(s: System, run: seq<Action>)
    requires Initial(s) && Runs(s, run)
    ensures Accounted(After(s, run).dev)
  {
    InitialOk(s);
    RunKeepsInv(s, run);
    Conservation(After(s, run).dev);
  }

  // --- stream order ---

  // The place in the accepted stream that byte p of the delivered one came from.
  function Origin(fates: seq<Fate>, p: nat, n: nat): nat
    requires n <= |fates|
  {
    if n == 0 then 0
    else if p < Sum(fates, Kept, n - 1) then Origin(fates, p, n - 1)
    else fates[n - 1].from + (p - Sum(fates, Kept, n - 1))
  }

  // The fate that byte p of the delivered stream came through.
  function Carrier(fates: seq<Fate>, p: nat, n: nat): nat
    requires n <= |fates|
  {
    if n == 0 then 0
    else if p < Sum(fates, Kept, n - 1) then Carrier(fates, p, n - 1)
    else n - 1
  }

  lemma {:induction false} CarrierHolds(fates: seq<Fate>, end: nat, p: nat, n: nat)
    requires Chain(fates, end) && n <= |fates| && p < Sum(fates, Kept, n)
    ensures var k := Carrier(fates, p, n);
      && k < n && fates[k].how.Passed? && Sum(fates, Kept, k) <= p < Sum(fates, Kept, k) + fates[k].how.kept
      && Origin(fates, p, n) == fates[k].from + (p - Sum(fates, Kept, k))
      && fates[k].how.kept <= fates[k].len
  {
    assert Linked(fates, n - 1);
    if p < Sum(fates, Kept, n - 1) {
      CarrierHolds(fates, end, p, n - 1);
    }
  }

  lemma {:induction false} StartsInOrder(fates: seq<Fate>, end: nat, j: nat, k: nat)
    requires Chain(fates, end) && j < k < |fates|
    ensures fates[j].from + fates[j].len <= fates[k].from
    decreases k - j
  {
    assert Linked(fates, k);
    if j + 1 < k {
      StartsInOrder(fates, end, j, k - 1);
    }
  }

  lemma {:induction false} SumGrows(fates: seq<Fate>, to: Share, m: nat, n: nat)
    requires m <= n <= |fates|
    ensures Sum(fates, to, m) <= Sum(fates, to, n)
    decreases n - m
  {
    if m < n {
      SumGrows(fates, to, m, n - 1);
    }
  }

  // Delivered bytes come from the accepted stream in the same order.
  lemma OriginOrdered(fates: seq<Fate>, end: nat, p: nat, q: nat)
    requires Chain(fates, end) && p < q < SumAll(fates, Kept)
    ensures Origin(fates, p, |fates|) < Origin(fates, q, |fates|) < end
  {
    var n := |fates|;
    CarrierHolds(fates, end, p, n);
    CarrierHolds(fates, end, q, n);
    var j, k := Carrier(fates, p, n), Carrier(fates, q, n);
    if j < k {
      StartsInOrder(fates, end, j, k);
    } else if k < j {
      SumGrows(fates, Kept, k + 1, j);
    }
    FateInside(fates, end, k);
  }

  ghost predicate Inside(accepted: Bytes, fates: seq<Fate>) {
    forall k: nat | k < |fates| :: Linked(fates, k) && fates[k].from + fates[k].len <= |accepted|
  }

  // The accepted byte number o as fate f passes it on.
  function PassedByte(accepted: Bytes, f: Fate, o: nat): Byte
    requires o < |accepted|
  {
    if f.how.Passed? && f.how.flip.FlipBit? && o == f.from + f.how.flip.index
    then Toggle(accepted[o], f.how.flip.bit)
    else accepted[o]
  }

  lemma OutputByte(accepted: Bytes, f: Fate, j: nat)
    requires FateOk(f) && f.from + f.len <= |accepted| && j < |Output(accepted, f)|
    ensures f.how.Passed? && j < f.how.kept <= f.len
    ensures Output(accepted, f)[j] == PassedByte(accepted, f, f.from + j)
  {}

  lemma AllInside(accepted: Bytes, fates: seq<Fate>, end: nat)
    requires Chain(fates, end) && end <= |accepted|
    ensures Inside(accepted, fates)
  {
    forall k: nat | k < |fates| ensures fates[k].from + fates[k].len <= |accepted| {
      FateInside(fates, end, k);
    }
  }

  lemma PartByte(accepted: Bytes, f: Fate, outs: seq<Bytes>, k: nat, j: nat)
    requires FateOk(f) && f.from + f.len <= |accepted| && f.how.Passed? && j < f.how.kept
    requires k < |outs| && outs[k] == Output(accepted, f)
    ensures j < f.len && |Flatten(outs, k)| + j < |Flatten(outs, |outs|)|
    ensures Flatten(outs, |outs|)[|Flatten(outs, k)| + j] == PassedByte(accepted, f, f.from + j)
  {
    OutputLength(accepted, f);
    OutputByte(accepted, f, j);
    FlattenAt(outs, k, j);
  }

  lemma FateFacts(l: Ledger, k: nat)
    requires LedgerOk(l) && k < |l.fates|
    ensures FateOk(l.fates[k]) && l.fates[k].from + l.fates[k].len <= |l.accepted|
    ensures k < |l.outs| && l.outs[k] == Output(l.accepted, l.fates[k])
  {
    assert Linked(l.fates, k) && OutOk(l.accepted, l.fates, l.outs, k);
    FateInside(l.fates, l.taken, k);
  }

  lemma KeptSoFar(l: Ledger, n: nat)
    requires LedgerOk(l) && n <= |l.fates|
    ensures |l.outs| == |l.fates| && |Flatten(l.outs, n)| == Sum(l.fates, Kept, n)
  {
    AllInside(l.accepted, l.fates, l.taken);
    SumDelivers(l.accepted, l.fates, l.outs, n);
  }

  // Byte p of the delivered stream is the accepted byte it came from; only the
  // byte its burst's bitflip hit differs, and only in the one bit.
  lemma DeliveredByte(l: Ledger, p: nat)
    requires LedgerOk(l) && p < |l.delivered|
    ensures var k, o := Carrier(l.fates, p, |l.fates|), Origin(l.fates, p, |l.fates|);
      && k < |l.fates| && l.fates[k].how.Passed?
      && l.fates[k].from <= o < l.fates[k].from + l.fates[k].len && o < |l.accepted|
      && l.delivered[p] == PassedByte(l.accepted, l.fates[k], o)
  {
    KeptSoFar(l, |l.fates|);
    CarrierHolds(l.fates, l.taken, p, |l.fates|);
    var k := Carrier(l.fates, p, |l.fates|);
    KeptSoFar(l, k);
    FateFacts(l, k);
    PartByte(l.accepted, l.fates[k], l.outs, k, p - Sum(l.fates, Kept, k));
  }

  // Of two delivered bytes the one that came out first was written first.
  predicate InOrder(l: Ledger, p: nat, q: nat) {
    p < q < |l.delivered| ==> Origin(l.fates, p, |l.fates|) < Origin(l.fates, q, |l.fates|) < |l.accepted|
  }

  ghost predicate DeliveredInOrder(l: Ledger) {
    forall p: nat, q: nat :: InOrder(l, p, q)
  }

  lemma PairInOrder(l: Ledger, p: nat, q: nat)
    requires LedgerOk(l)
    ensures InOrder(l, p, q)
  {
    KeptSoFar(l, |l.fates|);
    if p < q < |l.delivered| {
      OriginOrdered(l.fates, l.taken, p, q);
    }
  }

  lemma LedgerInOrder(l: Ledger)
    requires LedgerOk(l)
    ensures DeliveredInOrder(l)
  {
    forall p: nat, q: nat ensures InOrder(l, p, q) {
      PairInOrder(l, p, q);
    }
  }

  // Over any run: what was put into rx_fifo is the accepted stream cut into
  // bursts of at most 64, in order, without the bursts that were dropped, the
  // ends that did not fit and the stretches that were flushed, and with at most
  // one bit changed in each burst; every wire_read returned the next stretch of it.
  lemma StreamOrder(s: System, run: seq<Action>)
    requires Initial(s) && Runs(s, run)
    ensures var d := After(s, run).dev;
      && UartOk(d)
      && Chain(d.led.fates, d.led.taken)
      && DeliveredInOrder(d.led)
      && ReadsOk(d.led.readLog, d.led.consumed)
      && d.rx == d.led.delivered[d.led.consumed..] && d.tx == d.led.accepted[d.led.taken..]
  {
    InitialOk(s);
    RunKeepsInv(s, run);
    LedgerInOrder(After(s, run).dev.led);
  }

  // --- a flushed byte never comes out ---

  lemma FlushedNeverDelivered(l: Ledger, k: nat, p: nat)
    requires LedgerOk(l) && k < |l.fates| && !l.fates[k].how.Passed? && p < |l.delivered|
    ensures var o := Origin(l.fates, p, |l.fates|); o < l.fates[k].from || l.fates[k].from + l.fates[k].len <= o
  {
    DeliveredByte(l, p);
    var c := Carrier(l.fates, p, |l.fates|);
    if c < k {
      StartsInOrder(l.fates, l.taken, c, k);
    } else if k < c {
      StartsInOrder(l.fates, l.taken, k, c);
    }
  }

  // Once a fate is settled it stays, whatever happens later.
  predicate FatesStay(l: Ledger, l': Ledger) {
    && |l.fates| <= |l'.fates|
    && |l.delivered| <= |l'.delivered|
    && l.consumed <= l'.consumed
    && forall k | 0 <= k < |l.fates| && !l.fates[k].how.InFlight? :: l'.fates[k] == l.fates[k]
  }

  lemma SettledFatesStay(l: Ledger, k: nat, how: How, out: Bytes)
    requires k < |l.fates| && l.fates[k].how.InFlight?
    ensures FatesStay(l, Settle(l, k, how, out))
  {}

  lemma EnqueuedFatesStay(s: System)
    requires Inv(s) && EngineEnabled(s, WorkEnqueues)
    ensures FatesStay(s.dev.led, EngineNext(s, WorkEnqueues).dev.led)
  {
    var n := Fits(s.work.bytes, |s.dev.rx|, s.dev.rxCap);
    assert InFlightAt(s.dev.led, s.work.k);
    SettledFatesStay(s.dev.led, s.work.k, Passed(s.work.flip, n), s.work.bytes[..n]);
  }

  lemma DecidedFatesStay(s: System, w: Draws)
    requires Inv(s) && EngineEnabled(s, WorkDecides(w))
    ensures FatesStay(s.dev.led, EngineNext(s, WorkDecides(w)).dev.led)
  {
    assert InFlightAt(s.dev.led, s.work.k);
    SettledFatesStay(s.dev.led, s.work.k, GateDrop, []);
  }

  lemma EngineFatesStay(s: System, x: EngineStep)
    requires Inv(s) && EngineEnabled(s, x)
    ensures FatesStay(s.dev.led, EngineNext(s, x).dev.led)
  {
    if x.WorkDecides? {
      DecidedFatesStay(s, x.draws);
    } else if x.WorkEnqueues? {
      EnqueuedFatesStay(s);
    }
  }

  lemma NotifiedFatesStay(d: Uart, n: Notifier)
    ensures FatesStay(d.led, Notified(d, n).led)
  {}

  lemma FreeFatesStay(d: Uart)
    ensures FatesStay(d.led, FreeTx(d).led) && FatesStay(d.led, FreeRx(d).led) && FatesStay(d.led, CountTx(d).led)
  {}

  lemma PortFatesStay(s: System, x: PortStep)
    requires PortEnabled(s, x)
    ensures FatesStay(s.dev.led, PortNext(s, x).dev.led)
  {
    if x.CountsTx? || x.FreesTx? || x.FreesRx? {
      FreeFatesStay(s.dev);
    } else {
      assert PortNext(s, x).dev.led == s.dev.led;
    }
  }

  lemma AutFatesStay(s: System, x: AutStep)
    requires AutEnabled(s, x)
    ensures FatesStay(s.dev.led, AutNext(s, x).dev.led)
  {}

  lemma WireFatesStay(s: System, x: WireStep)
    requires WireEnabled(s, x)
    ensures FatesStay(s.dev.led, WireNext(s, x).dev.led)
  {
    WireKeepsFates(s, x);
  }

  lemma WireKeepsFates(s: System, x: WireStep)
    requires WireEnabled(s, x)
    ensures WireNext(s, x).dev.led.fates == s.dev.led.fates && WireNext(s, x).dev.led.delivered == s.dev.led.delivered
    ensures s.dev.led.consumed <= WireNext(s, x).dev.led.consumed
  {}

  lemma StepFatesStay(s: System, a: Action)
    requires Inv(s) && Enabled(s, a)
    ensures FatesStay(s.dev.led, Next(s, a).dev.led)
  {
    match a {
      case Aut(x) => AutFatesStay(s, x);
      case Engine(x) => EngineFatesStay(s, x);
      case TtyPort(x) => PortFatesStay(s, x);
      case Bus(x) => BusFatesStay(s, x);
      case Wire(x) => WireFatesStay(s, x);
      case Attr(x) => AttrFatesStay(s, x);
    }
  }

  lemma BusFatesStay(s: System, x: BusStep)
    requires BusEnabled(s, x)
    ensures FatesStay(s.dev.led, BusNext(s, x).dev.led)
  {
    NotifiedFatesStay(s.dev, s.notifier);
  }

  lemma AttrFatesStay(s: System, x: AttrStep)
    ensures FatesStay(s.dev.led, AttrNext(s, x).dev.led)
  {}

  lemma {:induction false} RunFatesStay(s: System, run: seq<Action>)
    requires Inv(s) && Runs(s, run)
    ensures FatesStay(s.dev.led, After(s, run).dev.led)
  {
    if run != [] {
      RunFatesStay(s, run[..|run| - 1]);
      RunKeepsInv(s, run[..|run| - 1]);
      StepFatesStay(After(s, run[..|run| - 1]), run[|run| - 1]);
    }
  }

  // What RESET flushed from tx_fifo never reaches a reader, in any later run.
  lemma FlushedStaysAway(s: System, run: seq<Action>, k: nat, p: nat)
    requires Inv(s) && Runs(s, run)
    requires k < |s.dev.led.fates| && s.dev.led.fates[k].how.Flushed?
    requires p < |After(s, run).dev.led.delivered|
    ensures var f := s.dev.led.fates[k];
      var o := Origin(After(s, run).dev.led.fates, p, |After(s, run).dev.led.fates|);
      o < f.from || f.from + f.len <= o
  {
    RunKeepsInv(s, run);
    RunFatesStay(s, run);
    FlushedNeverDelivered(After(s, run).dev.led, k, p);
  }

  // --- the wire session across a RESET ---

  // Reader r is past its last look at the reset flag and about to take rx_lock.
  predicate PastFlag(s: System, r: nat) {
    r in s.readers && s.readers[r].ToLock? && s.readers[r].count > 0
  }

  // Reader r finds the flag before it comes to its lock again, or everything that
  // had been delivered by s0 has left rx_fifo.
  ghost predicate Shielded(s0: System, s: System, r: nat) {
    || (s.dev.wireOpen && s.dev.resetPending && !PastFlag(s, r))
    || |s0.dev.led.delivered| <= s.dev.led.consumed
  }

  lemma WireShields(s0: System, s: System, x: WireStep, r: nat)
    requires Inv(s) && WireEnabled(s, x) && Shielded(s0, s, r)
    requires |s0.dev.led.delivered| <= |s.dev.led.delivered|
    ensures Shielded(s0, WireNext(s, x), r)
  {}

  lemma OthersShield(s: System, a: Action)
    requires Enabled(s, a) && !a.Wire?
    ensures Next(s, a).readers == s.readers && Next(s, a).dev.wireOpen == s.dev.wireOpen
    ensures s.dev.resetPending ==> Next(s, a).dev.resetPending
  {
    match a {
      case Aut(x) => AutShields(s, x);
      case Engine(x) => EngineShields(s, x);
      case TtyPort(x) => PortShields(s, x);
      case Bus(x) => NotifiedShields(s.dev, s.notifier);
      case Attr(x) =>
    }
  }

  lemma AutShields(s: System, x: AutStep)
    requires AutEnabled(s, x)
    ensures var s' := AutNext(s, x);
      s'.readers == s.readers && s'.dev.wireOpen == s.dev.wireOpen && s'.dev.resetPending == s.dev.resetPending
  {}

  lemma EngineShields(s: System, x: EngineStep)
    requires EngineEnabled(s, x)
    ensures var s' := EngineNext(s, x);
      s'.readers == s.readers && s'.dev.wireOpen == s.dev.wireOpen && s'.dev.resetPending == s.dev.resetPending
  {}

  lemma PortShields(s: System, x: PortStep)
    requires PortEnabled(s, x)
    ensures var s' := PortNext(s, x);
      s'.readers == s.readers && s'.dev.wireOpen == s.dev.wireOpen && s'.dev.resetPending == s.dev.resetPending
  {}

  lemma NotifiedShields(d: Uart, n: Notifier)
    ensures Notified(d, n).wireOpen == d.wireOpen
    ensures d.resetPending ==> Notified(d, n).resetPending
  {}

  lemma {:induction false} RunShields(s0: System, run: seq<Action>, r: nat)
    requires Inv(s0) && Runs(s0, run) && s0.dev.wireOpen && s0.dev.resetPending && !PastFlag(s0, r)
    ensures Shielded(s0, After(s0, run), r)
  {
    if run != [] {
      var front, a := run[..|run| - 1], run[|run| - 1];
      var s := After(s0, front);
      RunShields(s0, front, r);
      RunKeepsInv(s0, front);
      RunFatesStay(s0, front);
      StepFatesStay(s, a);
      if a.Wire? {
        WireShields(s0, s, a.wire, r);
      } else {
        OthersShield(s, a);
      }
    }
  }

  // RESET isolation.  s0 is any state with a wire session open and the reset flag
  // set, as RESET leaves it.  In every later run, the bytes that a reader takes
  // which was not between its last look at the flag and its lock in s0 were all
  // delivered after s0.
  lemma ResetIsolation(s0: System, run: seq<Action>, r: nat)
    requires Inv(s0) && Runs(s0, run) && s0.dev.wireOpen && s0.dev.resetPending && !PastFlag(s0, r)
    ensures PastFlag(After(s0, run), r) ==> |s0.dev.led.delivered| <= After(s0, run).dev.led.consumed
  {
    RunShields(s0, run, r);
  }

  // While the flag is set a new wire_read returns end of file at once, and the
  // flag stays until the session is released and a new one opened.
  lemma ResetEndsSession(s: System, a: Action)
    requires Enabled(s, a) && s.dev.wireOpen && s.dev.resetPending && a != Wire(WireReleases)
    ensures Next(s, a).dev.wireOpen && Next(s, a).dev.resetPending
    ensures Next(s, a).readers.Keys <= s.readers.Keys
  {
    if !a.Wire? {
      OthersShield(s, a);
    }
  }
}

// Without faults, flushes and overruns the wire carries exactly what the AUT
// wrote.
module UartClean {
  import opened UartDevice
  import opened UartLedger
  import opened UartProtocol
  import opened UartTheorems

  // Everything the wire_read calls have returned, in order.
  function ReadStream(delivered: Bytes, readLog: seq<Read>, n: nat): Bytes
    requires n <= |readLog|
  {
    if n == 0 then []
    else
      ReadStream(delivered, readLog, n - 1) +
      if readLog[n - 1].from <= readLog[n - 1].to <= |delivered|
      then delivered[readLog[n - 1].from..readLog[n - 1].to] else []
  }

  // --- what was not lost ---

  predicate NoFlips(fates: seq<Fate>) {
    forall k | 0 <= k < |fates| && fates[k].how.Passed? :: fates[k].how.flip.NoFlip?
  }

  // Nothing was lost to a gate, a flush or an overrun, nothing was thrown away
  // unread, and no bit was flipped.
  ghost predicate Lossless(l: Ledger) {
    && SumAll(l.fates, Gated) == SumAll(l.fates, Thrown) == SumAll(l.fates, Overrun) == 0
    && l.discarded == 0
    && NoFlips(l.fates)
  }

  // --- the reads follow each other without a gap ---

  predicate Tile(readLog: seq<Read>, k: nat) {
    k < |readLog| && readLog[k].from == if k == 0 then 0 else readLog[k - 1].to
  }

  ghost predicate ReadsTile(readLog: seq<Read>, consumed: nat) {
    && (forall k: nat | k < |readLog| :: Tile(readLog, k))
    && consumed == ReadTo(readLog, |readLog|)
  }

  function ReadTo(readLog: seq<Read>, n: nat): nat
    requires n <= |readLog|
  {
    if n == 0 then 0 else readLog[n - 1].to
  }

  lemma {:induction false} ReadsLeaveGaps(readLog: seq<Read>, consumed: nat, n: nat)
    requires ReadsOk(readLog, consumed) && n <= |readLog|
    ensures ReadBytes(readLog, n) <= ReadTo(readLog, n) <= consumed
    ensures ReadBytes(readLog, n) == ReadTo(readLog, n) ==> forall k: nat | k < n :: Tile(readLog, k)
  {
    if n > 0 {
      assert ReadOk(readLog, consumed, n - 1);
      ReadsLeaveGaps(readLog, consumed, n - 1);
    }
  }

  lemma AllReadTiles(l: Ledger)
    requires LedgerOk(l) && l.discarded == 0
    ensures ReadsTile(l.readLog, l.consumed)
  {
    ReadsLeaveGaps(l.readLog, l.consumed, |l.readLog|);
  }

  lemma {:induction false} TilesRead(delivered: Bytes, readLog: seq<Read>, consumed: nat, n: nat)
    requires ReadsOk(readLog, consumed) && ReadsTile(readLog, consumed) && consumed <= |delivered| && n <= |readLog|
    ensures n > 0 ==> readLog[n - 1].to <= |delivered|
    ensures ReadStream(delivered, readLog, n) == delivered[..ReadTo(readLog, n)]
  {
    if n > 0 {
      TilesRead(delivered, readLog, consumed, n - 1);
      assert Tile(readLog, n - 1) && ReadOk(readLog, consumed, n - 1);
    }
  }

  // --- the bursts follow each other without a gap ---

  // Nothing of the first n goes there.
  lemma {:induction false} NoPart(fates: seq<Fate>, to: Share, n: nat, k: nat)
    requires k < n <= |fates| && Sum(fates, to, n) == 0
    ensures Part(fates[k], to) == 0
  {
    if k < n - 1 {
      NoPart(fates, to, n - 1, k);
    }
  }

  lemma {:induction false} NothingThere(fates: seq<Fate>, to: Share, n: nat)
    requires n <= |fates| && (forall k | 0 <= k < n :: Part(fates[k], to) == 0)
    ensures Sum(fates, to, n) == 0
  {
    if n > 0 {
      NothingThere(fates, to, n - 1);
    }
  }

  lemma PassesOrFlies(l: Ledger, k: nat)
    requires LedgerOk(l) && Lossless(l) && k < |l.fates|
    ensures l.fates[k].how.Passed? || l.fates[k].how.InFlight?
  {
    assert Linked(l.fates, k);
    NoPart(l.fates, Gated, |l.fates|, k);
    NoPart(l.fates, Thrown, |l.fates|, k);
  }

  // Everything before a burst that has passed has passed completely.
  lemma PassedBefore(d: Uart, w: Work, k: nat)
    requires DataOk(d, w) && Lossless(d.led)
    requires k < |d.led.fates| && d.led.fates[k].how.Passed?
    ensures Sum(d.led.fates, Kept, k) == d.led.fates[k].from
  {
    var l := d.led;
    forall j | 0 <= j < k ensures Part(l.fates[j], Flying) == 0 {
      PassesOrFlies(l, j);
    }
    NothingThere(l.fates, Flying, k);
    SumGrows(l.fates, Gated, k, |l.fates|);
    SumGrows(l.fates, Thrown, k, |l.fates|);
    SumGrows(l.fates, Overrun, k, |l.fates|);
    SumCovers(l.fates, k);
    assert Linked(l.fates, k);
  }

  lemma LosslessByte(d: Uart, w: Work, p: nat)
    requires DataOk(d, w) && Lossless(d.led) && p < |d.led.delivered|
    ensures p < |d.led.accepted| && d.led.delivered[p] == d.led.accepted[p]
  {
    var l := d.led;
    DeliveredByte(l, p);
    KeptSoFar(l, |l.fates|);
    CarrierHolds(l.fates, l.taken, p, |l.fates|);
    PassedBefore(d, w, Carrier(l.fates, p, |l.fates|));
  }

  // If nothing was lost and no bit flipped so far, what all the reads have returned,
  // put together, is exactly the start of what the AUT has written.
  lemma LosslessIsPrefix(d: Uart, w: Work)
    requires DataOk(d, w) && Lossless(d.led)
    ensures var got := ReadStream(d.led.delivered, d.led.readLog, |d.led.readLog|);
      got <= d.led.accepted && |got| == d.led.consumed
  {
    var l := d.led;
    AllReadTiles(l);
    TilesRead(l.delivered, l.readLog, l.consumed, |l.readLog|);
    forall p: nat | p < |l.delivered| ensures p < |l.accepted| && l.delivered[p] == l.accepted[p] {
      LosslessByte(d, w, p);
    }
    if l.delivered != [] {
      LosslessByte(d, w, |l.delivered| - 1);
    }
    assert l.delivered == l.accepted[..|l.delivered|];
  }

  // In every run, whatever steps it has: closes, releases, DOWN and RESET are fine
  // as long as they found nothing to throw away.
  lemma LosslessRunIsPrefix(s: System, run: seq<Action>)
    requires Initial(s) && Runs(s, run) && Lossless(After(s, run).dev.led)
    ensures var l := After(s, run).dev.led;
      ReadStream(l.delivered, l.readLog, |l.readLog|) <= l.accepted
  {
    InitialOk(s);
    RunKeepsInv(s, run);
    LosslessIsPrefix(After(s, run).dev, After(s, run).work);
  }

  // --- runs in which nothing can be lost but by an overrun ---

  predicate CleanAttrs(a: Attrs) {
    a.enabled && a.dropPpm == 0 && a.flipPpm == 0
  }

  // The steps that flush or discard bytes, or let a fault in, do not happen.
  predicate CleanAction(a: Action) {
    match a
    case Bus(x) => !x.BusDown? && !x.BusReset?
    case TtyPort(x) => !x.StopsTimer?
    case Wire(x) => !x.WireReleases?
    case Attr(x) => x.Configure? ==> CleanAttrs(x.attrs)
    case _ => true
  }

  predicate CleanFate(f: Fate) {
    f.how.InFlight? || (f.how.Passed? && f.how.flip.NoFlip?)
  }

  predicate CleanLedger(l: Ledger) {
    (forall k | 0 <= k < |l.fates| :: CleanFate(l.fates[k])) && l.discarded == 0
  }

  predicate Opening(p: Port) {
    p.Closed? || p.TxReady? || p.BothReady? || p.Open?
  }

  ghost predicate CleanState(s: System) {
    && CleanLedger(s.dev.led)
    && CleanAttrs(s.dev.attrs)
    && s.notifier.NoEvent? && Opening(s.port)
    && (s.work.AtEnqueue? ==> s.work.flip.NoFlip?)
  }

  lemma EngineStaysClean(s: System, x: EngineStep)
    requires CleanState(s) && EngineEnabled(s, x)
    ensures CleanState(EngineNext(s, x))
  {}

  lemma AutStaysClean(s: System, x: AutStep)
    requires CleanState(s) && AutEnabled(s, x)
    ensures CleanState(AutNext(s, x))
  {}

  lemma WireStaysClean(s: System, x: WireStep)
    requires CleanState(s) && WireEnabled(s, x) && !x.WireReleases?
    ensures CleanState(WireNext(s, x))
  {}

  lemma PortStaysClean(s: System, x: PortStep)
    requires CleanState(s) && PortEnabled(s, x) && !x.StopsTimer?
    ensures CleanState(PortNext(s, x))
  {}

  lemma AttrStaysClean(s: System, x: AttrStep)
    requires CleanState(s) && (x.Configure? ==> CleanAttrs(x.attrs))
    ensures CleanState(AttrNext(s, x))
  {}

  lemma BusStaysClean(s: System, x: BusStep)
    requires CleanState(s) && BusEnabled(s, x) && !x.BusDown? && !x.BusReset?
    ensures CleanState(BusNext(s, x))
  {}

  lemma StepStaysClean(s: System, a: Action)
    requires CleanState(s) && Enabled(s, a) && CleanAction(a)
    ensures CleanState(Next(s, a))
  {
    match a {
      case Aut(x) => AutStaysClean(s, x);
      case Engine(x) => EngineStaysClean(s, x);
      case TtyPort(x) => PortStaysClean(s, x);
      case Bus(x) => BusStaysClean(s, x);
      case Wire(x) => WireStaysClean(s, x);
      case Attr(x) => AttrStaysClean(s, x);
    }
  }

  lemma {:induction false} RunStaysClean(s: System, run: seq<Action>)
    requires Initial(s) && Runs(s, run) && forall a | a in run :: CleanAction(a)
    ensures CleanState(After(s, run))
  {
    if run != [] {
      RunStaysClean(s, run[..|run| - 1]);
      assert run[|run| - 1] in run;
      StepStaysClean(After(s, run[..|run| - 1]), run[|run| - 1]);
    }
  }

  lemma CleanIsLossless(l: Ledger)
    requires CleanLedger(l) && SumAll(l.fates, Overrun) == 0
    ensures Lossless(l)
  {
    forall k | 0 <= k < |l.fates| ensures Part(l.fates[k], Gated) == Part(l.fates[k], Thrown) == 0 {
      assert CleanFate(l.fates[k]);
    }
    NothingThere(l.fates, Gated, |l.fates|);
    NothingThere(l.fates, Thrown, |l.fates|);
    assert forall k | 0 <= k < |l.fates| :: CleanFate(l.fates[k]);
  }

  // In every run without DOWN, RESET, last close, wire release or a fault rate,
  // as long as nothing overran: what all the reads have returned, put together,
  // is exactly the start of what the AUT has written.
  lemma CleanRunIsPrefix(s: System, run: seq<Action>)
    requires Initial(s) && Runs(s, run) && forall a | a in run :: CleanAction(a)
    requires SumAll(After(s, run).dev.led.fates, Overrun) == 0
    ensures var l := After(s, run).dev.led;
      ReadStream(l.delivered, l.readLog, |l.readLog|) <= l.accepted
  {
    RunStaysClean(s, run);
    CleanIsLossless(After(s, run).dev.led);
    LosslessRunIsPrefix(s, run);
  }
}

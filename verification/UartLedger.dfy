// What every section of the UART keeps between its fifos, its statistics and
// the history of the bytes that went through it.
module UartLedger {
  import opened Counters
  import opened FaultGate
  import opened UartDevice
  import opened Streams

  // --- the reference: what should have come out, from what went in ---

  // What one stretch of the accepted stream contributes to the delivered one.
  function Output(accepted: Bytes, f: Fate): Bytes {
    if f.how.Passed? && f.from + f.len <= |accepted| && FlipFits(f.how.flip, f.len) && f.how.kept <= f.len
    then Corrupt(accepted[f.from..f.from + f.len], f.how.flip)[..f.how.kept]
    else []
  }

  // Where the bytes of a fate can go.
  datatype Share = Flying | Gated | Overrun | Kept | Thrown | ThrownCounted

  // How many of its bytes go there.
  function Part(f: Fate, to: Share): nat {
    match f.how
    case InFlight => if to.Flying? then f.len else 0
    case GateDrop => if to.Gated? then f.len else 0
    case Passed(_, kept) =>
      if to.Kept? then kept else if to.Overrun? && kept <= f.len then f.len - kept else 0
    case Flushed(counted) => if to.Thrown? || (to.ThrownCounted? && counted) then f.len else 0
  }

  // The first n fates added up.
  function Sum(fates: seq<Fate>, to: Share, n: nat): nat
    requires n <= |fates|
  {
    if n == 0 then 0 else Sum(fates, to, n - 1) + Part(fates[n - 1], to)
  }

  function SumAll(fates: seq<Fate>, to: Share): nat {
    Sum(fates, to, |fates|)
  }

  // The bytes that left tx_fifo in bursts.
  function Counted(fates: seq<Fate>): nat {
    SumAll(fates, Flying) + SumAll(fates, Gated) + SumAll(fates, Overrun) + SumAll(fates, Kept)
  }

  ghost predicate FateOk(f: Fate) {
    && f.len > 0
    && (!f.how.Flushed? ==> f.len <= BURST)
    && (f.how.Passed? ==> f.how.kept <= f.len && FlipFits(f.how.flip, f.len))
  }

  // The position where fate number k starts.
  function Start(fates: seq<Fate>, k: nat): nat
    requires k <= |fates|
  {
    if k == 0 then 0 else fates[k - 1].from + fates[k - 1].len
  }

  ghost predicate Linked(fates: seq<Fate>, k: nat) {
    k < |fates| && FateOk(fates[k]) && fates[k].from == Start(fates, k)
  }

  // The fates cut the stream taken so far into consecutive stretches.
  ghost predicate Chain(fates: seq<Fate>, end: nat) {
    && (forall k: nat | k < |fates| :: Linked(fates, k))
    && Start(fates, |fates|) == end
  }

  // The total length of the stretches handed to wire_read.
  function ReadBytes(readLog: seq<Read>, n: nat): nat
    requires n <= |readLog|
  {
    if n == 0 then 0
    else ReadBytes(readLog, n - 1) + if readLog[n - 1].from <= readLog[n - 1].to then readLog[n - 1].to - readLog[n - 1].from else 0
  }

  ghost predicate ReadOk(readLog: seq<Read>, consumed: nat, k: nat) {
    && k < |readLog|
    && readLog[k].from < readLog[k].to <= consumed
    && (k > 0 ==> readLog[k - 1].to <= readLog[k].from)
  }

  ghost predicate ReadsOk(readLog: seq<Read>, consumed: nat) {
    forall k: nat | k < |readLog| :: ReadOk(readLog, consumed, k)
  }

  // Each fate has put into rx_fifo what it should have.
  ghost predicate OutOk(accepted: Bytes, fates: seq<Fate>, outs: seq<Bytes>, k: nat) {
    k < |fates| && k < |outs| && outs[k] == Output(accepted, fates[k])
  }

  // The fates account for the taken part of what was accepted, and the delivered
  // stream is exactly what they make of it.
  ghost predicate StreamOk(accepted: Bytes, taken: nat, fates: seq<Fate>, outs: seq<Bytes>, delivered: Bytes) {
    && taken <= |accepted| && Chain(fates, taken)
    && |outs| == |fates| && (forall k: nat | k < |fates| :: OutOk(accepted, fates, outs, k))
    && delivered == Flatten(outs, |outs|)
  }

  ghost predicate LedgerOk(l: Ledger) {
    && StreamOk(l.accepted, l.taken, l.fates, l.outs, l.delivered)
    && l.consumed <= |l.delivered|
    && ReadsOk(l.readLog, l.consumed)
    && l.consumed == ReadBytes(l.readLog, |l.readLog|) + l.discarded
    && SumsOk(l.sums, l.fates, l.rxBytes, l.rxOverruns, l.closeDrops)
  }

  // The running sums are what the fates and the simulator side add up to.
  ghost predicate SumsOk(sums: Totals, fates: seq<Fate>, rxBytes: nat, rxOverruns: nat, closeDrops: nat) {
    && sums.tx == Counted(fates)
    && sums.rx == rxBytes
    && sums.overruns == SumAll(fates, Overrun) + rxOverruns
    && sums.drops == SumAll(fates, Gated) + SumAll(fates, ThrownCounted) + closeDrops
  }

  ghost predicate Since(stat: nat, total: nat, base: nat) {
    base <= total && stat == Wrap64(total - base)
  }

  ghost predicate StatsMatch(s: Stats, t: Totals, base: Totals) {
    && Since(s.tx, t.tx, base.tx)
    && Since(s.rx, t.rx, base.rx)
    && Since(s.overruns, t.overruns, base.overruns)
    && Since(s.drops, t.drops, base.drops)
  }

  ghost predicate FifosOk(d: Uart) {
    && d.led.taken <= |d.led.accepted| && d.tx == d.led.accepted[d.led.taken..]
    && d.led.consumed <= |d.led.delivered| && d.rx == d.led.delivered[d.led.consumed..]
    && |d.tx| <= d.txCap && |d.rx| <= d.rxCap
  }

  ghost predicate StatsOk(d: Uart) {
    StatsMatch(d.stats, d.led.sums, d.led.base)
  }

  ghost predicate UartOk(d: Uart) {
    LedgerOk(d.led) && FifosOk(d) && StatsOk(d)
  }

  // --- arithmetic of the statistics ---

  lemma SinceAdds(stat: nat, total: nat, base: nat, n: nat)
    requires Since(stat, total, base)
    ensures Since(Add64(stat, n), total + n, base)
  {
    WrapTwice(total - base, n);
  }

  lemma TxAdds(s: Stats, t: Totals, base: Totals, n: nat)
    requires StatsMatch(s, t, base)
    ensures StatsMatch(s.(tx := Add64(s.tx, n)), t.(tx := t.tx + n), base)
  {
    SinceAdds(s.tx, t.tx, base.tx, n);
  }

  lemma DropsAdds(s: Stats, t: Totals, base: Totals, n: nat)
    requires StatsMatch(s, t, base)
    ensures StatsMatch(s.(drops := Add64(s.drops, n)), t.(drops := t.drops + n), base)
  {
    SinceAdds(s.drops, t.drops, base.drops, n);
  }

  lemma OverrunsAdds(s: Stats, t: Totals, base: Totals, n: nat)
    requires StatsMatch(s, t, base)
    ensures StatsMatch(s.(overruns := Add64(s.overruns, n)), t.(overruns := t.overruns + n), base)
  {
    SinceAdds(s.overruns, t.overruns, base.overruns, n);
  }

  // --- outputs and sums under the changes of the fates ---

  lemma OutputGrows(accepted: Bytes, more: Bytes, f: Fate)
    requires f.from + f.len <= |accepted|
    ensures Output(accepted + more, f) == Output(accepted, f)
  {
    assert (accepted + more)[f.from..f.from + f.len] == accepted[f.from..f.from + f.len];
  }

  lemma {:induction false} PrefixSum(fates: seq<Fate>, f: Fate, to: Share, n: nat)
    requires n <= |fates|
    ensures Sum(fates + [f], to, n) == Sum(fates, to, n)
  {
    if n > 0 {
      PrefixSum(fates, f, to, n - 1);
    }
  }

  lemma AppendSum(fates: seq<Fate>, f: Fate, to: Share)
    ensures SumAll(fates + [f], to) == SumAll(fates, to) + Part(f, to)
  {
    PrefixSum(fates, f, to, |fates|);
  }

  lemma {:induction false} SumChanges(fates: seq<Fate>, k: nat, f: Fate, to: Share, n: nat)
    requires k < |fates| && n <= |fates|
    ensures Sum(fates[k := f], to, n) + (if k < n then Part(fates[k], to) else 0)
         == Sum(fates, to, n) + (if k < n then Part(f, to) else 0)
  {
    if n > 0 {
      SumChanges(fates, k, f, to, n - 1);
    }
  }

  lemma NoOutput(accepted: Bytes, f: Fate)
    requires !f.how.Passed?
    ensures Output(accepted, f) == []
  {}

  // The fates weigh as much as the stream they cover.
  lemma {:induction false} SumCovers(fates: seq<Fate>, n: nat)
    requires n <= |fates|
    requires forall k: nat | k < n :: Linked(fates, k)
    ensures Sum(fates, Flying, n) + Sum(fates, Gated, n) + Sum(fates, Overrun, n) + Sum(fates, Kept, n)
            + Sum(fates, Thrown, n) == Start(fates, n)
  {
    if n > 0 {
      SumCovers(fates, n - 1);
      assert Linked(fates, n - 1);
    }
  }

  // What came out of the first n of them is what they kept.
  lemma {:induction false} SumDelivers(accepted: Bytes, fates: seq<Fate>, outs: seq<Bytes>, n: nat)
    requires n <= |fates| && n <= |outs|
    requires forall k: nat | k < n :: Linked(fates, k) && fates[k].from + fates[k].len <= |accepted|
    requires forall k: nat | k < n :: OutOk(accepted, fates, outs, k)
    ensures |Flatten(outs, n)| == Sum(fates, Kept, n)
  {
    if n > 0 {
      SumDelivers(accepted, fates, outs, n - 1);
      assert Linked(fates, n - 1) && OutOk(accepted, fates, outs, n - 1);
      OutputLength(accepted, fates[n - 1]);
    }
  }

  lemma OutputLength(accepted: Bytes, f: Fate)
    requires FateOk(f) && f.from + f.len <= |accepted|
    ensures |Output(accepted, f)| == Part(f, Kept)
  {}

  // --- which burst is in flight ---

  // Fate k is the one undecided burst; only flushes came after it.
  ghost predicate InFlightAt(l: Ledger, k: nat) {
    && k < |l.fates| && l.fates[k].how.InFlight?
    && (forall j | 0 <= j < k :: !l.fates[j].how.InFlight?)
    && (forall j | k < j < |l.fates| :: l.fates[j].how.Flushed?)
  }

  ghost predicate NoneInFlight(l: Ledger) {
    forall j | 0 <= j < |l.fates| :: !l.fates[j].how.InFlight?
  }

  function Raw(l: Ledger, k: nat): Bytes
    requires k < |l.fates| && l.fates[k].from + l.fates[k].len <= |l.accepted|
  {
    l.accepted[l.fates[k].from..l.fates[k].from + l.fates[k].len]
  }

  lemma {:induction false} FateInside(fates: seq<Fate>, end: nat, k: nat)
    requires Chain(fates, end) && k < |fates|
    ensures fates[k].from + fates[k].len <= end
    decreases |fates| - k
  {
    if k + 1 < |fates| {
      FateInside(fates, end, k + 1);
      assert Linked(fates, k + 1);
    }
  }

  // --- the sections ---

  lemma AcceptMore(l: Ledger, more: Bytes)
    requires LedgerOk(l)
    ensures LedgerOk(Accept(l, more))
  {
    forall k: nat | k < |l.fates| ensures OutOk(l.accepted + more, l.fates, l.outs, k) {
      assert OutOk(l.accepted, l.fates, l.outs, k);
      FateInside(l.fates, l.taken, k);
      OutputGrows(l.accepted, more, l.fates[k]);
    }
  }

  lemma EnqueueTxFifos(d: Uart, bytes: Bytes)
    requires FifosOk(d)
    ensures FifosOk(EnqueueTx(d, bytes))
  {
    WindowGrows(d.led.accepted, bytes[..Fits(bytes, |d.tx|, d.txCap)], d.led.taken);
  }

  lemma EnqueueTxKeeps(d: Uart, bytes: Bytes)
    requires UartOk(d)
    ensures UartOk(EnqueueTx(d, bytes))
  {
    AcceptMore(d.led, bytes[..Fits(bytes, |d.tx|, d.txCap)]);
    EnqueueTxFifos(d, bytes);
  }

  lemma ChainExtends(fates: seq<Fate>, end: nat, f: Fate)
    requires Chain(fates, end) && FateOk(f) && f.from == end
    ensures Chain(fates + [f], end + f.len)
  {
    var all := fates + [f];
    forall k: nat | k < |all| ensures Linked(all, k) {
      if k < |fates| {
        assert Linked(fates, k);
      }
    }
  }

  lemma SumsAppend(l: Ledger, n: nat, how: How)
    requires SumsOk(l.sums, l.fates, l.rxBytes, l.rxOverruns, l.closeDrops) && (how.InFlight? || how.Flushed?)
    ensures var l' := Append(l, n, how); SumsOk(l'.sums, l'.fates, l'.rxBytes, l'.rxOverruns, l'.closeDrops)
  {
    var f := Fate(l.taken, n, how);
    AppendSum(l.fates, f, Flying);
    AppendSum(l.fates, f, Gated);
    AppendSum(l.fates, f, Overrun);
    AppendSum(l.fates, f, Kept);
    AppendSum(l.fates, f, ThrownCounted);
  }

  lemma SumsSettle(l: Ledger, k: nat, how: How, out: Bytes)
    requires SumsOk(l.sums, l.fates, l.rxBytes, l.rxOverruns, l.closeDrops)
    requires k < |l.fates| && l.fates[k].how.InFlight?
    requires how.GateDrop? || (how.Passed? && how.kept <= l.fates[k].len)
    ensures var l' := Settle(l, k, how, out); SumsOk(l'.sums, l'.fates, l'.rxBytes, l'.rxOverruns, l'.closeDrops)
  {
    var f, n := l.fates[k].(how := how), |l.fates|;
    SumChanges(l.fates, k, f, Flying, n);
    SumChanges(l.fates, k, f, Gated, n);
    SumChanges(l.fates, k, f, Overrun, n);
    SumChanges(l.fates, k, f, Kept, n);
    SumChanges(l.fates, k, f, ThrownCounted, n);
  }

  lemma OutsAppend(accepted: Bytes, fates: seq<Fate>, outs: seq<Bytes>, f: Fate)
    requires |outs| == |fates| && !f.how.Passed?
    requires forall k: nat | k < |fates| :: OutOk(accepted, fates, outs, k)
    ensures forall k: nat | k < |fates + [f]| :: OutOk(accepted, fates + [f], outs + [[]], k)
  {
    NoOutput(accepted, f);
    forall k: nat | k < |fates + [f]| ensures OutOk(accepted, fates + [f], outs + [[]], k) {
      if k < |fates| {
        assert OutOk(accepted, fates, outs, k);
      }
    }
  }

  lemma AppendKeeps(l: Ledger, n: nat, how: How)
    requires LedgerOk(l) && n > 0 && l.taken + n <= |l.accepted|
    requires how.Flushed? || (how.InFlight? && n <= BURST)
    ensures LedgerOk(Append(l, n, how))
  {
    ChainExtends(l.fates, l.taken, Fate(l.taken, n, how));
    OutsAppend(l.accepted, l.fates, l.outs, Fate(l.taken, n, how));
    FlattenAppend(l.outs, []);
    SumsAppend(l, n, how);
  }

  lemma DequeueLedger(d: Uart)
    requires LedgerOk(d.led) && FifosOk(d) && NoneInFlight(d.led) && d.tx != []
    ensures var l, k := Dequeue(d).led, |d.led.fates|;
      && LedgerOk(l) && InFlightAt(l, k)
      && l.fates[k] == Fate(d.led.taken, BurstLen(d), InFlight)
      && l.fates[k].from + l.fates[k].len <= |l.accepted|
      && Raw(l, k) == d.tx[..BurstLen(d)]
  {
    AppendKeeps(d.led, BurstLen(d), InFlight);
    WindowShrinks(d.led.accepted, d.led.taken, BurstLen(d));
  }

  lemma DequeueFifos(d: Uart)
    requires FifosOk(d)
    ensures FifosOk(Dequeue(d))
  {
    WindowShrinks(d.led.accepted, d.led.taken, BurstLen(d));
  }

  lemma DequeueStats(d: Uart)
    requires StatsOk(d) && d.tx != []
    ensures StatsOk(Dequeue(d))
  {
    TxAdds(d.stats, d.led.sums, d.led.base, BurstLen(d));
  }

  lemma DequeueKeeps(d: Uart)
    requires UartOk(d) && NoneInFlight(d.led) && d.tx != []
    ensures var d', k := Dequeue(d), |d.led.fates|;
      && UartOk(d') && InFlightAt(d'.led, k)
      && d'.led.fates[k] == Fate(d.led.taken, BurstLen(d), InFlight)
      && d'.led.fates[k].from + d'.led.fates[k].len <= |d'.led.accepted|
      && Raw(d'.led, k) == d.tx[..BurstLen(d)]
  {
    DequeueLedger(d);
    DequeueFifos(d);
    DequeueStats(d);
  }

  lemma WindowShrinks(all: Bytes, from: nat, n: nat)
    requires from + n <= |all|
    ensures all[from..][n..] == all[from + n..] && all[from..][..n] == all[from..from + n]
  {}

  lemma FlushLedger(d: Uart, counted: bool)
    requires LedgerOk(d.led) && FifosOk(d)
    ensures LedgerOk(FlushTx(d, counted).led) && FifosOk(FlushTx(d, counted))
  {
    if d.tx != [] {
      AppendKeeps(d.led, |d.tx|, Flushed(counted));
    }
  }

  lemma FlushStats(d: Uart, counted: bool)
    requires StatsOk(d)
    ensures StatsOk(FlushTx(d, counted))
  {
    if d.tx != [] && counted {
      DropsAdds(d.stats, d.led.sums, d.led.base, |d.tx|);
    }
  }

  lemma FlushKeeps(d: Uart, counted: bool)
    requires UartOk(d)
    ensures UartOk(FlushTx(d, counted)) && FlushTx(d, counted).tx == []
  {
    FlushLedger(d, counted);
    FlushStats(d, counted);
  }

  lemma CountKeeps(d: Uart)
    requires UartOk(d)
    ensures UartOk(CountTx(d)) && CountTx(d).led.fates == d.led.fates && CountTx(d).led.accepted == d.led.accepted
  {
    DropsAdds(d.stats, d.led.sums, d.led.base, |d.tx|);
  }

  lemma ChainSettles(fates: seq<Fate>, end: nat, k: nat, f: Fate)
    requires Chain(fates, end) && k < |fates| && FateOk(f)
    requires f.from == fates[k].from && f.len == fates[k].len
    ensures Chain(fates[k := f], end)
  {
    var all := fates[k := f];
    forall j: nat | j < |all| ensures Linked(all, j) {
      assert Linked(fates, j);
    }
  }

  lemma OutsSettle(accepted: Bytes, fates: seq<Fate>, outs: seq<Bytes>, k: nat, fates': seq<Fate>, outs': seq<Bytes>)
    requires |outs| == |fates| == |fates'| == |outs'| && k < |fates|
    requires fates' == fates[k := fates'[k]] && outs' == outs[k := Output(accepted, fates'[k])]
    requires forall j: nat | j < |fates| :: OutOk(accepted, fates, outs, j)
    ensures forall j: nat | j < |fates'| :: OutOk(accepted, fates', outs', j)
  {
    forall j: nat | j < |fates'| ensures OutOk(accepted, fates', outs', j) {
      assert OutOk(accepted, fates, outs, j);
    }
  }

  lemma UnsettledOuts(l: Ledger, k: nat)
    requires LedgerOk(l) && InFlightAt(l, k)
    ensures forall j | k <= j < |l.outs| :: l.outs[j] == []
  {
    forall j | k <= j < |l.outs| ensures l.outs[j] == [] {
      assert OutOk(l.accepted, l.fates, l.outs, j);
      NoOutput(l.accepted, l.fates[j]);
    }
  }

  lemma SettleKeeps(l: Ledger, k: nat, how: How, out: Bytes)
    requires LedgerOk(l) && InFlightAt(l, k)
    requires FateOk(l.fates[k].(how := how)) && (how.GateDrop? || how.Passed?)
    requires out == Output(l.accepted, l.fates[k].(how := how))
    ensures LedgerOk(Settle(l, k, how, out)) && NoneInFlight(Settle(l, k, how, out))
  {
    var f := l.fates[k].(how := how);
    ChainSettles(l.fates, l.taken, k, f);
    OutsSettle(l.accepted, l.fates, l.outs, k, l.fates[k := f], l.outs[k := out]);
    UnsettledOuts(l, k);
    FlattenFill(l.outs, k, out, |l.outs|);
    SumsSettle(l, k, how, out);
  }

  lemma DropStats(d: Uart, k: nat)
    requires StatsOk(d) && k < |d.led.fates|
    ensures StatsOk(DropBurst(d, k, d.led.fates[k].len))
  {
    DropsAdds(d.stats, d.led.sums, d.led.base, d.led.fates[k].len);
  }

  lemma DropKeeps(d: Uart, k: nat)
    requires UartOk(d) && InFlightAt(d.led, k)
    ensures var d' := DropBurst(d, k, d.led.fates[k].len); UartOk(d') && NoneInFlight(d'.led)
  {
    assert Linked(d.led.fates, k);
    SettleKeeps(d.led, k, GateDrop, []);
    DropStats(d, k);
  }

  lemma PassStats(d: Uart, k: nat, bytes: Bytes, flip: Flip)
    requires StatsOk(d) && k < |d.led.fates| && |bytes| == d.led.fates[k].len
    ensures StatsOk(EnqueueRx(d, k, bytes, flip))
  {
    OverrunsAdds(d.stats, d.led.sums, d.led.base, |bytes| - Fits(bytes, |d.rx|, d.rxCap));
  }

  lemma PassFifos(d: Uart, k: nat, bytes: Bytes, flip: Flip)
    requires FifosOk(d) && k < |d.led.fates|
    ensures FifosOk(EnqueueRx(d, k, bytes, flip))
  {
    WindowGrows(d.led.delivered, bytes[..Fits(bytes, |d.rx|, d.rxCap)], d.led.consumed);
  }

  lemma EnqueueRxKeeps(d: Uart, k: nat, bytes: Bytes, flip: Flip)
    requires UartOk(d) && InFlightAt(d.led, k)
    requires d.led.fates[k].from + d.led.fates[k].len <= |d.led.accepted|
    requires FlipFits(flip, d.led.fates[k].len) && bytes == Corrupt(Raw(d.led, k), flip)
    ensures var d' := EnqueueRx(d, k, bytes, flip); UartOk(d') && NoneInFlight(d'.led)
  {
    var n := Fits(bytes, |d.rx|, d.rxCap);
    assert Linked(d.led.fates, k);
    SettleKeeps(d.led, k, Passed(flip, n), bytes[..n]);
    PassStats(d, k, bytes, flip);
    PassFifos(d, k, bytes, flip);
  }

  lemma WindowGrows(all: Bytes, more: Bytes, from: nat)
    requires from <= |all|
    ensures (all + more)[from..] == all[from..] + more
  {}

  lemma TakeKeeps(l: Ledger, reader: nat, n: nat)
    requires LedgerOk(l) && 0 < n && l.consumed + n <= |l.delivered|
    ensures LedgerOk(Take(l, reader, n))
  {
    ReadsExtend(l.readLog, l.consumed, Read(reader, l.consumed, l.consumed + n));
    ReadBytesExtend(l.readLog, Read(reader, l.consumed, l.consumed + n));
  }

  lemma ReadBytesExtend(readLog: seq<Read>, r: Read)
    requires r.from <= r.to
    ensures ReadBytes(readLog + [r], |readLog| + 1) == ReadBytes(readLog, |readLog|) + (r.to - r.from)
  {
    ReadBytesSame(readLog, r, |readLog|);
  }

  lemma {:induction false} ReadBytesSame(readLog: seq<Read>, r: Read, n: nat)
    requires n <= |readLog|
    ensures ReadBytes(readLog + [r], n) == ReadBytes(readLog, n)
  {
    if n > 0 {
      ReadBytesSame(readLog, r, n - 1);
    }
  }

  lemma TakeFifos(d: Uart, reader: nat, count: nat)
    requires FifosOk(d)
    ensures FifosOk(TakeRx(d, reader, count)) && (StatsOk(d) ==> StatsOk(TakeRx(d, reader, count)))
  {
    WindowShrinks(d.led.delivered, d.led.consumed, Min(count, |d.rx|));
  }

  lemma TakeRxKeeps(d: Uart, reader: nat, count: nat)
    requires UartOk(d)
    ensures UartOk(TakeRx(d, reader, count))
  {
    if Min(count, |d.rx|) > 0 {
      TakeKeeps(d.led, reader, Min(count, |d.rx|));
      TakeFifos(d, reader, count);
    }
  }

  lemma ReadsExtend(readLog: seq<Read>, consumed: nat, r: Read)
    requires ReadsOk(readLog, consumed) && consumed <= r.from < r.to
    ensures ReadsOk(readLog + [r], r.to)
  {
    var all := readLog + [r];
    forall k: nat | k < |all| ensures ReadOk(all, r.to, k) {
      if k < |readLog| {
        assert ReadOk(readLog, consumed, k);
      } else if k > 0 {
        assert ReadOk(readLog, consumed, k - 1);
      }
    }
  }

  lemma DiscardKeeps(d: Uart)
    requires UartOk(d)
    ensures UartOk(DiscardRx(d)) && DiscardRx(d).led.consumed == |d.led.delivered|
  {
    var l := d.led;
    forall k: nat | k < |l.readLog| ensures ReadOk(l.readLog, |l.delivered|, k) {
      assert ReadOk(l.readLog, l.consumed, k);
    }
  }

  lemma ClearKeeps(d: Uart)
    requires UartOk(d)
    ensures UartOk(ClearStats(d))
  {}

  lemma WireWriteApart(d: Uart, r: Inserted)
    requires LedgerOk(d.led) && FifosOk(d)
    ensures LedgerOk(CountWireWrite(d, r).led) && FifosOk(CountWireWrite(d, r))
  {}

  lemma WireWriteStats(d: Uart, r: Inserted)
    requires StatsOk(d)
    ensures StatsOk(CountWireWrite(d, r))
  {
    SinceAdds(d.stats.rx, d.led.sums.rx, d.led.base.rx, r.done);
    SinceAdds(d.stats.overruns, d.led.sums.overruns, d.led.base.overruns, r.lost);
  }

  lemma WireWriteKeeps(d: Uart, r: Inserted)
    requires UartOk(d)
    ensures UartOk(CountWireWrite(d, r))
  {
    WireWriteApart(d, r);
    WireWriteStats(d, r);
  }

  // --- conservation ---

  // Every accepted byte is queued, in flight, lost at a gate, lost to an
  // overrun, thrown away by a flush, read, discarded unread or queued for
  // reading.
  ghost predicate BytesAccounted(d: Uart) {
    var f := d.led.fates;
    && |d.led.accepted| == |d.tx| + Counted(f) + SumAll(f, Thrown)
    && Counted(f) == SumAll(f, Flying) + SumAll(f, Gated) + SumAll(f, Overrun) + |d.led.delivered|
    && |d.led.delivered| == ReadBytes(d.led.readLog, |d.led.readLog|) + d.led.discarded + |d.rx|
  }

  // The statistics are exactly those sums, modulo 2^64, since they were last
  // cleared.
  ghost predicate StatsAccounted(d: Uart) {
    var f, base := d.led.fates, d.led.base;
    && Since(d.stats.tx, Counted(f), base.tx)
    && Since(d.stats.drops, SumAll(f, Gated) + SumAll(f, ThrownCounted) + d.led.closeDrops, base.drops)
    && Since(d.stats.overruns, SumAll(f, Overrun) + d.led.rxOverruns, base.overruns)
    && Since(d.stats.rx, d.led.rxBytes, base.rx)
  }

  ghost predicate Accounted(d: Uart) {
    BytesAccounted(d) && StatsAccounted(d)
  }

  lemma Conservation(d: Uart)
    requires UartOk(d)
    ensures Accounted(d)
  {
    LedgerConserves(d.led);
  }

  lemma LedgerConserves(l: Ledger)
    requires LedgerOk(l)
    ensures Counted(l.fates) + SumAll(l.fates, Thrown) == l.taken
    ensures SumAll(l.fates, Kept) == |l.delivered|
  {
    SumCovers(l.fates, |l.fates|);
    forall k: nat | k < |l.fates| ensures l.fates[k].from + l.fates[k].len <= |l.accepted| {
      FateInside(l.fates, l.taken, k);
    }
    SumDelivers(l.accepted, l.fates, l.outs, |l.fates|);
  }

  lemma EmptyLedgerOk(l: Ledger)
    requires |l.accepted| == l.taken == |l.fates| == |l.outs| == |l.delivered| == l.consumed == l.discarded == |l.readLog| == 0
    requires l.rxBytes == l.rxOverruns == l.closeDrops == 0 && l.sums == NO_TOTALS
    ensures LedgerOk(l) && NoneInFlight(l)
  {}

  lemma EmptyStatsOk(s: Stats, t: Totals)
    requires s == Stats(0, 0, 0, 0) && t == Totals(0, 0, 0, 0)
    ensures StatsMatch(s, t, t)
  {
    assert Wrap64(0) == 0;
  }
}

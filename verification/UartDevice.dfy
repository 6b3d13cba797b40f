// One UART: its two fifos, its statistics and the pieces of code that run under
// one of its locks.  Each function is one critical section; the class below
// does the same in place.
module UartDevice {
  import opened Counters
  import opened FaultGate

  const BURST: nat := 64
  const CHUNK: nat := 256
  const PAGE: nat := 4096
  const BUF_MIN: nat := 64
  const BUF_MAX: nat := 65536
  const MAX_FAULT_NS: nat := 10000000000
  const NSEC_PER_SEC: nat := 1000000000

  // A byte, least significant bit first.
  datatype Byte = Byte(b0: bool, b1: bool, b2: bool, b3: bool, b4: bool, b5: bool, b6: bool, b7: bool)

  const NUL := Byte(false, false, false, false, false, false, false, false)

  type Bytes = seq<Byte>

  datatype Attrs = Attrs(enabled: bool, latency: nat, jitter: nat, dropPpm: nat, flipPpm: nat)

  datatype Stats = Stats(tx: nat, rx: nat, overruns: nat, drops: nat)

  datatype Timer = Off | Armed(delay: nat)

  // --- history: what became of every byte the AUT wrote ---

  datatype Flip = NoFlip | FlipBit(index: nat, bit: nat)

  // A stretch of len bytes of the accepted stream, starting at from, leaves
  // tx_fifo as one burst or in one flush.
  datatype How =
    | InFlight                           // dequeued, not yet decided or enqueued
    | GateDrop                           // lost to the enabled or the drop gate
    | Passed(flip: Flip, kept: nat)      // the first kept bytes fit rx_fifo
    | Flushed(counted: bool)             // thrown away; only DOWN counts it as it does so
  datatype Fate = Fate(from: nat, len: nat, how: How)

  // A stretch [from, to) of the delivered stream handed to one wire_read.
  datatype Read = Read(reader: nat, from: nat, to: nat)

  datatype Totals = Totals(tx: nat, rx: nat, overruns: nat, drops: nat)

  datatype Ledger = Ledger(
    accepted: Bytes,         // everything tty_write took, in order
    taken: nat,              // how much of it has left tx_fifo
    fates: seq<Fate>,
    outs: seq<Bytes>,        // what each of them has put into rx_fifo
    delivered: Bytes,        // everything put into rx_fifo, in order
    consumed: nat,           // how much of it has left rx_fifo
    discarded: nat,          // how much of that was thrown away unread
    readLog: seq<Read>,
    rxBytes: nat,            // simulator to AUT, since the device exists
    rxOverruns: nat,
    closeDrops: nat,         // what the last closes counted before they threw it away
    sums: Totals,            // everything counted since the device exists
    base: Totals)            // sums when the statistics were last cleared

  datatype Uart = Uart(
    attrs: Attrs,
    baud: nat,
    txCap: nat,              // 0 while the fifo is not allocated
    rxCap: nat,
    portActive: bool,
    tx: Bytes,
    rx: Bytes,
    timer: Timer,
    workPending: bool,
    wireOpen: bool,
    resetPending: bool,
    stats: Stats,
    led: Ledger)

  // What a new fate, or settling one, adds to the statistics.
  function Charge(t: Totals, n: nat, how: How): Totals {
    match how
    case InFlight => t.(tx := t.tx + n)
    case GateDrop => t.(drops := t.drops + n)
    case Passed(_, kept) => t.(overruns := t.overruns + if kept <= n then n - kept else 0)
    case Flushed(counted) => if counted then t.(drops := t.drops + n) else t
  }

  function Accept(l: Ledger, more: Bytes): Ledger {
    l.(accepted := l.accepted + more)
  }

  // The next n bytes leave tx_fifo.
  function Append(l: Ledger, n: nat, how: How): Ledger {
    l.(taken := l.taken + n,
       fates := l.fates + [Fate(l.taken, n, how)],
       outs := l.outs + [[]],
       sums := Charge(l.sums, n, how))
  }

  // What becomes of the burst of fate k, and what of it reaches rx_fifo.
  function Settle(l: Ledger, k: nat, how: How, out: Bytes): Ledger
    requires k < |l.fates|
  {
    l.(fates := l.fates[k := l.fates[k].(how := how)],
       outs := if k < |l.outs| then l.outs[k := out] else l.outs,
       delivered := l.delivered + out,
       sums := Charge(l.sums, l.fates[k].len, how))
  }

  // The next n bytes leave rx_fifo, read or thrown away.
  function Take(l: Ledger, reader: nat, n: nat): Ledger {
    l.(consumed := l.consumed + n, readLog := l.readLog + [Read(reader, l.consumed, l.consumed + n)])
  }

  function Discard(l: Ledger, n: nat): Ledger {
    l.(consumed := l.consumed + n, discarded := l.discarded + n)
  }

  function FromSimulator(l: Ledger, bytes: nat, lost: nat): Ledger {
    l.(rxBytes := l.rxBytes + bytes, rxOverruns := l.rxOverruns + lost,
       sums := l.sums.(rx := l.sums.rx + bytes, overruns := l.sums.overruns + lost))
  }

  function CountClose(l: Ledger, n: nat): Ledger {
    l.(closeDrops := l.closeDrops + n, sums := l.sums.(drops := l.sums.drops + n))
  }

  const DEFAULT_BAUD: nat := 38400
  const NO_FAULTS := Attrs(true, 0, 0, 0, 0)
  const NO_STATS := Stats(0, 0, 0, 0)
  const NO_TOTALS := Totals(0, 0, 0, 0)

  function FreshUart(): Uart {
    Uart(NO_FAULTS, DEFAULT_BAUD, 0, 0, false, [], [], Off, false, false, false, NO_STATS,
         Ledger([], 0, [], [], [], 0, 0, [], 0, 0, 0, NO_TOTALS, NO_TOTALS))
  }

  // --- pacing ---

  // Ten bits a byte; a rate of zero falls back to 9600 baud.
  function ByteNs(baud: nat): nat {
    10 * NSEC_PER_SEC / if baud == 0 then 9600 else baud
  }

  // t is the time of ten bits at this rate, in whole nanoseconds.
  predicate IsByteTime(t: nat, baud: nat) {
    var r := if baud == 0 then 9600 else baud;
    t * r <= 10000000000 < (t + 1) * r
  }

  lemma ByteTime(baud: nat)
    ensures IsByteTime(ByteNs(baud), baud)
  {
    var r := if baud == 0 then 9600 else baud;
    RestIsSmall(10 * NSEC_PER_SEC, r);
  }

  lemma RestIsSmall(a: nat, r: nat)
    requires r > 0
    ensures a / r * r <= a < (a / r + 1) * r
  {
    assert a == a / r * r + a % r;
  }

  // t is the time of n bytes at this rate, the latency and the sampled jitter.
  ghost predicate IsPause(t: nat, baud: nat, n: nat, latency: nat, jitter: nat, hi: Draw, lo: Draw) {
    exists b: nat :: IsByteTime(b, baud) &&
      t == b * n + latency + if jitter == 0 then 0 else (hi * 0x1_0000_0000 + lo) % (jitter + 1)
  }

  lemma PauseTime(baud: nat, n: nat, latency: nat, jitter: nat, hi: Draw, lo: Draw)
    ensures IsPause(RearmDelay(baud, n, latency, jitter, hi, lo), baud, n, latency, jitter, hi, lo)
  {
    ByteTime(baud);
  }

  function RearmDelay(baud: nat, n: nat, latency: nat, jitter: nat, hi: Draw, lo: Draw): nat {
    ByteNs(baud) * n + latency + if jitter == 0 then 0 else (hi * U32 + lo) % (jitter + 1)
  }

  // --- the fault gates of one burst ---

  // The draws a burst consumes, each only if its gate asks for it.
  datatype Draws = Draws(drop: Draw, flip: Draw, bit: Draw)

  datatype Verdict = Drop | Send(flip: Flip)

  function Decide(a: Attrs, n: nat, w: Draws): Verdict
    requires n > 0
  {
    if !a.enabled then Drop
    else if Fires(a.dropPpm, w.drop) then Drop
    else if Fires(a.flipPpm, w.flip) then Send(FlipBit(w.flip / PPM % n, w.bit % 8))
    else Send(NoFlip)
  }

  function BitOf(b: Byte, k: nat): bool {
    match k
    case 0 => b.b0
    case 1 => b.b1
    case 2 => b.b2
    case 3 => b.b3
    case 4 => b.b4
    case 5 => b.b5
    case 6 => b.b6
    case _ => b.b7
  }

  // b ^ (1 << bit), for bit below 8
  function Toggle(b: Byte, bit: nat): Byte {
    match bit
    case 0 => b.(b0 := !b.b0)
    case 1 => b.(b1 := !b.b1)
    case 2 => b.(b2 := !b.b2)
    case 3 => b.(b3 := !b.b3)
    case 4 => b.(b4 := !b.b4)
    case 5 => b.(b5 := !b.b5)
    case 6 => b.(b6 := !b.b6)
    case _ => b.(b7 := !b.b7)
  }

  predicate FlipFits(f: Flip, n: nat) {
    f.FlipBit? ==> f.index < n && f.bit < 8
  }

  function Corrupt(bytes: Bytes, f: Flip): (r: Bytes)
    requires FlipFits(f, |bytes|)
    ensures |r| == |bytes|
  {
    match f
    case NoFlip => bytes
    case FlipBit(i, bit) => bytes[i := Toggle(bytes[i], bit)]
  }

  // A fired bitflip gate changes exactly one bit of exactly one byte in range.
  lemma OneBitChanges(a: Attrs, bytes: Bytes, w: Draws, j: nat, k: nat)
    requires bytes != [] && j < |bytes| && k < 8
    requires Decide(a, |bytes|, w).Send?
    ensures var f := Decide(a, |bytes|, w).flip;
      && FlipFits(f, |bytes|)
      && (BitOf(Corrupt(bytes, f)[j], k) != BitOf(bytes[j], k) <==> f == FlipBit(j, k))
      && (f.NoFlip? <==> !Fires(a.flipPpm, w.flip))
  {
    var f := Decide(a, |bytes|, w).flip;
    assert f.FlipBit? ==> f.index < |bytes| && f.bit < 8;
  }

  // --- sections on tx_fifo ---

  function Fits(bytes: Bytes, queued: nat, cap: nat): nat {
    if queued >= cap then 0 else Min(|bytes|, cap - queued)
  }

  function EnqueueTx(d: Uart, bytes: Bytes): Uart {
    var taken := bytes[..Fits(bytes, |d.tx|, d.txCap)];
    d.(tx := d.tx + taken, led := Accept(d.led, taken))
  }

  function StartTimer(d: Uart, delay: nat): Uart {
    d.(timer := Armed(delay))
  }

  function BurstLen(d: Uart): nat {
    Min(BURST, |d.tx|)
  }

  // Take one burst and count it; what becomes of it is settled later.
  function Dequeue(d: Uart): Uart {
    var n := BurstLen(d);
    if n == 0 then d
    else d.(tx := d.tx[n..],
            stats := d.stats.(tx := Add64(d.stats.tx, n)),
            led := Append(d.led, n, InFlight))
  }

  function DropBurst(d: Uart, k: nat, n: nat): Uart
    requires k < |d.led.fates|
  {
    d.(stats := d.stats.(drops := Add64(d.stats.drops, n)), led := Settle(d.led, k, GateDrop, []))
  }

  function EnqueueRx(d: Uart, k: nat, bytes: Bytes, flip: Flip): Uart
    requires k < |d.led.fates|
  {
    var n := Fits(bytes, |d.rx|, d.rxCap);
    d.(rx := d.rx + bytes[..n],
       stats := d.stats.(overruns := Add64(d.stats.overruns, |bytes| - n)),
       led := Settle(d.led, k, Passed(flip, n), bytes[..n]))
  }

  function FlushTx(d: Uart, counted: bool): Uart {
    var n := |d.tx|;
    if n == 0 then d
    else d.(tx := [],
            stats := if counted then d.stats.(drops := Add64(d.stats.drops, n)) else d.stats,
            led := Append(d.led, n, Flushed(counted)))
  }

  // --- sections on rx_fifo ---

  function TakeRx(d: Uart, reader: nat, count: nat): Uart {
    var n := Min(count, |d.rx|);
    if n == 0 then d
    else d.(rx := d.rx[n..],
            led := Take(d.led, reader, n))
  }

  function DiscardRx(d: Uart): Uart {
    d.(rx := [], led := Discard(d.led, |d.rx|))
  }

  // --- the last close of the port ---

  // Count what is queued as dropped.
  function CountTx(d: Uart): Uart {
    var n := |d.tx|;
    d.(stats := d.stats.(drops := Add64(d.stats.drops, n)), led := CountClose(d.led, n))
  }

  // Whatever is queued by now goes with the fifo.
  function FreeTx(d: Uart): Uart {
    FlushTx(d, false).(txCap := 0)
  }

  function FreeRx(d: Uart): Uart {
    DiscardRx(d).(rxCap := 0, portActive := false)
  }

  // --- simulator to AUT ---

  // wire_write inserts chunk by chunk; each chunk gets what the flip buffer
  // grants it, and the first chunk cut short ends the call.  The result is how
  // much went through and how much of that chunk did not.
  datatype Inserted = Inserted(done: nat, lost: nat)

  function Insert(count: nat, done: nat, grants: seq<nat>): Inserted
    decreases count - done
  {
    if done >= count then Inserted(done, 0)
    else
      var chunk, n := Min(count - done, CHUNK), Granted(Min(count - done, CHUNK), grants);
      if n < chunk then Inserted(done + n, chunk - n) else Insert(count, done + n, LaterGrants(grants))
  }

  function Granted(chunk: nat, grants: seq<nat>): nat {
    if grants == [] then 0 else Min(grants[0], chunk)
  }

  function LaterGrants(grants: seq<nat>): seq<nat> {
    if grants == [] then [] else grants[1..]
  }

  // One round of the loop: all of the chunk goes through, or the call is over.
  lemma InsertRound(count: nat, done: nat, grants: seq<nat>)
    requires done < count
    ensures var chunk := Min(count - done, CHUNK); var n := Granted(chunk, grants);
      Insert(count, done, grants) == if n == chunk then Insert(count, done + n, LaterGrants(grants)) else Inserted(done + n, chunk - n)
  {}

  // A chunk is at most 256 bytes; all of it goes through, or as much as is granted, and
  // then the call is over.
  lemma {:induction false} InsertEffect(count: nat, grants: seq<nat>)
    requires count > 0
    ensures var g, chunk := if grants == [] then 0 else grants[0], if count < 256 then count else 256;
      var r := Insert(count, 0, grants);
      if g < chunk then r == Inserted(g, chunk - g)
      else r == Inserted(chunk + Insert(count - chunk, 0, LaterGrants(grants)).done, Insert(count - chunk, 0, LaterGrants(grants)).lost)
  {
    InsertRound(count, 0, grants);
    var chunk := Min(count, CHUNK);
    if Granted(chunk, grants) == chunk {
      InsertShifts(count, chunk, LaterGrants(grants), 0);
    }
  }

  // The loop goes on from done as it would from the start with the rest.
  lemma {:induction false} InsertShifts(count: nat, skip: nat, grants: seq<nat>, done: nat)
    requires skip + done <= count
    ensures Insert(count, skip + done, grants) ==
      Inserted(skip + Insert(count - skip, done, grants).done, Insert(count - skip, done, grants).lost)
    decreases count - done
  {
    if skip + done < count {
      var chunk := Min(count - skip - done, CHUNK);
      if Granted(chunk, grants) == chunk {
        InsertShifts(count, skip, LaterGrants(grants), done + chunk);
      }
    }
  }

  lemma CountsAdd(l: Ledger, done: nat, n: nat, lost: nat)
    ensures FromSimulator(FromSimulator(l, done, 0), n, lost) == FromSimulator(l, done + n, lost)
  {}

  function CountWireWrite(d: Uart, r: Inserted): Uart {
    d.(stats := d.stats.(rx := Add64(d.stats.rx, r.done), overruns := Add64(d.stats.overruns, r.lost)),
       led := FromSimulator(d.led, r.done, r.lost))
  }

  // The bytes that went through are a prefix; only the rest of the chunk that
  // was cut short is counted as overrun, not what was never tried.
  lemma {:induction false} InsertShape(count: nat, done: nat, grants: seq<nat>)
    requires done <= count
    ensures var r := Insert(count, done, grants);
      && done <= r.done && r.done + r.lost <= count && r.lost <= CHUNK
      && (r.lost == 0 <==> r.done == count)
      && (r.lost > 0 ==> r.done + r.lost == count || (r.done + r.lost - done) % CHUNK == 0)
    decreases count - done
  {
    if done < count {
      var chunk := Min(count - done, CHUNK);
      if Granted(chunk, grants) == chunk {
        InsertShape(count, done + chunk, LaterGrants(grants));
      }
    }
  }

  // --- statistics ---

  function ClearStats(d: Uart): Uart {
    d.(stats := NO_STATS, led := d.led.(base := d.led.sums))
  }

  // --- whole callbacks, with nothing in between ---

  // The last close: cancel, count, free both fifos.
  function CloseAlone(d: Uart): Uart {
    FreeRx(FreeTx(CountTx(d.(timer := Off, workPending := false))))
  }

  // RESET with nothing in between: cancel, flush, clear, signal the wire.
  function ResetAlone(d: Uart): Uart {
    var d1 := FlushTx(d.(timer := Off, workPending := false), false);
    ClearStats(d1.(attrs := NO_FAULTS)).(resetPending := true)
  }

  // One work run with nothing in between: dequeue, gates, enqueue, rearm.
  function WorkAlone(d: Uart, w: Draws, hi: Draw, lo: Draw): Uart {
    var n := BurstLen(d);
    if n == 0 then d
    else
      var k, d1 := |d.led.fates|, Dequeue(d);
      var d2 := match Decide(d1.attrs, n, w)
        case Drop => DropBurst(d1, k, n)
        case Send(f) => EnqueueRx(d1, k, Corrupt(d.tx[..n], f), f);
      if d2.tx == [] then d2
      else StartTimer(d2, RearmDelay(d1.baud, n, d1.attrs.latency, d1.attrs.jitter, hi, lo))
  }

  // --- what they come to, in the numbers of the driver ---

  // The gates drop a burst: the device is disabled, or the drop gate fires.
  predicate Drops(a: Attrs, drop: Draw) {
    !a.enabled || (a.dropPpm != 0 && drop % 1000000 < a.dropPpm)
  }

  // The flip gate fires and hits bit k of byte j of a burst of n.
  predicate FlipsAt(a: Attrs, n: nat, w: Draws, j: nat, k: nat) {
    n > 0 && a.flipPpm != 0 && w.flip % 1000000 < a.flipPpm && j == w.flip / 1000000 % n && k == w.bit % 8
  }

  // What came out of the burst was has bit k of byte j changed exactly if it was hit.
  predicate HitOnly(a: Attrs, w: Draws, was: Bytes, now: Bytes, j: nat, k: nat) {
    j < |now| <= |was| && k < 8 ==> (BitOf(now[j], k) != BitOf(was[j], k) <==> FlipsAt(a, |was|, w, j, k))
  }

  ghost predicate Flipped(a: Attrs, w: Draws, was: Bytes, now: Bytes) {
    forall j: nat, k: nat :: HitOnly(a, w, was, now, j, k)
  }

  lemma VerdictEffect(a: Attrs, bytes: Bytes, w: Draws)
    requires bytes != []
    ensures Decide(a, |bytes|, w).Drop? <==> Drops(a, w.drop)
    ensures Decide(a, |bytes|, w).Send? ==>
      FlipFits(Decide(a, |bytes|, w).flip, |bytes|) && Flipped(a, w, bytes, Corrupt(bytes, Decide(a, |bytes|, w).flip))
  {
    if Decide(a, |bytes|, w).Send? {
      var f := Decide(a, |bytes|, w).flip;
      assert f.FlipBit? ==> f.index < |bytes| && f.bit < 8;
      forall j: nat, k: nat ensures HitOnly(a, w, bytes, Corrupt(bytes, f), j, k) {
        if j < |bytes| && k < 8 {
          OneBitChanges(a, bytes, w, j, k);
        }
      }
    }
  }

  lemma FlippedPrefix(a: Attrs, w: Draws, was: Bytes, now: Bytes, n: nat)
    requires Flipped(a, w, was, now) && n <= |now| == |was|
    ensures Flipped(a, w, was, now[..n])
  {
    forall j: nat, k: nat ensures HitOnly(a, w, was, now[..n], j, k) {
      assert HitOnly(a, w, was, now, j, k);
    }
  }

  // The burst that is next.
  function Burst(d: Uart): Bytes {
    d.tx[..if |d.tx| < 64 then |d.tx| else 64]
  }

  // How many of n bytes find room behind those that are queued.
  function Room(n: nat, queued: nat, cap: nat): nat {
    if queued + n <= cap then n else if queued <= cap then cap - queued else 0
  }

  // A dropped burst is counted and reaches nobody.
  predicate Dropped(d: Uart, d': Uart, n: nat) {
    && d'.rx == d.rx && d'.led.delivered == d.led.delivered
    && d'.stats.drops == (d.stats.drops + n) % 0x1_0000_0000_0000_0000 && d'.stats.overruns == d.stats.overruns
  }

  // Any other is put into rx_fifo as far as there is room, and the rest is counted.
  ghost predicate PassedOn(d: Uart, d': Uart, burst: Bytes, w: Draws) {
    var n := Room(|burst|, |d.rx|, d.rxCap);
    && |d'.rx| == |d.rx| + n && d'.rx[..|d.rx|] == d.rx && Flipped(d.attrs, w, burst, d'.rx[|d.rx|..])
    && d'.stats.drops == d.stats.drops
    && d'.stats.overruns == (d.stats.overruns + (|burst| - n)) % 0x1_0000_0000_0000_0000
  }

  lemma DropEffect(d: Uart, k: nat, n: nat)
    requires k < |d.led.fates|
    ensures Dropped(d, DropBurst(d, k, n), n) && DropBurst(d, k, n).led.fates == d.led.fates[k := d.led.fates[k].(how := GateDrop)]
  {
    AddIsModulo(d.stats.drops, n);
  }

  lemma PassEffect(d: Uart, k: nat, burst: Bytes, w: Draws, f: Flip)
    requires k < |d.led.fates| && burst != [] && FlipFits(f, |burst|) && Flipped(d.attrs, w, burst, Corrupt(burst, f))
    ensures var d' := EnqueueRx(d, k, Corrupt(burst, f), f);
      && PassedOn(d, d', burst, w)
      && d'.led.fates == d.led.fates[k := d.led.fates[k].(how := Passed(f, Room(|burst|, |d.rx|, d.rxCap)))]
  {
    var n := Room(|burst|, |d.rx|, d.rxCap);
    AddIsModulo(d.stats.overruns, |burst| - n);
    FlippedPrefix(d.attrs, w, burst, Corrupt(burst, f), n);
    assert (d.rx + Corrupt(burst, f)[..n])[|d.rx|..] == Corrupt(burst, f)[..n];
  }

  lemma TakenEffect(d: Uart)
    requires d.tx != []
    ensures var d', n := Dequeue(d), |Burst(d)|;
      && n > 0 && d'.tx == d.tx[n..] && d'.attrs == d.attrs && d'.baud == d.baud && d'.rx == d.rx && d'.rxCap == d.rxCap
      && d'.stats == d.stats.(tx := (d.stats.tx + n) % 0x1_0000_0000_0000_0000)
      && d'.led.fates == d.led.fates + [Fate(d.led.taken, n, InFlight)] && d'.led.delivered == d.led.delivered
      && d'.timer == d.timer
      && BurstLen(d) == n
  {
    AddIsModulo(d.stats.tx, |Burst(d)|);
  }

  // One work run: the next burst is dropped or passed on as its gates say, and the
  // timer is set for the rest, if there is one.
  ghost predicate WorkDone(d: Uart, d': Uart, w: Draws, hi: Draw, lo: Draw) {
    var b, f := Burst(d), d'.led.fates;
    && d'.tx == d.tx[|b|..] && d'.stats.tx == (d.stats.tx + |b|) % 0x1_0000_0000_0000_0000
    && |f| == |d.led.fates| + 1 && f[..|f| - 1] == d.led.fates
    && (if Drops(d.attrs, w.drop) then f[|f| - 1].how == GateDrop && Dropped(d, d', |b|)
        else f[|f| - 1].how.Passed? && PassedOn(d, d', b, w))
    && (if d'.tx == [] then d'.timer == d.timer
        else d'.timer.Armed? && IsPause(d'.timer.delay, d.baud, |b|, d.attrs.latency, d.attrs.jitter, hi, lo))
  }

  // What the gates and the delivery leave of one burst.
  ghost predicate Gated(d: Uart, d': Uart, k: nat, burst: Bytes, w: Draws) {
    var f := d'.led.fates;
    && d'.tx == d.tx && d'.stats.tx == d.stats.tx && d'.timer == d.timer
    && k < |f| == |d.led.fates| && f[..k] == d.led.fates[..k]
    && (if Drops(d.attrs, w.drop) then f[k].how == GateDrop && Dropped(d, d', |burst|)
        else f[k].how.Passed? && PassedOn(d, d', burst, w))
  }

  lemma GatesEffect(d: Uart, k: nat, burst: Bytes, w: Draws, d': Uart)
    requires k < |d.led.fates| && burst != []
    requires d' == match Decide(d.attrs, |burst|, w)
                   case Drop => DropBurst(d, k, |burst|)
                   case Send(f) => EnqueueRx(d, k, if FlipFits(f, |burst|) then Corrupt(burst, f) else burst, f)
    ensures Gated(d, d', k, burst, w)
  {
    VerdictEffect(d.attrs, burst, w);
    match Decide(d.attrs, |burst|, w) {
      case Drop => DropEffect(d, k, |burst|);
      case Send(f) => PassEffect(d, k, burst, w, f);
    }
  }

  lemma WorkEffect(d: Uart, w: Draws, hi: Draw, lo: Draw)
    ensures if d.tx == [] then WorkAlone(d, w, hi, lo) == d else WorkDone(d, WorkAlone(d, w, hi, lo), w, hi, lo)
  {
    if d.tx != [] {
      var k, b, d1 := |d.led.fates|, Burst(d), Dequeue(d);
      TakenEffect(d);
      VerdictEffect(d1.attrs, b, w);
      var d2 := match Decide(d1.attrs, |b|, w)
        case Drop => DropBurst(d1, k, |b|)
        case Send(f) => EnqueueRx(d1, k, Corrupt(b, f), f);
      GatesEffect(d1, k, b, w, d2);
      RestEffect(d, d1, d2, w, hi, lo);
    }
  }

  // The burst is taken, goes through the gates, and the timer is set for the rest.
  lemma RestEffect(d: Uart, d1: Uart, d2: Uart, w: Draws, hi: Draw, lo: Draw)
    requires d.tx != [] && d1 == Dequeue(d) && Gated(d1, d2, |d.led.fates|, Burst(d), w)
    ensures var delay := RearmDelay(d1.baud, |Burst(d)|, d1.attrs.latency, d1.attrs.jitter, hi, lo);
      WorkDone(d, if d2.tx == [] then d2 else StartTimer(d2, delay), w, hi, lo)
  {
    TakenEffect(d);
    PauseTime(d.baud, |Burst(d)|, d.attrs.latency, d.attrs.jitter, hi, lo);
  }

  // RESET: everything queued and every fault is gone, the wire session is at its end;
  // what is in rx_fifo, the rate and the port stay.
  lemma ResetEffect(d: Uart)
    ensures var d' := ResetAlone(d);
      && d'.attrs.enabled && d'.attrs.latency == d'.attrs.jitter == d'.attrs.dropPpm == d'.attrs.flipPpm == 0
      && d'.stats.tx == d'.stats.rx == d'.stats.overruns == d'.stats.drops == 0
      && d'.tx == [] && d'.timer.Off? && !d'.workPending && d'.resetPending
      && d'.rx == d.rx && d'.baud == d.baud && d'.txCap == d.txCap && d'.rxCap == d.rxCap
      && d'.portActive == d.portActive && d'.wireOpen == d.wireOpen
      && d'.led.delivered == d.led.delivered && d'.led.consumed == d.led.consumed
  {}

  // DOWN: what is queued is thrown away and counted; faults and the wire stay.
  lemma DownEffect(d: Uart)
    ensures var d' := FlushTx(d.(timer := Off, workPending := false), true);
      && d'.tx == [] && d'.timer.Off? && !d'.workPending
      && (d.tx != [] ==> d'.stats == d.stats.(drops := (d.stats.drops + |d.tx|) % 0x1_0000_0000_0000_0000))
      && (d.tx == [] ==> d'.stats == d.stats)
      && d'.attrs == d.attrs && d'.rx == d.rx && d'.baud == d.baud && d'.txCap == d.txCap && d'.rxCap == d.rxCap
      && d'.portActive == d.portActive && d'.wireOpen == d.wireOpen && d'.resetPending == d.resetPending
  {
    AddIsModulo(d.stats.drops, |d.tx|);
  }

  // The last close: what is queued is counted, and both fifos are gone.
  lemma CloseEffect(d: Uart)
    ensures var d' := CloseAlone(d);
      && d'.tx == [] && d'.rx == [] && d'.txCap == d'.rxCap == 0 && !d'.portActive && d'.timer.Off? && !d'.workPending
      && d'.stats == d.stats.(drops := (d.stats.drops + |d.tx|) % 0x1_0000_0000_0000_0000)
      && d'.attrs == d.attrs && d'.baud == d.baud && d'.wireOpen == d.wireOpen && d'.resetPending == d.resetPending
  {
    AddIsModulo(d.stats.drops, |d.tx|);
  }

  // --- the device, updated in place ---

  class UartDev {
    var attrs: Attrs
    var baud: nat
    var txCap: nat
    var rxCap: nat
    var portActive: bool
    var tx: Bytes
    var rx: Bytes
    var timer: Timer
    var workPending: bool
    var wireOpen: bool
    var resetPending: bool
    var statTx: nat
    var statRx: nat
    var statOverruns: nat
    var statDrops: nat
    ghost var led: Ledger

    ghost function Abs(): Uart
      reads this
    {
      Uart(attrs, baud, txCap, rxCap, portActive, tx, rx, timer, workPending, wireOpen, resetPending,
           Stats(statTx, statRx, statOverruns, statDrops), led)
    }

    constructor ()
      ensures Abs() == FreshUart()
      ensures attrs.enabled && attrs.latency == attrs.jitter == attrs.dropPpm == attrs.flipPpm == 0 && baud == 38400
      ensures statTx == statRx == statOverruns == statDrops == 0 && tx == rx == [] && txCap == rxCap == 0
      ensures !portActive && timer.Off? && !workPending && !wireOpen && !resetPending
    {
      attrs, baud := NO_FAULTS, DEFAULT_BAUD;
      txCap, rxCap, portActive := 0, 0, false;
      tx, rx, timer, workPending := [], [], Off, false;
      wireOpen, resetPending := false, false;
      statTx, statRx, statOverruns, statDrops := 0, 0, 0, 0;
      led := Ledger([], 0, [], [], [], 0, 0, [], 0, 0, 0, NO_TOTALS, NO_TOTALS);
    }

    // tty_write from end to end, with the bus state it saw.
    method TtyWrite(busUp: bool, bytes: Bytes) returns (accepted: bool, copied: nat)
      modifies this`tx, this`timer, this`led
      ensures accepted <==> busUp && old(attrs.enabled)
      ensures !accepted ==> copied == 0 && Abs() == old(Abs())
      ensures accepted ==> copied == Fits(bytes, |old(tx)|, old(txCap))
      ensures accepted ==> var d := EnqueueTx(old(Abs()), bytes);
        Abs() == if copied > 0 then StartTimer(d, ByteNs(baud)) else d
      // as much as there is room for is queued, and the timer is set for one byte
      ensures accepted ==> copied == Room(|bytes|, |old(tx)|, old(txCap)) && tx == old(tx) + bytes[..copied]
      ensures copied > 0 ==> timer.Armed? && IsByteTime(timer.delay, old(baud))
    {
      if !busUp || !attrs.enabled {
        return false, 0;
      }
      accepted := true;
      copied := 0;
      if |tx| < txCap {
        copied := if |bytes| < txCap - |tx| then |bytes| else txCap - |tx|;
      }
      tx := tx + bytes[..copied];
      led := Accept(led, bytes[..copied]);
      if copied > 0 {
        ByteTime(baud);
        timer := Armed(ByteNs(baud));
      }
    }

    // The bitflip of one burst, in the burst buffer itself.
    method FlipInPlace(burst: array<Byte>, n: nat, rnd: Draw, rnd2: Draw)
      requires 0 < n <= burst.Length
      modifies burst
      ensures burst[..n] == Corrupt(old(burst[..n]), FlipBit(rnd / PPM % n, rnd2 % 8))
      ensures burst[n..] == old(burst[n..])
    {
      var i := rnd / PPM % n;
      burst[i] := Toggle(burst[i], rnd2 % 8);
    }

    method TakeBurst(burst: array<Byte>) returns (n: nat)
      requires burst.Length == BURST
      modifies this, burst
      ensures n == BurstLen(old(Abs())) && n <= |old(tx)|
      ensures Abs() == Dequeue(old(Abs()))
      ensures burst[..n] == old(tx)[..n] && tx == old(tx)[n..]
      ensures n == if |old(tx)| < 64 then |old(tx)| else 64
    {
      n := if |tx| < BURST then |tx| else BURST;
      if n == 0 {
        return;
      }
      forall i | 0 <= i < n {
        burst[i] := tx[i];
      }
      tx := tx[n..];
      led := Append(led, n, InFlight);
      WrapIsModulo(statTx + n);
      statTx := (statTx + n) % U64;
    }

    method CountDropped(n: nat, ghost k: nat)
      requires k < |led.fates|
      modifies this`statDrops, this`led
      ensures Abs() == DropBurst(old(Abs()), k, n)
    {
      WrapIsModulo(statDrops + n);
      statDrops := (statDrops + n) % U64;
      led := Settle(led, k, GateDrop, []);
    }

    method Deliver(burst: array<Byte>, n: nat, ghost k: nat, ghost flip: Flip)
      requires n <= burst.Length && k < |led.fates| && statOverruns < U64
      modifies this`rx, this`statOverruns, this`led
      ensures Abs() == EnqueueRx(old(Abs()), k, burst[..n], flip)
    {
      var written := 0;
      if |rx| < rxCap {
        written := if n < rxCap - |rx| then n else rxCap - |rx|;
      }
      assert burst[..n][..written] == burst[..written];
      rx := rx + burst[..written];
      led := Settle(led, k, Passed(flip, written), burst[..written]);
      if written < n {
        WrapIsModulo(statOverruns + (n - written));
        statOverruns := (statOverruns + (n - written)) % U64;
      }
    }

    method RearmIfQueued(n: nat, rate: nat, latency: nat, jitter: nat, hi: Draw, lo: Draw)
      modifies this`timer
      ensures timer == if tx == [] then old(timer) else Armed(RearmDelay(rate, n, latency, jitter, hi, lo))
      ensures tx != [] ==> timer.Armed? && IsPause(timer.delay, rate, n, latency, jitter, hi, lo)
    {
      PauseTime(rate, n, latency, jitter, hi, lo);
      if tx != [] {
        var delay := ByteNs(rate) * n + latency;
        if jitter != 0 {
          var rnd64 := hi * U32 + lo;
          delay := delay + rnd64 % (jitter + 1);
        }
        timer := Armed(delay);
      }
    }

    // The gates of one burst in the burst buffer: it is dropped, or delivered with
    // perhaps one bit flipped.
    method PassGates(burst: array<Byte>, n: nat, w: Draws, ghost k: nat)
      requires 0 < n <= burst.Length && k < |led.fates| && statOverruns < U64
      modifies this, burst
      ensures Abs() == match Decide(old(attrs), n, w)
                       case Drop => DropBurst(old(Abs()), k, n)
                       case Send(f) => EnqueueRx(old(Abs()), k, Corrupt(old(burst[..n]), f), f)
    {
      if !attrs.enabled {
        CountDropped(n, k);
      } else if attrs.dropPpm != 0 && w.drop % PPM < attrs.dropPpm {
        CountDropped(n, k);
      } else {
        ghost var flip := NoFlip;
        if attrs.flipPpm != 0 && w.flip % PPM < attrs.flipPpm {
          FlipInPlace(burst, n, w.flip, w.bit);
          flip := FlipBit(w.flip / PPM % n, w.bit % 8);
        }
        Deliver(burst, n, k, flip);
      }
    }

    // The work function from end to end.
    method TxWork(w: Draws, hi: Draw, lo: Draw)
      requires statOverruns < U64
      modifies this
      ensures Abs() == WorkAlone(old(Abs()), w, hi, lo)
      ensures if old(tx) == [] then Abs() == old(Abs()) else WorkDone(old(Abs()), Abs(), w, hi, lo)
    {
      WorkEffect(Abs(), w, hi, lo);
      WorkBody(w, hi, lo);
    }

    method WorkBody(w: Draws, hi: Draw, lo: Draw)
      requires statOverruns < U64
      modifies this
      ensures Abs() == WorkAlone(old(Abs()), w, hi, lo)
    {
      var burst := new Byte[BURST](_ => NUL);
      ghost var k := |led.fates|;
      var n := TakeBurst(burst);
      if n == 0 {
        return;
      }
      var a, rate := attrs, baud;
      PassGates(burst, n, w, k);
      RearmIfQueued(n, rate, a.latency, a.jitter, hi, lo);
    }

    // One chunk of wire_write: n of its bytes went through.
    method CountChunk(n: nat, chunk: nat)
      requires n <= chunk && statOverruns < U64
      modifies this`statRx, this`statOverruns, this`led
      ensures statRx == Add64(old(statRx), n) && statOverruns == Add64(old(statOverruns), chunk - n)
      ensures statOverruns < U64
      ensures led == FromSimulator(old(led), n, chunk - n)
    {
      WrapIsModulo(statRx + n);
      statRx := (statRx + n) % U64;
      if n < chunk {
        WrapIsModulo(statOverruns + (chunk - n));
        statOverruns := (statOverruns + (chunk - n)) % U64;
      }
      led := FromSimulator(led, n, chunk - n);
    }

    // What the flip buffer takes of one chunk.
    method FlipBuffer(chunk: nat, grants: seq<nat>) returns (n: nat)
      ensures n == Granted(chunk, grants) && n <= chunk
    {
      n := 0;
      if grants != [] {
        n := if grants[0] < chunk then grants[0] else chunk;
      }
    }

    // One chunk goes into the flip buffer, on top of what was counted so far.
    method PushChunk(chunk: nat, grants: seq<nat>, ghost rx: nat, ghost lost: nat, ghost l: Ledger, ghost done: nat)
      returns (n: nat)
      requires statOverruns < U64 && statRx == Add64(rx, done) && statOverruns == Add64(lost, 0)
      requires led == FromSimulator(l, done, 0)
      modifies this`statRx, this`statOverruns, this`led
      ensures n == Granted(chunk, grants) && n <= chunk && statOverruns < U64
      ensures statRx == Add64(rx, done + n) && statOverruns == Add64(lost, chunk - n)
      ensures led == FromSimulator(l, done + n, chunk - n)
    {
      n := FlipBuffer(chunk, grants);
      CountChunk(n, chunk);
      AddTwice(rx, done, n);
      AddTwice(lost, 0, chunk - n);
      CountsAdd(l, done, n, chunk - n);
    }

    // The loop of wire_write over chunks, with what the flip buffer grants each.
    method InsertChunks(count: nat, grants: seq<nat>) returns (r: Inserted)
      requires statRx < U64 && statOverruns < U64
      modifies this`statRx, this`statOverruns, this`led
      ensures r == Insert(count, 0, grants) && r.done <= count
      ensures statRx == Add64(old(statRx), r.done) && statOverruns == Add64(old(statOverruns), r.lost)
      ensures led == FromSimulator(old(led), r.done, r.lost)
    {
      r := Inserted(0, 0);
      var open := true;
      var rest: seq<nat> := grants;
      while open && r.done < count
        invariant r.done <= count && statOverruns < U64 && (open ==> r.lost == 0)
        invariant Insert(count, 0, grants) == if open then Insert(count, r.done, rest) else r
        invariant statRx == Add64(old(statRx), r.done) && statOverruns == Add64(old(statOverruns), r.lost)
        invariant led == FromSimulator(old(led), r.done, r.lost)
        decreases open, count - r.done
      {
        var chunk := if count - r.done < CHUNK then count - r.done else CHUNK;
        InsertRound(count, r.done, rest);
        var n := PushChunk(chunk, rest, old(statRx), old(statOverruns), old(led), r.done);
        rest := LaterGrants(rest);
        r := Inserted(r.done + n, chunk - n);
        open := n == chunk;
      }
    }

    method WireWrite(bytes: Bytes, grants: seq<nat>) returns (pushed: Bytes, again: bool)
      requires statRx < U64 && statOverruns < U64
      modifies this`statRx, this`statOverruns, this`led
      ensures var r := Insert(|bytes|, 0, grants);
        && Abs() == CountWireWrite(old(Abs()), r)
        && r.done <= |bytes| && pushed == bytes[..r.done]
        && (again <==> r.done == 0 && bytes != [])
        && statRx == (old(statRx) + |pushed|) % 0x1_0000_0000_0000_0000
        && statOverruns == (old(statOverruns) + r.lost) % 0x1_0000_0000_0000_0000
    {
      AddIsModulo(statRx, Insert(|bytes|, 0, grants).done);
      AddIsModulo(statOverruns, Insert(|bytes|, 0, grants).lost);
      var r := InsertChunks(|bytes|, grants);
      pushed := bytes[..r.done];
      again := r.done == 0 && bytes != [];
    }

    method TimerCallback()
      modifies this`timer, this`workPending
      ensures Abs() == old(Abs()).(timer := Off, workPending := true)
    {
      timer := Off;
      workPending := true;
    }

    // First open of the port: both fifos or none.
    method PortActivate(txSize: nat, rxSize: nat, txFits: bool, rxFits: bool) returns (ok: bool)
      requires txCap == rxCap == 0
      modifies this`txCap, this`rxCap, this`portActive
      ensures ok <==> txFits && rxFits
      ensures Abs() == if ok then old(Abs()).(txCap := txSize, rxCap := rxSize, portActive := true) else old(Abs())
    {
      if !txFits {
        return false;
      }
      txCap := txSize;
      if !rxFits {
        txCap := 0;
        return false;
      }
      rxCap := rxSize;
      portActive := true;
      ok := true;
    }

    method CountQueued()
      requires statDrops < U64
      modifies this`statDrops, this`led
      ensures Abs() == CountTx(old(Abs()))
    {
      var pending := |tx|;
      led := CountClose(led, pending);
      if pending > 0 {
        WrapIsModulo(statDrops + pending);
        statDrops := (statDrops + pending) % U64;
      }
    }

    method StopTx()
      modifies this`tx, this`txCap, this`statDrops, this`led
      ensures Abs() == FreeTx(old(Abs()))
    {
      FlushTxFifo(false);
      txCap := 0;
    }

    method StopRx()
      modifies this`portActive, this`rx, this`rxCap, this`led
      ensures Abs() == FreeRx(old(Abs()))
    {
      portActive := false;
      led := Discard(led, |rx|);
      rx := [];
      rxCap := 0;
    }

    // Last close of the port from end to end.
    method PortShutdown()
      requires statDrops < U64
      modifies this`timer, this`workPending, this`tx, this`rx, this`txCap, this`rxCap, this`portActive, this`statDrops, this`led
      ensures Abs() == CloseAlone(old(Abs()))
      ensures tx == rx == [] && txCap == rxCap == 0 && !portActive && timer.Off? && !workPending
      ensures statDrops == (old(statDrops) + |old(tx)|) % 0x1_0000_0000_0000_0000
    {
      CloseEffect(Abs());
      CancelTx();
      CountQueued();
      StopTx();
      StopRx();
    }

    // Only one session at a time; a new one starts without a pending reset.
    method WireOpen() returns (ok: bool)
      modifies this`wireOpen, this`resetPending
      ensures ok <==> !old(wireOpen)
      ensures Abs() == if ok then old(Abs()).(wireOpen := true, resetPending := false) else old(Abs())
    {
      ok := !wireOpen;
      if ok {
        wireOpen := true;
        resetPending := false;
      }
    }

    // The locked section of wire_read: end of file once the port is closed, else
    // the next bytes, if there are any; a call returns no more than one page.
    method WireReadLocked(reader: nat, count: nat) returns (eof: bool, got: Bytes)
      modifies this`rx, this`led
      ensures eof <==> !portActive
      ensures got == if eof then [] else old(rx)[..Min(Min(count, PAGE), |old(rx)|)]
      ensures Abs() == if eof then old(Abs()) else TakeRx(old(Abs()), reader, Min(count, PAGE))
    {
      got := [];
      eof := !portActive;
      if eof {
        return;
      }
      var size := if count < PAGE then count else PAGE;
      var n := if |rx| < size then |rx| else size;
      got := rx[..n];
      rx := rx[n..];
      if n > 0 {
        led := Take(led, reader, n);
      }
    }

    method WireRelease()
      modifies this`rx, this`wireOpen, this`led
      ensures Abs() == DiscardRx(old(Abs())).(wireOpen := false)
    {
      led := Discard(led, |rx|);
      rx := [];
      wireOpen := false;
    }

    method FlushTxFifo(counted: bool)
      requires counted ==> statDrops < U64
      modifies this`tx, this`statDrops, this`led
      ensures Abs() == FlushTx(old(Abs()), counted)
    {
      var pending := |tx|;
      if pending > 0 {
        tx := [];
        led := Append(led, pending, Flushed(counted));
        if counted {
          WrapIsModulo(statDrops + pending);
          statDrops := (statDrops + pending) % U64;
        }
      }
    }

    // The DOWN callback from end to end.
    method BusDown()
      requires statDrops < U64
      modifies this`timer, this`workPending, this`tx, this`statDrops, this`led
      ensures Abs() == FlushTx(old(Abs()).(timer := Off, workPending := false), true)
      ensures tx == [] && timer.Off? && !workPending && statDrops == (old(statDrops) + |old(tx)|) % 0x1_0000_0000_0000_0000
    {
      DownEffect(Abs());
      CancelTx();
      FlushTxFifo(true);
    }

    method ClearFaults()
      modifies this`attrs
      ensures Abs() == old(Abs()).(attrs := NO_FAULTS)
    {
      attrs := attrs.(latency := 0);
      attrs := attrs.(jitter := 0);
      attrs := attrs.(dropPpm := 0);
      attrs := attrs.(flipPpm := 0);
      attrs := attrs.(enabled := true);
    }

    method StatsReset()
      modifies this`statTx, this`statRx, this`statOverruns, this`statDrops, this`led
      ensures Abs() == ClearStats(old(Abs()))
      ensures statTx == statRx == statOverruns == statDrops == 0
    {
      statTx := 0;
      statRx := 0;
      statOverruns := 0;
      statDrops := 0;
      led := led.(base := led.sums);
    }

    // The RESET callback from end to end.
    method BusReset()
      requires statDrops < U64
      modifies this`timer, this`workPending, this`tx, this`attrs, this`statTx, this`statRx, this`statOverruns, this`statDrops, this`resetPending, this`led
      ensures Abs() == ResetAlone(old(Abs()))
      ensures attrs.enabled && attrs.latency == attrs.jitter == attrs.dropPpm == attrs.flipPpm == 0
      ensures statTx == statRx == statOverruns == statDrops == 0
      ensures tx == [] && timer.Off? && !workPending && resetPending
    {
      ghost var d := Abs();
      CancelTx();
      FlushTxFifo(false);
      ClearFaults();
      StatsReset();
      SignalWire();
      ResetEffect(d);
    }

    method SignalWire()
      modifies this`resetPending
      ensures Abs() == old(Abs()).(resetPending := true)
    {
      resetPending := true;
    }

    // The engine stands still: no timer is armed and no work is pending.
    method CancelTx()
      modifies this`timer, this`workPending
      ensures Abs() == old(Abs()).(timer := Off, workPending := false)
    {
      timer := Off;
      workPending := false;
    }
  }
}

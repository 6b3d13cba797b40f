// One GPIO bank: its eight lines and the pieces of code that run under its lock.
// Each function is one critical section; the class below does the same in place.
module GpioDevice {
  import opened Counters
  import opened FaultGate

  const LINES: nat := 8
  const MAX_LATENCY_NS: nat := 10000000000

  type Level = n: nat | n <= 1

  function Flip(v: Level): Level {
    1 - v
  }

  // An accepted inject: the requested level and the bitflip rate captured with it.
  datatype Snap = Snap(val: Level, ppm: nat)

  // snapGen and applyGen are u32 counters.  accepted and applied are history:
  // every snapshot ever accepted, and which of them applyGen stands for.
  datatype Line = Line(
    value: Level,
    isOutput: bool,
    timerArmed: bool,
    workPending: bool,
    snap: Snap,
    snapGen: nat,
    applyGen: nat,
    accepted: seq<Snap>,
    applied: nat)

  datatype Bank = Bank(
    lines: seq<Line>,
    enabled: bool,
    latency: nat,
    jitter: nat,
    dropPpm: nat,
    flipPpm: nat,
    valueChanges: nat,
    drops: nat,
    bitflips: nat)

  // What line_apply copies out of the line in its first section; index is
  // history, the position of the snapshot among all accepted ones.
  datatype Held = Held(gen: nat, snap: Snap, index: nat)

  function Wrap32(n: nat): nat { n % U32 }

  function Bump64(n: nat): (r: nat)
    ensures r < U64
  {
    WrapIsSmall(n + 1);
    Add64(n, 1)
  }

  ghost predicate LineOk(l: Line) {
    && l.applied <= |l.accepted|
    && l.snapGen == Wrap32(|l.accepted|)
    && l.applyGen == Wrap32(l.applied)
    && (l.accepted != [] ==> l.snap == l.accepted[|l.accepted| - 1])
  }

  ghost predicate BankOk(b: Bank) {
    && |b.lines| == LINES
    && (forall i | 0 <= i < LINES :: LineOk(b.lines[i]))
    && b.latency <= MAX_LATENCY_NS && b.jitter <= MAX_LATENCY_NS
    && b.dropPpm <= PPM && b.flipPpm <= PPM
    && b.valueChanges < U64 && b.drops < U64 && b.bitflips < U64
  }

  function FreshLine(): Line { Line(0, false, false, false, Snap(0, 0), 0, 0, [], 0) }
  function FreshBank(): Bank { Bank(seq(LINES, _ => FreshLine()), true, 0, 0, 0, 0, 0, 0, 0) }

  // --- inject: the section that takes the snapshot ---

  datatype Outcome = Discarded | Dropped | Immediate | Delayed

  function AcceptSnap(l: Line, s: Snap): Line {
    l.(snap := s, snapGen := Wrap32(l.snapGen + 1), accepted := l.accepted + [s])
  }

  // draw is consumed only when the drop rate is not zero.
  function InjectOutcome(b: Bank, draw: Draw): Outcome {
    if !b.enabled then Discarded
    else if Fires(b.dropPpm, draw) then Dropped
    else if b.latency == 0 && b.jitter == 0 then Immediate
    else Delayed
  }

  function InjectSection(b: Bank, i: nat, v: Level, draw: Draw): Bank
    requires i < |b.lines|
  {
    match InjectOutcome(b, draw)
    case Discarded => b
    case Dropped => b.(drops := Bump64(b.drops))
    case _ => b.(lines := b.lines[i := AcceptSnap(b.lines[i], Snap(v, b.flipPpm))])
  }

  // Two draws, combined high word first, sample the jitter in [0, jitter].
  function Delay(latency: nat, jitter: nat, hi: Draw, lo: Draw): (r: nat)
    ensures latency <= r <= latency + jitter
  {
    if jitter == 0 then latency else latency + (hi * U32 + lo) % (jitter + 1)
  }

  // --- line_apply: its two sections ---

  // The first section copies the snapshot, or finds nothing left to do.
  datatype Found = Stale | Fresh(held: Held)

  function ApplyFirst(l: Line): Found {
    if l.snapGen == l.applyGen then Stale
    else Fresh(Held(l.snapGen, l.snap, |l.accepted|))
  }

  predicate Overtaken(l: Line, h: Held) {
    l.snapGen != h.gen
  }

  function FlippedValue(s: Snap, draw: Draw): Level {
    if Fires(s.ppm, draw) then Flip(s.val) else s.val
  }

  function CommitLine(l: Line, h: Held, newValue: Level): Line {
    l.(applyGen := h.gen, applied := h.index, value := if l.isOutput then l.value else newValue)
  }

  // The second section commits, unless a newer snapshot has come.
  function ApplySecond(b: Bank, i: nat, h: Held, draw: Draw): Bank
    requires i < |b.lines|
  {
    var l := b.lines[i];
    if Overtaken(l, h) then b
    else
      var v := FlippedValue(h.snap, draw);
      b.(lines := b.lines[i := CommitLine(l, h, v)],
         bitflips := if v != h.snap.val then Bump64(b.bitflips) else b.bitflips,
         valueChanges := if !l.isOutput && v != l.value then Bump64(b.valueChanges) else b.valueChanges)
  }

  // Both sections with nothing in between.
  function ApplyAlone(b: Bank, i: nat, draw: Draw): Bank
    requires i < |b.lines|
  {
    match ApplyFirst(b.lines[i])
    case Stale => b
    case Fresh(h) => ApplySecond(b, i, h, draw)
  }

  // --- the callbacks of the AUT ---

  function DriveLine(l: Line, v: bool): Line {
    if l.isOutput then l.(value := if v then 1 else 0) else l
  }

  function SetLine(b: Bank, i: nat, v: bool): Bank
    requires i < |b.lines|
  {
    b.(lines := b.lines[i := DriveLine(b.lines[i], v)])
  }

  // The lines named by the mask, one after the other.
  function SetEach(b: Bank, mask: seq<bool>, bits: seq<bool>, n: nat): (r: Bank)
    requires n <= |b.lines| == |mask| == |bits|
    ensures |r.lines| == |b.lines|
  {
    if n == 0 then b
    else
      var r := SetEach(b, mask, bits, n - 1);
      if mask[n - 1] then SetLine(r, n - 1, bits[n - 1]) else r
  }

  // One line of the bank after all of them have been visited.
  lemma {:induction false} SetEachLine(b: Bank, mask: seq<bool>, bits: seq<bool>, n: nat, i: nat)
    requires n <= |b.lines| == |mask| == |bits| && i < |b.lines|
    ensures SetEach(b, mask, bits, n).lines[i]
         == if i < n && mask[i] then DriveLine(b.lines[i], bits[i]) else b.lines[i]
    ensures SetEach(b, mask, bits, n) == b.(lines := SetEach(b, mask, bits, n).lines)
  {
    if n > 0 {
      SetEachLine(b, mask, bits, n - 1, i);
    }
  }

  // What get_multiple reports: the level of each line in the mask, zero elsewhere.
  function Levels(b: Bank, mask: seq<bool>): (r: seq<bool>)
    requires |b.lines| == |mask|
  {
    seq(|mask|, i requires 0 <= i < |mask| => mask[i] && b.lines[i].value == 1)
  }

  // Reading back what was driven: every output line in the mask has its bit,
  // every input line has what it had before.
  lemma SetThenGet(b: Bank, mask: seq<bool>, bits: seq<bool>, i: nat)
    requires |b.lines| == |mask| == |bits| && i < |mask|
    ensures var after := SetEach(b, mask, bits, |mask|);
      Levels(after, mask)[i] == (mask[i] && if b.lines[i].isOutput then bits[i] else b.lines[i].value == 1)
    ensures !mask[i] ==> SetEach(b, mask, bits, |mask|).lines[i] == b.lines[i]
  {
    SetEachLine(b, mask, bits, |mask|, i);
  }

  // --- RESET and the statistics ---

  function ClearStats(b: Bank): Bank {
    b.(valueChanges := 0, drops := 0, bitflips := 0)
  }

  function Settle(l: Line): Line {
    l.(applyGen := l.snapGen, applied := |l.accepted|)
  }

  // The last section of RESET: clear the faults, call every snapshot applied.
  function ResetSection(b: Bank): Bank {
    Bank(seq(|b.lines|, i requires 0 <= i < |b.lines| => Settle(b.lines[i])), true, 0, 0, 0, 0, 0, 0, 0)
  }

  function Quiet(l: Line): Line {
    l.(timerArmed := false, workPending := false)
  }

  // Every timer and work item of the bank cancelled.
  function Cancelled(b: Bank): Bank {
    b.(lines := seq(|b.lines|, i requires 0 <= i < |b.lines| => Quiet(b.lines[i])))
  }

  function ArmTimer(b: Bank, i: nat): Bank
    requires i < |b.lines|
  {
    b.(lines := b.lines[i := b.lines[i].(timerArmed := true)])
  }

  // --- the device, updated in place ---

  class GpioBank {
    const lines: array<Line>
    var enabled: bool
    var latency: nat
    var jitter: nat
    var dropPpm: nat
    var flipPpm: nat
    var valueChanges: nat
    var drops: nat
    var bitflips: nat

    ghost function Abs(): (b: Bank)
      reads this, lines
      ensures |b.lines| == lines.Length
    {
      Bank(lines[..], enabled, latency, jitter, dropPpm, flipPpm, valueChanges, drops, bitflips)
    }

    ghost predicate Valid()
      reads this, lines
    {
      BankOk(Abs())
    }

    constructor ()
      ensures Valid() && fresh(lines) && Abs() == FreshBank()
      ensures lines.Length == 8 && enabled && latency == jitter == dropPpm == flipPpm == valueChanges == drops == bitflips == 0
      ensures forall k | 0 <= k < lines.Length :: lines[k].value == 0 && !lines[k].isOutput && lines[k].snapGen == lines[k].applyGen == 0
    {
      lines := new Line[LINES](_ => FreshLine());
      enabled := true;
      latency, jitter, dropPpm, flipPpm := 0, 0, 0, 0;
      valueChanges, drops, bitflips := 0, 0, 0;
      new;
      assert lines[..] == FreshBank().lines;
    }

    method DirectionInput(i: nat)
      requires i < lines.Length
      modifies lines
      ensures lines[..] == old(lines[..])[i := old(lines[i]).(isOutput := false)]
    {
      lines[i] := lines[i].(isOutput := false);
    }

    method DirectionOutput(i: nat, v: bool)
      requires i < lines.Length
      modifies lines
      ensures lines[..] == old(lines[..])[i := old(lines[i]).(isOutput := true, value := if v then 1 else 0)]
    {
      lines[i] := lines[i].(isOutput := true);
      lines[i] := lines[i].(value := if v then 1 else 0);
    }

    method Set(i: nat, v: bool)
      requires i < lines.Length
      modifies lines
      ensures Abs() == SetLine(old(Abs()), i, v)
    {
      if lines[i].isOutput {
        lines[i] := lines[i].(value := if v then 1 else 0);
      } else {
        assert old(lines[..])[i := old(lines[i])] == old(lines[..]);
      }
    }

    method SetMultiple(mask: seq<bool>, bits: seq<bool>)
      requires lines.Length == |mask| == |bits|
      modifies lines
      ensures Abs() == SetEach(old(Abs()), mask, bits, |mask|)
    {
      for i := 0 to |mask|
        invariant Abs() == SetEach(old(Abs()), mask, bits, i)
      {
        if mask[i] {
          Set(i, bits[i]);
        }
      }
    }

    method GetMultiple(mask: seq<bool>) returns (bits: seq<bool>)
      requires lines.Length == |mask|
      ensures bits == Levels(Abs(), mask)
    {
      bits := seq(|mask|, _ => false);
      for i := 0 to |mask|
        invariant |bits| == |mask|
        invariant forall k | 0 <= k < |mask| :: bits[k] == (k < i && mask[k] && lines[k].value == 1)
      {
        if mask[i] && lines[i].value == 1 {
          bits := bits[i := true];
        }
      }
    }

    // The section of inject under the lock.  The caller then applies at once or
    // arms the timer for the returned delay.
    method InjectLocked(i: nat, v: Level, draw: Draw, hi: Draw, lo: Draw) returns (o: Outcome, delay: nat)
      requires i < lines.Length
      modifies lines, this`drops
      ensures Abs() == InjectSection(old(Abs()), i, v, draw)
      ensures o == InjectOutcome(old(Abs()), draw)
      ensures delay == if o.Delayed? then Delay(latency, jitter, hi, lo) else 0
      // a disabled bank ignores the write, a drop is counted, and a delay sampled
      ensures !old(enabled) ==> o.Discarded? && Abs() == old(Abs())
      ensures old(enabled) && old(dropPpm) != 0 && draw % 1000000 < old(dropPpm) ==>
        o.Dropped? && lines[..] == old(lines[..]) && drops == (old(drops) + 1) % 0x1_0000_0000_0000_0000
      ensures old(enabled) && (old(dropPpm) == 0 || draw % 1000000 >= old(dropPpm)) ==>
        && lines[i].accepted == old(lines[i].accepted) + [Snap(v, old(flipPpm))] && drops == old(drops)
        && o == (if latency == 0 && jitter == 0 then Immediate else Delayed)
        && (o.Delayed? ==> delay == latency + if jitter == 0 then 0 else (hi * 0x1_0000_0000 + lo) % (jitter + 1))
    {
      delay := 0;
      if !enabled {
        return Discarded, 0;
      }
      if dropPpm != 0 && draw % PPM < dropPpm {
        WrapIsModulo(drops + 1);
        drops := (drops + 1) % U64;
        return Dropped, 0;
      }
      var l := lines[i];
      var s := Snap(v, flipPpm);
      l := l.(snap := s, accepted := l.accepted + [s]);
      lines[i] := l.(snapGen := (l.snapGen + 1) % U32);
      if latency == 0 && jitter == 0 {
        return Immediate, 0;
      }
      o := Delayed;
      delay := latency;
      if jitter != 0 {
        var rnd := hi * U32 + lo;
        delay := delay + rnd % (jitter + 1);
      }
    }

    method ApplyFirstLocked(i: nat) returns (f: Found)
      requires i < lines.Length
      ensures f == ApplyFirst(lines[i])
    {
      var l := lines[i];
      if l.snapGen == l.applyGen {
        return Stale;
      }
      f := Fresh(Held(l.snapGen, l.snap, |l.accepted|));
    }

    method ApplySecondLocked(i: nat, h: Held, newValue: Level)
      requires i < lines.Length
      modifies lines, this`bitflips, this`valueChanges
      ensures forall draw: Draw | newValue == FlippedValue(h.snap, draw) ::
        Abs() == ApplySecond(old(Abs()), i, h, draw)
      ensures old(lines[i].snapGen) != h.gen ==> Abs() == old(Abs())
      ensures old(lines[i].snapGen) == h.gen ==>
        && lines[i].applyGen == h.gen && lines[i].value == (if old(lines[i].isOutput) then old(lines[i].value) else newValue)
        && bitflips == (if newValue == h.snap.val then old(bitflips) else (old(bitflips) + 1) % 0x1_0000_0000_0000_0000)
    {
      if lines[i].snapGen != h.gen {
        return;
      }
      var oldValue := lines[i].value;
      lines[i] := lines[i].(applyGen := h.gen, applied := h.index);
      if newValue != h.snap.val {
        WrapIsModulo(bitflips + 1);
        bitflips := (bitflips + 1) % U64;
      }
      if !lines[i].isOutput {
        lines[i] := lines[i].(value := newValue);
        if newValue != oldValue {
          WrapIsModulo(valueChanges + 1);
          valueChanges := (valueChanges + 1) % U64;
        }
      }
    }

    // line_apply from end to end, when nothing runs between its two sections.
    method LineApply(i: nat, draw: Draw)
      requires i < lines.Length
      modifies lines, this`bitflips, this`valueChanges
      ensures Abs() == ApplyAlone(old(Abs()), i, draw)
      ensures old(lines[i].snapGen) == old(lines[i].applyGen) ==> Abs() == old(Abs())
      ensures old(lines[i].snapGen) != old(lines[i].applyGen) && !old(lines[i].isOutput) ==>
        var s := old(lines[i].snap);
        lines[i].value == if s.ppm != 0 && draw % 1000000 < s.ppm then 1 - s.val else s.val
    {
      var f := ApplyFirstLocked(i);
      if f.Stale? {
        return;
      }
      var newValue := f.held.snap.val;
      if f.held.snap.ppm != 0 && draw % PPM < f.held.snap.ppm {
        newValue := 1 - newValue;
      }
      assert newValue == FlippedValue(f.held.snap, draw);
      ApplySecondLocked(i, f.held, newValue);
    }

    // The RESET callback from end to end: cancel, then its locked section.
    method BusReset()
      modifies this, lines
      ensures Abs() == ResetSection(Cancelled(old(Abs())))
      ensures enabled && latency == jitter == dropPpm == flipPpm == valueChanges == drops == bitflips == 0
      ensures forall k | 0 <= k < lines.Length ::
        && !lines[k].timerArmed && !lines[k].workPending && lines[k].applyGen == lines[k].snapGen
        && lines[k].value == old(lines[k].value) && lines[k].isOutput == old(lines[k].isOutput)
    {
      for i := 0 to lines.Length
        invariant enabled == old(enabled) && latency == old(latency) && jitter == old(jitter)
        invariant forall k | 0 <= k < lines.Length ::
          lines[k] == if k < i then Quiet(old(lines[k])) else old(lines[k])
      {
        lines[i] := lines[i].(timerArmed := false);
        lines[i] := lines[i].(workPending := false);
      }
      latency, jitter, dropPpm, flipPpm := 0, 0, 0, 0;
      valueChanges, drops, bitflips := 0, 0, 0;
      enabled := true;
      for i := 0 to lines.Length
        invariant forall k | 0 <= k < lines.Length ::
          lines[k] == if k < i then Settle(Quiet(old(lines[k]))) else Quiet(old(lines[k]))
        invariant Abs() == Bank(lines[..], true, 0, 0, 0, 0, 0, 0, 0)
      {
        lines[i] := lines[i].(applyGen := lines[i].snapGen, applied := |lines[i].accepted|);
      }
      assert Abs().lines == ResetSection(Cancelled(old(Abs()))).lines;
    }
  }
}

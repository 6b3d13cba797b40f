// What each step does to a bank, in the numbers of the driver, and what follows for
// whole runs: when an inject is taken, what a commit shows, what RESET leaves.
module GpioEffects {
  import opened Counters
  import opened FaultGate
  import opened GpioDevice
  import opened GpioProtocol
  import opened GpioTheorems
  import I = GpioInject

  // --- an inject: the gates, in their order ---

  // A disabled bank ignores an inject; an enabled one counts it as dropped if the drop
  // gate fires, and takes the snapshot otherwise.
  lemma InjectEffect(b: Bank, i: nat, v: Level, draw: Draw)
    requires i < |b.lines|
    ensures var b', fires := InjectSection(b, i, v, draw), b.dropPpm != 0 && draw % 1000000 < b.dropPpm;
      && (!b.enabled ==> b' == b)
      && (b.enabled && fires ==> b' == b.(drops := (b.drops + 1) % 0x1_0000_0000_0000_0000))
      && (b.enabled && !fires ==>
            && b' == b.(lines := b'.lines) && |b'.lines| == |b.lines|
            && (forall k | 0 <= k < |b.lines| && k != i :: b'.lines[k] == b.lines[k])
            && b'.lines[i] == b.lines[i].(snap := Snap(v, b.flipPpm), accepted := b.lines[i].accepted + [Snap(v, b.flipPpm)],
                                          snapGen := (b.lines[i].snapGen + 1) % 0x1_0000_0000))
  {
    AddIsModulo(b.drops, 1);
  }

  // Where the writer goes from there: away, to the timer, or on to apply at once.
  lemma InjectLeadsTo(s: System, t: nat, i: nat, v: Level, draw: Draw)
    requires Enabled(s, Inject(t, i, v, draw))
    ensures var b, w := s.bank, Next(s, Inject(t, i, v, draw)).injectors;
      var taken := b.enabled && !(b.dropPpm != 0 && draw % 1000000 < b.dropPpm);
      && Next(s, Inject(t, i, v, draw)).bank == InjectSection(b, i, v, draw)
      && (!taken ==> w == s.injectors)
      && (taken && (b.latency != 0 || b.jitter != 0) ==> w == s.injectors[t := ToArm(i)])
      && (taken && b.latency == 0 && b.jitter == 0 ==> w == s.injectors[t := Applying(i, AtEntry)])
  {}

  // The whole write arms the timer of its line exactly if it is taken with a delay set.
  lemma WriteArmsTimer(b: Bank, r: I.Request, drop: Draw, flip: Draw)
    requires |b.lines| == LINES && r.line < LINES && !b.lines[r.line].timerArmed
    ensures |I.WriteAlone(b, r, drop, flip).lines| == LINES
    ensures I.WriteAlone(b, r, drop, flip).lines[r.line].timerArmed <==>
      b.enabled && !(b.dropPpm != 0 && drop % 1000000 < b.dropPpm) && (b.latency != 0 || b.jitter != 0)
  {}

  // No inject gets through.
  predicate Refuses(b: Bank) {
    !b.enabled || b.dropPpm == 1000000
  }

  predicate RefusesThroughout(s: System, run: seq<Action>)
    requires Runs(s, run)
  {
    Refuses(After(s, run).bank) && (run == [] || RefusesThroughout(s, run[..|run| - 1]))
  }

  lemma StepAccepts(s: System, a: Action, i: nat)
    requires Inv(s) && Enabled(s, a) && i < LINES
    ensures |Next(s, a).bank.lines| == LINES
    ensures Next(s, a).bank.lines[i].accepted ==
      if a.Inject? && a.i == i && s.bank.enabled && !(s.bank.dropPpm != 0 && a.draw % 1000000 < s.bank.dropPpm)
      then s.bank.lines[i].accepted + [Snap(a.v, s.bank.flipPpm)] else s.bank.lines[i].accepted
  {
    BankGrows(s, a);
    if a.Aut? && a.call.DriveMany? {
      SetEachLine(s.bank, a.call.mask, a.call.bits, |a.call.mask|, i);
    }
  }

  // In every run in which the bank stays disabled, or its drop rate at the maximum, no
  // inject is taken on any line, whatever else goes on.
  lemma {:induction false} RefusedInjectsLeaveNothing(s: System, run: seq<Action>, i: nat)
    requires Inv(s) && Runs(s, run) && RefusesThroughout(s, run) && i < LINES
    ensures |After(s, run).bank.lines| == LINES
    ensures After(s, run).bank.lines[i].accepted == s.bank.lines[i].accepted
  {
    if run != [] {
      var front, a := run[..|run| - 1], run[|run| - 1];
      RefusedInjectsLeaveNothing(s, front, i);
      RunKeepsInv(s, front);
      RefusesThere(s, front);
      StepAccepts(After(s, front), a, i);
    }
  }

  lemma RefusesThere(s: System, run: seq<Action>)
    requires Runs(s, run) && RefusesThroughout(s, run)
    ensures Refuses(After(s, run).bank)
  {}

  // --- a commit ---

  // What a commit that is not overtaken shows on an input line, and what it counts.
  lemma CommitEffect(b: Bank, i: nat, h: Held, draw: Draw)
    requires i < |b.lines|
    ensures var b', l := ApplySecond(b, i, h, draw), b.lines[i];
      var flips := h.snap.ppm != 0 && draw % 1000000 < h.snap.ppm;
      var v: Level := if flips then 1 - h.snap.val else h.snap.val;
      if l.snapGen != h.gen then b' == b
      else
        && |b'.lines| == |b.lines| && (forall k | 0 <= k < |b.lines| && k != i :: b'.lines[k] == b.lines[k])
        && b'.lines[i] == l.(applyGen := h.gen, applied := h.index, value := if l.isOutput then l.value else v)
        && b'.bitflips == (if flips then (b.bitflips + 1) % 0x1_0000_0000_0000_0000 else b.bitflips)
        && b'.valueChanges == (if !l.isOutput && l.value != v then (b.valueChanges + 1) % 0x1_0000_0000_0000_0000
                               else b.valueChanges)
        && b' == b.(lines := b'.lines, bitflips := b'.bitflips, valueChanges := b'.valueChanges)
  {
    AddIsModulo(b.bitflips, 1);
    AddIsModulo(b.valueChanges, 1);
  }

  // --- the sampled delay ---

  // Every delay from latency up to latency plus jitter is sampled for some draws.
  lemma DelayReached(latency: nat, jitter: nat, d: nat) returns (hi: Draw, lo: Draw)
    requires jitter <= 10000000000 && latency <= d <= latency + jitter
    ensures Delay(latency, jitter, hi, lo) == d
  {
    hi, lo := SplitDraws(d - latency);
    SmallRest(d - latency, jitter + 1);
    SampledAs(latency, jitter, hi, lo, d - latency);
  }

  lemma SampledAs(latency: nat, jitter: nat, hi: Draw, lo: Draw, x: nat)
    requires hi * U32 + lo == x && x <= jitter && x % (jitter + 1) == x
    ensures Delay(latency, jitter, hi, lo) == latency + x
  {}

  // --- the attributes ---

  // Each attribute takes its own setting, up to ten seconds or to one million.
  lemma SettingEffect(b: Bank, c: Setting)
    ensures SettingAccepted(c) <==>
      match c
      case Enable(_) => true
      case Latency(ns) => ns <= 10000000000
      case Jitter(ns) => ns <= 10000000000
      case DropRate(ppm) => ppm <= 1000000
      case FlipRate(ppm) => ppm <= 1000000
    ensures var b' := Set(b, c);
      && b'.enabled == (if c.Enable? then c.on else b.enabled)
      && b'.latency == (if c.Latency? then c.ns else b.latency) && b'.jitter == (if c.Jitter? then c.ns else b.jitter)
      && b'.dropPpm == (if c.DropRate? then c.ppm else b.dropPpm) && b'.flipPpm == (if c.FlipRate? then c.ppm else b.flipPpm)
      && b'.lines == b.lines && b'.valueChanges == b.valueChanges && b'.drops == b.drops && b'.bitflips == b.bitflips
  {}

  // --- the AUT ---

  // What a call does to one line.
  lemma AutEffect(b: Bank, c: AutCall, i: nat)
    requires AutEnabled(b, c) && i < |b.lines|
    ensures |AutStep(b, c).lines| == |b.lines| && AutStep(b, c) == b.(lines := AutStep(b, c).lines)
    ensures var l, l' := b.lines[i], AutStep(b, c).lines[i];
      match c
      case Input(k) => l' == if k == i then l.(isOutput := false) else l
      case Output(k, v) => l' == if k == i then l.(isOutput := true, value := if v then 1 else 0) else l
      case Drive(k, v) => l' == if k == i && l.isOutput then l.(value := if v then 1 else 0) else l
      case DriveMany(mask, bits) => l' == if mask[i] && l.isOutput then l.(value := if bits[i] then 1 else 0) else l
  {
    if c.DriveMany? {
      SetEachLine(b, c.mask, c.bits, |c.mask|, i);
    }
  }

  // --- timer and work item ---

  lemma TimerEffect(s: System, a: Action)
    requires Enabled(s, a) && (a.TimerFires? || a.WorkStarts? || a.Arm?)
    ensures var i := if a.Arm? then s.injectors[a.t].line else a.i; var l, s' := s.bank.lines[i], Next(s, a);
      && s'.bank == s.bank.(lines := s.bank.lines[i := s'.bank.lines[i]])
      && (a.Arm? ==> s'.bank.lines[i] == l.(timerArmed := true) && s'.injectors == s.injectors - {a.t})
      && (a.TimerFires? ==> l.timerArmed && s'.bank.lines[i] == l.(timerArmed := false, workPending := true))
      && (a.WorkStarts? ==> l.workPending && s'.bank.lines[i] == l.(workPending := false) && s'.workers[i] == Running(AtEntry))
  {}

  // --- RESET ---

  // The last step of RESET enables the bank, clears its faults and its counters, and
  // leaves levels and directions.
  lemma ResetEffect(s: System)
    requires Enabled(s, ResetStep) && s.reset.AtLock?
    ensures var b, b' := s.bank, Next(s, ResetStep).bank;
      && Next(s, ResetStep).reset.NoReset?
      && b'.enabled && b'.latency == b'.jitter == b'.dropPpm == b'.flipPpm == 0
      && b'.valueChanges == b'.drops == b'.bitflips == 0
      && |b'.lines| == |b.lines|
      && forall k | 0 <= k < |b.lines| ::
           b'.lines[k] == b.lines[k].(applyGen := b.lines[k].snapGen, applied := |b.lines[k].accepted|)
  {}

  // The whole callback, run from end to end, whatever the attributes were before.
  lemma WholeResetEffect(b: Bank)
    ensures var b' := ResetSection(Cancelled(b));
      && b'.enabled && b'.latency == b'.jitter == b'.dropPpm == b'.flipPpm == 0
      && b'.valueChanges == b'.drops == b'.bitflips == 0
      && |b'.lines| == |b.lines|
      && forall k | 0 <= k < |b.lines| ::
           b'.lines[k] == b.lines[k].(timerArmed := false, workPending := false,
                                      applyGen := b.lines[k].snapGen, applied := |b.lines[k].accepted|)
  {}

  lemma ResetIsOk(b: Bank)
    requires BankOk(b)
    ensures BankOk(ResetSection(Cancelled(b)))
  {
    WholeResetEffect(b);
    forall k | 0 <= k < LINES ensures LineOk(ResetSection(Cancelled(b)).lines[k]) {
      assert LineOk(b.lines[k]);
    }
  }

  // After a whole RESET a write on an input line is seen at once, and one on an output
  // line changes nothing that can be seen, whatever the attributes were before.
  lemma WriteAfterReset(b: Bank, r: I.Request, drop: Draw, flip: Draw)
    requires BankOk(b) && r.line < LINES
    ensures |I.WriteAlone(ResetSection(Cancelled(b)), r, drop, flip).lines| == LINES
    ensures I.WriteAlone(ResetSection(Cancelled(b)), r, drop, flip).lines[r.line].value ==
      if b.lines[r.line].isOutput then b.lines[r.line].value else r.val
  {
    ResetIsOk(b);
    WholeResetEffect(b);
    I.FaultlessWrite(ResetSection(Cancelled(b)), r, drop, flip);
  }

  // The same as a run: RESET step by step from any state of the protocol in which no
  // work item runs, and then the write.
  lemma WriteAfterResetRun(s: System, t: nat, r: I.Request, drop: Draw, flip: Draw) returns (run: seq<Action>)
    requires Inv(s) && s.reset.NoReset? && r.line < LINES && t !in s.injectors
    requires forall k | 0 <= k < LINES :: s.workers[k].Idle?
    ensures Runs(s, run) && |After(s, run).bank.lines| == LINES
    ensures After(s, run).bank.lines[r.line].value ==
      if s.bank.lines[r.line].isOutput then s.bank.lines[r.line].value else r.val
  {
    var reset := ResetRunsToEnd(s);
    var v := After(s, reset);
    WholeResetEffect(s.bank);
    var write := I.WriteIsRun(v, t, r, drop, flip);
    RunsJoin(s, reset, write);
    run := reset + write;
    WriteAfterReset(s.bank, r, drop, flip);
  }
}

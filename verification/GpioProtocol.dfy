// The delayed-inject protocol of one bank: any number of inject writers, one
// timer and one work item per line, the bus RESET and the AUT all interleave,
// one critical section at a time.
module GpioProtocol {
  import opened Counters
  import opened FaultGate
  import opened GpioDevice

  // Where a call of line_apply stands: before its first section, or between the
  // two with what it copied.
  datatype Apply = AtEntry | Holding(held: Held)

  // An inject writer past its snapshot: about to arm the timer, or applying.
  datatype Injector = ToArm(line: nat) | Applying(line: nat, at: Apply)

  // The work item of a line; it never runs twice at a time.
  datatype Worker = Idle | Running(at: Apply)

  // RESET cancels timer and work line by line, then takes the lock.
  datatype Reset = NoReset | AtTimer(i: nat) | AtWork(i: nat) | AtLock

  datatype System = System(bank: Bank, injectors: map<nat, Injector>, workers: seq<Worker>, reset: Reset)

  function Init(): System { System(FreshBank(), map[], seq(LINES, _ => Idle), NoReset) }

  datatype Who = ByInjector(t: nat) | ByWorker(i: nat)

  datatype AutCall =
    | Input(line: nat)
    | Output(line: nat, v: bool)
    | Drive(line: nat, v: bool)
    | DriveMany(mask: seq<bool>, bits: seq<bool>)

  datatype Setting = Enable(on: bool) | Latency(ns: nat) | Jitter(ns: nat) | DropRate(ppm: nat) | FlipRate(ppm: nat)

  datatype Action =
    | Inject(t: nat, i: nat, v: Level, draw: Draw)
    | Arm(t: nat)
    | TimerFires(i: nat)
    | WorkStarts(i: nat)
    | First(who: Who)
    | Second(who: Who, draw: Draw)
    | ResetBegins
    | ResetStep
    | Aut(call: AutCall)
    | Configure(setting: Setting)
    | StatsReset

  // --- the step relation ---

  predicate IsApplying(s: System, w: Who) {
    match w
    case ByInjector(t) => t in s.injectors && s.injectors[t].Applying? && s.injectors[t].line < |s.bank.lines|
    case ByWorker(i) => i < |s.workers| == |s.bank.lines| && s.workers[i].Running?
  }

  function LineOf(s: System, w: Who): nat
    requires IsApplying(s, w)
  {
    match w
    case ByInjector(t) => s.injectors[t].line
    case ByWorker(i) => i
  }

  function ApplyOf(s: System, w: Who): Apply
    requires IsApplying(s, w)
  {
    match w
    case ByInjector(t) => s.injectors[t].at
    case ByWorker(i) => s.workers[i].at
  }

  function Leave(s: System, w: Who): System
    requires IsApplying(s, w)
  {
    match w
    case ByInjector(t) => s.(injectors := s.injectors - {t})
    case ByWorker(i) => s.(workers := s.workers[i := Idle])
  }

  function MoveTo(s: System, w: Who, at: Apply): System
    requires IsApplying(s, w)
  {
    match w
    case ByInjector(t) => s.(injectors := s.injectors[t := Applying(s.injectors[t].line, at)])
    case ByWorker(i) => s.(workers := s.workers[i := Running(at)])
  }

  predicate SettingAccepted(c: Setting) {
    match c
    case Enable(_) => true
    case Latency(ns) => ns <= MAX_LATENCY_NS
    case Jitter(ns) => ns <= MAX_LATENCY_NS
    case DropRate(ppm) => ppm <= PPM
    case FlipRate(ppm) => ppm <= PPM
  }

  function Set(b: Bank, c: Setting): Bank {
    match c
    case Enable(on) => b.(enabled := on)
    case Latency(ns) => b.(latency := ns)
    case Jitter(ns) => b.(jitter := ns)
    case DropRate(ppm) => b.(dropPpm := ppm)
    case FlipRate(ppm) => b.(flipPpm := ppm)
  }

  predicate AutEnabled(b: Bank, c: AutCall) {
    match c
    case DriveMany(mask, bits) => |mask| == |bits| == |b.lines|
    case _ => c.line < |b.lines|
  }

  function AutStep(b: Bank, c: AutCall): Bank
    requires AutEnabled(b, c)
  {
    match c
    case Input(i) => b.(lines := b.lines[i := b.lines[i].(isOutput := false)])
    case Output(i, v) => b.(lines := b.lines[i := b.lines[i].(isOutput := true, value := if v then 1 else 0)])
    case Drive(i, v) => SetLine(b, i, v)
    case DriveMany(mask, bits) => SetEach(b, mask, bits, |mask|)
  }

  predicate Enabled(s: System, a: Action) {
    match a
    case Inject(t, i, _, _) => t !in s.injectors && i < |s.bank.lines|
    case Arm(t) => t in s.injectors && s.injectors[t].ToArm? && s.injectors[t].line < |s.bank.lines|
    case TimerFires(i) => i < |s.bank.lines| && s.bank.lines[i].timerArmed
    case WorkStarts(i) => i < |s.bank.lines| == |s.workers| && s.bank.lines[i].workPending && s.workers[i].Idle?
    case First(w) => IsApplying(s, w) && ApplyOf(s, w).AtEntry?
    case Second(w, _) => IsApplying(s, w) && ApplyOf(s, w).Holding?
    case ResetBegins => s.reset.NoReset?
    case ResetStep => (
      match s.reset
      case NoReset => false
      case AtTimer(i) => i < |s.bank.lines|
      case AtWork(i) => i < |s.bank.lines| == |s.workers| && s.workers[i].Idle?
      case AtLock => true)
    case Aut(c) => AutEnabled(s.bank, c)
    case Configure(c) => SettingAccepted(c)
    case StatsReset => true
  }

  function WithLine(b: Bank, i: nat, l: Line): Bank
    requires i < |b.lines|
  {
    b.(lines := b.lines[i := l])
  }

  function ResetNext(s: System): System
    requires Enabled(s, ResetStep)
  {
    match s.reset
    case AtTimer(i) => s.(bank := WithLine(s.bank, i, s.bank.lines[i].(timerArmed := false)), reset := AtWork(i))
    case AtWork(i) => s.(bank := WithLine(s.bank, i, s.bank.lines[i].(workPending := false)),
                         reset := if i + 1 < |s.bank.lines| then AtTimer(i + 1) else AtLock)
    case AtLock => s.(bank := ResetSection(s.bank), reset := NoReset)
  }

  function Next(s: System, a: Action): System
    requires Enabled(s, a)
  {
    match a
    case Inject(t, i, v, draw) =>
      var s' := s.(bank := InjectSection(s.bank, i, v, draw));
      (match InjectOutcome(s.bank, draw)
       case Immediate => s'.(injectors := s.injectors[t := Applying(i, AtEntry)])
       case Delayed => s'.(injectors := s.injectors[t := ToArm(i)])
       case _ => s')
    case Arm(t) =>
      var i := s.injectors[t].line;
      s.(bank := ArmTimer(s.bank, i), injectors := s.injectors - {t})
    case TimerFires(i) =>
      s.(bank := WithLine(s.bank, i, s.bank.lines[i].(timerArmed := false, workPending := true)))
    case WorkStarts(i) =>
      s.(bank := WithLine(s.bank, i, s.bank.lines[i].(workPending := false)), workers := s.workers[i := Running(AtEntry)])
    case First(w) =>
      (match ApplyFirst(s.bank.lines[LineOf(s, w)])
       case Stale => Leave(s, w)
       case Fresh(h) => MoveTo(s, w, Holding(h)))
    case Second(w, draw) =>
      Leave(s, w).(bank := ApplySecond(s.bank, LineOf(s, w), ApplyOf(s, w).held, draw))
    case ResetBegins => s.(reset := AtTimer(0))
    case ResetStep => ResetNext(s)
    case Aut(c) => s.(bank := AutStep(s.bank, c))
    case Configure(c) => s.(bank := Set(s.bank, c))
    case StatsReset => s.(bank := ClearStats(s.bank))
  }

  // --- runs ---

  predicate Runs(s: System, run: seq<Action>)
    decreases |run|, 0
  {
    run == [] || (Runs(s, run[..|run| - 1]) && Enabled(After(s, run[..|run| - 1]), run[|run| - 1]))
  }

  function After(s: System, run: seq<Action>): System
    requires Runs(s, run)
    decreases |run|, 1
  {
    if run == [] then s else Next(After(s, run[..|run| - 1]), run[|run| - 1])
  }

  lemma Extend(s: System, run: seq<Action>, a: Action)
    requires Runs(s, run) && Enabled(After(s, run), a)
    ensures Runs(s, run + [a]) && After(s, run + [a]) == Next(After(s, run), a)
  {
    assert (run + [a])[..|run + [a]| - 1] == run;
  }

  lemma LastStep(s: System, run: seq<Action>)
    requires Runs(s, run) && run != []
    ensures var front, a := run[..|run| - 1], run[|run| - 1];
      Runs(s, front) && Enabled(After(s, front), a) && After(s, run) == Next(After(s, front), a)
  {}

  lemma SplitLast(a: seq<Action>, b: seq<Action>)
    requires b != []
    ensures a + b == (a + b[..|b| - 1]) + [b[|b| - 1]]
  {}

  lemma ExtendTo(s: System, run: seq<Action>, a: Action, whole: seq<Action>)
    requires Runs(s, run) && Enabled(After(s, run), a) && whole == run + [a]
    ensures Runs(s, whole) && After(s, whole) == Next(After(s, run), a)
  {
    Extend(s, run, a);
  }

  lemma {:induction false} RunsJoin(s: System, a: seq<Action>, b: seq<Action>)
    requires Runs(s, a) && Runs(After(s, a), b)
    ensures Runs(s, a + b) && After(s, a + b) == After(After(s, a), b)
  {
    if b == [] {
      assert a + b == a;
    } else {
      var front, last := b[..|b| - 1], b[|b| - 1];
      LastStep(After(s, a), b);
      RunsJoin(s, a, front);
      SplitLast(a, b);
      ExtendTo(s, a + front, last, a + b);
    }
  }

  // --- what every step keeps ---

  // An apply in flight holds exactly the snapshot its generation stands for.
  ghost predicate HeldOk(l: Line, h: Held) {
    && 1 <= h.index <= |l.accepted|
    && h.gen == Wrap32(h.index)
    && h.snap == l.accepted[h.index - 1]
  }

  ghost predicate ApplyOk(l: Line, a: Apply) {
    a.Holding? ==> HeldOk(l, a.held)
  }

  ghost predicate InjectorOk(b: Bank, x: Injector) {
    && x.line < |b.lines|
    && (x.Applying? ==> ApplyOk(b.lines[x.line], x.at))
  }

  ghost predicate WorkerOk(l: Line, x: Worker) {
    x.Running? ==> ApplyOk(l, x.at)
  }

  ghost predicate Inv(s: System) {
    && BankOk(s.bank)
    && |s.workers| == LINES
    && (forall t | t in s.injectors :: InjectorOk(s.bank, s.injectors[t]))
    && (forall i | 0 <= i < LINES :: WorkerOk(s.bank.lines[i], s.workers[i]))
    && (s.reset.AtTimer? || s.reset.AtWork? ==> s.reset.i < LINES)
  }

  // From one state to the next a line only adds to its history.
  ghost predicate Grows(l: Line, l': Line) {
    && l.accepted <= l'.accepted
    && LineOk(l')
  }

  ghost predicate AllGrow(b: Bank, b': Bank) {
    && |b.lines| == |b'.lines| == LINES
    && forall i | 0 <= i < LINES :: Grows(b.lines[i], b'.lines[i])
  }

  ghost predicate InRange(b: Bank) {
    && b.latency <= MAX_LATENCY_NS && b.jitter <= MAX_LATENCY_NS
    && b.dropPpm <= PPM && b.flipPpm <= PPM
    && b.valueChanges < U64 && b.drops < U64 && b.bitflips < U64
  }

  lemma GrownIsOk(b: Bank, b': Bank)
    requires AllGrow(b, b') && InRange(b')
    ensures BankOk(b')
  {
    forall i | 0 <= i < LINES ensures LineOk(b'.lines[i]) {
      assert Grows(b.lines[i], b'.lines[i]);
    }
  }

  lemma OneLineGrows(b: Bank, b': Bank, i: nat)
    requires BankOk(b) && i < LINES
    requires |b'.lines| == LINES && b'.lines == b.lines[i := b'.lines[i]]
    requires Grows(b.lines[i], b'.lines[i])
    ensures AllGrow(b, b')
  {
    forall k | 0 <= k < LINES ensures Grows(b.lines[k], b'.lines[k]) {
      assert LineOk(b.lines[k]);
    }
  }

  lemma SetEachGrows(b: Bank, mask: seq<bool>, bits: seq<bool>)
    requires BankOk(b) && |mask| == |bits| == |b.lines|
    ensures AllGrow(b, SetEach(b, mask, bits, |mask|))
  {
    forall i: nat | i < LINES ensures Grows(b.lines[i], SetEach(b, mask, bits, |mask|).lines[i]) {
      SetEachLine(b, mask, bits, |mask|, i);
      assert LineOk(b.lines[i]);
    }
  }

  lemma AutGrows(b: Bank, c: AutCall)
    requires BankOk(b) && AutEnabled(b, c)
    ensures AllGrow(b, AutStep(b, c)) && InRange(AutStep(b, c))
  {
    if c.DriveMany? {
      SetEachGrows(b, c.mask, c.bits);
      SetEachLine(b, c.mask, c.bits, |c.mask|, 0);
    } else {
      assert LineOk(b.lines[c.line]);
      OneLineGrows(b, AutStep(b, c), c.line);
    }
  }

  lemma InjectGrows(b: Bank, i: nat, v: Level, draw: Draw)
    requires BankOk(b) && i < LINES
    ensures AllGrow(b, InjectSection(b, i, v, draw)) && InRange(InjectSection(b, i, v, draw))
  {
    if InjectOutcome(b, draw).Discarded? || InjectOutcome(b, draw).Dropped? {
      SameLinesGrow(b);
    } else {
      assert LineOk(b.lines[i]);
      OneLineGrows(b, InjectSection(b, i, v, draw), i);
    }
  }

  lemma CommitGrows(b: Bank, i: nat, h: Held, draw: Draw)
    requires BankOk(b) && i < LINES && HeldOk(b.lines[i], h)
    ensures AllGrow(b, ApplySecond(b, i, h, draw)) && InRange(ApplySecond(b, i, h, draw))
  {
    assert LineOk(b.lines[i]);
    OneLineGrows(b, ApplySecond(b, i, h, draw), i);
  }

  lemma ResetGrows(s: System)
    requires Inv(s) && Enabled(s, ResetStep)
    ensures AllGrow(s.bank, ResetNext(s).bank) && InRange(ResetNext(s).bank)
  {
    if s.reset.AtLock? {
      forall k | 0 <= k < LINES ensures Grows(s.bank.lines[k], ResetSection(s.bank).lines[k]) {
        assert LineOk(s.bank.lines[k]);
      }
    } else {
      assert LineOk(s.bank.lines[s.reset.i]);
      OneLineGrows(s.bank, ResetNext(s).bank, s.reset.i);
    }
  }

  lemma SameLinesGrow(b: Bank)
    requires BankOk(b)
    ensures AllGrow(b, b)
  {
    forall k | 0 <= k < LINES ensures Grows(b.lines[k], b.lines[k]) {
      assert LineOk(b.lines[k]);
    }
  }

  // Only the timer and the work item of line i have changed.
  lemma TimerGrows(b: Bank, b': Bank, i: nat)
    requires BankOk(b) && i < LINES && |b'.lines| == LINES
    requires var l' := b'.lines[i];
      b' == WithLine(b, i, b.lines[i].(timerArmed := l'.timerArmed, workPending := l'.workPending))
    ensures AllGrow(b, b') && InRange(b')
  {
    assert LineOk(b.lines[i]);
    OneLineGrows(b, b', i);
  }

  lemma BankGrows(s: System, a: Action)
    requires Inv(s) && Enabled(s, a)
    ensures AllGrow(s.bank, Next(s, a).bank) && InRange(Next(s, a).bank)
  {
    var b, b' := s.bank, Next(s, a).bank;
    match a {
      case Aut(c) => AutGrows(b, c);
      case Second(w, draw) => HoldsOk(s, w); CommitGrows(b, LineOf(s, w), ApplyOf(s, w).held, draw);
      case Inject(t, i, v, draw) => InjectGrows(b, i, v, draw);
      case ResetStep => ResetGrows(s);
      case Arm(t) => TimerGrows(b, b', s.injectors[t].line);
      case TimerFires(i) => TimerGrows(b, b', i);
      case WorkStarts(i) => TimerGrows(b, b', i);
      case _ => SameLinesGrow(b);
    }
  }

  lemma HoldsOk(s: System, w: Who)
    requires Inv(s) && IsApplying(s, w)
    ensures LineOf(s, w) < LINES && ApplyOk(s.bank.lines[LineOf(s, w)], ApplyOf(s, w))
  {
    match w {
      case ByInjector(t) => assert InjectorOk(s.bank, s.injectors[t]);
      case ByWorker(i) => assert WorkerOk(s.bank.lines[i], s.workers[i]);
    }
  }

  // The result of a first section is what HeldOk asks for.
  lemma FirstTakesNewest(l: Line)
    requires LineOk(l)
    ensures ApplyFirst(l).Fresh? ==> HeldOk(l, ApplyFirst(l).held)
  {}

  lemma InjectorGrows(b: Bank, b': Bank, x: Injector)
    requires AllGrow(b, b') && InjectorOk(b, x)
    ensures InjectorOk(b', x)
  {
    assert Grows(b.lines[x.line], b'.lines[x.line]);
  }

  lemma InjectorsStayOk(s: System, a: Action, t: nat)
    requires Inv(s) && Enabled(s, a) && t in Next(s, a).injectors
    ensures InjectorOk(Next(s, a).bank, Next(s, a).injectors[t])
  {
    BankGrows(s, a);
    var s' := Next(s, a);
    if t in s.injectors {
      InjectorGrows(s.bank, s'.bank, s.injectors[t]);
      if a == First(ByInjector(t)) {
        FirstStaysOk(s, t);
      }
    }
  }

  lemma FirstStaysOk(s: System, t: nat)
    requires Inv(s) && Enabled(s, First(ByInjector(t))) && t in Next(s, First(ByInjector(t))).injectors
    ensures var s' := Next(s, First(ByInjector(t))); InjectorOk(s'.bank, s'.injectors[t])
  {
    var l := s.bank.lines[s.injectors[t].line];
    assert LineOk(l);
    FirstTakesNewest(l);
  }

  lemma WorkersStayOk(s: System, a: Action, i: nat)
    requires Inv(s) && Enabled(s, a) && i < LINES
    ensures |Next(s, a).workers| == LINES
    ensures WorkerOk(Next(s, a).bank.lines[i], Next(s, a).workers[i])
  {
    BankGrows(s, a);
    assert WorkerOk(s.bank.lines[i], s.workers[i]);
    assert Grows(s.bank.lines[i], Next(s, a).bank.lines[i]);
    if a == First(ByWorker(i)) {
      assert LineOk(s.bank.lines[i]);
      FirstTakesNewest(s.bank.lines[i]);
    }
  }

  lemma StepKeepsInv(s: System, a: Action)
    requires Inv(s) && Enabled(s, a)
    ensures Inv(Next(s, a))
  {
    BankGrows(s, a);
    GrownIsOk(s.bank, Next(s, a).bank);
    forall t | t in Next(s, a).injectors ensures InjectorOk(Next(s, a).bank, Next(s, a).injectors[t]) {
      InjectorsStayOk(s, a, t);
    }
    WorkersStayOk(s, a, 0);
    forall i | 0 <= i < LINES ensures WorkerOk(Next(s, a).bank.lines[i], Next(s, a).workers[i]) {
      WorkersStayOk(s, a, i);
    }
  }

  lemma {:induction false} RunKeepsInv(s: System, run: seq<Action>)
    requires Inv(s) && Runs(s, run)
    ensures Inv(After(s, run))
  {
    if run != [] {
      RunKeepsInv(s, run[..|run| - 1]);
      StepKeepsInv(After(s, run[..|run| - 1]), run[|run| - 1]);
    }
  }

  lemma InitOk()
    ensures Inv(Init())
  {}

  // --- the u32 generations ---

  lemma WrapExact(a: nat, b: nat)
    requires a <= b
    ensures Wrap32(a) == Wrap32(b) <==> Wrap32(b - a) == 0
  {
    assert b == a + (b - a);
  }

  // What the two guards of line_apply really test: the distances of the history
  // modulo 2^32.
  lemma StaleMeansApplied(l: Line)
    requires LineOk(l)
    ensures ApplyFirst(l).Stale? <==> Wrap32(|l.accepted| - l.applied) == 0
  {
    WrapExact(l.applied, |l.accepted|);
  }

  lemma OvertakenMeansOlder(l: Line, h: Held)
    requires LineOk(l) && HeldOk(l, h)
    ensures Overtaken(l, h) <==> Wrap32(|l.accepted| - h.index) != 0
  {
    WrapExact(h.index, |l.accepted|);
  }

  // A guard misreads when it takes an old snapshot for the newest one: nothing to
  // do although something is not applied, or not overtaken although it is.
  predicate FirstMisreads(l: Line) {
    ApplyFirst(l).Stale? && l.applied != |l.accepted|
  }

  predicate SecondMisreads(l: Line, h: Held) {
    !Overtaken(l, h) && h.index != |l.accepted|
  }

  // The step is one of line_apply on line i whose guard misreads.
  predicate Misreads(s: System, a: Action, i: nat) {
    && (a.First? || a.Second?)
    && IsApplying(s, a.who) && LineOf(s, a.who) == i < |s.bank.lines|
    && if a.First? then FirstMisreads(s.bank.lines[i])
       else ApplyOf(s, a.who).Holding? && SecondMisreads(s.bank.lines[i], ApplyOf(s, a.who).held)
  }

  predicate FullTurns(n: int) {
    n >= U32 && Wrap32(n) == 0
  }

  // That is, exactly when the counter has made full turns since.
  lemma MisreadsAreFullTurns(l: Line, h: Held)
    requires LineOk(l) && HeldOk(l, h)
    ensures FirstMisreads(l) <==> FullTurns(|l.accepted| - l.applied)
    ensures SecondMisreads(l, h) <==> FullTurns(|l.accepted| - h.index)
  {
    StaleMeansApplied(l);
    OvertakenMeansOlder(l, h);
  }

  // Fewer than 2^32 snapshots were accepted on line i since it last committed, and
  // since any apply in flight on it copied its own.
  ghost predicate WindowOn(s: System, i: nat) {
    i < |s.bank.lines| ==>
      && |s.bank.lines[i].accepted| < s.bank.lines[i].applied + U32
      && forall w | IsApplying(s, w) && LineOf(s, w) == i :: ApplyInWindow(s.bank.lines[i], ApplyOf(s, w))
  }

  predicate ApplyInWindow(l: Line, a: Apply) {
    a.Holding? ==> |l.accepted| < a.held.index + U32
  }

  // Then no guard misreads on that line.
  lemma NoMisreadInWindow(s: System, a: Action, i: nat)
    requires Inv(s) && Enabled(s, a) && i < LINES && WindowOn(s, i)
    ensures !Misreads(s, a, i)
  {
    var l := s.bank.lines[i];
    assert LineOk(l);
    StaleMeansApplied(l);
    if a.Second? && LineOf(s, a.who) == i {
      HoldsOk(s, a.who);
      assert ApplyInWindow(l, ApplyOf(s, a.who));
      OvertakenMeansOlder(l, ApplyOf(s, a.who).held);
    }
  }

  // At every step of the run the line was in its window.
  ghost predicate StaysInWindow(s: System, run: seq<Action>, i: nat)
    requires Runs(s, run)
  {
    run == [] || (StaysInWindow(s, run[..|run| - 1], i) && WindowOn(After(s, run[..|run| - 1]), i))
  }

  // --- no inject is lost ---

  predicate ApplyOwes(l: Line, a: Apply) {
    a.AtEntry? || a.held.index == |l.accepted|
  }

  predicate InjectorOwes(b: Bank, i: nat, x: Injector) {
    x.line == i < |b.lines| && (x.ToArm? || ApplyOwes(b.lines[i], x.at))
  }

  // Something will still commit the newest snapshot of line i.
  ghost predicate Owed(s: System, i: nat) {
    && i < |s.bank.lines| == |s.workers|
    && (|| !s.reset.NoReset?
        || s.bank.lines[i].timerArmed
        || s.bank.lines[i].workPending
        || (s.workers[i].Running? && ApplyOwes(s.bank.lines[i], s.workers[i].at))
        || exists t :: t in s.injectors && InjectorOwes(s.bank, i, s.injectors[t]))
  }

  // The newest snapshot of line i is not applied and nothing will commit it.
  ghost predicate Lost(s: System, i: nat) {
    && i < |s.bank.lines| == |s.workers|
    && s.bank.lines[i].applied != |s.bank.lines[i].accepted|
    && !Owed(s, i)
  }

  // Nothing is in flight on line i and no RESET is under way.
  ghost predicate Quiescent(s: System, i: nat) {
    && i < |s.bank.lines| == |s.workers|
    && s.reset.NoReset?
    && !s.bank.lines[i].timerArmed
    && !s.bank.lines[i].workPending
    && s.workers[i].Idle?
    && forall t | t in s.injectors :: s.injectors[t].line != i
  }
}

// Unloading one bank: exit cancels the timer and the work item of each line, then
// takes the notifier, the chip and the sysfs files away, while everything else
// still goes on beside it.
module GpioUnload {
  import opened GpioDevice
  import opened GpioProtocol

  datatype Place = CancelTimer(i: nat) | CancelWork(i: nat) | Unregister | RemoveFiles | Freed

  datatype Unload = Unload(sys: System, place: Place)

  datatype Step = Beside(a: Action) | Leaves

  // --- the step relation ---

  // Without its notifier the bank gets no RESET, and without its memory nothing.
  predicate Allowed(p: Place, a: Action) {
    match p
    case Freed => false
    case RemoveFiles => !a.ResetBegins?
    case _ => true
  }

  predicate CanLeave(u: Unload) {
    match u.place
    case CancelTimer(i) => i < |u.sys.bank.lines|
    // waits until the work item does not run
    case CancelWork(i) => i < |u.sys.bank.lines| == |u.sys.workers| && u.sys.workers[i].Idle?
    // waits until no callback is under way
    case Unregister => u.sys.reset.NoReset?
    // waits until no write to a file of the device is under way
    case RemoveFiles => u.sys.injectors == map[]
    case Freed => false
  }

  predicate StepEnabled(u: Unload, x: Step) {
    match x
    case Beside(a) => Allowed(u.place, a) && Enabled(u.sys, a)
    case Leaves => CanLeave(u)
  }

  function Left(u: Unload): Unload
    requires CanLeave(u)
  {
    match u.place
    case CancelTimer(i) =>
      Unload(u.sys.(bank := WithLine(u.sys.bank, i, u.sys.bank.lines[i].(timerArmed := false))), CancelWork(i))
    case CancelWork(i) =>
      Unload(u.sys.(bank := WithLine(u.sys.bank, i, u.sys.bank.lines[i].(workPending := false))),
             if i + 1 < |u.sys.bank.lines| then CancelTimer(i + 1) else Unregister)
    case Unregister => u.(place := RemoveFiles)
    case RemoveFiles => u.(place := Freed)
  }

  function StepNext(u: Unload, x: Step): Unload
    requires StepEnabled(u, x)
  {
    match x
    case Beside(a) => u.(sys := Next(u.sys, a))
    case Leaves => Left(u)
  }

  predicate Unloads(u: Unload, run: seq<Step>)
    decreases |run|, 0
  {
    run == [] || (Unloads(u, run[..|run| - 1]) && StepEnabled(Reaches(u, run[..|run| - 1]), run[|run| - 1]))
  }

  function Reaches(u: Unload, run: seq<Step>): Unload
    requires Unloads(u, run)
    decreases |run|, 1
  {
    if run == [] then u else StepNext(Reaches(u, run[..|run| - 1]), run[|run| - 1])
  }

  // --- what stays cancelled ---

  predicate TimerPast(p: Place, i: nat) {
    match p
    case CancelTimer(k) => i < k
    case CancelWork(k) => i <= k
    case _ => true
  }

  predicate WorkPast(p: Place, i: nat) {
    match p
    case CancelTimer(k) => i < k
    case CancelWork(k) => i < k
    case _ => true
  }

  predicate LineIdle(s: System, i: nat) {
    i < |s.bank.lines| && i < |s.workers| && !s.bank.lines[i].timerArmed && !s.bank.lines[i].workPending && s.workers[i].Idle?
  }

  // What was cancelled on line i has not come back.
  predicate StaysOff(u: Unload, i: nat) {
    && i < |u.sys.bank.lines| && i < |u.sys.workers|
    && (TimerPast(u.place, i) ==> !u.sys.bank.lines[i].timerArmed)
    && (WorkPast(u.place, i) ==> LineIdle(u.sys, i))
  }

  // An inject writer starts the timer of line i although exit has cancelled it.
  predicate ArmsLate(u: Unload, x: Step, i: nat) {
    TimerPast(u.place, i) && x.Beside? && x.a.Arm? && x.a.t in u.sys.injectors && u.sys.injectors[x.a.t].line == i
  }

  // Only the step that arms the timer can wake a line.
  lemma AutWakesNone(b: Bank, c: AutCall, i: nat)
    requires AutEnabled(b, c) && i < |b.lines|
    ensures var b' := AutStep(b, c);
      |b'.lines| == |b.lines| && b'.lines[i].timerArmed == b.lines[i].timerArmed && b'.lines[i].workPending == b.lines[i].workPending
  {
    if c.DriveMany? {
      SetEachLine(b, c.mask, c.bits, |c.mask|, i);
    }
  }

  predicate WakesNone(s: System, s': System, i: nat)
    requires i < |s.bank.lines| && i < |s.workers|
  {
    && i < |s'.bank.lines| && i < |s'.workers|
    && (s'.bank.lines[i].timerArmed ==> s.bank.lines[i].timerArmed)
    && (LineIdle(s, i) ==> LineIdle(s', i))
  }

  lemma ApplyWakesNone(s: System, a: Action, i: nat)
    requires Enabled(s, a) && (a.First? || a.Second?) && i < |s.bank.lines| && i < |s.workers|
    ensures WakesNone(s, Next(s, a), i)
  {}

  lemma ResetWakesNone(s: System, i: nat)
    requires Enabled(s, ResetStep) && i < |s.bank.lines| && i < |s.workers|
    ensures WakesNone(s, ResetNext(s), i)
  {}

  lemma StepWakesNone(s: System, a: Action, i: nat)
    requires Enabled(s, a) && i < |s.bank.lines| && i < |s.workers|
    requires !(a.Arm? && s.injectors[a.t].line == i)
    ensures WakesNone(s, Next(s, a), i)
  {
    if a.Aut? {
      AutWakesNone(s.bank, a.call, i);
    } else if a.First? || a.Second? {
      ApplyWakesNone(s, a, i);
    } else if a.ResetStep? {
      ResetWakesNone(s, i);
    }
  }

  lemma LeavingKeeps(u: Unload, i: nat)
    requires CanLeave(u) && StaysOff(u, i)
    ensures StaysOff(Left(u), i)
  {}

  // A step undoes a cancel on line i if and only if it arms the timer late.
  lemma OffUntilArmed(u: Unload, x: Step, i: nat)
    requires StepEnabled(u, x) && StaysOff(u, i)
    ensures StaysOff(StepNext(u, x), i) <==> !ArmsLate(u, x, i)
  {
    if x.Leaves? {
      LeavingKeeps(u, i);
    } else if !(x.a.Arm? && u.sys.injectors[x.a.t].line == i) {
      StepWakesNone(u.sys, x.a, i);
    }
  }

  // --- whole runs ---

  predicate ArmedLate(u: Unload, run: seq<Step>, i: nat)
    requires Unloads(u, run)
  {
    run != [] && (ArmedLate(u, run[..|run| - 1], i) || ArmsLate(Reaches(u, run[..|run| - 1]), run[|run| - 1], i))
  }

  predicate OffThroughout(u: Unload, run: seq<Step>, i: nat)
    requires Unloads(u, run)
  {
    StaysOff(Reaches(u, run), i) && (run == [] || OffThroughout(u, run[..|run| - 1], i))
  }

  // Over any run of exit with everything beside it: what exit cancels on a line
  // stays cancelled if and only if no inject arms the timer of the line late.
  lemma {:induction false} CancelsHoldExactly(u: Unload, run: seq<Step>, i: nat)
    requires Unloads(u, run) && StaysOff(u, i)
    ensures OffThroughout(u, run, i) <==> !ArmedLate(u, run, i)
  {
    if run != [] {
      var front := run[..|run| - 1];
      CancelsHoldExactly(u, front, i);
      if OffThroughout(u, front, i) {
        OffUntilArmed(Reaches(u, front), run[|run| - 1], i);
      }
    }
  }

  // Then nothing of the line is left when the memory is freed.
  lemma IdleWhenFreed(u: Unload, run: seq<Step>, i: nat)
    requires Unloads(u, run) && u.place == CancelTimer(0) && i < |u.sys.bank.lines| && i < |u.sys.workers|
    requires Reaches(u, run).place.Freed? && !ArmedLate(u, run, i)
    ensures LineIdle(Reaches(u, run).sys, i)
  {
    CancelsHoldExactly(u, run, i);
  }

  // --- a condition to check before ---

  // Every inject applies at once, and none is about to arm a timer.
  ghost predicate Immediately(s: System) {
    s.bank.latency == 0 && s.bank.jitter == 0 && forall t | t in s.injectors :: !s.injectors[t].ToArm?
  }

  predicate Delays(x: Step) {
    x.Beside? && x.a.Configure? && (x.a.setting.Latency? || x.a.setting.Jitter?)
  }

  lemma {:induction false} SameDelay(b: Bank, mask: seq<bool>, bits: seq<bool>, n: nat)
    requires n <= |b.lines| == |mask| == |bits|
    ensures SetEach(b, mask, bits, n).latency == b.latency && SetEach(b, mask, bits, n).jitter == b.jitter
  {
    if n > 0 {
      SameDelay(b, mask, bits, n - 1);
    }
  }

  lemma AutDelays(b: Bank, c: AutCall)
    requires AutEnabled(b, c)
    ensures AutStep(b, c).latency == b.latency && AutStep(b, c).jitter == b.jitter
  {
    if c.DriveMany? {
      SameDelay(b, c.mask, c.bits, |c.mask|);
    }
  }

  lemma StaysImmediate(u: Unload, x: Step)
    requires StepEnabled(u, x) && Immediately(u.sys) && !Delays(x)
    ensures Immediately(StepNext(u, x).sys)
  {
    if x.Beside? && x.a.Aut? {
      AutDelays(u.sys.bank, x.a.call);
    }
  }

  lemma {:induction false} RunStaysImmediate(u: Unload, run: seq<Step>, i: nat)
    requires Unloads(u, run) && Immediately(u.sys) && forall x | x in run :: !Delays(x)
    ensures Immediately(Reaches(u, run).sys) && !ArmedLate(u, run, i)
  {
    if run != [] {
      var front, x := run[..|run| - 1], run[|run| - 1];
      assert x in run;
      RunStaysImmediate(u, front, i);
      StaysImmediate(Reaches(u, front), x);
    }
  }

  // Without latency and jitter exit leaves no timer and no work item behind.
  lemma NoDelayNothingLeft(u: Unload, run: seq<Step>, i: nat)
    requires Unloads(u, run) && u.place == CancelTimer(0) && i < |u.sys.bank.lines| && i < |u.sys.workers|
    requires Immediately(u.sys) && (forall x | x in run :: !Delays(x)) && Reaches(u, run).place.Freed?
    ensures LineIdle(Reaches(u, run).sys, i)
  {
    RunStaysImmediate(u, run, i);
    IdleWhenFreed(u, run, i);
  }

  // --- a run that leaves a timer behind ---

  lemma Further(u: Unload, run: seq<Step>, v: Unload, x: Step) returns (run': seq<Step>)
    requires Unloads(u, run) && Reaches(u, run) == v && StepEnabled(v, x)
    ensures run' == run + [x] && Unloads(u, run') && Reaches(u, run') == StepNext(v, x)
  {
    run' := run + [x];
    assert run'[..|run'| - 1] == run;
  }

  // A bank on which an inject is delayed, and nothing goes on.
  predicate Calm(s: System) {
    && |s.bank.lines| == |s.workers| == LINES && s.injectors == map[] && s.reset.NoReset?
    && (forall i | 0 <= i < LINES :: s.workers[i].Idle?)
    && s.bank.enabled && s.bank.latency == 1 && s.bank.dropPpm == 0
  }

  lemma {:induction false} CancelsAll(u: Unload, run: seq<Step>, v: Unload, i: nat) returns (run': seq<Step>, v': Unload)
    requires Unloads(u, run) && Reaches(u, run) == v && v.place == CancelTimer(i) && i < LINES && Calm(v.sys)
    ensures Unloads(u, run') && Reaches(u, run') == v' && v'.place.Unregister? && Calm(v'.sys)
    decreases LINES - i
  {
    run' := Further(u, run, v, Leaves);
    var v1 := Left(v);
    run' := Further(u, run', v1, Leaves);
    v' := Left(v1);
    if i + 1 < LINES {
      run', v' := CancelsAll(u, run', v', i + 1);
    }
  }

  // The inject comes when all timers are cancelled and the file is still there.
  lemma ArmsAtLast(u: Unload, run: seq<Step>, v: Unload) returns (run': seq<Step>, v': Unload)
    requires Unloads(u, run) && Reaches(u, run) == v && v.place.Unregister? && Calm(v.sys)
    ensures Unloads(u, run') && Reaches(u, run') == v' && v'.place.Unregister?
    ensures |v'.sys.bank.lines| == LINES && v'.sys.bank.lines[0].timerArmed && v'.sys.injectors == map[] && v'.sys.reset.NoReset?
  {
    run' := Further(u, run, v, Beside(Inject(0, 0, 1, 0)));
    var v1 := StepNext(v, Beside(Inject(0, 0, 1, 0)));
    assert v1.sys.injectors[0] == ToArm(0);
    run' := Further(u, run', v1, Beside(Arm(0)));
    v' := StepNext(v1, Beside(Arm(0)));
  }

  // A delayed inject between the cancels and the removal of the files: the timer is
  // still armed when the memory of the bank is freed.
  lemma TimerLeftBehind() returns (run: seq<Step>, v: Unload)
    ensures Unloads(Unload(Init(), CancelTimer(0)), run) && Reaches(Unload(Init(), CancelTimer(0)), run) == v
    ensures v.place.Freed? && |v.sys.bank.lines| == LINES && v.sys.bank.lines[0].timerArmed
  {
    var u := Unload(Init(), CancelTimer(0));
    var x := Beside(Configure(Latency(1)));
    assert Unloads(u, []) && Reaches(u, []) == u;
    run := Further(u, [], u, x);
    run, v := CancelsAll(u, run, StepNext(u, x), 0);
    run, v := ArmsAtLast(u, run, v);
    run := Further(u, run, v, Leaves);
    v := Left(v);
    run := Further(u, run, v, Leaves);
    v := Left(v);
  }
}

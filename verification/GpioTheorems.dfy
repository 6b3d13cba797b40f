// What the delayed-inject protocol guarantees over every interleaving.
module GpioTheorems {
  import opened Counters
  import opened FaultGate
  import opened GpioDevice
  import opened GpioProtocol

  // --- no inject is lost ---

  predicate AcceptsOn(s: System, a: Action, i: nat) {
    a.Inject? && a.i == i && !InjectOutcome(s.bank, a.draw).Discarded? && !InjectOutcome(s.bank, a.draw).Dropped?
  }

  // Who takes the step, if it is a call of line_apply.
  predicate Moves(a: Action, w: Who) {
    (a.First? || a.Second?) && a.who == w
  }

  // A step that accepts nothing new on line i leaves every debt of the others.
  lemma OtherDebtsStay(s: System, a: Action, i: nat, t: nat)
    requires Inv(s) && Enabled(s, a) && i < LINES
    requires t in s.injectors && InjectorOwes(s.bank, i, s.injectors[t])
    requires !Moves(a, ByInjector(t)) && a != Arm(t)
    requires Next(s, a).bank.lines[i].accepted == s.bank.lines[i].accepted
    ensures t in Next(s, a).injectors && InjectorOwes(Next(s, a).bank, i, Next(s, a).injectors[t])
  {
    BankGrows(s, a);
  }

  lemma FirstKeepsDebt(s: System, w: Who, i: nat)
    requires Inv(s) && Enabled(s, First(w)) && i < LINES && !Misreads(s, First(w), i)
    requires s.bank.lines[i].applied != |s.bank.lines[i].accepted| && Owed(s, i)
    ensures Owed(Next(s, First(w)), i)
  {
    assert LineOk(s.bank.lines[i]);
    if LineOf(s, w) == i {
      if w.ByInjector? {
        assert InjectorOwes(s.bank, i, Next(s, First(w)).injectors[w.t]);
      }
    } else if t :| t in s.injectors && InjectorOwes(s.bank, i, s.injectors[t]) {
      OtherDebtsStay(s, First(w), i, t);
    }
  }

  lemma SecondKeepsDebt(s: System, w: Who, draw: Draw, i: nat)
    requires Inv(s) && Enabled(s, Second(w, draw)) && i < LINES && !Misreads(s, Second(w, draw), i)
    requires s.bank.lines[i].applied != |s.bank.lines[i].accepted| && Owed(s, i)
    ensures var s' := Next(s, Second(w, draw));
      s'.bank.lines[i].applied == |s'.bank.lines[i].accepted| || Owed(s', i)
  {
    assert LineOk(s.bank.lines[i]);
    HoldsOk(s, w);
    if t :| t in s.injectors && InjectorOwes(s.bank, i, s.injectors[t]) {
      if w != ByInjector(t) {
        OtherDebtsStay(s, Second(w, draw), i, t);
      }
    }
  }

  // What the debt of line i depends on, but for the injectors.
  predicate SameDuties(s: System, s': System, i: nat) {
    && i < |s.bank.lines| == |s.workers| && i < |s'.bank.lines| == |s'.workers|
    && s'.bank.lines[i].accepted == s.bank.lines[i].accepted
    && s'.bank.lines[i].timerArmed == s.bank.lines[i].timerArmed
    && s'.bank.lines[i].workPending == s.bank.lines[i].workPending
    && s'.workers[i] == s.workers[i] && (!s.reset.NoReset? ==> !s'.reset.NoReset?)
  }

  lemma DutiesKeepDebt(s: System, s': System, i: nat)
    requires SameDuties(s, s', i) && Owed(s, i)
    requires forall t | t in s.injectors :: t in s'.injectors && s'.injectors[t] == s.injectors[t]
    ensures Owed(s', i)
  {
    if t :| t in s.injectors && InjectorOwes(s.bank, i, s.injectors[t]) {
      assert InjectorOwes(s'.bank, i, s'.injectors[t]);
    }
  }

  lemma AutKeepsDebt(s: System, c: AutCall, i: nat)
    requires Inv(s) && Enabled(s, Aut(c)) && i < LINES && Owed(s, i)
    ensures Owed(Next(s, Aut(c)), i)
  {
    AutGrows(s.bank, c);
    if c.DriveMany? {
      SetEachLine(s.bank, c.mask, c.bits, |c.mask|, i);
    }
    DutiesKeepDebt(s, Next(s, Aut(c)), i);
  }

  lemma InjectOwesItself(s: System, a: Action)
    requires Inv(s) && Enabled(s, a) && a.Inject? && AcceptsOn(s, a, a.i)
    ensures a.i < LINES && Owed(Next(s, a), a.i)
  {
    assert InjectorOwes(Next(s, a).bank, a.i, Next(s, a).injectors[a.t]);
  }

  lemma InjectKeepsDebt(s: System, a: Action, i: nat)
    requires Inv(s) && Enabled(s, a) && a.Inject? && i < LINES && Owed(s, i)
    ensures Owed(Next(s, a), i)
  {
    if AcceptsOn(s, a, i) {
      InjectOwesItself(s, a);
    } else {
      DutiesKeepDebt(s, Next(s, a), i);
    }
  }

  lemma TimersKeepDebt(s: System, a: Action, i: nat)
    requires Inv(s) && Enabled(s, a) && (a.Arm? || a.TimerFires? || a.WorkStarts?) && i < LINES && Owed(s, i)
    ensures Owed(Next(s, a), i)
  {
    if t :| t in s.injectors && InjectorOwes(s.bank, i, s.injectors[t]) {
      if a != Arm(t) {
        OtherDebtsStay(s, a, i, t);
      }
    }
  }

  lemma ResetKeepsDebt(s: System, a: Action, i: nat)
    requires Inv(s) && Enabled(s, a) && (a.ResetBegins? || a.ResetStep?) && i < LINES
    ensures var s' := Next(s, a);
      && |s'.bank.lines| == |s'.workers| == LINES
      && (s'.bank.lines[i].applied == |s'.bank.lines[i].accepted| || Owed(s', i))
  {}

  // Whatever is not a call of line_apply.
  lemma OtherStepsKeepDebt(s: System, a: Action, i: nat)
    requires Inv(s) && Enabled(s, a) && i < LINES && !a.First? && !a.Second?
    requires s.bank.lines[i].applied != |s.bank.lines[i].accepted| && Owed(s, i)
    ensures !Lost(Next(s, a), i)
  {
    if a.Aut? {
      AutKeepsDebt(s, a.call, i);
    } else if a.Inject? {
      InjectKeepsDebt(s, a, i);
    } else if a.ResetBegins? || a.ResetStep? {
      ResetKeepsDebt(s, a, i);
    } else if a.Configure? || a.StatsReset? {
      DutiesKeepDebt(s, Next(s, a), i);
    } else {
      TimersKeepDebt(s, a, i);
    }
  }

  lemma NewDebtIsOwed(s: System, a: Action, i: nat)
    requires Inv(s) && Enabled(s, a) && i < LINES && !Misreads(s, a, i)
    requires s.bank.lines[i].applied == |s.bank.lines[i].accepted|
    ensures !Lost(Next(s, a), i)
  {
    if a.Inject? && AcceptsOn(s, a, i) {
      InjectOwesItself(s, a);
    } else if a.Aut? && a.call.DriveMany? {
      SetEachLine(s.bank, a.call.mask, a.call.bits, |a.call.mask|, i);
    }
  }

  lemma MisreadLeavesDebt(s: System, a: Action, i: nat)
    requires Inv(s) && Enabled(s, a) && i < LINES && Misreads(s, a, i)
    ensures var s' := Next(s, a);
      |s'.bank.lines| == |s'.workers| == LINES && s'.bank.lines[i].applied != |s'.bank.lines[i].accepted|
  {}

  // A step loses the newest inject of a line if and only if a guard misreads on
  // that line and nothing else owes the commit.
  lemma LostIffMisread(s: System, a: Action, i: nat)
    requires Inv(s) && Enabled(s, a) && i < LINES && !Lost(s, i)
    ensures |Next(s, a).bank.lines| == |Next(s, a).workers| == LINES
    ensures Lost(Next(s, a), i) <==> Misreads(s, a, i) && !Owed(Next(s, a), i)
  {
    StepKeepsInv(s, a);
    if Misreads(s, a, i) {
      MisreadLeavesDebt(s, a, i);
    } else if s.bank.lines[i].applied == |s.bank.lines[i].accepted| {
      NewDebtIsOwed(s, a, i);
    } else {
      match a {
        case First(w) => FirstKeepsDebt(s, w, i);
        case Second(w, draw) => SecondKeepsDebt(s, w, draw, i);
        case _ => OtherStepsKeepDebt(s, a, i);
      }
    }
  }

  // At no point of the run is the newest inject of line i lost.
  ghost predicate NeverLost(s: System, run: seq<Action>, i: nat)
    requires Runs(s, run)
  {
    !Lost(After(s, run), i) && (run != [] ==> NeverLost(s, run[..|run| - 1], i))
  }

  // No step of the run misreads on line i when nothing else owes the commit.
  ghost predicate NoLosingStep(s: System, run: seq<Action>, i: nat)
    requires Runs(s, run)
  {
    run != [] ==>
      var front := run[..|run| - 1];
      && NoLosingStep(s, front, i)
      && (Misreads(After(s, front), run[|run| - 1], i) ==> Owed(After(s, run), i))
  }

  lemma {:induction false} NeverLostExactly(s: System, run: seq<Action>, i: nat)
    requires Inv(s) && Runs(s, run) && i < LINES && !Lost(s, i)
    ensures NeverLost(s, run, i) <==> NoLosingStep(s, run, i)
  {
    if run != [] {
      var front := run[..|run| - 1];
      NeverLostExactly(s, front, i);
      RunKeepsInv(s, front);
      if NeverLost(s, front, i) {
        LostIffMisread(After(s, front), run[|run| - 1], i);
      }
    }
  }

  lemma {:induction false} WindowLosesNone(s: System, run: seq<Action>, i: nat)
    requires Inv(s) && Runs(s, run) && StaysInWindow(s, run, i) && i < LINES
    ensures NoLosingStep(s, run, i)
  {
    if run != [] {
      var front := run[..|run| - 1];
      WindowLosesNone(s, front, i);
      RunKeepsInv(s, front);
      NoMisreadInWindow(After(s, front), run[|run| - 1], i);
    }
  }

  // In every run and on every line: no inject is lost if and only if no step of
  // the run misreads a wrapped generation of that line while nothing else owes the
  // commit.  Within the window of the line none does.
  lemma NoLostInject(run: seq<Action>, i: nat)
    requires Runs(Init(), run) && i < LINES
    ensures NeverLost(Init(), run, i) <==> NoLosingStep(Init(), run, i)
    ensures StaysInWindow(Init(), run, i) ==> NeverLost(Init(), run, i)
  {
    InitOk();
    NeverLostExactly(Init(), run, i);
    if StaysInWindow(Init(), run, i) {
      WindowLosesNone(Init(), run, i);
    }
  }

  // A line with nothing in flight has applied its newest snapshot, unless it was
  // lost in that way.
  lemma QuiescentIsApplied(run: seq<Action>, i: nat)
    requires Runs(Init(), run) && i < LINES && Quiescent(After(Init(), run), i)
    ensures var l := After(Init(), run).bank.lines[i];
      && (l.applied == |l.accepted| <==> !Lost(After(Init(), run), i))
      && (NoLosingStep(Init(), run, i) ==> l.applied == |l.accepted| && l.applyGen == l.snapGen)
  {
    NoLostInject(run, i);
    InitOk();
    RunKeepsInv(Init(), run);
    assert LineOk(After(Init(), run).bank.lines[i]);
  }

  // --- no stale value is published ---

  // Past the second guard the newest accepted snapshot is published, flipped or
  // not under the rate captured with it; an overtaken apply changes nothing.
  ghost predicate PublishesNewest(s: System, w: Who, draw: Draw)
    requires Enabled(s, Second(w, draw))
  {
    var i := LineOf(s, w);
    var l, b' := s.bank.lines[i], Next(s, Second(w, draw)).bank;
    if Overtaken(l, ApplyOf(s, w).held) then
      b' == s.bank && ApplyOf(s, w).held.index < |l.accepted|
    else
      && l.accepted != []
      && b'.lines[i].applied == |l.accepted|
      && b'.lines[i].value == if l.isOutput then l.value else FlippedValue(l.accepted[|l.accepted| - 1], draw)
  }

  // A commit publishes anything else if and only if the second guard misreads.
  lemma CommitTakesNewest(s: System, w: Who, draw: Draw)
    requires Inv(s) && Enabled(s, Second(w, draw))
    ensures PublishesNewest(s, w, draw) <==> !Misreads(s, Second(w, draw), LineOf(s, w))
  {
    HoldsOk(s, w);
    assert LineOk(s.bank.lines[LineOf(s, w)]);
  }

  // In every interleaving, an apply publishes a stale snapshot if and only if its
  // guard misreads a wrapped generation; within the window of its line it never does.
  lemma NoStalePublish(run: seq<Action>, w: Who, draw: Draw)
    requires Runs(Init(), run) && Enabled(After(Init(), run), Second(w, draw))
    ensures var s := After(Init(), run);
      && (PublishesNewest(s, w, draw) <==> !Misreads(s, Second(w, draw), LineOf(s, w)))
      && (WindowOn(s, LineOf(s, w)) ==> PublishesNewest(s, w, draw))
  {
    InitOk();
    RunKeepsInv(Init(), run);
    var s := After(Init(), run);
    CommitTakesNewest(s, w, draw);
    HoldsOk(s, w);
    if WindowOn(s, LineOf(s, w)) {
      NoMisreadInWindow(s, Second(w, draw), LineOf(s, w));
    }
  }

  // The history of a line only grows, and the applied mark goes back only when the
  // second guard misreads.
  lemma StepOnlyAdvances(s: System, a: Action, i: nat)
    requires Inv(s) && Enabled(s, a) && i < LINES
    ensures |Next(s, a).bank.lines| == LINES
    ensures var l, l' := s.bank.lines[i], Next(s, a).bank.lines[i];
      && l.accepted <= l'.accepted && l'.applied <= |l'.accepted|
      && (!Misreads(s, a, i) ==> l.applied <= l'.applied)
  {
    BankGrows(s, a);
    assert Grows(s.bank.lines[i], Next(s, a).bank.lines[i]);
    assert LineOk(s.bank.lines[i]);
    if a.Aut? && a.call.DriveMany? {
      SetEachLine(s.bank, a.call.mask, a.call.bits, |a.call.mask|, i);
    }
  }

  // --- who may change a level ---

  // The step is a commit of line_apply on line i.
  predicate Commits(s: System, a: Action, i: nat)
    requires Enabled(s, a)
  {
    && a.Second?
    && LineOf(s, a.who) == i
    && !Overtaken(s.bank.lines[i], ApplyOf(s, a.who).held)
  }

  predicate AutTouches(a: Action, i: nat) {
    a.Aut? && if a.call.DriveMany? then i < |a.call.mask| && a.call.mask[i] else a.call.line == i
  }

  // Only a commit on an input line or a callback of the AUT changes a level,
  // and only the AUT changes a direction.
  lemma LevelsAndDirections(s: System, a: Action, i: nat)
    requires Inv(s) && Enabled(s, a) && i < LINES
    ensures |Next(s, a).bank.lines| == LINES
    ensures var l, l' := s.bank.lines[i], Next(s, a).bank.lines[i];
      && (l'.value != l.value ==> AutTouches(a, i) || (Commits(s, a, i) && !l.isOutput))
      && (l'.isOutput != l.isOutput ==> AutTouches(a, i) && !a.call.DriveMany?)
  {
    BankGrows(s, a);
    if a.Aut? && a.call.DriveMany? {
      SetEachLine(s.bank, a.call.mask, a.call.bits, |a.call.mask|, i);
    }
  }

  // While the AUT holds a line as output and does not touch it, no number of
  // injects, timers, work runs and RESETs changes its level.
  lemma {:induction false} AutAuthority(s: System, run: seq<Action>, i: nat)
    requires Inv(s) && Runs(s, run) && i < LINES
    requires s.bank.lines[i].isOutput
    requires forall a | a in run :: !AutTouches(a, i)
    ensures |After(s, run).bank.lines| == LINES
    ensures After(s, run).bank.lines[i].isOutput
    ensures After(s, run).bank.lines[i].value == s.bank.lines[i].value
  {
    if run != [] {
      var front, a := run[..|run| - 1], run[|run| - 1];
      AutAuthority(s, front, i);
      RunKeepsInv(s, front);
      assert a in run;
      LevelsAndDirections(After(s, front), a, i);
    }
  }

  // --- what a quiescent input line shows ---

  // Once applied, the line shows its newest snapshot.
  predicate Shows(l: Line) {
    l.applied == |l.accepted| ==> l.value == l.snap.val
  }

  lemma StepKeepsShowing(s: System, a: Action, i: nat)
    requires Inv(s) && Enabled(s, a) && i < LINES
    requires var l := s.bank.lines[i]; Shows(l) && !l.isOutput && l.snap.ppm == 0
    requires s.reset.NoReset? && !AutTouches(a, i) && !a.ResetBegins? && !AcceptsOn(s, a, i)
    ensures var l, l' := s.bank.lines[i], Next(s, a).bank.lines[i];
      Shows(l') && !l'.isOutput && l'.snap == l.snap && l'.accepted == l.accepted
    ensures Next(s, a).reset.NoReset?
  {
    LevelsAndDirections(s, a, i);
    assert LineOk(s.bank.lines[i]);
    if a.Second? && LineOf(s, a.who) == i {
      HoldsOk(s, a.who);
    } else if a.Aut? && a.call.DriveMany? {
      SetEachLine(s.bank, a.call.mask, a.call.bits, |a.call.mask|, i);
    }
  }

  ghost predicate NoneAcceptedOn(s: System, run: seq<Action>, i: nat)
    requires Runs(s, run)
  {
    run != [] ==>
      var front := run[..|run| - 1];
      NoneAcceptedOn(s, front, i) && !AcceptsOn(After(s, front), run[|run| - 1], i)
  }

  lemma {:induction false} RunKeepsShowing(s: System, run: seq<Action>, i: nat)
    requires Inv(s) && Runs(s, run) && i < LINES
    requires var l := s.bank.lines[i]; Shows(l) && !l.isOutput && l.snap.ppm == 0
    requires s.reset.NoReset? && NoneAcceptedOn(s, run, i)
    requires forall a | a in run :: !AutTouches(a, i) && !a.ResetBegins?
    ensures Inv(After(s, run))
    ensures var l, l' := s.bank.lines[i], After(s, run).bank.lines[i];
      Shows(l') && !l'.isOutput && l'.snap == l.snap && l'.accepted == l.accepted
    ensures After(s, run).reset.NoReset?
  {
    if run != [] {
      var front, a := run[..|run| - 1], run[|run| - 1];
      RunKeepsShowing(s, front, i);
      assert a in run;
      StepKeepsShowing(After(s, front), a, i);
      StepKeepsInv(After(s, front), a);
    }
  }

  // Right after the snapshot is taken it is the line's newest, not applied and owed.
  lemma AcceptedThenShows(s: System, a: Action)
    requires Inv(s) && Enabled(s, a) && a.Inject? && AcceptsOn(s, a, a.i)
    ensures var s' := Next(s, a);
      && Inv(s') && a.i < LINES && !Lost(s', a.i)
      && s'.reset == s.reset
      && s'.bank.lines[a.i].snap == Snap(a.v, s.bank.flipPpm)
      && s'.bank.lines[a.i].isOutput == s.bank.lines[a.i].isOutput
      && Shows(s'.bank.lines[a.i])
  {
    assert LineOk(s.bank.lines[a.i]);
    StepKeepsInv(s, a);
    InjectOwesItself(s, a);
  }

  // An inject accepted on an input line with bitflip rate zero, in any state a
  // run reaches, followed by anything but a newer accepted inject, the AUT
  // touching the line, a RESET, or a guard that misreads and loses it: when the
  // line is quiescent again, it shows exactly the injected level.
  lemma NewestInjectShows(before: seq<Action>, s: System, a: Action, after: seq<Action>)
    requires Runs(Init(), before) && s == After(Init(), before)
    requires Enabled(s, a) && a.Inject? && AcceptsOn(s, a, a.i)
    requires s.bank.flipPpm == 0 && !s.bank.lines[a.i].isOutput && s.reset.NoReset?
    requires Runs(Next(s, a), after) && NoLosingStep(Next(s, a), after, a.i)
    requires NoneAcceptedOn(Next(s, a), after, a.i)
    requires forall b | b in after :: !AutTouches(b, a.i) && !b.ResetBegins?
    requires Quiescent(After(Next(s, a), after), a.i)
    ensures After(Next(s, a), after).bank.lines[a.i].value == a.v
  {
    InitOk();
    RunKeepsInv(Init(), before);
    AcceptedThenShows(s, a);
    var s' := Next(s, a);
    RunKeepsShowing(s', after, a.i);
    NeverLostExactly(s', after, a.i);
    assert !Owed(After(s', after), a.i);
  }

  // --- a line is changed only by steps on that line ---

  predicate Concerns(s: System, a: Action, i: nat)
    requires Enabled(s, a)
  {
    match a
    case Inject(_, j, _, _) => i == j
    case Arm(t) => i == s.injectors[t].line
    case TimerFires(j) => i == j
    case WorkStarts(j) => i == j
    case First(w) => i == LineOf(s, w)
    case Second(w, _) => i == LineOf(s, w)
    case ResetStep => s.reset.AtLock? || s.reset.i == i
    case Aut(c) => (match c
      case DriveMany(mask, _) => i < |mask| && mask[i]
      case _ => i == c.line)
    case _ => false
  }

  lemma LineIsolation(s: System, a: Action, i: nat)
    requires Inv(s) && Enabled(s, a) && i < LINES && !Concerns(s, a, i)
    ensures |Next(s, a).bank.lines| == LINES && Next(s, a).bank.lines[i] == s.bank.lines[i]
  {
    BankGrows(s, a);
    if a.Aut? && a.call.DriveMany? {
      SetEachLine(s.bank, a.call.mask, a.call.bits, |a.call.mask|, i);
    }
  }

  // --- the counters count what they say ---

  predicate Clears(s: System, a: Action) {
    a.StatsReset? || (a.ResetStep? && s.reset.AtLock?)
  }

  // The step is a commit that changed the stored level of its line.
  predicate ChangesLevel(s: System, a: Action)
    requires Enabled(s, a)
  {
    a.Second? && exists i: nat | i < |s.bank.lines| == |Next(s, a).bank.lines| ::
      Next(s, a).bank.lines[i].value != s.bank.lines[i].value
  }

  // The step is a commit whose bitflip gate fired.
  predicate CommitsFlipped(s: System, a: Action)
    requires Enabled(s, a)
  {
    && a.Second?
    && Commits(s, a, LineOf(s, a.who))
    && Fires(ApplyOf(s, a.who).held.snap.ppm, a.draw)
  }

  predicate DropsInject(s: System, a: Action) {
    a.Inject? && InjectOutcome(s.bank, a.draw).Dropped?
  }

  // How often each happened in a run since the counters were last cleared.
  datatype Tally = Tally(changes: nat, flips: nat, drops: nat)

  function CountStep(s: System, a: Action, n: Tally): Tally
    requires Enabled(s, a)
  {
    if Clears(s, a) then Tally(0, 0, 0)
    else Tally(n.changes + if ChangesLevel(s, a) then 1 else 0,
               n.flips + if CommitsFlipped(s, a) then 1 else 0,
               n.drops + if DropsInject(s, a) then 1 else 0)
  }

  function Count(s: System, run: seq<Action>): Tally
    requires Runs(s, run)
  {
    if run == [] then Tally(0, 0, 0)
    else CountStep(After(s, run[..|run| - 1]), run[|run| - 1], Count(s, run[..|run| - 1]))
  }

  lemma StepCounts(s: System, a: Action)
    requires Inv(s) && Enabled(s, a) && !Clears(s, a)
    ensures var b, b' := s.bank, Next(s, a).bank;
      && b'.valueChanges == (if ChangesLevel(s, a) then Bump64(b.valueChanges) else b.valueChanges)
      && b'.bitflips == (if CommitsFlipped(s, a) then Bump64(b.bitflips) else b.bitflips)
      && b'.drops == (if DropsInject(s, a) then Bump64(b.drops) else b.drops)
  {
    if a.Second? {
      HoldsOk(s, a.who);
      var i := LineOf(s, a.who);
      forall k: nat | k < LINES && k != i
        ensures Next(s, a).bank.lines[k].value == s.bank.lines[k].value
      {
        LineIsolation(s, a, k);
      }
    } else if a.Aut? && a.call.DriveMany? {
      SetEachLine(s.bank, a.call.mask, a.call.bits, |a.call.mask|, 0);
    }
  }

  lemma BumpCounts(n: nat, stat: nat)
    requires stat == Wrap64(n)
    ensures Bump64(stat) == Wrap64(n + 1)
  {
    WrapTwice(n, 1);
  }

  predicate Matches(b: Bank, n: Tally) {
    b.valueChanges == Wrap64(n.changes) && b.bitflips == Wrap64(n.flips) && b.drops == Wrap64(n.drops)
  }

  lemma StepMatches(s: System, a: Action, n: Tally)
    requires Inv(s) && Enabled(s, a) && Matches(s.bank, n)
    ensures Matches(Next(s, a).bank, CountStep(s, a, n))
  {
    if !Clears(s, a) {
      StepCounts(s, a);
      BumpCounts(n.changes, s.bank.valueChanges);
      BumpCounts(n.flips, s.bank.bitflips);
      BumpCounts(n.drops, s.bank.drops);
    }
  }

  // In every run each counter is, modulo 2^64, the number of its events since
  // it was last cleared.
  lemma {:induction false} CountersAreExact(run: seq<Action>)
    requires Runs(Init(), run)
    ensures Matches(After(Init(), run).bank, Count(Init(), run))
  {
    if run != [] {
      var front := run[..|run| - 1];
      CountersAreExact(front);
      InitOk();
      RunKeepsInv(Init(), front);
      StepMatches(After(Init(), front), run[|run| - 1], Count(Init(), front));
    }
  }

  // --- committing a snapshot again ---

  // The newest snapshot of the line counts as applied.
  predicate Settled(s: System, i: nat) {
    i < |s.bank.lines| && s.bank.lines[i].snapGen == s.bank.lines[i].applyGen
  }

  // An apply stands between its two sections with the current generation.
  predicate CaughtBy(s: System, i: nat, w: Who) {
    && IsApplying(s, w) && LineOf(s, w) == i
    && ApplyOf(s, w).Holding?
    && !Overtaken(s.bank.lines[i], ApplyOf(s, w).held)
  }

  ghost predicate Caught(s: System, i: nat) {
    exists w :: CaughtBy(s, i, w)
  }

  ghost predicate NoneCommittedOn(s: System, run: seq<Action>, i: nat)
    requires Runs(s, run)
  {
    run != [] ==>
      var front := run[..|run| - 1];
      NoneCommittedOn(s, front, i) && !Commits(After(s, front), run[|run| - 1], i)
  }

  // Until a newer inject is accepted, nothing is committed on the line any more.
  ghost predicate NeverRecommits(s: System, i: nat) {
    forall run: seq<Action> | Runs(s, run) && NoneAcceptedOn(s, run, i) :: NoneCommittedOn(s, run, i)
  }

  lemma SettledStays(s: System, a: Action, i: nat)
    requires Inv(s) && Enabled(s, a) && Settled(s, i) && !Caught(s, i) && !AcceptsOn(s, a, i)
    ensures Settled(Next(s, a), i) && !Commits(s, a, i)
    ensures Next(s, a).bank.lines[i].snapGen == s.bank.lines[i].snapGen
  {
    BankGrows(s, a);
    if a.Second? && LineOf(s, a.who) == i {
      assert !CaughtBy(s, i, a.who);
    } else if a.Aut? && a.call.DriveMany? {
      SetEachLine(s.bank, a.call.mask, a.call.bits, |a.call.mask|, i);
    }
  }

  lemma NotCaughtStays(s: System, a: Action, i: nat, w: Who)
    requires Inv(s) && Enabled(s, a) && Settled(s, i) && !CaughtBy(s, i, w)
    requires i < |Next(s, a).bank.lines| && Next(s, a).bank.lines[i].snapGen == s.bank.lines[i].snapGen
    ensures !CaughtBy(Next(s, a), i, w)
  {}

  lemma StepKeepsSettled(s: System, a: Action, i: nat)
    requires Inv(s) && Enabled(s, a) && Settled(s, i) && !Caught(s, i) && !AcceptsOn(s, a, i)
    ensures Settled(Next(s, a), i) && !Caught(Next(s, a), i) && !Commits(s, a, i)
  {
    SettledStays(s, a, i);
    forall w ensures !CaughtBy(Next(s, a), i, w) {
      NotCaughtStays(s, a, i, w);
    }
  }

  lemma {:induction false} RunKeepsSettled(s: System, run: seq<Action>, i: nat)
    requires Inv(s) && Runs(s, run) && Settled(s, i) && !Caught(s, i) && NoneAcceptedOn(s, run, i)
    ensures Inv(After(s, run)) && Settled(After(s, run), i) && !Caught(After(s, run), i)
    ensures NoneCommittedOn(s, run, i)
  {
    if run != [] {
      var front, a := run[..|run| - 1], run[|run| - 1];
      RunKeepsSettled(s, front, i);
      StepKeepsSettled(After(s, front), a, i);
      StepKeepsInv(After(s, front), a);
    }
  }

  lemma CaughtCanCommit(s: System, i: nat, w: Who)
    requires CaughtBy(s, i, w)
    ensures !NeverRecommits(s, i)
  {
    var a := Second(w, 0);
    assert Commits(s, a, i);
    CommitIsCounted(s, a, i);
    assert Runs(s, [a]) && NoneAcceptedOn(s, [a], i);
  }

  // A run of the one step that commits.
  lemma CommitIsCounted(s: System, a: Action, i: nat)
    requires Enabled(s, a) && Commits(s, a, i) && !AcceptsOn(s, a, i)
    ensures Runs(s, [a]) && NoneAcceptedOn(s, [a], i) && !NoneCommittedOn(s, [a], i)
  {
    assert [a][..|[a]| - 1] == [];
    assert Runs(s, []) && After(s, []) == s;
    assert Runs(s, [a]);
  }

  // RESET calls every snapshot applied, but does not stop an apply that already
  // copied its snapshot: the applied snapshot can be committed once more exactly
  // if some apply stands between its two sections with the current generation.
  lemma RecommitIffCaught(s: System, i: nat)
    requires Inv(s) && Settled(s, i)
    ensures NeverRecommits(s, i) <==> !Caught(s, i)
  {
    if !Caught(s, i) {
      forall run: seq<Action> | Runs(s, run) && NoneAcceptedOn(s, run, i) ensures NoneCommittedOn(s, run, i) {
        RunKeepsSettled(s, run, i);
      }
    } else {
      var w :| CaughtBy(s, i, w);
      CaughtCanCommit(s, i, w);
    }
  }

  lemma ResetSettles(s: System, i: nat)
    requires Inv(s) && s.reset.AtLock? && i < LINES
    ensures Settled(Next(s, ResetStep), i)
  {}

  // --- RESET step by step is the callback run from end to end ---

  // Lines from i on cancelled.
  function CancelFrom(b: Bank, i: nat): Bank {
    b.(lines := seq(|b.lines|, k requires 0 <= k < |b.lines| => if k < i then b.lines[k] else Quiet(b.lines[k])))
  }

  lemma {:induction false} ResetFrom(s: System, i: nat) returns (run: seq<Action>)
    requires |s.bank.lines| == |s.workers| == LINES && i < LINES
    requires s.reset == AtTimer(i)
    requires forall k | 0 <= k < LINES :: s.workers[k].Idle?
    ensures Runs(s, run) && forall a | a in run :: a == ResetStep
    ensures After(s, run) == s.(bank := ResetSection(CancelFrom(s.bank, i)), reset := NoReset)
    decreases LINES - i
  {
    var two := [] + [ResetStep] + [ResetStep];
    assert Runs(s, []);
    Extend(s, [], ResetStep);
    Extend(s, [] + [ResetStep], ResetStep);
    var s2 := After(s, two);
    if i + 1 < LINES {
      var rest := ResetFrom(s2, i + 1);
      RunsJoin(s, two, rest);
      run := two + rest;
      assert CancelFrom(s2.bank, i + 1).lines == CancelFrom(s.bank, i).lines;
    } else {
      run := two + [ResetStep];
      Extend(s, two, ResetStep);
      assert s2.bank.lines == CancelFrom(s.bank, i).lines;
    }
  }

  lemma ResetRunsToEnd(s: System) returns (run: seq<Action>)
    requires |s.bank.lines| == |s.workers| == LINES && s.reset.NoReset?
    requires forall k | 0 <= k < LINES :: s.workers[k].Idle?
    ensures Runs(s, run) && forall a | a in run :: a == ResetBegins || a == ResetStep
    ensures After(s, run) == s.(bank := ResetSection(Cancelled(s.bank)))
  {
    var begin := [] + [ResetBegins];
    assert Runs(s, []);
    Extend(s, [], ResetBegins);
    var rest := ResetFrom(After(s, begin), 0);
    RunsJoin(s, begin, rest);
    run := begin + rest;
    assert CancelFrom(s.bank, 0).lines == Cancelled(s.bank).lines;
  }

  // An inject caught between its sections by a whole RESET is still committed
  // after it: the level changes and the cleared counter becomes one.
  lemma CommitAfterReset() returns (run: seq<Action>, w: Who)
    ensures Runs(Init(), run)
    ensures var s := After(Init(), run);
      && s.reset.NoReset? && s.bank.valueChanges == 0
      && (forall i: nat | i < LINES :: Settled(s, i))
      && Enabled(s, Second(w, 0))
      && Next(s, Second(w, 0)).bank.valueChanges == 1
      && s.bank.lines[0].value == 0 && Next(s, Second(w, 0)).bank.lines[0].value == 1
  {
    w := ByInjector(0);
    var start, s := CatchOne();
    var rest := ResetRunsToEnd(s);
    RunsJoin(Init(), start, rest);
    run := start + rest;
  }

  // One inject, and its apply has copied the snapshot.
  lemma CatchOne() returns (run: seq<Action>, s: System)
    ensures Runs(Init(), run) && After(Init(), run) == s
    ensures CaughtBy(s, 0, ByInjector(0)) && ApplyOf(s, ByInjector(0)).held.snap == Snap(1, 0)
    ensures |s.bank.lines| == |s.workers| == LINES && s.reset.NoReset? && s.bank.lines[0].value == 0 && !s.bank.lines[0].isOutput
    ensures forall k | 0 <= k < LINES :: s.workers[k].Idle?
  {
    assert Runs(Init(), []);
    Extend(Init(), [], Inject(0, 0, 1, 0));
    Extend(Init(), [] + [Inject(0, 0, 1, 0)], First(ByInjector(0)));
    run := [] + [Inject(0, 0, 1, 0)] + [First(ByInjector(0))];
    s := After(Init(), run);
  }

  // --- without the window: 2^32 accepted injects lose the newest one ---

  const HIGH := Snap(1, 0)

  function Highs(k: nat): seq<Snap> {
    seq(k, _ => HIGH)
  }

  function FloodedLine(k: nat): Line {
    if k == 0 then FreshLine() else Line(0, false, true, false, HIGH, Wrap32(k), 0, Highs(k), 0)
  }

  function Flooded(k: nat): System {
    System(Bank(FreshBank().lines[0 := FloodedLine(k)], true, 1, 0, 0, 0, 0, 0, 0), map[], Init().workers, NoReset)
  }

  lemma FloodStep(k: nat)
    ensures Enabled(Flooded(k), Inject(0, 0, 1, 0))
    ensures var s := Next(Flooded(k), Inject(0, 0, 1, 0));
      Enabled(s, Arm(0)) && Next(s, Arm(0)) == Flooded(k + 1)
  {
    var s := Next(Flooded(k), Inject(0, 0, 1, 0));
    assert Highs(k + 1) == Highs(k) + [HIGH];
    assert s.bank.lines[0].accepted == Highs(k + 1);
    var l := s.bank.lines[0].(timerArmed := true);
    assert l == FloodedLine(k + 1);
    assert s.bank.lines[0 := l] == FreshBank().lines[0 := FloodedLine(k + 1)];
    assert s.injectors - {0} == map[];
  }

  lemma {:induction false} Flood(k: nat) returns (run: seq<Action>)
    ensures Runs(Init(), run) && After(Init(), run) == Flooded(k)
  {
    if k == 0 {
      assert Runs(Init(), []);
      Extend(Init(), [], Configure(Latency(1)));
      run := [] + [Configure(Latency(1))];
      assert FloodedLine(0) == FreshLine();
      assert After(Init(), run).bank.lines == Flooded(0).bank.lines;
    } else {
      run := Flood(k - 1);
      FloodStep(k - 1);
      Extend(Init(), run, Inject(0, 0, 1, 0));
      Extend(Init(), run + [Inject(0, 0, 1, 0)], Arm(0));
      run := run + [Inject(0, 0, 1, 0)] + [Arm(0)];
    }
  }

  // After exactly 2^32 delayed injects with no commit in between the generation
  // is back where it was: the work item finds nothing to do and the line is
  // quiescent at level 0, although every one of the injects asked for level 1.
  lemma WrapLosesInject() returns (run: seq<Action>)
    ensures Runs(Init(), run)
    ensures var s := After(Init(), run);
      && Quiescent(s, 0)
      && |s.bank.lines[0].accepted| == U32 && s.bank.lines[0].applied == 0
      && s.bank.lines[0].snap.val == 1 && s.bank.lines[0].value == 0
  {
    run := Flood(U32);
    var a, b, c := TimerFires(0), WorkStarts(0), First(ByWorker(0));
    FloodEnds(U32);
    Extend(Init(), run, a);
    Extend(Init(), run + [a], b);
    Extend(Init(), run + [a] + [b], c);
    run := run + [a] + [b] + [c];
  }

  lemma FloodEnds(k: nat)
    requires k > 0
    ensures Enabled(Flooded(k), TimerFires(0))
    ensures var s := Next(Flooded(k), TimerFires(0)); Enabled(s, WorkStarts(0))
    ensures var s := Next(Next(Flooded(k), TimerFires(0)), WorkStarts(0));
      Enabled(s, First(ByWorker(0)))
    ensures var s := Next(Next(Next(Flooded(k), TimerFires(0)), WorkStarts(0)), First(ByWorker(0)));
      && s.bank.lines[0] == FloodedLine(k).(timerArmed := false)
      && s.reset.NoReset? && s.injectors == map[] && |s.workers| == |s.bank.lines| == LINES
      && (Wrap32(k) == 0 ==> s.workers[0].Idle?)
  {}
}

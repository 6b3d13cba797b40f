// The calls of the daemon on one UART, each a run of the UART protocol: the device
// answers them as the relay expects.
module RelayCalls {
  import opened Relay
  import opened RelayShapes
  import U = UartProtocol
  import T = UartTheorems
  import W = UartWhole
  import Readers = UartReaders
  import opened RelayWire

  type Run = seq<U.Action>

  // --- calls of the daemon on one UART ---

  // The reader number of the daemon, the only one that has the wire open.
  const READER: nat := 0

  // Everything that is not a call on the wire device.
  predicate Environment(run: Run) {
    forall x | x in run :: !x.Wire?
  }

  // A read call from its entry on, before its last step: of the wire steps, only
  // its own wake-ups and lock sections.
  predicate OwnSteps(run: Run, nonblock: bool) {
    && run != [] && run[0] == U.Wire(U.ReadBegins(READER, BUF, nonblock))
    && forall k | 1 <= k < |run| :: OwnStep(run[k])
  }

  predicate OwnStep(x: U.Action) {
    x.Wire? ==> x.wire == U.ReadWakes(READER) || x.wire == U.ReadLocks(READER)
  }

  // What happens before the call, and then the call with what runs beside it.
  datatype Call = Call(wait: Run, run: Run)

  const LOCKS := U.Wire(U.ReadLocks(READER))

  function Reach(u: U.System, run: Run): U.System {
    if U.Runs(u, run) then U.After(u, run) else u
  }

  function Entered(u: U.System, c: Call): U.System {
    Reach(Reach(u, c.wait), c.run)
  }

  function Take(u: U.System): U.System {
    if U.Enabled(u, LOCKS) then U.Next(u, LOCKS) else u
  }

  predicate CallOk(u: U.System, c: Call, nonblock: bool) {
    U.Runs(u, c.wait) && Environment(c.wait) && U.Runs(Reach(u, c.wait), c.run) && OwnSteps(c.run, nonblock)
  }

  // The call has come to its lock section and finds bytes, or finds none.
  predicate FindsBytes(u: U.System, c: Call, nonblock: bool) {
    var e := Entered(u, c);
    CallOk(u, c, nonblock) && U.Enabled(e, LOCKS) && e.dev.portActive && e.dev.rx != []
  }

  predicate FindsNothing(u: U.System, c: Call) {
    var e := Entered(u, c);
    CallOk(u, c, true) && U.Enabled(e, LOCKS) && e.dev.portActive && e.dev.rx == []
  }

  // The last step of the call is one that returns end of file.
  predicate Ends(u: U.System, x: U.Action) {
    x.Wire? && if x == LOCKS then !u.dev.portActive else u.dev.resetPending
  }

  predicate FindsEnd(u: U.System, c: Call, nonblock: bool) {
    && CallOk(u, c, nonblock)
    && Ends(Reach(Reach(u, c.wait), c.run[..|c.run| - 1]), c.run[|c.run| - 1])
  }

  // No call is under way and the wire is open.
  ghost predicate Ready(u: U.System) {
    U.Inv(u) && u.readers == map[] && u.dev.wireOpen
  }

  lemma WaitIsMove(u: U.System, run: Run)
    requires Ready(u) && U.Runs(u, run) && Environment(run)
    ensures Ready(U.After(u, run)) && Later(View(u.dev), View(U.After(u, run).dev))
  {
    RunIsMove(u, run);
    U.RunKeepsInv(u, run);
    WaitKeepsReaders(u, run);
  }

  lemma {:induction false} WaitKeepsReaders(u: U.System, run: Run)
    requires U.Runs(u, run) && Environment(run)
    ensures U.After(u, run).readers == u.readers && U.After(u, run).dev.wireOpen == u.dev.wireOpen
  {
    if run != [] {
      var front, x := run[..|run| - 1], run[|run| - 1];
      assert x in run;
      WaitKeepsReaders(u, front);
      T.OthersShield(U.After(u, front), x);
    }
  }

  // Only the call itself is under way.
  predicate OnlyReader(u: U.System) {
    u.readers.Keys <= {READER} && u.dev.wireOpen
  }

  lemma OwnStepKeeps(u: U.System, x: U.Action)
    requires U.Enabled(u, x) && OwnStep(x) && OnlyReader(u)
    ensures OnlyReader(U.Next(u, x))
  {
    if !x.Wire? {
      T.OthersShield(u, x);
    }
  }

  lemma {:induction false} OwnStepsKeep(u: U.System, run: Run, nonblock: bool)
    requires Ready(u) && U.Runs(u, run) && OwnSteps(run, nonblock)
    ensures U.Inv(U.After(u, run)) && OnlyReader(U.After(u, run))
  {
    U.RunKeepsInv(u, run);
    var front, x := run[..|run| - 1], run[|run| - 1];
    if |run| == 1 {
      assert U.After(u, front) == u;
    } else {
      OwnStepsKeep(u, front, nonblock);
      OwnStepKeeps(U.After(u, front), x);
    }
  }

  lemma OwnIsRead(run: Run, nonblock: bool)
    requires OwnSteps(run, nonblock)
    ensures Reads(run, READER, nonblock)
  {}

  // A read that finds bytes is one the relay expects.
  lemma BytesAsExpected(u: U.System, c: Call, nonblock: bool)
    requires Ready(u) && FindsBytes(u, c, nonblock)
    ensures var e := Entered(u, c);
      && ReadOk(View(u.dev), View(e.dev)) && View(Take(e).dev) == ReadSome(View(e.dev)) && Ready(Take(e))
  {
    var u1 := Reach(u, c.wait);
    WaitIsMove(u, c.wait);
    OwnIsRead(c.run, nonblock);
    ReadCall(u1, c.run, READER, nonblock);
    OwnStepsKeep(u1, c.run, nonblock);
    TakeLeaves(Entered(u, c));
  }

  lemma TakeLeaves(e: U.System)
    requires U.Inv(e) && OnlyReader(e) && U.Enabled(e, LOCKS)
    requires !e.dev.portActive || e.dev.rx != [] || e.readers[READER].nonblock
    ensures Ready(Take(e))
  {
    U.StepKeepsInv(e, LOCKS);
  }

  lemma NothingAsExpected(u: U.System, c: Call)
    requires Ready(u) && FindsNothing(u, c)
    ensures var e := Entered(u, c);
      && Later(View(u.dev), View(e.dev)) && View(e.dev).gone == View(e.dev).arrived
      && View(Take(e).dev) == View(e.dev) && Ready(Take(e))
  {
    var u1 := Reach(u, c.wait);
    WaitIsMove(u, c.wait);
    OwnIsRead(c.run, true);
    EmptyCall(u1, c.run, READER);
    ReadUnderWay(u1, c.run, READER, true);
    OwnStepsKeep(u1, c.run, true);
    TakeLeaves(Entered(u, c));
  }

  lemma EndAsExpected(u: U.System, c: Call, nonblock: bool)
    requires Ready(u) && FindsEnd(u, c, nonblock)
    ensures Later(View(u.dev), View(Entered(u, c).dev)) && Ready(Entered(u, c))
  {
    var u1 := Reach(u, c.wait);
    WaitIsMove(u, c.wait);
    OwnIsRead(c.run, nonblock);
    ReadUnderWay(u1, c.run, READER, nonblock);
    OwnStepsKeep(u1, c.run, nonblock);
    EndLeaves(u1, c.run, nonblock);
  }

  lemma EndLeaves(u: U.System, run: Run, nonblock: bool)
    requires Ready(u) && U.Runs(u, run) && OwnSteps(run, nonblock)
    requires Ends(Reach(u, run[..|run| - 1]), run[|run| - 1])
    ensures READER !in U.After(u, run).readers
  {
    var front, x := run[..|run| - 1], run[|run| - 1];
    assert U.Runs(u, front);
    if |run| == 1 {
      assert U.After(u, front) == u;
    }
  }

  const WOKEN: Run := [U.Wire(U.ReadBegins(READER, BUF, false)), U.Wire(U.ReadWakes(READER))]

  lemma Woken(u: U.System) returns (v: U.System)
    requires Ready(u) && u.dev.portActive && u.dev.rx != [] && !u.dev.resetPending
    ensures U.Runs(u, WOKEN) && U.After(u, WOKEN) == v
    ensures v == u.(readers := map[READER := U.ToLock(BUF, false)])
  {
    var begin, wake := U.Wire(U.ReadBegins(READER, BUF, false)), U.Wire(U.ReadWakes(READER));
    assert U.Runs(u, []) && U.After(u, []) == u;
    var run := U.Further(u, [], u, begin);
    run := U.Further(u, run, U.Next(u, begin), wake);
    v := U.Next(U.Next(u, begin), wake);
    assert run == WOKEN;
  }

  // A call on a device that has something to read can come to find it.
  lemma ReadableIsRead(u: U.System)
    requires Ready(u) && u.dev.portActive && u.dev.rx != [] && !u.dev.resetPending
    ensures FindsBytes(u, Call([], WOKEN), false)
  {
    var v := Woken(u);
    assert U.Runs(u, []) && U.After(u, []) == u;
  }

  // --- a RESET during the call ---

  // A call with more of it done.
  predicate Continues(c: Call, c': Call) {
    c'.wait == c.wait && c.run <= c'.run
  }

  // The reader of the call has the flag still ahead of it.
  predicate Stopped(u: U.System) {
    u.dev.resetPending && !T.PastFlag(u, READER) && OnlyReader(u)
  }

  lemma OwnStepStops(u: U.System, x: U.Action)
    requires U.Enabled(u, x) && OwnStep(x) && Stopped(u)
    ensures Stopped(U.Next(u, x))
  {
    if !x.Wire? {
      T.OthersShield(u, x);
    }
  }

  lemma {:induction false} StaysStopped(u: U.System, run: Run, n: nat, nonblock: bool)
    requires Ready(u) && U.Runs(u, run) && OwnSteps(run, nonblock) && 1 <= n <= |run|
    requires U.Runs(u, run[..n]) && Stopped(U.After(u, run[..n]))
    ensures Stopped(U.After(u, run))
    decreases |run|
  {
    if n < |run| {
      var front, x := run[..|run| - 1], run[|run| - 1];
      assert front[..n] == run[..n];
      StaysStopped(u, front, n, nonblock);
      OwnStepStops(U.After(u, front), x);
    } else {
      assert run[..n] == run;
    }
  }

  // If the reset flag is set while a call is under way and the call still finds
  // bytes, then its reader had looked at the flag before and stood at its lock.
  lemma SignalInsideCall(u: U.System, c: Call, c': Call, nonblock: bool)
    requires Ready(u) && CallOk(u, c, nonblock) && Entered(u, c).dev.resetPending
    requires Continues(c, c') && FindsBytes(u, c', nonblock)
    ensures T.PastFlag(Entered(u, c), READER)
  {
    var u1, n := Reach(u, c.wait), |c.run|;
    WaitIsMove(u, c.wait);
    OwnStepsKeep(u1, c.run, nonblock);
    assert c'.run[..n] == c.run;
    if !T.PastFlag(Entered(u, c), READER) {
      StaysStopped(u1, c'.run, n, nonblock);
      OwnIsRead(c'.run, nonblock);
      ReadUnderWay(u1, c'.run, READER, nonblock);
    }
  }

  // The call of the relay, woken, with a whole RESET before its lock section.
  const RESET_CALL: Call := Call([], WOKEN + ([U.Bus(U.BusReset)] + W.THREE_STEPS + W.THREE_STEPS))

  // Such a call is one of the daemon on any readable device: the bus is reset, and
  // then the call takes what was in rx_fifo before.
  lemma ResetOvertakesCall(u: U.System)
    requires Ready(u) && u.dev.portActive && u.dev.rx != [] && !u.dev.resetPending
    requires u.work.Idle? && u.notifier.NoEvent?
    ensures FindsBytes(u, RESET_CALL, false)
    ensures var e := Entered(u, RESET_CALL);
      && e.notifier.NoEvent? && e.dev.resetPending && T.PastFlag(e, READER)
      && e.dev.rx == u.dev.rx && e.dev.led.consumed == u.dev.led.consumed
  {
    var v := Woken(u);
    var reset := W.ResetIsRun(v);
    U.Join(u, WOKEN, reset);
    Readers.ResetLeavesRx(v.dev);
    assert U.Runs(u, []) && U.After(u, []) == u;
  }
}

// What a handler of the daemon is told by the UART of its instance, as runs of the
// UART protocol.
module RelayScripts {
  import opened Relay
  import opened RelayShapes
  import opened RelayCalls
  import opened RelayWire
  import U = UartProtocol

  // --- the scripts of the handlers ---

  // How the drain ends: with a read that finds nothing, with one that fails after
  // some time, or at end of file, where the wire is closed and opened again.
  datatype Last = Empties(call: Call) | Breaks(wait: Run) | Closes(call: Call, wait: Run, reopened: Reopened)

  datatype DrainScript = NoFcntl | Drained(calls: seq<Call>, last: Last)

  datatype WireScript =
    | WireBreaks
    | AtEnd(call: Call, wait: Run, reopened: Reopened)
    | Relays(call: Call)
    | Cuts(call: Call, sent: nat, drain: DrainScript)

  datatype ClientScript = Forwards(count: nat, grants: seq<nat>) | Leaves(drain: DrainScript)

  datatype Script = ServerScript(accept: Accept) | WireScript(wire: WireScript) | ClientScript(client: ClientScript)

  // The device after the first n reads of a drain, and as each of them found it.
  function AfterCalls(u: U.System, calls: seq<Call>, n: nat): U.System
    requires n <= |calls|
  {
    if n == 0 then u else Take(Entered(AfterCalls(u, calls, n - 1), calls[n - 1]))
  }

  function Found(u: U.System, calls: seq<Call>, n: nat): (f: seq<Fifo>)
    requires n <= |calls|
    ensures |f| == n
  {
    if n == 0 then []
    else Found(u, calls, n - 1) + [View(Entered(AfterCalls(u, calls, n - 1), calls[n - 1]).dev)]
  }

  // Close the wire, and open it again if that works.
  function Shut(u: U.System): U.System {
    if U.Enabled(u, U.Wire(U.WireReleases)) then U.Next(u, U.Wire(U.WireReleases)) else u
  }

  function Cycled(u: U.System, r: Reopened): U.System {
    var v := Shut(u);
    if r.NewWire? && U.Enabled(v, U.Wire(U.WireOpens)) then U.Next(v, U.Wire(U.WireOpens)) else v
  }

  predicate LastOk(u: U.System, a: Last) {
    match a
    case Empties(c) => FindsNothing(u, c)
    case Breaks(wait) => U.Runs(u, wait) && Environment(wait)
    case Closes(c, wait, _) =>
      FindsEnd(u, c, true) && U.Runs(Entered(u, c), wait) && Environment(wait)
  }

  predicate CallsOk(u: U.System, calls: seq<Call>, n: nat)
    requires n <= |calls|
  {
    n == 0 || (CallsOk(u, calls, n - 1) && FindsBytes(AfterCalls(u, calls, n - 1), calls[n - 1], true))
  }

  predicate DrainScriptOk(u: U.System, a: DrainScript) {
    a.Drained? ==> CallsOk(u, a.calls, |a.calls|) && LastOk(AfterCalls(u, a.calls, |a.calls|), a.last)
  }

  // What the relay is told, and where the device is left.
  function LastSeen(u: U.System, a: Last): Fifo {
    match a
    case Empties(c) => View(Entered(u, c).dev)
    case Breaks(wait) => View(Reach(u, wait).dev)
    case Closes(c, _, _) => View(Entered(u, c).dev)
  }

  function EndTold(u: U.System, a: Last): DrainEnd {
    match a
    case Empties(_) => Empty
    case Breaks(_) => ReadFails
    case Closes(c, wait, r) => AtEof(View(Reach(Entered(u, c), wait).dev), r)
  }

  function AfterLast(u: U.System, a: Last): U.System {
    match a
    case Empties(c) => Take(Entered(u, c))
    case Breaks(wait) => Reach(u, wait)
    case Closes(c, wait, r) => Cycled(Reach(Entered(u, c), wait), r)
  }

  function DrainTold(u: U.System, a: DrainScript): Drain {
    match a
    case NoFcntl => FcntlFails
    case Drained(calls, last) =>
      var v := AfterCalls(u, calls, |calls|);
      Drains(Found(u, calls, |calls|), LastSeen(v, last), EndTold(v, last))
  }

  function AfterDrain(u: U.System, a: DrainScript): U.System {
    match a
    case NoFcntl => u
    case Drained(calls, last) => AfterLast(AfterCalls(u, calls, |calls|), last)
  }

  // --- the drain, seen by the relay ---

  lemma {:induction false} CallsAsExpected(u: U.System, calls: seq<Call>, n: nat)
    requires Ready(u) && n <= |calls| && CallsOk(u, calls, n)
    ensures Ready(AfterCalls(u, calls, n))
    ensures View(AfterCalls(u, calls, n).dev) == AfterReads(View(u.dev), Found(u, calls, n))
    ensures ReadsOk(View(u.dev), Found(u, calls, n))
  {
    if n > 0 {
      CallsAsExpected(u, calls, n - 1);
      BytesAsExpected(AfterCalls(u, calls, n - 1), calls[n - 1], true);
      OneMoreRead(View(u.dev), Found(u, calls, n - 1), View(Entered(AfterCalls(u, calls, n - 1), calls[n - 1]).dev));
    }
  }

  lemma OneMoreRead(f: Fifo, found: seq<Fifo>, at: Fifo)
    requires ReadsOk(f, found) && ReadOk(AfterReads(f, found), at)
    ensures ReadsOk(f, found + [at]) && AfterReads(f, found + [at]) == ReadSome(at)
  {
    var all := found + [at];
    forall k | 0 <= k < |all| ensures ReadOk(AfterReads(f, all[..k]), all[k]) {
      if k < |found| {
        assert all[..k] == found[..k];
      } else {
        assert all[..k] == found;
      }
    }
  }

  // Closing and opening the wire does to the fifo what the relay says.
  lemma CycleAsExpected(u: U.System, r: Reopened)
    requires Ready(u)
    ensures var v := Cycled(u, r);
      && U.Inv(v) && v.readers == map[]
      && |u.dev.led.delivered| == |v.dev.led.delivered|
      && (r.NewWire? ==> v.dev.wireOpen && View(v.dev) == Released(View(u.dev)).(reset := false))
  {
    CloseAndOpen(u);
    U.StepKeepsInv(u, U.Wire(U.WireReleases));
    if r.NewWire? {
      U.StepKeepsInv(Shut(u), U.Wire(U.WireOpens));
    }
  }

  // The device part of what the relay asks of an answer.
  predicate EndDevice(last: Fifo, end: DrainEnd) {
    match end
    case Empty => last.gone == last.arrived
    case ReadFails => true
    case AtEof(closed, _) => Later(last, closed)
  }

  predicate DrainDevice(f: Fifo, a: Drain) {
    a.Drains? ==> ReadsOk(f, a.found) && Later(AfterReads(f, a.found), a.last) && EndDevice(a.last, a.end)
  }

  // Where the fifo of the instance is left.
  function LastLeaves(last: Fifo, end: DrainEnd): Fifo {
    match end
    case AtEof(closed, r) => if r.NewWire? then Released(closed).(reset := false) else Released(closed)
    case _ => last
  }

  function DrainLeaves(f: Fifo, a: Drain): Fifo {
    match a
    case FcntlFails => f
    case Drains(_, last, end) => LastLeaves(last, end)
  }

  // The wire is lost in the drain.
  predicate LosesWire(a: DrainScript) {
    a.Drained? && LastLosesWire(a.last)
  }

  // The device v after the end of a drain is as the relay believes.
  ghost predicate EndsAs(v: U.System, lost: bool, leaves: Fifo) {
    && U.Inv(v) && v.readers == map[] && leaves.arrived <= |v.dev.led.delivered|
    && (!lost ==> v.dev.wireOpen && View(v.dev) == leaves)
  }

  predicate LastLosesWire(a: Last) {
    a.Closes? && a.reopened.NoWire?
  }

  lemma ClosesAsExpected(u: U.System, c: Call, wait: Run, r: Reopened)
    requires Ready(u) && LastOk(u, Closes(c, wait, r))
    ensures var a := Closes(c, wait, r);
      && Later(View(u.dev), LastSeen(u, a)) && EndDevice(LastSeen(u, a), EndTold(u, a))
      && EndsAs(AfterLast(u, a), LastLosesWire(a), LastLeaves(LastSeen(u, a), EndTold(u, a)))
  {
    CloseAsExpected(u, c, true, wait, r);
  }

  lemma LastAsExpected(u: U.System, a: Last)
    requires Ready(u) && LastOk(u, a)
    ensures Later(View(u.dev), LastSeen(u, a)) && EndDevice(LastSeen(u, a), EndTold(u, a))
    ensures EndsAs(AfterLast(u, a), LastLosesWire(a), LastLeaves(LastSeen(u, a), EndTold(u, a)))
  {
    match a {
      case Empties(c) => NothingAsExpected(u, c);
      case Breaks(wait) => WaitIsMove(u, wait);
      case Closes(c, wait, r) => ClosesAsExpected(u, c, wait, r);
    }
  }

  // A read that finds the end, and then the wire closed and opened again.
  lemma CloseAsExpected(u: U.System, c: Call, nonblock: bool, wait: Run, r: Reopened)
    requires Ready(u) && FindsEnd(u, c, nonblock) && U.Runs(Entered(u, c), wait) && Environment(wait)
    ensures var at, v := Reach(Entered(u, c), wait), Cycled(Reach(Entered(u, c), wait), r);
      && Later(View(u.dev), View(Entered(u, c).dev)) && Later(View(Entered(u, c).dev), View(at.dev))
      && U.Inv(v) && v.readers == map[] && View(at.dev).arrived <= |v.dev.led.delivered|
      && (r.NewWire? ==> v.dev.wireOpen && View(v.dev) == Released(View(at.dev)).(reset := false))
  {
    EndAsExpected(u, c, nonblock);
    WaitIsMove(Entered(u, c), wait);
    CycleAsExpected(Reach(Entered(u, c), wait), r);
  }

  lemma DrainedAsExpected(u: U.System, calls: seq<Call>, last: Last)
    requires Ready(u) && CallsOk(u, calls, |calls|) && LastOk(AfterCalls(u, calls, |calls|), last)
    ensures var w := AfterCalls(u, calls, |calls|); var seen, end := LastSeen(w, last), EndTold(w, last);
      && DrainDevice(View(u.dev), Drains(Found(u, calls, |calls|), seen, end))
      && EndsAs(AfterLast(w, last), LastLosesWire(last), LastLeaves(seen, end))
  {
    CallsAsExpected(u, calls, |calls|);
    LastAsExpected(AfterCalls(u, calls, |calls|), last);
  }

  // Every script of a drain is one the relay expects, and leaves the device as the
  // relay believes.
  lemma DrainAsExpected(u: U.System, a: DrainScript)
    requires Ready(u) && DrainScriptOk(u, a)
    ensures DrainDevice(View(u.dev), DrainTold(u, a))
    ensures EndsAs(AfterDrain(u, a), LosesWire(a), DrainLeaves(View(u.dev), DrainTold(u, a)))
  {
    if a.Drained? {
      DrainedAsExpected(u, a.calls, a.last);
    }
  }
}

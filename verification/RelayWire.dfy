// The wire device the daemon assumes is the one of UartProtocol: seen through
// View, every run of one UART is a move of the device the relay may expect, and
// the calls of the daemon on it get exactly the answers the relay allows.
module RelayWire {
  import R = Relay
  import Shapes = RelayShapes
  import opened UartDevice
  import opened UartLedger
  import opened UartProtocol
  import Streams = UartTheorems

  function View(d: Uart): R.Fifo {
    R.Fifo(|d.led.delivered|, d.led.consumed, d.resetPending)
  }

  lemma ResetStays(s: System, a: Action)
    requires Enabled(s, a) && a != Wire(WireOpens) && s.dev.resetPending
    ensures Next(s, a).dev.resetPending
  {
    if !a.Wire? {
      Streams.OthersShield(s, a);
    }
  }

  // A step of the UART other than the opening of the wire is a move of the device.
  lemma StepIsMove(s: System, a: Action)
    requires Inv(s) && Enabled(s, a) && a != Wire(WireOpens)
    ensures R.Later(View(s.dev), View(Next(s, a).dev))
  {
    Streams.StepFatesStay(s, a);
    StepKeepsInv(s, a);
    if s.dev.resetPending {
      ResetStays(s, a);
    }
  }

  // So is a whole run between two calls of the daemon.
  lemma {:induction false} RunIsMove(s: System, run: seq<Action>)
    requires Inv(s) && Runs(s, run) && Wire(WireOpens) !in run
    ensures R.Later(View(s.dev), View(After(s, run).dev))
  {
    if run != [] {
      var front := run[..|run| - 1];
      RunIsMove(s, front);
      RunKeepsInv(s, front);
      StepIsMove(After(s, front), run[|run| - 1]);
    }
  }

  // --- one read call from its entry to its locked section ---

  // The run starts with the call of reader r, which asks for a whole buffer; no
  // other call of that reader and no opening of the wire comes in between.
  predicate Reads(run: seq<Action>, r: nat, nonblock: bool) {
    && run != [] && run[0] == Wire(ReadBegins(r, R.BUF, nonblock))
    && forall k | 1 <= k < |run| :: run[k] != Wire(WireOpens) && !(run[k].Wire? && run[k].wire.ReadBegins? && run[k].wire.r == r)
  }

  predicate Pending(s: System, r: nat, nonblock: bool) {
    r in s.readers ==>
      && s.readers[r].count == R.BUF
      && (s.readers[r].ToLock? ==> s.readers[r].nonblock == nonblock)
      && (nonblock ==> s.readers[r].ToLock?)
  }

  lemma ReaderStays(s: System, a: Action, r: nat, nonblock: bool)
    requires Enabled(s, a) && Pending(s, r, nonblock)
    requires !(a.Wire? && a.wire.ReadBegins? && a.wire.r == r)
    ensures var s' := Next(s, a); (r in s'.readers ==> r in s.readers) && Pending(s', r, nonblock)
  {
    if !a.Wire? {
      Streams.OthersShield(s, a);
    }
  }

  lemma {:induction false} ReadUnderWay(s: System, run: seq<Action>, r: nat, nonblock: bool)
    requires Inv(s) && Runs(s, run) && Reads(run, r, nonblock) && r !in s.readers
    ensures var e := After(s, run);
      && Inv(e) && R.Later(View(s.dev), View(e.dev))
      && (r in e.readers ==> !s.dev.resetPending)
      && Pending(e, r, nonblock)
  {
    RunKeepsInv(s, run);
    var front := run[..|run| - 1];
    var a := run[|run| - 1];
    if |run| == 1 {
      assert front == [];
    } else {
      assert Reads(front, r, nonblock);
      ReadUnderWay(s, front, r, nonblock);
      StepIsMove(After(s, front), a);
      ReaderStays(After(s, front), a, r, nonblock);
    }
  }

  lemma TakesSome(s: System, r: nat)
    requires Inv(s) && Enabled(s, Wire(ReadLocks(r))) && s.readers[r].count == R.BUF && s.dev.portActive && s.dev.rx != []
    ensures var d' := Next(s, Wire(ReadLocks(r))).dev;
      && View(s.dev).gone < View(s.dev).arrived
      && View(d') == R.ReadSome(View(s.dev))
      && d'.led.readLog == s.dev.led.readLog + [Read(r, View(s.dev).gone, View(d').gone)]
  {
    assert FifosOk(s.dev);
  }

  // A read that takes bytes takes what the relay expects of it, and notes which
  // stretch of the delivered stream it handed out.
  lemma ReadCall(s: System, run: seq<Action>, r: nat, nonblock: bool)
    requires Inv(s) && Runs(s, run) && Reads(run, r, nonblock) && r !in s.readers
    requires var e := After(s, run); Enabled(e, Wire(ReadLocks(r))) && e.dev.portActive && e.dev.rx != []
    ensures var e := After(s, run); var d' := Next(e, Wire(ReadLocks(r))).dev;
      && Shapes.ReadOk(View(s.dev), View(e.dev))
      && View(d') == R.ReadSome(View(e.dev))
      && d'.led.readLog == e.dev.led.readLog + [Read(r, View(e.dev).gone, View(d').gone)]
  {
    ReadUnderWay(s, run, r, nonblock);
    TakesSome(After(s, run), r);
  }

  // A non-blocking read that returns for lack of bytes found the fifo empty.
  lemma EmptyCall(s: System, run: seq<Action>, r: nat)
    requires Inv(s) && Runs(s, run) && Reads(run, r, true) && r !in s.readers
    requires var e := After(s, run); Enabled(e, Wire(ReadLocks(r))) && e.dev.portActive && e.dev.rx == []
    ensures var e := After(s, run); var s' := Next(e, Wire(ReadLocks(r)));
      && R.Later(View(s.dev), View(e.dev)) && View(e.dev).gone == View(e.dev).arrived
      && s'.dev == e.dev && r !in s'.readers
  {
    ReadUnderWay(s, run, r, true);
  }

  // Closing the wire throws away what is queued; opening it starts a new session.
  lemma CloseAndOpen(s: System)
    requires Inv(s) && Enabled(s, Wire(WireReleases))
    ensures var s' := Next(s, Wire(WireReleases));
      && View(s'.dev) == R.Released(View(s.dev))
      && Enabled(s', Wire(WireOpens))
      && View(Next(s', Wire(WireOpens)).dev) == View(s'.dev).(reset := false)
  {}
}

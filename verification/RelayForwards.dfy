// What the handlers do with what they read, and the bytes of a session: everything
// that is read from the wire goes to the simulator, as long as the session lasts.
module RelayForwards {
  import opened Relay
  import opened RelayShapes
  import opened RelayProtocol
  import opened RelayTheorems
  import opened RelayCalls
  import opened RelayScripts
  import opened RelayJoint
  import opened RelayEndToEnd
  import opened RelayWire
  import D = UartDevice
  import L = UartLedger
  import U = UartProtocol
  import T = UartTheorems

  // --- one handler ---

  // The handlers of a linked instance: a read of which the socket takes everything adds
  // exactly that to the session; one it cuts short adds what was sent and ends the
  // session; end of file ends it too.
  lemma WireEffect(i: nat, d: Desk, a: WireCall)
    requires FdsOk(d.inst) && ShapeOf(d.inst).Linked?
    ensures var t, t' := d.inst, Dispatch(i, d, WireAnswer(a)).inst;
      match a
      case WireFails => t' == t
      case WireEof(_, _) => t'.log.sent == t.log.sent && t'.clientFd == -1 && t'.log.session == t.log.session
      case Forwarded(at) =>
        && t' == t.(fifo := t'.fifo, log := t'.log) && t'.fifo == at.(gone := at.gone + Readable(at))
        && t'.log == t.log.(sent := t.log.sent + [Sent(t.log.session, at.gone, t'.fifo.gone)])
      case CutShort(at, n, _) =>
        && t'.log.sent == t.log.sent + [Sent(t.log.session, at.gone, at.gone + n)]
        && t'.clientFd == -1 && t'.log.session == t.log.session
  {
    if a.CutShort? {
      DrainLeavesFifo(i, d.(inst := Send(d.inst, a.at, a.sent)), a.drain);
      CutEffect(i, d, a.at, a.sent, a.drain);
    }
  }

  lemma CutEffect(i: nat, d: Desk, at: Fifo, n: nat, drain: Drain)
    requires FdsOk(d.inst) && ShapeOf(d.inst).Linked?
    ensures var t := CloseAndDrain(i, d.(inst := Send(d.inst, at, n)), drain).inst;
      t.clientFd == -1 && t.log == d.inst.log.(sent := d.inst.log.sent + [Sent(d.inst.log.session, at.gone, at.gone + n)])
  {
    DrainLeavesFifo(i, d.(inst := Send(d.inst, at, n)), drain);
  }

  lemma ClientEffect(i: nat, d: Desk, a: ClientCall)
    requires FdsOk(d.inst) && ShapeOf(d.inst).Linked?
    ensures var t, t' := d.inst, Dispatch(i, d, ClientAnswer(a)).inst;
      match a
      case FromClient => t' == t
      case ClientEnds(_) => t'.clientFd == -1 && t'.log.sent == t.log.sent && t'.log.session == t.log.session
  {
    if a.ClientEnds? {
      DrainLeavesFifo(i, d, a.drain);
    }
  }

  lemma ServerEffect(i: nat, d: Desk, a: Accept)
    requires FdsOk(d.inst)
    ensures var t, t' := d.inst, Dispatch(i, d, ServerAnswer(a)).inst;
      if t.state == WaitClient && a.Accepted? then
        && t' == t.(clientFd := a.fd, state := Relaying, log := t'.log) && t'.log == t.log.(session := t.log.session + 1)
      else t' == t
  {}

  // --- a read call takes nothing before its last step ---

  // Nothing has been read from the device.
  predicate SameReads(u: U.System, v: U.System) {
    v.dev.led.readLog == u.dev.led.readLog
  }

  lemma OthersRead(u: U.System, x: U.Action)
    requires U.Enabled(u, x) && !x.Wire?
    ensures SameReads(u, U.Next(u, x)) && u.dev.led.discarded <= U.Next(u, x).dev.led.discarded
  {
    match x {
      case Aut(y) => AutReads(u, y);
      case Engine(y) => EngineReads(u, y);
      case TtyPort(y) => PortReads(u, y);
      case Bus(y) => BusReads(u, y);
      case Attr(y) =>
    }
  }

  lemma AutReads(u: U.System, x: U.AutStep)
    requires U.AutEnabled(u, x)
    ensures SameReads(u, U.AutNext(u, x)) && u.dev.led.discarded <= U.AutNext(u, x).dev.led.discarded
  {}

  lemma EngineReads(u: U.System, x: U.EngineStep)
    requires U.EngineEnabled(u, x)
    ensures SameReads(u, U.EngineNext(u, x)) && u.dev.led.discarded <= U.EngineNext(u, x).dev.led.discarded
  {}

  lemma PortReads(u: U.System, x: U.PortStep)
    requires U.PortEnabled(u, x)
    ensures SameReads(u, U.PortNext(u, x)) && u.dev.led.discarded <= U.PortNext(u, x).dev.led.discarded
  {}

  lemma BusReads(u: U.System, x: U.BusStep)
    requires U.BusEnabled(u, x)
    ensures SameReads(u, U.BusNext(u, x)) && u.dev.led.discarded <= U.BusNext(u, x).dev.led.discarded
  {}

  lemma {:induction false} WaitReads(u: U.System, run: Run)
    requires U.Runs(u, run) && Environment(run)
    ensures SameReads(u, U.After(u, run)) && u.dev.led.discarded <= U.After(u, run).dev.led.discarded
  {
    if run != [] {
      var front, x := run[..|run| - 1], run[|run| - 1];
      assert x in run;
      WaitReads(u, front);
      OthersRead(U.After(u, front), x);
    }
  }

  // A step of the call after which its reader is still there has taken nothing.
  lemma OwnStepReads(u: U.System, x: U.Action)
    requires U.Enabled(u, x) && OwnStep(x) && READER in U.Next(u, x).readers
    ensures SameReads(u, U.Next(u, x)) && u.dev.led.discarded <= U.Next(u, x).dev.led.discarded
    ensures READER in u.readers
  {
    if !x.Wire? {
      OthersRead(u, x);
      T.OthersShield(u, x);
    }
  }

  lemma {:induction false} CallReads(u: U.System, run: Run, nonblock: bool)
    requires Ready(u) && U.Runs(u, run) && OwnSteps(run, nonblock) && READER in U.After(u, run).readers
    ensures SameReads(u, U.After(u, run)) && u.dev.led.discarded <= U.After(u, run).dev.led.discarded
  {
    var front, x := run[..|run| - 1], run[|run| - 1];
    if |run| == 1 {
      assert U.After(u, front) == u;
    } else {
      OwnStepReads(U.After(u, front), x);
      CallReads(u, front, nonblock);
    }
  }

  // A read call that finds bytes adds one stretch to the reads of the device: what was
  // next, as much as there was up to 4096 bytes.
  lemma OneRead(u: U.System, c: Call)
    requires Ready(u) && FindsBytes(u, c, false)
    ensures var f, v := View(Entered(u, c).dev), Take(Entered(u, c));
      && v.dev.led.readLog == u.dev.led.readLog + [D.Read(READER, f.gone, f.gone + Readable(f))]
      && v.dev.led.consumed == f.gone + Readable(f) && Readable(f) > 0
      && u.dev.led.discarded <= v.dev.led.discarded
  {
    var u1, e := Reach(u, c.wait), Entered(u, c);
    NothingBefore(u, c, u1, e);
    TakesNumbers(e);
    TakeDiscards(e);
  }

  // Before its last step the call has read nothing, and it asks for a whole buffer.
  lemma NothingBefore(u: U.System, c: Call, u1: U.System, e: U.System)
    requires Ready(u) && CallOk(u, c, false) && u1 == Reach(u, c.wait) && e == Entered(u, c) && READER in e.readers
    ensures U.Inv(e) && e.readers[READER].count == BUF && SameReads(u, e) && u.dev.led.discarded <= e.dev.led.discarded
  {
    WaitIsMove(u, c.wait);
    WaitReads(u, c.wait);
    CallReads(u1, c.run, false);
    AsksForAll(u1, c.run, e);
  }

  lemma AsksForAll(u: U.System, run: Run, e: U.System)
    requires Ready(u) && U.Runs(u, run) && OwnSteps(run, false) && e == U.After(u, run) && READER in e.readers
    ensures U.Inv(e) && e.readers[READER].count == BUF
  {
    OwnIsRead(run, false);
    ReadUnderWay(u, run, READER, false);
  }

  lemma TakesNumbers(e: U.System)
    requires U.Inv(e) && U.Enabled(e, LOCKS) && e.readers[READER].count == BUF && e.dev.portActive && e.dev.rx != []
    ensures var f, v := View(e.dev), Take(e);
      && v.dev.led.readLog == e.dev.led.readLog + [D.Read(READER, f.gone, f.gone + Readable(f))]
      && v.dev.led.consumed == f.gone + Readable(f) && Readable(f) > 0
  {
    TakesSome(e, READER);
    ReadableIsAmount(View(e.dev));
  }

  lemma ReadableIsAmount(f: Fifo)
    ensures ReadSome(f).gone == f.gone + Readable(f) && (f.gone < f.arrived ==> Readable(f) > 0)
  {}

  lemma TakeDiscards(e: U.System)
    requires U.Enabled(e, LOCKS)
    ensures Take(e).dev.led.discarded == e.dev.led.discarded
  {}

  // --- a stretch of a session ---

  // The session of instance i goes on: of its handlers only those run that forward what
  // the wire or the client brings, or fail to read.
  predicate Forwards(j: Joint, a: JointAction, i: nat) {
    a.Handling? && j.world.batch != [] && j.world.batch[0].ctx.inst == i ==>
      match a.script
      case ServerScript(_) => true
      case WireScript(x) => x.WireBreaks? || x.Relays?
      case ClientScript(x) => x.Forwards?
  }

  predicate AllForward(j: Joint, run: seq<JointAction>, i: nat)
    requires JointRuns(j, run)
  {
    run == [] || (AllForward(j, run[..|run| - 1], i) && Forwards(JointAfter(j, run[..|run| - 1]), run[|run| - 1], i))
  }

  // Since j the instance has sent exactly what was read from its device, read by read.
  ghost predicate SentIsRead(sent: seq<Sent>, read: seq<D.Read>, sent': seq<Sent>, read': seq<D.Read>, session: nat) {
    && sent <= sent' && read <= read' && |sent'| - |sent| == |read'| - |read|
    && forall k: nat :: SentAsRead(sent', |sent|, read', |read|, k, session)
  }

  // The entries k places behind the first m and n.
  predicate SentAsRead(sent: seq<Sent>, m: nat, read: seq<D.Read>, n: nat, k: nat, session: nat) {
    m + k < |sent| && n + k < |read| ==> SameStretch(sent[m + k], read[n + k], session)
  }

  predicate SameStretch(s: Sent, r: D.Read, session: nat) {
    s.session == session && s.from == r.from && s.to == r.to && r.reader == READER
  }

  ghost predicate Linked(j: Joint, i: nat) {
    i < |j.world.insts| == |j.uarts| && ShapeOf(j.world.insts[i]).Linked?
  }

  // What one step of the session adds: nothing, or one stretch that was read and sent.
  ghost predicate OneOrNone(j: Joint, j': Joint, i: nat)
    requires Linked(j, i) && Linked(j', i)
  {
    var log, log', led, led' := j.world.insts[i].log, j'.world.insts[i].log, j.uarts[i].dev.led, j'.uarts[i].dev.led;
    && log'.session == log.session && led.discarded <= led'.discarded
    && ((log'.sent == log.sent && led'.readLog == led.readLog)
        || exists r :: Adds(log, log', led, led', r))
  }

  predicate Adds(log: Log, log': Log, led: D.Ledger, led': D.Ledger, r: D.Read) {
    && r.reader == READER && r.from < r.to == led'.consumed && led'.readLog == led.readLog + [r]
    && log'.sent == log.sent + [Sent(log.session, r.from, r.to)]
  }

  lemma RelaysAdds(i: nat, d: Desk, u: U.System, c: Call)
    requires Coupled(d.inst, u) && FdsOk(d.inst) && ShapeOf(d.inst).Linked? && FindsBytes(u, c, false)
    ensures var t, v := Dispatch(i, d, WireAnswer(WireTold(u, Relays(c)))).inst, AfterScript(u, WireScript(Relays(c)));
      && ShapeOf(t).Linked? && t.log.session == d.inst.log.session && u.dev.led.discarded <= v.dev.led.discarded
      && exists r :: Adds(d.inst.log, t.log, u.dev.led, v.dev.led, r)
  {
    OneRead(u, c);
    ForwardAdds(i, d, View(Entered(u, c).dev), u.dev.led, Take(Entered(u, c)).dev.led);
  }

  lemma ForwardAdds(i: nat, d: Desk, f: Fifo, led: D.Ledger, led': D.Ledger)
    requires FdsOk(d.inst) && ShapeOf(d.inst).Linked? && Readable(f) > 0
    requires led'.readLog == led.readLog + [D.Read(READER, f.gone, f.gone + Readable(f))]
    requires led'.consumed == f.gone + Readable(f)
    ensures var t := Dispatch(i, d, WireAnswer(Forwarded(f))).inst;
      && ShapeOf(t).Linked? && t.log.session == d.inst.log.session && exists r :: Adds(d.inst.log, t.log, led, led', r)
  {
    WireEffect(i, d, Forwarded(f));
    var t := Dispatch(i, d, WireAnswer(Forwarded(f))).inst;
    assert Adds(d.inst.log, t.log, led, led', D.Read(READER, f.gone, f.gone + Readable(f)));
  }

  lemma MoverForwards(j: Joint, a: JointAction, i: nat)
    requires JointInv(j) && JointEnabled(j, a) && Linked(j, i) && Forwards(j, a, i) && RelayJoint.Moves(j, a, i)
    ensures Linked(JointNext(j, a), i) && OneOrNone(j, JointNext(j, a), i)
  {
    StepIsRelay(j, a);
    StepKeepsSize(j, a);
    assert Coupled(j.world.insts[i], j.uarts[i]) && InstOk(j.world, i);
    if a.Devices? {
      WaitReads(j.uarts[i], a.run);
    } else if a.script.WireScript? && a.script.wire.Relays? {
      RelaysAdds(i, DeskOf(j.world, i), j.uarts[i], a.script.wire.call);
    } else {
      QuietHandler(i, DeskOf(j.world, i), j.uarts[i], a.script);
    }
  }

  // A read that fails, a client that brings something, and a late event for the server.
  lemma QuietHandler(i: nat, d: Desk, u: U.System, x: Script)
    requires FdsOk(d.inst) && ShapeOf(d.inst).Linked?
    requires match x
      case ServerScript(_) => true
      case WireScript(y) => y.WireBreaks?
      case ClientScript(y) => y.Forwards?
    ensures Dispatch(i, d, Told(u, x)).inst == d.inst
    ensures AfterScript(u, x).dev.led.readLog == u.dev.led.readLog && AfterScript(u, x).dev.led.discarded == u.dev.led.discarded
  {
    match x {
      case ServerScript(a) => ServerEffect(i, d, a);
      case WireScript(y) => WireEffect(i, d, WireFails);
      case ClientScript(y) => ClientEffect(i, d, FromClient);
    }
  }

  lemma StepForwards(j: Joint, a: JointAction, i: nat)
    requires JointInv(j) && JointEnabled(j, a) && Linked(j, i) && Forwards(j, a, i)
    ensures Linked(JointNext(j, a), i) && OneOrNone(j, JointNext(j, a), i)
  {
    if RelayJoint.Moves(j, a, i) {
      MoverForwards(j, a, i);
    } else {
      OthersStay(j, a, i);
    }
  }

  lemma {:induction false} RunForwards(j: Joint, run: seq<JointAction>, i: nat)
    requires JointInv(j) && JointRuns(j, run) && Linked(j, i) && AllForward(j, run, i)
    ensures JointInv(JointAfter(j, run)) && Linked(JointAfter(j, run), i)
    ensures var e := JointAfter(j, run); var log, log' := j.world.insts[i].log, e.world.insts[i].log;
      && log'.session == log.session && j.uarts[i].dev.led.discarded <= e.uarts[i].dev.led.discarded
      && SentIsRead(log.sent, j.uarts[i].dev.led.readLog, log'.sent, e.uarts[i].dev.led.readLog, log.session)
  {
    if run != [] {
      var front, a := run[..|run| - 1], run[|run| - 1];
      RunForwards(j, front, i);
      StepForwards(JointAfter(j, front), a, i);
      JointStepKeeps(JointAfter(j, front), a);
      GoesOnSent(j, JointAfter(j, front), JointNext(JointAfter(j, front), a), i);
    }
  }

  lemma GoesOnSent(j: Joint, v: Joint, v': Joint, i: nat)
    requires Linked(j, i) && Linked(v, i) && Linked(v', i) && OneOrNone(v, v', i)
    requires v.world.insts[i].log.session == j.world.insts[i].log.session
    requires SentIsRead(j.world.insts[i].log.sent, j.uarts[i].dev.led.readLog,
                        v.world.insts[i].log.sent, v.uarts[i].dev.led.readLog, j.world.insts[i].log.session)
    ensures SentIsRead(j.world.insts[i].log.sent, j.uarts[i].dev.led.readLog,
                       v'.world.insts[i].log.sent, v'.uarts[i].dev.led.readLog, j.world.insts[i].log.session)
  {
    var log, log', led, led' := v.world.insts[i].log, v'.world.insts[i].log, v.uarts[i].dev.led, v'.uarts[i].dev.led;
    if r :| Adds(log, log', led, led', r) {
      OneMoreSent(j.world.insts[i].log.sent, j.uarts[i].dev.led.readLog, log.sent, led.readLog, log.session, r);
    }
  }

  lemma OneMoreSent(sent: seq<Sent>, read: seq<D.Read>, sent': seq<Sent>, read': seq<D.Read>, session: nat, r: D.Read)
    requires SentIsRead(sent, read, sent', read', session) && r.reader == READER
    ensures SentIsRead(sent, read, sent' + [Sent(session, r.from, r.to)], read' + [r], session)
  {
    forall k: nat ensures SentAsRead(sent' + [Sent(session, r.from, r.to)], |sent|, read' + [r], |read|, k, session) {
      assert SentAsRead(sent', |sent|, read', |read|, k, session);
    }
  }

  // --- and byte for byte ---

  lemma LastStretch(d: D.Bytes, sent: seq<Sent>, s: Sent)
    requires s.from <= s.to <= |d|
    ensures Relayed(d, sent + [s], |sent| + 1) == Relayed(d, sent, |sent|) + d[s.from..s.to]
  {
    var all := sent + [s];
    SamePrefix(d, sent, all, |sent|);
    UnfoldRelayed(d, all, |sent| + 1);
    assert all[|sent|] == s;
  }

  lemma UnfoldRelayed(d: D.Bytes, sent: seq<Sent>, n: nat)
    requires 0 < n <= |sent| && sent[n - 1].from <= sent[n - 1].to <= |d|
    ensures Relayed(d, sent, n) == Relayed(d, sent, n - 1) + d[sent[n - 1].from..sent[n - 1].to]
  {}

  lemma {:induction false} SamePrefix(d: D.Bytes, sent: seq<Sent>, sent': seq<Sent>, n: nat)
    requires n <= |sent| && sent <= sent'
    ensures Relayed(d, sent', n) == Relayed(d, sent, n)
  {
    if n > 0 {
      SamePrefix(d, sent, sent', n - 1);
    }
  }

  // What has left rx_fifo is what was read and what was thrown away.
  lemma ConsumedIs(l: D.Ledger, l': D.Ledger, r: D.Read)
    requires L.LedgerOk(l) && L.LedgerOk(l') && l'.discarded == l.discarded && r.from <= r.to
    ensures l'.readLog == l.readLog ==> l'.consumed == l.consumed
    ensures l'.readLog == l.readLog + [r] ==> l'.consumed == l.consumed + (r.to - r.from)
  {
    L.ReadBytesExtend(l.readLog, r);
  }

  lemma OneStretchMore(log: Log, log': Log, l: D.Ledger, l': D.Ledger)
    requires L.LedgerOk(l) && L.LedgerOk(l') && l.delivered <= l'.delivered && l'.discarded == l.discarded
    requires SentWithin(log, |l.delivered|)
    requires (log'.sent == log.sent && l'.readLog == l.readLog) || exists r :: Adds(log, log', l, l', r)
    ensures l.consumed <= l'.consumed <= |l'.delivered|
    ensures Relayed(l'.delivered, log'.sent, |log'.sent|)
         == Relayed(l.delivered, log.sent, |log.sent|) + l'.delivered[l.consumed..l'.consumed]
  {
    SameRelayed(l.delivered, l'.delivered, log, log.sent, |log.sent|);
    if r :| Adds(log, log', l, l', r) {
      ConsumedIs(l, l', r);
      LastStretch(l'.delivered, log.sent, Sent(log.session, r.from, r.to));
    } else {
      ConsumedIs(l, l', D.Read(0, 0, 0));
    }
  }

  // While a session lasts and nothing is thrown away unread, its simulator gets exactly
  // what leaves rx_fifo, byte for byte and without a gap.
  lemma {:induction false} SessionIsStream(j: Joint, run: seq<JointAction>, i: nat)
    requires JointInv(j) && AllOrdered(j.world) && JointRuns(j, run) && Linked(j, i) && AllForward(j, run, i)
    requires var e := JointAfter(j, run); i < |e.uarts| && e.uarts[i].dev.led.discarded == j.uarts[i].dev.led.discarded
    ensures Linked(JointAfter(j, run), i) && GotStream(j, JointAfter(j, run), i)
  {
    RunForwards(j, run, i);
    if run != [] {
      var front, a := run[..|run| - 1], run[|run| - 1];
      FrontDiscards(j, front, a, i);
      SessionIsStream(j, front, i);
      StretchOfStep(j, front, a, i);
      StretchesJoin(j, JointAfter(j, front), JointNext(JointAfter(j, front), a), i);
    } else {
      assert Coupled(j.world.insts[i], j.uarts[i]);
    }
  }

  // Nothing was thrown away before the last step either.
  lemma FrontDiscards(j: Joint, front: seq<JointAction>, a: JointAction, i: nat)
    requires JointInv(j) && JointRuns(j, front) && JointEnabled(JointAfter(j, front), a) && Linked(j, i)
    requires AllForward(j, front, i) && Forwards(JointAfter(j, front), a, i)
    ensures var v := JointAfter(j, front); var e := JointNext(v, a);
      && JointInv(v) && Linked(v, i) && Linked(e, i) && OneOrNone(v, e, i) && Stretches(v, e, i)
      && (e.uarts[i].dev.led.discarded == j.uarts[i].dev.led.discarded ==>
            v.uarts[i].dev.led.discarded == j.uarts[i].dev.led.discarded)
  {
    RunForwards(j, front, i);
    StepForwards(JointAfter(j, front), a, i);
    JointStepGrows(JointAfter(j, front), a, i);
  }

  predicate Stretches(v: Joint, e: Joint, i: nat) {
    i < |v.uarts| && i < |e.uarts| && v.uarts[i].dev.led.delivered <= e.uarts[i].dev.led.delivered
  }

  // From v to e the simulator got what left rx_fifo.
  ghost predicate GotStream(v: Joint, e: Joint, i: nat)
    requires Linked(v, i) && Linked(e, i)
  {
    var l, l' := v.uarts[i].dev.led, e.uarts[i].dev.led;
    && l.consumed <= l'.consumed <= |l'.delivered| && Got(e, i) == Got(v, i) + l'.delivered[l.consumed..l'.consumed]
  }

  lemma StretchesJoin(j: Joint, v: Joint, e: Joint, i: nat)
    requires Linked(j, i) && Linked(v, i) && Linked(e, i) && Stretches(v, e, i)
    requires GotStream(j, v, i) && GotStream(v, e, i)
    ensures GotStream(j, e, i)
  {
    var l, l', l'' := j.uarts[i].dev.led, v.uarts[i].dev.led, e.uarts[i].dev.led;
    TwoStretches(l'.delivered, l''.delivered, l.consumed, l'.consumed, l''.consumed);
  }

  lemma TwoStretches(d: D.Bytes, d': D.Bytes, a: nat, b: nat, c: nat)
    requires d <= d' && a <= b <= |d| && b <= c <= |d'|
    ensures d[a..b] + d'[b..c] == d'[a..c]
  {}

  lemma StretchOfStep(j: Joint, front: seq<JointAction>, a: JointAction, i: nat)
    requires JointInv(j) && AllOrdered(j.world) && JointRuns(j, front) && JointEnabled(JointAfter(j, front), a)
    requires var v := JointAfter(j, front);
      JointInv(v) && Linked(v, i) && Linked(JointNext(v, a), i) && OneOrNone(v, JointNext(v, a), i)
    requires JointNext(JointAfter(j, front), a).uarts[i].dev.led.discarded == JointAfter(j, front).uarts[i].dev.led.discarded
    ensures GotStream(JointAfter(j, front), JointNext(JointAfter(j, front), a), i)
  {
    var v := JointAfter(j, front);
    var e := JointNext(v, a);
    RunIsRelay(j, front);
    RunOrdered(j.world, RelayRun(j, front));
    JointStepKeeps(v, a);
    JointStepGrows(v, a, i);
    assert Coupled(v.world.insts[i], v.uarts[i]) && Coupled(e.world.insts[i], e.uarts[i]) && Ordered(v.world.insts[i]);
    OrderedIsWithin(v.world.insts[i], |v.uarts[i].dev.led.delivered|);
    OneStretchMore(v.world.insts[i].log, e.world.insts[i].log, v.uarts[i].dev.led, e.uarts[i].dev.led);
  }

  // From start-up on, in whatever state the daemon is: over any stretch of a session, what
  // the instance sends are exactly the reads of its device, one by one.
  lemma SessionSendsReads(j0: Joint, before: seq<JointAction>, j: Joint, run: seq<JointAction>, i: nat)
    requires JointStart(j0) && JointRuns(j0, before) && j == JointAfter(j0, before)
    requires JointRuns(j, run) && Linked(j, i) && AllForward(j, run, i)
    ensures Linked(JointAfter(j, run), i)
    ensures var e := JointAfter(j, run); var log, log' := j.world.insts[i].log, e.world.insts[i].log;
      SentIsRead(log.sent, j.uarts[i].dev.led.readLog, log'.sent, e.uarts[i].dev.led.readLog, log.session)
  {
    RunIsRelay(j0, before);
    RunForwards(j, run, i);
  }

  // And if nothing is thrown away unread meanwhile, the simulator gets exactly what leaves
  // rx_fifo, byte for byte and without a gap.
  lemma SimulatorGetsStream(j0: Joint, before: seq<JointAction>, j: Joint, run: seq<JointAction>, i: nat)
    requires JointStart(j0) && JointRuns(j0, before) && j == JointAfter(j0, before)
    requires JointRuns(j, run) && Linked(j, i) && AllForward(j, run, i)
    requires var e := JointAfter(j, run); i < |e.uarts| && e.uarts[i].dev.led.discarded == j.uarts[i].dev.led.discarded
    ensures Linked(JointAfter(j, run), i)
    ensures var e := JointAfter(j, run); var l, l' := j.uarts[i].dev.led, e.uarts[i].dev.led;
      && l.consumed <= l'.consumed <= |l'.delivered|
      && Got(e, i) == Got(j, i) + l'.delivered[l.consumed..l'.consumed]
  {
    RunIsRelay(j0, before);
    RunOrdered(j0.world, RelayRun(j0, before));
    SessionIsStream(j, run, i);
  }
}

// What the daemon guarantees over every run.
module RelayTheorems {
  import opened Relay
  import opened RelayShapes
  import opened RelayProtocol

  // --- the epoll set and the state machine ---

  ghost predicate AllHealthy(w: World) {
    forall i: nat | i < |w.insts| :: Healthy(ShapeOf(w.insts[i]))
  }

  predicate ActionReopens(a: Action) {
    a.HandleNext? ==> Reopening(a.answer)
  }

  lemma {:induction false} RunStaysHealthy(w: World, run: seq<Action>)
    requires Inv(w) && !w.epoll.aborted && AllHealthy(w) && Runs(w, run)
    requires forall a | a in run :: ActionReopens(a)
    ensures !After(w, run).epoll.aborted && AllHealthy(After(w, run))
  {
    if run != [] {
      var front, a := run[..|run| - 1], run[|run| - 1];
      var v := After(w, front);
      assert a in run;
      RunStaysHealthy(w, front);
      RunKeepsInv(w, front);
      if a.HandleNext? {
        var i := v.batch[0].ctx.inst;
        StaysHealthy(i, DeskOf(v, i), a.answer);
        HandleKeeps(v, a.answer);
      }
    }
  }

  // As long as wire reopens succeed the daemon never aborts, and every instance
  // is in one of two states: it waits exactly when it has no client and its
  // server is all it has registered, and it relays exactly when wire and client
  // are registered and the server is not.
  lemma EpollMatchesState(w: World, run: seq<Action>, i: nat)
    requires Inv(w) && !w.epoll.aborted && AllHealthy(w) && Runs(w, run)
    requires forall a | a in run :: ActionReopens(a)
    requires i < |After(w, run).insts|
    ensures var v := After(w, run); var t, mine := v.insts[i], Mine(v.epoll.watched, i);
      && !v.epoll.aborted
      && (t.state == WaitClient <==> t.clientFd == -1)
      && (t.state == WaitClient <==> mine == map[t.serverFd := Ctx(i, RoleServer)])
      && (t.state == Relaying <==> mine == map[t.wireFd := Ctx(i, RoleWire)] + map[t.clientFd := Ctx(i, RoleClient)])
      && t.serverFd in v.epoll.open && t.wireFd in v.epoll.open && t.serverFd != t.wireFd
  {
    RunStaysHealthy(w, run);
    RunKeepsInv(w, run);
    var v := After(w, run);
    assert InstOk(v, i);
    TwoStates(i, v.insts[i], v.epoll);
  }

  lemma TwoStates(i: nat, t: Inst, e: Epoll)
    requires ShapeOk(i, t, e) && Healthy(ShapeOf(t))
    ensures t.state == WaitClient <==> t.clientFd == -1
    ensures t.state == WaitClient <==> Mine(e.watched, i) == map[t.serverFd := Ctx(i, RoleServer)]
    ensures t.state == Relaying <==> Mine(e.watched, i) == map[t.wireFd := Ctx(i, RoleWire)] + map[t.clientFd := Ctx(i, RoleClient)]
    ensures t.serverFd in e.open && t.wireFd in e.open && t.serverFd != t.wireFd
  {
    assert t.serverFd in Mine(e.open, i) && t.wireFd in Mine(e.open, i);
    if t.state == WaitClient {
      assert t.wireFd !in Mine(e.watched, i);
    } else {
      assert t.wireFd in Mine(e.watched, i);
    }
  }

  // Without that assumption: the process aborts in the last step of a run exactly
  // when that step accepts a client for an instance that has lost its wire, or
  // hands a late client event to an instance that is offline.
  lemma AbortsExactly(w: World, run: seq<Action>, a: Action)
    requires Inv(w) && Runs(w, run) && Enabled(After(w, run), a)
    ensures var v := After(w, run);
      Next(v, a).epoll.aborted <==>
        a.HandleNext? && Fatal(ShapeOf(v.insts[v.batch[0].ctx.inst]), a.answer)
  {
    RunKeepsInv(w, run);
    if a.HandleNext? {
      HandleKeeps(After(w, run), a.answer);
    }
  }

  // --- late events of a batch ---

  // The state guard at the top of each handler.
  predicate PassesGuard(t: Inst, r: Role) {
    if r.RoleServer? then t.state == WaitClient else t.state == Relaying
  }

  // The descriptor of the event is still registered for the same purpose.
  predicate StillRegistered(w: World, ev: Event) {
    ev.fd in w.epoll.watched && w.epoll.watched[ev.fd] == ev.ctx
  }

  // Whatever the events before it in the batch closed or reopened: a handler acts
  // on the session in which its event was collected.  If it passes its guard, the
  // descriptor of the event is still registered for the same purpose if and only
  // if it is the server's or the instance still has its wire.
  lemma LateEventsHarmless(w: World, run: seq<Action>, x: Answer)
    requires Inv(w) && Runs(w, run) && Enabled(After(w, run), HandleNext(x))
    ensures var v := After(w, run); var ev := v.batch[0]; var t := v.insts[ev.ctx.inst];
      && ev.session == t.log.session
      && (PassesGuard(t, ev.ctx.role) ==> (StillRegistered(v, ev) <==> ev.ctx.role.RoleServer? || t.wireFd >= 0))
  {
    RunKeepsInv(w, run);
    var v := After(w, run);
    var ev := v.batch[0];
    var t := v.insts[ev.ctx.inst];
    assert EventAt(v, ev) && InstOk(v, ev.ctx.inst);
    if PassesGuard(t, ev.ctx.role) {
      RegisteredIffWired(ev.ctx.inst, t, v.epoll, ev);
    }
  }

  lemma RegisteredIffWired(i: nat, t: Inst, e: Epoll, ev: Event)
    requires TableOk(e) && ShapeOk(i, t, e) && EventOk(t, ev) && ev.ctx.inst == i && PassesGuard(t, ev.ctx.role)
    ensures (ev.fd in e.watched && e.watched[ev.fd] == ev.ctx) <==> ev.ctx.role.RoleServer? || t.wireFd >= 0
  {
    assert Mine(e.watched, i) == WatchedOf(i, t);
    assert (ev.fd in e.watched && e.watched[ev.fd] == ev.ctx) <==> (ev.fd in Mine(e.watched, i) && Mine(e.watched, i)[ev.fd] == ev.ctx);
  }

  // So as long as reopens succeed it always is.
  lemma LateEventsRegistered(w: World, run: seq<Action>, x: Answer)
    requires Inv(w) && !w.epoll.aborted && AllHealthy(w) && Runs(w, run)
    requires forall a | a in run :: ActionReopens(a)
    requires Enabled(After(w, run), HandleNext(x))
    ensures var v := After(w, run); var ev := v.batch[0];
      PassesGuard(v.insts[ev.ctx.inst], ev.ctx.role) ==> StillRegistered(v, ev)
  {
    RunStaysHealthy(w, run);
    LateEventsHarmless(w, run, x);
  }

  // --- session isolation ---

  ghost predicate FloorsBelow(log: Log, n: nat) {
    forall k | 0 <= k < |log.floors| :: log.floors[k] <= n
  }

  // What the history keeps in every run, whatever the drains do.
  ghost predicate HistoryOk(t: Inst) {
    && t.fifo.gone <= t.fifo.arrived
    && FloorsBelow(t.log, t.fifo.arrived)
    && |t.log.floors| + (if t.clientFd >= 0 then 1 else 0) == t.log.session
  }

  // Bytes of an ended session are still in rx_fifo and can be read.
  ghost predicate Tainted(t: Inst) {
    t.wireFd >= 0 && !t.fifo.reset && !FloorsBelow(t.log, t.fifo.gone)
  }

  // From entry first on, no session was sent a byte of an earlier one.
  predicate SentAt(log: Log, n: nat) {
    n < |log.sent| ==>
      log.sent[n].session <= log.session
      && forall k | 0 <= k < |log.floors| && k < log.sent[n].session - 1 :: log.floors[k] <= log.sent[n].from
  }

  ghost predicate SentsOk(log: Log, first: nat) {
    forall n: nat :: first <= n ==> SentAt(log, n)
  }

  ghost predicate LogOk(t: Inst, first: nat) {
    HistoryOk(t) && !Tainted(t) && SentsOk(t.log, first)
  }

  // The calls of the drain work as they should: the fifo is read until it is empty
  // or at its end.
  predicate Complete(a: Drain) {
    a.Drains? && !a.end.ReadFails?
  }

  predicate DrainCompletes(t: Inst, a: Answer) {
    t.wireFd >= 0 && t.state == Relaying ==>
      match a
      case ServerAnswer(_) => true
      case WireAnswer(x) => x.CutShort? ==> Complete(x.drain)
      case ClientAnswer(x) => x.ClientEnds? ==> Complete(x.drain)
  }

  lemma {:induction false} ReadsGoOn(f: Fifo, found: seq<Fifo>)
    requires f.gone <= f.arrived && ReadsOk(f, found)
    ensures Later(f, AfterReads(f, found))
  {
    if found != [] {
      var front := found[..|found| - 1];
      forall k | 0 <= k < |front| ensures ReadOk(AfterReads(f, front[..k]), front[k]) {
        assert front[..k] == found[..k];
      }
      ReadsGoOn(f, front);
      assert ReadOk(AfterReads(f, found[..|found| - 1]), found[|found| - 1]);
    }
  }

  // Whatever a drain does, the device only moves on; a complete one leaves nothing
  // behind of what had arrived when it began.
  lemma DrainEmpties(i: nat, d: Desk, a: Drain)
    requires d.inst.fifo.gone <= d.inst.fifo.arrived && DrainOk(DelWire(ClientClose(d)), a)
    ensures var t := CloseAndDrain(i, d, a).inst;
      && d.inst.fifo.arrived <= t.fifo.arrived && d.inst.fifo.gone <= t.fifo.gone <= t.fifo.arrived
      && t.log == d.inst.log && t.clientFd == ClientClose(d).inst.clientFd
      && (Complete(a) ==> d.inst.fifo.arrived <= t.fifo.gone)
  {
    if a.Drains? {
      ReadsGoOn(d.inst.fifo, a.found);
    }
  }

  lemma EndsHistory(t: Inst, t': Inst, floor: nat)
    requires HistoryOk(t) && t.clientFd >= 0 && t'.clientFd == -1 && t'.log == t.log.(floors := t.log.floors + [floor])
    requires floor <= t.fifo.arrived <= t'.fifo.arrived && t'.fifo.gone <= t'.fifo.arrived
    ensures HistoryOk(t')
  {}

  lemma EndsLogged(t: Inst, t': Inst, floor: nat, first: nat)
    requires LogOk(t, first) && t.clientFd >= 0 && t'.clientFd == -1 && t'.log == t.log.(floors := t.log.floors + [floor])
    requires floor <= t.fifo.arrived <= t'.fifo.gone <= t'.fifo.arrived
    ensures LogOk(t', first)
  {
    EndsHistory(t, t', floor);
    forall n: nat | first <= n ensures SentAt(t'.log, n) {
      assert SentAt(t.log, n);
    }
  }

  lemma SendHistory(t: Inst, at: Fifo, n: nat)
    requires HistoryOk(t) && ReadOk(t.fifo, at)
    ensures HistoryOk(Send(t, at, n)) && t.fifo.arrived <= Send(t, at, n).fifo.arrived
  {}

  lemma SendLogged(t: Inst, at: Fifo, n: nat, first: nat)
    requires LogOk(t, first) && t.wireFd >= 0 && t.clientFd >= 0 && ReadOk(t.fifo, at)
    ensures LogOk(Send(t, at, n), first)
  {
    SendHistory(t, at, n);
    var t' := Send(t, at, n);
    forall k: nat | first <= k ensures SentAt(t'.log, k) {
      assert SentAt(t.log, k);
    }
  }

  function Ended(t: Inst, floor: nat): Inst {
    t.(log := t.log.(floors := t.log.floors + [floor]))
  }

  lemma DrainLogged(i: nat, d: Desk, floor: nat, a: Drain, first: nat)
    requires LogOk(d.inst, first) && FdsOk(d.inst) && ShapeOf(d.inst).Linked? && floor <= d.inst.fifo.arrived
    requires DrainOk(DelWire(ClientClose(d)), a) && Complete(a)
    ensures CloseAndDrain(i, d, a).inst.clientFd == -1 && LogOk(Ended(CloseAndDrain(i, d, a).inst, floor), first)
  {
    DrainEmpties(i, d, a);
    EndsLogged(d.inst, Ended(CloseAndDrain(i, d, a).inst, floor), floor, first);
  }

  lemma EofLogged(i: nat, d: Desk, closed: Fifo, r: Reopened, first: nat)
    requires LogOk(d.inst, first) && FdsOk(d.inst) && ShapeOf(d.inst).Linked?
    requires WireOk(d, WireEof(closed, r))
    ensures LogOk(Dispatch(i, d, WireAnswer(WireEof(closed, r))).inst, first)
  {
    var t := Dispatch(i, d, WireAnswer(WireEof(closed, r))).inst;
    EndsLogged(d.inst, t, d.inst.fifo.arrived, first);
  }

  lemma WireLogged(i: nat, d: Desk, a: WireCall, first: nat)
    requires LogOk(d.inst, first) && FdsOk(d.inst) && ShapeOf(d.inst).Linked? && WireOk(d, a)
    requires a.CutShort? ==> Complete(a.drain)
    ensures LogOk(Dispatch(i, d, WireAnswer(a)).inst, first)
  {
    match a {
      case WireFails =>
      case WireEof(closed, r) => EofLogged(i, d, closed, r, first);
      case Forwarded(at) => SendLogged(d.inst, at, Amount(at), first);
      case CutShort(at, n, drain) =>
        SendLogged(d.inst, at, n, first);
        DrainLogged(i, d.(inst := Send(d.inst, at, n)), d.inst.fifo.arrived, drain, first);
    }
  }

  lemma ServerLogged(i: nat, d: Desk, a: Accept, first: nat)
    requires LogOk(d.inst, first) && FdsOk(d.inst)
    ensures LogOk(Dispatch(i, d, ServerAnswer(a)).inst, first)
  {
    var t, t' := d.inst, Dispatch(i, d, ServerAnswer(a)).inst;
    forall n: nat | first <= n ensures SentAt(t'.log, n) {
      assert SentAt(t.log, n);
    }
  }

  // With the wire gone no handler touches the history any more.
  lemma LostLogged(i: nat, d: Desk, a: Answer, first: nat)
    requires LogOk(d.inst, first) && FdsOk(d.inst) && d.inst.wireFd < 0 && !a.ServerAnswer? && AnswerOk(d, a)
    ensures LogOk(Dispatch(i, d, a).inst, first)
  {}

  lemma DispatchLogged(i: nat, d: Desk, a: Answer, first: nat)
    requires LogOk(d.inst, first) && FdsOk(d.inst) && AnswerOk(d, a) && DrainCompletes(d.inst, a)
    ensures LogOk(Dispatch(i, d, a).inst, first)
  {
    if a.ServerAnswer? {
      ServerLogged(i, d, a.accept, first);
    } else if d.inst.wireFd < 0 {
      LostLogged(i, d, a, first);
    } else if d.inst.state == Relaying && a.WireAnswer? {
      WireLogged(i, d, a.wire, first);
    } else if d.inst.state == Relaying && a.client.ClientEnds? {
      DrainLogged(i, d, d.inst.fifo.arrived, a.client.drain, first);
    }
  }

  // Every drain of the run is complete.
  predicate DrainsComplete(w: World, run: seq<Action>)
    requires Runs(w, run)
  {
    run == [] ||
    (DrainsComplete(w, run[..|run| - 1])
     && var v, a := After(w, run[..|run| - 1]), run[|run| - 1];
        a.HandleNext? ==> DrainCompletes(v.insts[v.batch[0].ctx.inst], a.answer))
  }

  lemma StepLogged(w: World, a: Action, i: nat, first: nat)
    requires Inv(w) && Enabled(w, a) && i < |w.insts| && LogOk(w.insts[i], first)
    requires a.HandleNext? ==> DrainCompletes(w.insts[w.batch[0].ctx.inst], a.answer)
    ensures |Next(w, a).insts| == |w.insts| && LogOk(Next(w, a).insts[i], first)
  {
    if a.HandleNext? && w.batch[0].ctx.inst == i {
      assert InstOk(w, i);
      DispatchLogged(i, DeskOf(w, i), a.answer, first);
    } else if a.WireMoves? && a.i == i {
      MoveLogged(w.insts[i], a.fifo, first);
    }
  }

  lemma MoveLogged(t: Inst, f: Fifo, first: nat)
    requires LogOk(t, first) && Later(t.fifo, f)
    ensures LogOk(t.(fifo := f), first)
  {
    assert t.(fifo := f).log == t.log;
  }

  lemma {:induction false} RunLogged(w: World, run: seq<Action>, i: nat, first: nat)
    requires Inv(w) && Runs(w, run) && DrainsComplete(w, run) && i < |w.insts| && LogOk(w.insts[i], first)
    ensures |After(w, run).insts| == |w.insts| && LogOk(After(w, run).insts[i], first)
  {
    if run != [] {
      RunLogged(w, run[..|run| - 1], i, first);
      RunKeepsInv(w, run[..|run| - 1]);
      StepLogged(After(w, run[..|run| - 1]), run[|run| - 1], i, first);
    }
  }

  ghost predicate AllLogged(w: World) {
    forall i: nat | i < |w.insts| :: LogOk(w.insts[i], 0)
  }

  // Whatever had arrived when the handler that ended session k + 1 was entered is
  // never sent to a later session, however the session ended.
  lemma SessionIsolation(w: World, run: seq<Action>, i: nat, n: nat, k: nat)
    requires Inv(w) && AllLogged(w) && Runs(w, run) && DrainsComplete(w, run)
    requires i < |w.insts| && i < |After(w, run).insts|
    requires var log := After(w, run).insts[i].log; n < |log.sent| && k + 1 < log.sent[n].session
    ensures var log := After(w, run).insts[i].log;
      k < |log.floors| && log.floors[k] <= log.sent[n].from
  {
    RunLogged(w, run, i, 0);
    var t := After(w, run).insts[i];
    assert SentAt(t.log, n);
  }

  // --- the relay keeps the order of the stream ---

  // Stretch n lies behind the one before it, in the part that has left rx_fifo.
  predicate StretchOk(log: Log, gone: nat, n: nat) {
    n < |log.sent| ==>
      && log.sent[n].from <= log.sent[n].to <= gone
      && (n > 0 ==> log.sent[n - 1].to <= log.sent[n].from)
  }

  ghost predicate Ordered(t: Inst) {
    t.fifo.gone <= t.fifo.arrived && forall n: nat :: StretchOk(t.log, t.fifo.gone, n)
  }

  lemma QuietMoveOrdered(t: Inst, t': Inst)
    requires Ordered(t) && t'.log.sent == t.log.sent && t.fifo.gone <= t'.fifo.gone <= t'.fifo.arrived
    ensures Ordered(t')
  {
    forall n: nat ensures StretchOk(t'.log, t'.fifo.gone, n) {
      assert StretchOk(t.log, t.fifo.gone, n);
    }
  }

  lemma SendOrdered(t: Inst, at: Fifo, k: nat)
    requires Ordered(t) && ReadOk(t.fifo, at) && k <= Amount(at)
    ensures Ordered(Send(t, at, k)) && t.fifo.gone <= Send(t, at, k).fifo.gone
  {
    var t' := Send(t, at, k);
    forall n: nat ensures StretchOk(t'.log, t'.fifo.gone, n) {
      assert StretchOk(t.log, t.fifo.gone, n) && StretchOk(t.log, t.fifo.gone, n - if n > 0 then 1 else 0);
    }
  }

  lemma DrainOrdered(i: nat, d: Desk, a: Drain)
    requires Ordered(d.inst) && DrainOk(DelWire(ClientClose(d)), a)
    ensures Ordered(CloseAndDrain(i, d, a).inst)
  {
    if a.Drains? {
      ReadsGoOn(d.inst.fifo, a.found);
    }
    QuietMoveOrdered(d.inst, CloseAndDrain(i, d, a).inst);
  }

  lemma HandleOrdered(i: nat, d: Desk, a: Answer)
    requires Ordered(d.inst) && AnswerOk(d, a)
    ensures Ordered(Handle(i, d, a).inst)
  {
    if a.WireAnswer? && d.inst.state == Relaying {
      match a.wire {
        case WireFails =>
        case WireEof(closed, r) => QuietMoveOrdered(d.inst, Handle(i, d, a).inst);
        case Forwarded(at) => SendOrdered(d.inst, at, Amount(at));
        case CutShort(at, n, drain) =>
          SendOrdered(d.inst, at, n);
          DrainOrdered(i, d.(inst := Send(d.inst, at, n)), drain);
      }
    } else if a.ClientAnswer? && d.inst.state == Relaying && a.client.ClientEnds? {
      DrainOrdered(i, d, a.client.drain);
    } else {
      QuietMoveOrdered(d.inst, Handle(i, d, a).inst);
    }
  }

  ghost predicate AllOrdered(w: World) {
    forall i: nat | i < |w.insts| :: Ordered(w.insts[i])
  }

  lemma StepOrdered(w: World, a: Action)
    requires AllOrdered(w) && Enabled(w, a)
    ensures AllOrdered(Next(w, a))
  {
    if a.HandleNext? {
      var i := w.batch[0].ctx.inst;
      HandleOrdered(i, DeskOf(w, i), a.answer);
      QuietMoveOrdered(Handle(i, DeskOf(w, i), a.answer).inst, Next(w, a).insts[i]);
    } else if a.WireMoves? {
      QuietMoveOrdered(w.insts[a.i], Next(w, a).insts[a.i]);
    }
  }

  lemma {:induction false} RunOrdered(w: World, run: seq<Action>)
    requires AllOrdered(w) && Runs(w, run)
    ensures AllOrdered(After(w, run))
  {
    if run != [] {
      RunOrdered(w, run[..|run| - 1]);
      StepOrdered(After(w, run[..|run| - 1]), run[|run| - 1]);
    }
  }

  lemma {:induction false} StretchesApart(log: Log, gone: nat, m: nat, n: nat)
    requires (forall k: nat :: StretchOk(log, gone, k)) && m < n < |log.sent|
    ensures log.sent[m].to <= log.sent[n].from
    decreases n - m
  {
    assert StretchOk(log, gone, n) && StretchOk(log, gone, n - 1);
    if m + 1 < n {
      StretchesApart(log, gone, m, n - 1);
    }
  }

  // Over any run, whatever fails: the stretches an instance has sent, over all
  // its sessions, follow each other in the order of the wire stream and never
  // overlap, so no byte is relayed twice or out of order.
  lemma RelayInOrder(w: World, run: seq<Action>, i: nat, m: nat, n: nat)
    requires AllOrdered(w) && Runs(w, run) && i < |After(w, run).insts|
    requires m < n < |After(w, run).insts[i].log.sent|
    ensures After(w, run).insts[i].log.sent[m].to <= After(w, run).insts[i].log.sent[n].from
  {
    RunOrdered(w, run);
    var t := After(w, run).insts[i];
    assert Ordered(t);
    StretchesApart(t.log, t.fifo.gone, m, n);
  }

  // --- a RESET of the bus ---

  // Since t0, when its session was at its end: nothing that had arrived by then is
  // sent; either the wire is lost, or reopened, or still at its end.
  ghost predicate Sheltered(t0: Inst, t: Inst) {
    && t0.fifo.arrived <= t.fifo.arrived && t.fifo.gone <= t.fifo.arrived
    && t0.log.sent <= t.log.sent
    && (forall n | |t0.log.sent| <= n < |t.log.sent| :: t0.fifo.arrived <= t.log.sent[n].from)
    && (t.wireFd < 0 || t0.fifo.arrived <= t.fifo.gone || t.fifo.reset)
  }

  lemma DrainShelters(i: nat, t0: Inst, d: Desk, a: Drain)
    requires Sheltered(t0, d.inst) && DrainOk(DelWire(ClientClose(d)), a)
    ensures Sheltered(t0, CloseAndDrain(i, d, a).inst)
  {
    if a.Drains? {
      ReadsGoOn(d.inst.fifo, a.found);
    }
  }

  lemma SendShelters(t0: Inst, t: Inst, at: Fifo, n: nat)
    requires Sheltered(t0, t) && t.wireFd >= 0 && ReadOk(t.fifo, at)
    ensures Sheltered(t0, Send(t, at, n))
  {}

  lemma DispatchShelters(i: nat, t0: Inst, d: Desk, a: Answer)
    requires Sheltered(t0, d.inst) && FdsOk(d.inst) && AnswerOk(d, a)
    ensures Sheltered(t0, Dispatch(i, d, a).inst)
  {
    match a {
      case ServerAnswer(x) =>
      case WireAnswer(x) =>
        if d.inst.state == Relaying && x.CutShort? {
          SendShelters(t0, d.inst, x.at, x.sent);
          DrainShelters(i, t0, d.(inst := Send(d.inst, x.at, x.sent)), x.drain);
        } else if d.inst.state == Relaying && x.Forwarded? {
          SendShelters(t0, d.inst, x.at, Amount(x.at));
        }
      case ClientAnswer(x) =>
        if d.inst.state == Relaying && x.ClientEnds? {
          DrainShelters(i, t0, d, x.drain);
        }
    }
  }

  lemma {:induction false} RunShelters(t0: Inst, w: World, run: seq<Action>, i: nat)
    requires Inv(w) && Runs(w, run) && i < |w.insts| && Sheltered(t0, w.insts[i])
    ensures |After(w, run).insts| == |w.insts| && Sheltered(t0, After(w, run).insts[i])
  {
    if run != [] {
      var front, a := run[..|run| - 1], run[|run| - 1];
      var v := After(w, front);
      RunShelters(t0, w, front, i);
      RunKeepsInv(w, front);
      if a.HandleNext? && v.batch[0].ctx.inst == i {
        assert InstOk(v, i);
        DispatchShelters(i, t0, DeskOf(v, i), a.answer);
      }
    }
  }

  // Once the bus was reset under an open session between two handlers, whatever
  // else happens, and whatever fails: nothing that was in rx_fifo by then is ever
  // relayed to any simulator.  RelayResets has the RESET inside a handler.
  lemma ResetStopsRelay(w: World, run: seq<Action>, i: nat, n: nat)
    requires Inv(w) && Runs(w, run) && i < |w.insts| && i < |After(w, run).insts|
    requires w.insts[i].fifo.reset && w.insts[i].fifo.gone <= w.insts[i].fifo.arrived
    requires |w.insts[i].log.sent| <= n < |After(w, run).insts[i].log.sent|
    ensures w.insts[i].fifo.arrived <= After(w, run).insts[i].log.sent[n].from
  {
    RunShelters(w.insts[i], w, run, i);
  }

  // The next wire event that gets an answer from the device drops the client and
  // reopens the wire; it never relays.
  lemma ResetDropsClient(i: nat, d: Desk, a: WireCall)
    requires FdsOk(d.inst) && ShapeOf(d.inst).Linked? && d.inst.fifo.reset && WireOk(d, a)
    ensures var t := Dispatch(i, d, WireAnswer(a)).inst;
      && t.log.sent == d.inst.log.sent
      && (a.WireFails? ==> t == d.inst)
      && (!a.WireFails? ==> a.WireEof? && t.clientFd == -1 && t.fifo.gone == t.fifo.arrived)
      && (a.WireEof? && a.reopened.NewWire? ==> ShapeOf(t).Waiting? && !t.fifo.reset)
  {}
}

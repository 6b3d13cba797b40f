// When a byte of an ended session can still reach a later one.
module RelayLeaks {
  import opened Relay
  import opened RelayShapes
  import opened RelayProtocol
  import opened RelayTheorems

  // --- the history in every run, whatever the drains do ---

  lemma DrainHistory(i: nat, d: Desk, floor: nat, a: Drain)
    requires HistoryOk(d.inst) && FdsOk(d.inst) && ShapeOf(d.inst).Linked? && floor <= d.inst.fifo.arrived
    requires DrainOk(DelWire(ClientClose(d)), a)
    ensures CloseAndDrain(i, d, a).inst.clientFd == -1 && HistoryOk(Ended(CloseAndDrain(i, d, a).inst, floor))
  {
    DrainEmpties(i, d, a);
    EndsHistory(d.inst, Ended(CloseAndDrain(i, d, a).inst, floor), floor);
  }

  lemma WireHistory(i: nat, d: Desk, a: WireCall)
    requires HistoryOk(d.inst) && FdsOk(d.inst) && ShapeOf(d.inst).Linked? && WireOk(d, a)
    ensures HistoryOk(Dispatch(i, d, WireAnswer(a)).inst)
  {
    match a {
      case WireFails =>
      case WireEof(closed, r) => EndsHistory(d.inst, Dispatch(i, d, WireAnswer(a)).inst, d.inst.fifo.arrived);
      case Forwarded(at) => SendHistory(d.inst, at, Amount(at));
      case CutShort(at, n, drain) =>
        SendHistory(d.inst, at, n);
        DrainHistory(i, d.(inst := Send(d.inst, at, n)), d.inst.fifo.arrived, drain);
    }
  }

  lemma LostHistory(i: nat, d: Desk, a: Answer)
    requires HistoryOk(d.inst) && FdsOk(d.inst) && d.inst.wireFd < 0 && !a.ServerAnswer? && AnswerOk(d, a)
    ensures HistoryOk(Dispatch(i, d, a).inst)
  {}

  lemma DispatchHistory(i: nat, d: Desk, a: Answer)
    requires HistoryOk(d.inst) && FdsOk(d.inst) && AnswerOk(d, a)
    ensures HistoryOk(Dispatch(i, d, a).inst)
  {
    if a.ServerAnswer? {
    } else if d.inst.wireFd < 0 {
      LostHistory(i, d, a);
    } else if d.inst.state == Relaying && a.WireAnswer? {
      WireHistory(i, d, a.wire);
    } else if d.inst.state == Relaying && a.client.ClientEnds? {
      DrainHistory(i, d, d.inst.fifo.arrived, a.client.drain);
    }
  }

  ghost predicate AllHistories(w: World) {
    forall i: nat | i < |w.insts| :: HistoryOk(w.insts[i])
  }

  // What the theorems about runs ask of the state they start from.
  ghost predicate AllFit(w: World) {
    Inv(w) && AllHealthy(w) && AllLogged(w) && AllHistories(w) && AllOrdered(w)
  }

  lemma StepKeepsHistories(w: World, a: Action)
    requires Inv(w) && Enabled(w, a) && AllHistories(w)
    ensures AllHistories(Next(w, a))
  {
    if a.HandleNext? {
      var i := w.batch[0].ctx.inst;
      assert InstOk(w, i);
      DispatchHistory(i, DeskOf(w, i), a.answer);
    }
  }

  lemma {:induction false} RunKeepsHistories(w: World, run: seq<Action>)
    requires Inv(w) && Runs(w, run) && AllHistories(w)
    ensures AllHistories(After(w, run))
  {
    if run != [] {
      RunKeepsHistories(w, run[..|run| - 1]);
      RunKeepsInv(w, run[..|run| - 1]);
      StepKeepsHistories(After(w, run[..|run| - 1]), run[|run| - 1]);
    }
  }

  // --- leaks ---

  // Entry n, new since before, sends to a later session what had arrived when
  // session k + 1 ended.
  predicate Leaks(before: Log, after: Log, n: nat, k: nat) {
    && |before.sent| <= n < |after.sent| && k < |after.floors|
    && k + 1 < after.sent[n].session && after.sent[n].from < after.floors[k]
  }

  ghost predicate LeaksIn(w: World, run: seq<Action>, i: nat)
    requires i < |w.insts|
  {
    && Runs(w, run) && DrainsComplete(w, run) && i < |After(w, run).insts|
    && exists n: nat, k: nat :: Leaks(w.insts[i].log, After(w, run).insts[i].log, n, k)
  }

  // Even if every drain from now on is complete.
  ghost predicate CanLeak(w: World, i: nat)
    requires i < |w.insts|
  {
    exists run :: LeaksIn(w, run, i)
  }

  lemma CleanNeverLeaks(w: World, run: seq<Action>, i: nat, n: nat, k: nat)
    requires Inv(w) && i < |w.insts| && HistoryOk(w.insts[i]) && !Tainted(w.insts[i])
    requires Runs(w, run) && DrainsComplete(w, run) && i < |After(w, run).insts|
    ensures !Leaks(w.insts[i].log, After(w, run).insts[i].log, n, k)
  {
    var first := |w.insts[i].log.sent|;
    assert SentsOk(w.insts[i].log, first);
    RunLogged(w, run, i, first);
    assert first <= n ==> SentAt(After(w, run).insts[i].log, n);
  }

  // --- the run that leaks ---

  lemma Above(keys: set<int>) returns (r: nat)
    ensures r !in keys
  {
    var q := Bound(keys);
    r := q;
  }

  lemma {:induction false} Bound(keys: set<int>) returns (r: nat)
    ensures forall j: int | j in keys :: j < r
  {
    r := 0;
    if k: int :| k in keys {
      var rest := keys - {k};
      var q := Bound(rest);
      r := if k < q then q else k + 1;
      assert forall j: int | j in keys :: j in rest || j == k;
    }
  }

  lemma Further(w: World, run: seq<Action>, v: World, a: Action) returns (run': seq<Action>)
    requires Runs(w, run) && DrainsComplete(w, run) && After(w, run) == v && Enabled(v, a)
    requires a.HandleNext? ==> DrainCompletes(v.insts[v.batch[0].ctx.inst], a.answer)
    ensures Runs(w, run') && DrainsComplete(w, run') && After(w, run') == Next(v, a)
  {
    run' := run + [a];
    assert run'[..|run'| - 1] == run;
  }

  lemma WaitingIsRegistered(w: World, i: nat)
    requires Inv(w) && i < |w.insts| && ShapeOf(w.insts[i]).Waiting?
    ensures var fd := w.insts[i].serverFd; Registered(w, fd) && w.epoll.watched[fd] == Ctx(i, RoleServer)
  {
    assert InstOk(w, i);
    assert w.insts[i].serverFd in Mine(w.epoll.watched, i);
  }

  lemma LinkedIsRegistered(w: World, i: nat)
    requires Inv(w) && i < |w.insts| && ShapeOf(w.insts[i]).Linked?
    ensures var fd := w.insts[i].wireFd; Registered(w, fd) && w.epoll.watched[fd] == Ctx(i, RoleWire)
  {
    assert InstOk(w, i);
    assert w.insts[i].wireFd in Mine(w.epoll.watched, i);
  }

  // The next client is accepted.
  lemma ClientComes(w: World, run: seq<Action>, v: World, i: nat) returns (run': seq<Action>, v': World)
    requires Runs(w, run) && DrainsComplete(w, run) && After(w, run) == v && Inv(v) && !v.epoll.aborted
    requires v.batch == [] && i < |v.insts| && ShapeOf(v.insts[i]).Waiting?
    ensures Runs(w, run') && DrainsComplete(w, run') && After(w, run') == v' && Inv(v') && !v'.epoll.aborted
    ensures v'.batch == [] && i < |v'.insts| && ShapeOf(v'.insts[i]).Linked? && v'.insts[i].fifo == v.insts[i].fifo
    ensures v'.insts[i].log == v.insts[i].log.(session := v.insts[i].log.session + 1)
  {
    var t := v.insts[i];
    WaitingIsRegistered(v, i);
    run' := Further(w, run, v, Collect([t.serverFd]));
    var v1 := Next(v, Collect([t.serverFd]));
    assert v1.batch[0] == Observed(v, t.serverFd);
    StepKeepsInv(v, Collect([t.serverFd]));
    var fd := Above(v1.epoll.open.Keys);
    run', v' := Accepts(w, run', v1, i, fd);
  }

  lemma Accepts(w: World, run: seq<Action>, v: World, i: nat, fd: nat) returns (run': seq<Action>, v': World)
    requires Runs(w, run) && DrainsComplete(w, run) && After(w, run) == v && Inv(v) && !v.epoll.aborted
    requires i < |v.insts| && ShapeOf(v.insts[i]).Waiting? && fd !in v.epoll.open.Keys
    requires |v.batch| == 1 && v.batch[0].ctx == Ctx(i, RoleServer)
    ensures Runs(w, run') && DrainsComplete(w, run') && After(w, run') == v' && Inv(v') && !v'.epoll.aborted
    ensures v'.batch == [] && i < |v'.insts| && ShapeOf(v'.insts[i]).Linked? && v'.insts[i].fifo == v.insts[i].fifo
    ensures v'.insts[i].log == v.insts[i].log.(session := v.insts[i].log.session + 1)
  {
    var a := HandleNext(ServerAnswer(Accepted(fd)));
    assert InstOk(v, i);
    run' := Further(w, run, v, a);
    v' := Next(v, a);
    HandleKeeps(v, ServerAnswer(Accepted(fd)));
  }

  // And is sent what the device still holds.
  lemma OldBytesGo(w: World, run: seq<Action>, v: World, i: nat) returns (run': seq<Action>, v': World)
    requires Runs(w, run) && DrainsComplete(w, run) && After(w, run) == v && Inv(v) && !v.epoll.aborted
    requires v.batch == [] && i < |v.insts| && ShapeOf(v.insts[i]).Linked?
    requires !v.insts[i].fifo.reset && v.insts[i].fifo.gone < v.insts[i].fifo.arrived
    ensures Runs(w, run') && DrainsComplete(w, run') && After(w, run') == v' && i < |v'.insts|
    ensures v'.insts[i].log == Send(v.insts[i], v.insts[i].fifo, Amount(v.insts[i].fifo)).log
  {
    var t := v.insts[i];
    LinkedIsRegistered(v, i);
    run' := Further(w, run, v, Collect([t.wireFd]));
    var v1 := Next(v, Collect([t.wireFd]));
    assert v1.batch[0] == Observed(v, t.wireFd);
    assert InstOk(v, i);
    var a := HandleNext(WireAnswer(Forwarded(t.fifo)));
    run' := Further(w, run', v1, a);
    v' := Next(v1, a);
  }

  lemma TaintedLeaks(w: World, i: nat)
    requires Inv(w) && !w.epoll.aborted && w.batch == [] && i < |w.insts|
    requires HistoryOk(w.insts[i]) && Tainted(w.insts[i])
    ensures CanLeak(w, i)
  {
    var t := w.insts[i];
    var k :| 0 <= k < |t.log.floors| && t.log.floors[k] > t.fifo.gone;
    assert InstOk(w, i);
    assert Runs(w, []) && DrainsComplete(w, []);
    var run, v := [], w;
    if ShapeOf(t).Waiting? {
      run, v := ClientComes(w, [], w, i);
    }
    run, v := OldBytesGo(w, run, v, i);
    assert Leaks(t.log, v.insts[i].log, |t.log.sent|, k);
    assert LeaksIn(w, run, i);
  }

  // Between two batches, an instance in whatever shape can still leak a byte of an
  // ended session to a later one, or to the one it has begun, if and only if its
  // wire is open and not at its end and something that had arrived when a session
  // ended is still in the fifo.
  lemma LeaksIffTainted(w: World, i: nat)
    requires Inv(w) && !w.epoll.aborted && w.batch == [] && i < |w.insts|
    requires HistoryOk(w.insts[i])
    ensures CanLeak(w, i) <==> Tainted(w.insts[i])
  {
    if Tainted(w.insts[i]) {
      TaintedLeaks(w, i);
    } else {
      forall run | Runs(w, run) ensures !LeaksIn(w, run, i) {
        NoLeakIn(w, run, i);
      }
    }
  }

  lemma NoLeakIn(w: World, run: seq<Action>, i: nat)
    requires Inv(w) && i < |w.insts| && HistoryOk(w.insts[i]) && !Tainted(w.insts[i])
    ensures !LeaksIn(w, run, i)
  {
    if LeaksIn(w, run, i) {
      var n: nat, k: nat :| Leaks(w.insts[i].log, After(w, run).insts[i].log, n, k);
      CleanNeverLeaks(w, run, i, n, k);
    }
  }

  // In every run from start-up, whatever failed before: the condition applies to
  // every instance between two batches.
  lemma LeaksExactly(w: World, run: seq<Action>, i: nat)
    requires Inv(w) && !w.epoll.aborted && AllHistories(w) && Runs(w, run)
    requires var v := After(w, run); !v.epoll.aborted && v.batch == [] && i < |v.insts|
    ensures CanLeak(After(w, run), i) <==> Tainted(After(w, run).insts[i])
  {
    RunKeepsInv(w, run);
    RunKeepsHistories(w, run);
    LeaksIffTainted(After(w, run), i);
  }
}

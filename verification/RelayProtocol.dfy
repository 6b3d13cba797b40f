// The whole daemon: any number of instances on one epoll set.  One step is one
// epoll_wait, the handling of the next event of the batch it returned, or a move
// of one wire device in between.
module RelayProtocol {
  import opened Relay
  import opened RelayShapes

  // An event of the current batch: the descriptor it is about, the context it
  // carries, and the session of the instance when it was collected (history).
  datatype Event = Event(fd: int, ctx: Ctx, session: nat)

  datatype World = World(insts: seq<Inst>, epoll: Epoll, batch: seq<Event>)

  datatype Action =
    | Collect(fds: seq<int>)
    | HandleNext(answer: Answer)
    | WireMoves(i: nat, fifo: Fifo)

  predicate RoleFits(r: Role, a: Answer) {
    match r
    case RoleServer => a.ServerAnswer?
    case RoleWire => a.WireAnswer?
    case RoleClient => a.ClientAnswer?
  }

  function DeskOf(w: World, i: nat): Desk
    requires i < |w.insts|
  {
    Desk(w.insts[i], w.epoll)
  }

  predicate Registered(w: World, fd: int) {
    fd in w.epoll.watched && w.epoll.watched[fd].inst < |w.insts|
  }

  // epoll_wait reports each registered descriptor at most once.
  predicate BatchAllowed(w: World, fds: seq<int>) {
    && (forall k | 0 <= k < |fds| :: Registered(w, fds[k]))
    && (forall k, l | 0 <= k < l < |fds| :: fds[k] != fds[l])
  }

  predicate Enabled(w: World, a: Action) {
    && !w.epoll.aborted
    && match a
       case Collect(fds) => w.batch == [] && BatchAllowed(w, fds)
       case HandleNext(x) =>
         && w.batch != [] && w.batch[0].ctx.inst < |w.insts|
         && RoleFits(w.batch[0].ctx.role, x) && AnswerOk(DeskOf(w, w.batch[0].ctx.inst), x)
       case WireMoves(i, f) => i < |w.insts| && Later(w.insts[i].fifo, f)
  }

  function Observed(w: World, fd: int): Event
    requires Registered(w, fd)
  {
    var c := w.epoll.watched[fd];
    Event(fd, c, w.insts[c.inst].log.session)
  }

  function Put(w: World, i: nat, d: Desk): World
    requires i < |w.insts|
  {
    w.(insts := w.insts[i := d.inst], epoll := d.epoll)
  }

  function Next(w: World, a: Action): World
    requires Enabled(w, a)
  {
    match a
    case Collect(fds) => w.(batch := seq(|fds|, k requires 0 <= k < |fds| => Observed(w, fds[k])))
    case HandleNext(x) =>
      var i := w.batch[0].ctx.inst;
      Put(w, i, Dispatch(i, DeskOf(w, i), x)).(batch := w.batch[1..])
    case WireMoves(i, f) => w.(insts := w.insts[i := w.insts[i].(fifo := f)])
  }

  predicate Runs(w: World, run: seq<Action>)
    decreases |run|, 0
  {
    run == [] || (Runs(w, run[..|run| - 1]) && Enabled(After(w, run[..|run| - 1]), run[|run| - 1]))
  }

  function After(w: World, run: seq<Action>): World
    requires Runs(w, run)
    decreases |run|, 1
  {
    if run == [] then w else Next(After(w, run[..|run| - 1]), run[|run| - 1])
  }

  lemma Extend(w: World, run: seq<Action>, a: Action)
    requires Runs(w, run) && Enabled(After(w, run), a)
    ensures Runs(w, run + [a]) && After(w, run + [a]) == Next(After(w, run), a)
  {
    assert (run + [a])[..|run + [a]| - 1] == run;
  }

  // --- what every step keeps ---

  // A server event is the only one of its instance in a batch, so until it is
  // handled the instance still waits.  Other events never see a new session
  // begin; while the instance is linked they are about its present descriptors.
  predicate EventOk(t: Inst, ev: Event) {
    && ev.session == t.log.session
    && match ev.ctx.role
       case RoleServer => t.state == WaitClient && ev.fd == t.serverFd
       case RoleWire => ShapeOf(t).Linked? ==> ev.fd == t.wireFd
       case RoleClient => ShapeOf(t).Linked? ==> ev.fd == t.clientFd
  }

  predicate Apart(a: Event, b: Event) {
    a.ctx.inst == b.ctx.inst ==> !a.ctx.role.RoleServer? && !b.ctx.role.RoleServer?
  }

  predicate EventAt(w: World, ev: Event) {
    ev.ctx.inst < |w.insts| && EventOk(w.insts[ev.ctx.inst], ev)
  }

  ghost predicate BatchOk(w: World) {
    && (forall k | 0 <= k < |w.batch| :: EventAt(w, w.batch[k]))
    && (forall k, l | 0 <= k < l < |w.batch| :: Apart(w.batch[k], w.batch[l]))
  }

  ghost predicate InstOk(w: World, i: nat) {
    if i < |w.insts| then ShapeOk(i, w.insts[i], w.epoll) else Free(w.epoll, i)
  }

  ghost predicate Inv(w: World) {
    TableOk(w.epoll) && BatchOk(w) && forall i: nat :: InstOk(w, i)
  }

  lemma CollectKeeps(w: World, fds: seq<int>)
    requires Inv(w) && Enabled(w, Collect(fds))
    ensures Inv(Next(w, Collect(fds)))
  {
    var w' := Next(w, Collect(fds));
    forall k | 0 <= k < |fds| ensures EventAt(w', w'.batch[k]) {
      ObservedOk(w, fds[k]);
    }
    forall k, l | 0 <= k < l < |fds| ensures Apart(w'.batch[k], w'.batch[l]) {
      ObservedApart(w, fds[k], fds[l]);
    }
    forall i: nat ensures InstOk(w', i) {
      assert InstOk(w, i);
    }
  }

  lemma RegisteredMine(w: World, fd: int)
    requires Inv(w) && Registered(w, fd)
    ensures var c := w.epoll.watched[fd]; fd in WatchedOf(c.inst, w.insts[c.inst]) && WatchedOf(c.inst, w.insts[c.inst])[fd] == c
  {
    var i := w.epoll.watched[fd].inst;
    assert InstOk(w, i);
    assert fd in Mine(w.epoll.watched, i);
  }

  lemma ObservedOk(w: World, fd: int)
    requires Inv(w) && Registered(w, fd)
    ensures EventAt(w, Observed(w, fd))
  {
    RegisteredMine(w, fd);
    assert InstOk(w, w.epoll.watched[fd].inst);
  }

  lemma ObservedApart(w: World, fd: int, fd': int)
    requires Inv(w) && Registered(w, fd) && Registered(w, fd') && fd != fd'
    ensures Apart(Observed(w, fd), Observed(w, fd'))
  {
    RegisteredMine(w, fd);
    RegisteredMine(w, fd');
  }

  lemma OtherInst(w: World, i: nat, d: Desk, j: nat)
    requires Inv(w) && i < |w.insts| && j != i && OthersSame(i, w.epoll, d.epoll)
    ensures InstOk(Put(w, i, d), j)
  {
    assert InstOk(w, j);
  }

  lemma EventStays(t: Inst, t': Inst, ev: Event)
    requires EventOk(t, ev) && !ev.ctx.role.RoleServer?
    requires t'.log.session == t.log.session
    requires ShapeOf(t').Linked? ==> t.state == Relaying && t'.wireFd == t.wireFd && t'.clientFd == t.clientFd
    ensures EventOk(t', ev)
  {}

  lemma BatchMovesOn(w: World, x: Answer)
    requires Inv(w) && Enabled(w, HandleNext(x))
    ensures BatchOk(Next(w, HandleNext(x)))
  {
    var w' := Next(w, HandleNext(x));
    var i := w.batch[0].ctx.inst;
    forall k | 0 <= k < |w'.batch| ensures EventAt(w', w'.batch[k]) {
      var ev := w.batch[k + 1];
      assert EventAt(w, ev) && EventAt(w, w.batch[0]) && Apart(w.batch[0], ev);
      if ev.ctx.inst == i {
        SessionKept(i, DeskOf(w, i), x);
        EventStays(w.insts[i], w'.insts[i], ev);
      }
    }
    forall k, l | 0 <= k < l < |w'.batch| ensures Apart(w'.batch[k], w'.batch[l]) {
      assert Apart(w.batch[k + 1], w.batch[l + 1]);
    }
  }

  lemma HandleKeeps(w: World, x: Answer)
    requires Inv(w) && Enabled(w, HandleNext(x))
    ensures var w' := Next(w, HandleNext(x));
      && (w'.epoll.aborted <==> Fatal(ShapeOf(w.insts[w.batch[0].ctx.inst]), x))
      && (!w'.epoll.aborted ==> Inv(w'))
  {
    var w' := Next(w, HandleNext(x));
    var i := w.batch[0].ctx.inst;
    assert InstOk(w, i);
    var d := Dispatch(i, DeskOf(w, i), x);
    DispatchShape(i, DeskOf(w, i), x);
    BatchMovesOn(w, x);
    forall j: nat ensures !w'.epoll.aborted ==> InstOk(w', j) {
      if j != i {
        OtherInst(w, i, d, j);
      }
    }
  }

  lemma WireKeeps(w: World, i: nat, f: Fifo)
    requires Inv(w) && Enabled(w, WireMoves(i, f))
    ensures Inv(Next(w, WireMoves(i, f)))
  {
    var w' := Next(w, WireMoves(i, f));
    forall j: nat ensures InstOk(w', j) {
      assert InstOk(w, j);
    }
    forall k | 0 <= k < |w'.batch| ensures EventAt(w', w'.batch[k]) {
      assert EventAt(w, w.batch[k]);
    }
  }

  lemma StepKeepsInv(w: World, a: Action)
    requires Inv(w) && Enabled(w, a)
    ensures Next(w, a).epoll.aborted || Inv(Next(w, a))
  {
    match a {
      case Collect(fds) => CollectKeeps(w, fds);
      case HandleNext(x) => HandleKeeps(w, x);
      case WireMoves(i, f) => WireKeeps(w, i, f);
    }
  }

  lemma {:induction false} RunKeepsInv(w: World, run: seq<Action>)
    requires Inv(w) && Runs(w, run)
    ensures After(w, run).epoll.aborted || Inv(After(w, run))
  {
    if run != [] {
      RunKeepsInv(w, run[..|run| - 1]);
      StepKeepsInv(After(w, run[..|run| - 1]), run[|run| - 1]);
    }
  }
}

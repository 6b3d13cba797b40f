// What every handler of an instance does to its descriptors and to the epoll
// set, whatever the calls it makes answer.
module RelayShapes {
  import opened Relay

  // --- which answers the kernel can give ---

  // A read may return bytes if the session was not at its end when it began.
  predicate ReadOk(f: Fifo, g: Fifo) {
    !f.reset && Later(f, g) && g.gone < g.arrived
  }

  predicate ReadsOk(f: Fifo, found: seq<Fifo>) {
    forall k | 0 <= k < |found| :: ReadOk(AfterReads(f, found[..k]), found[k])
  }

  // Opening yields a descriptor number that is not in use.
  predicate Unused(e: Epoll, r: Reopened) {
    r.NewWire? ==> r.fd !in e.open
  }

  predicate EndOk(d: Desk, last: Fifo, end: DrainEnd) {
    match end
    case Empty => last.gone == last.arrived
    case ReadFails => true
    case AtEof(closed, r) => Later(last, closed) && Unused(Close(d.epoll, d.inst.wireFd), r)
  }

  // d is the desk with the client closed and the wire deregistered.
  predicate DrainOk(d: Desk, a: Drain) {
    match a
    case FcntlFails => true
    case Drains(found, last, end) =>
      && d.inst.wireFd >= 0
      && ReadsOk(d.inst.fifo, found)
      && Later(AfterReads(d.inst.fifo, found), last)
      && EndOk(d, last, end)
  }

  predicate WireOk(d: Desk, a: WireCall) {
    match a
    case WireFails => true
    case WireEof(closed, r) =>
      d.inst.wireFd >= 0 && Later(d.inst.fifo, closed) && Unused(Close(d.epoll, d.inst.wireFd), r)
    case Forwarded(at) => d.inst.wireFd >= 0 && d.inst.clientFd >= 0 && ReadOk(d.inst.fifo, at)
    case CutShort(at, n, drain) =>
      && d.inst.wireFd >= 0 && ReadOk(d.inst.fifo, at) && n < Amount(at)
      && DrainOk(DelWire(ClientClose(d.(inst := Send(d.inst, at, n)))), drain)
  }

  predicate ClientOk(d: Desk, a: ClientCall) {
    match a
    case FromClient => d.inst.clientFd >= 0
    case ClientEnds(drain) => DrainOk(DelWire(ClientClose(d)), drain)
  }

  predicate ServerOk(d: Desk, a: Accept) {
    a.Accepted? ==> d.inst.serverFd >= 0 && a.fd !in d.epoll.open
  }

  // A handler that its state guard stops makes no call.
  predicate AnswerOk(d: Desk, a: Answer) {
    match a
    case ServerAnswer(x) => d.inst.state == WaitClient ==> ServerOk(d, x)
    case WireAnswer(x) => d.inst.state == Relaying ==> WireOk(d, x)
    case ClientAnswer(x) => d.inst.state == Relaying ==> ClientOk(d, x)
  }

  // --- the part of a table that belongs to one instance ---

  function Mine(m: map<int, Ctx>, i: nat): map<int, Ctx> {
    map fd | fd in m && m[fd].inst == i :: m[fd]
  }

  ghost predicate OthersSame(i: nat, e: Epoll, e': Epoll) {
    forall j: nat | j != i :: Mine(e'.open, j) == Mine(e.open, j) && Mine(e'.watched, j) == Mine(e.watched, j)
  }

  // Only open descriptors are registered, each with its own context.
  predicate TableOk(e: Epoll) {
    && (forall fd | fd in e.open :: fd >= 0)
    && (forall fd | fd in e.watched :: fd in e.open && e.watched[fd] == e.open[fd])
  }

  // --- the shapes an instance can have ---

  // Waiting and Linked are the two states of the protocol; the others are what a
  // failed reopen of the wire leaves behind.
  datatype Shape = Waiting | Linked | Adrift | Stuck | Offline

  function ShapeOf(t: Inst): Shape {
    if t.state == WaitClient then if t.wireFd >= 0 then Waiting else Stuck
    else if t.wireFd >= 0 then Linked
    else if t.serverFd >= 0 then Adrift
    else Offline
  }

  predicate FdsOk(t: Inst) {
    match ShapeOf(t)
    case Waiting => t.serverFd >= 0 && t.clientFd == -1 && t.serverFd != t.wireFd
    case Linked => t.serverFd >= 0 && t.clientFd >= 0 && t.serverFd != t.wireFd && t.clientFd != t.wireFd && t.clientFd != t.serverFd
    case Adrift => t.wireFd == -1 && t.clientFd == -1
    case Stuck => t.wireFd == -1 && t.clientFd == -1 && t.serverFd >= 0
    case Offline => t.wireFd == -1 && t.clientFd == -1 && t.serverFd == -1
  }

  function OpenOf(i: nat, t: Inst): map<int, Ctx> {
    var wire, server, client := map[t.wireFd := Ctx(i, RoleWire)], map[t.serverFd := Ctx(i, RoleServer)], map[t.clientFd := Ctx(i, RoleClient)];
    match ShapeOf(t)
    case Waiting => wire + server
    case Linked => wire + server + client
    case Adrift => server
    case Stuck => server
    case Offline => map[]
  }

  function WatchedOf(i: nat, t: Inst): map<int, Ctx> {
    match ShapeOf(t)
    case Waiting => map[t.serverFd := Ctx(i, RoleServer)]
    case Linked => map[t.wireFd := Ctx(i, RoleWire)] + map[t.clientFd := Ctx(i, RoleClient)]
    case Adrift => map[]
    case Stuck => map[t.serverFd := Ctx(i, RoleServer)]
    case Offline => map[]
  }

  // The descriptors of the instance and its registrations are exactly these.
  predicate ShapeOk(i: nat, t: Inst, e: Epoll) {
    FdsOk(t) && Mine(e.open, i) == OpenOf(i, t) && Mine(e.watched, i) == WatchedOf(i, t)
  }

  // Nothing open or registered belongs to instance j.
  predicate Free(e: Epoll, j: nat) {
    Mine(e.open, j) == map[] && Mine(e.watched, j) == map[]
  }

  // --- one operation on the tables ---

  // The descriptor is this instance's own, or not open at all.
  predicate Own(i: nat, e: Epoll, fd: int) {
    fd in e.open ==> e.open[fd].inst == i
  }

  lemma DelKeeps(i: nat, e: Epoll, fd: int)
    requires TableOk(e) && Own(i, e, fd)
    ensures TableOk(Del(e, fd)) && OthersSame(i, e, Del(e, fd))
    ensures Mine(Del(e, fd).open, i) == Mine(e.open, i)
    ensures Mine(Del(e, fd).watched, i) == Mine(e.watched, i) - {fd}
  {}

  lemma CloseKeeps(i: nat, e: Epoll, fd: int)
    requires TableOk(e) && Own(i, e, fd)
    ensures TableOk(Close(e, fd)) && OthersSame(i, e, Close(e, fd))
    ensures Mine(Close(e, fd).open, i) == Mine(e.open, i) - {fd}
    ensures Mine(Close(e, fd).watched, i) == Mine(e.watched, i) - {fd}
  {}

  lemma OpenedKeeps(i: nat, e: Epoll, fd: nat, c: Ctx)
    requires TableOk(e) && fd !in e.open && c.inst == i
    ensures TableOk(Opened(e, fd, c)) && OthersSame(i, e, Opened(e, fd, c))
    ensures Mine(Opened(e, fd, c).open, i) == Mine(e.open, i)[fd := c]
    ensures Mine(Opened(e, fd, c).watched, i) == Mine(e.watched, i)
  {}

  lemma AddKeeps(i: nat, e: Epoll, fd: int, c: Ctx)
    requires TableOk(e) && !e.aborted && c.inst == i
    requires fd in Mine(e.open, i) ==> Mine(e.open, i)[fd] == c
    requires Own(i, e, fd)
    ensures TableOk(Add(e, fd, c)) && OthersSame(i, e, Add(e, fd, c))
    ensures Mine(Add(e, fd, c).open, i) == Mine(e.open, i)
    ensures Add(e, fd, c).aborted <==> fd !in Mine(e.open, i) || fd in Mine(e.watched, i)
    ensures !Add(e, fd, c).aborted ==> Mine(Add(e, fd, c).watched, i) == Mine(e.watched, i)[fd := c]
  {}

  // --- the pieces of a handler ---

  // From one desk to the next only this instance's part of the tables changes.
  ghost predicate Moves(i: nat, d: Desk, d': Desk) {
    TableOk(d'.epoll) && OthersSame(i, d.epoll, d'.epoll)
  }

  // The wire and the server are open and nothing is registered.
  predicate Detached(i: nat, d: Desk) {
    var t := d.inst;
    && t.clientFd == -1 && t.serverFd >= 0 && t.wireFd >= 0 && t.serverFd != t.wireFd
    && Mine(d.epoll.open, i) == map[t.wireFd := Ctx(i, RoleWire)] + map[t.serverFd := Ctx(i, RoleServer)]
    && Mine(d.epoll.watched, i) == map[]
  }

  // Only the server is open and nothing is registered.
  predicate Bare(i: nat, d: Desk) {
    var t := d.inst;
    && t.clientFd == -1 && t.serverFd >= 0 && t.wireFd == -1
    && Mine(d.epoll.open, i) == map[t.serverFd := Ctx(i, RoleServer)]
    && Mine(d.epoll.watched, i) == map[]
  }

  lemma ClientCloses(i: nat, d: Desk)
    requires TableOk(d.epoll) && d.inst.clientFd >= 0 && d.inst.clientFd in Mine(d.epoll.open, i)
    ensures var d' := ClientClose(d);
      && Moves(i, d, d') && d'.epoll.aborted == d.epoll.aborted
      && Mine(d'.epoll.open, i) == Mine(d.epoll.open, i) - {d.inst.clientFd}
      && Mine(d'.epoll.watched, i) == Mine(d.epoll.watched, i) - {d.inst.clientFd}
  {
    var e1 := Del(d.epoll, d.inst.clientFd);
    DelKeeps(i, d.epoll, d.inst.clientFd);
    CloseKeeps(i, e1, d.inst.clientFd);
    assert Mine(d.epoll.watched, i) - {d.inst.clientFd} - {d.inst.clientFd} == Mine(d.epoll.watched, i) - {d.inst.clientFd};
  }

  lemma WireLeaves(i: nat, d: Desk)
    requires TableOk(d.epoll) && (d.inst.wireFd >= 0 ==> d.inst.wireFd in Mine(d.epoll.open, i))
    ensures var d' := DelWire(d);
      && Moves(i, d, d') && d'.epoll.aborted == d.epoll.aborted
      && Mine(d'.epoll.open, i) == Mine(d.epoll.open, i)
      && Mine(d'.epoll.watched, i) == Mine(d.epoll.watched, i) - {d.inst.wireFd}
  {
    DelKeeps(i, d.epoll, d.inst.wireFd);
  }

  lemma Detaches(i: nat, d: Desk)
    requires TableOk(d.epoll) && ShapeOk(i, d.inst, d.epoll) && ShapeOf(d.inst).Linked?
    ensures var d' := DelWire(ClientClose(d));
      Moves(i, d, d') && d'.epoll.aborted == d.epoll.aborted && Detached(i, d')
  {
    ClientCloses(i, d);
    WireLeaves(i, ClientClose(d));
  }

  lemma Reopens(i: nat, d: Desk, closed: Fifo, r: Reopened)
    requires TableOk(d.epoll) && Detached(i, d) && Unused(Close(d.epoll, d.inst.wireFd), r)
    ensures var d' := Reopen(i, d, closed, r);
      && Moves(i, d, d') && d'.epoll.aborted == d.epoll.aborted
      && (if r.NoWire? then Bare(i, d') else Detached(i, d'))
  {
    var e := Close(d.epoll, d.inst.wireFd);
    assert d.inst.wireFd in Mine(d.epoll.open, i);
    CloseKeeps(i, d.epoll, d.inst.wireFd);
    if r.NewWire? {
      ServerNumber(i, d, e);
      OpenedKeeps(i, e, r.fd, Ctx(i, RoleWire));
    }
  }

  lemma ServerNumber(i: nat, d: Desk, e: Epoll)
    requires Detached(i, d) && Mine(e.open, i) == Mine(d.epoll.open, i) - {d.inst.wireFd}
    ensures Mine(e.open, i) == map[d.inst.serverFd := Ctx(i, RoleServer)]
    ensures d.inst.serverFd in e.open
  {
    assert d.inst.serverFd in Mine(e.open, i);
  }

  lemma Waits(i: nat, d: Desk)
    requires TableOk(d.epoll) && !d.epoll.aborted && (Detached(i, d) || Bare(i, d))
    ensures var d' := EnterWait(i, d);
      Moves(i, d, d') && !d'.epoll.aborted && ShapeOk(i, d'.inst, d'.epoll) && !ShapeOf(d'.inst).Linked?
  {
    assert d.inst.serverFd in Mine(d.epoll.open, i);
    AddKeeps(i, d.epoll, d.inst.serverFd, Ctx(i, RoleServer));
  }

  // --- each handler ---

  lemma DrainShape(i: nat, d: Desk, a: Drain)
    requires TableOk(d.epoll) && !d.epoll.aborted && Detached(i, d) && DrainOk(d, a) && d.inst.state == Relaying
    ensures var d' := DrainAndWait(i, d, a);
      Moves(i, d, d') && !d'.epoll.aborted && ShapeOk(i, d'.inst, d'.epoll)
  {
    if a.Drains? && a.end.AtEof? {
      Reopens(i, d, a.end.closed, a.end.reopened);
      if a.end.reopened.NewWire? {
        Waits(i, Reopen(i, d, a.end.closed, a.end.reopened));
      }
    } else if a.Drains? {
      Waits(i, d.(inst := d.inst.(fifo := a.last)));
    } else {
      Waits(i, d);
    }
  }

  lemma CloseAndDrainShape(i: nat, d: Desk, a: Drain)
    requires TableOk(d.epoll) && !d.epoll.aborted && ShapeOk(i, d.inst, d.epoll) && ShapeOf(d.inst).Linked?
    requires DrainOk(DelWire(ClientClose(d)), a)
    ensures var d' := CloseAndDrain(i, d, a);
      Moves(i, d, d') && !d'.epoll.aborted && ShapeOk(i, d'.inst, d'.epoll)
  {
    Detaches(i, d);
    DrainShape(i, DelWire(ClientClose(d)), a);
  }

  // A stale client event after the wire was lost: nothing is open to drain.
  lemma LostDrainShape(i: nat, d: Desk, a: Drain)
    requires TableOk(d.epoll) && !d.epoll.aborted && ShapeOk(i, d.inst, d.epoll)
    requires ShapeOf(d.inst).Adrift? || ShapeOf(d.inst).Offline?
    requires DrainOk(DelWire(ClientClose(d)), a)
    ensures var d' := CloseAndDrain(i, d, a);
      && Moves(i, d, d')
      && (d'.epoll.aborted <==> ShapeOf(d.inst).Offline?)
      && (!d'.epoll.aborted ==> ShapeOk(i, d'.inst, d'.epoll))
  {
    WireLeaves(i, d);
    var d1 := DelWire(d);
    if ShapeOf(d.inst).Adrift? {
      Waits(i, d1);
    } else {
      AddKeeps(i, d1.epoll, -1, Ctx(i, RoleServer));
    }
  }

  lemma ServerShape(i: nat, d: Desk, a: Accept)
    requires TableOk(d.epoll) && !d.epoll.aborted && ShapeOk(i, d.inst, d.epoll)
    requires d.inst.state == WaitClient && a.Accepted? && ServerOk(d, a)
    ensures var d' := OnServer(i, d, a);
      && Moves(i, d, d')
      && (d'.epoll.aborted <==> ShapeOf(d.inst).Stuck?)
      && (!d'.epoll.aborted ==> ShapeOk(i, d'.inst, d'.epoll))
  {
    var t := d.inst;
    var e0 := Opened(d.epoll, a.fd, Ctx(i, RoleClient));
    OpenedKeeps(i, d.epoll, a.fd, Ctx(i, RoleClient));
    assert t.serverFd in Mine(d.epoll.open, i);
    assert t.wireFd >= 0 ==> t.wireFd in Mine(d.epoll.open, i);
    var e1 := Del(e0, t.serverFd);
    DelKeeps(i, e0, t.serverFd);
    assert Mine(e1.watched, i) == map[];
    LinksUp(i, d, e1, a.fd);
  }

  // The client is open and the server deregistered: register wire and client.
  lemma LinksUp(i: nat, d: Desk, e: Epoll, fd: nat)
    requires TableOk(e) && !e.aborted && FdsOk(d.inst) && d.inst.state == WaitClient
    requires fd != d.inst.wireFd && fd != d.inst.serverFd
    requires Mine(e.open, i) == OpenOf(i, d.inst)[fd := Ctx(i, RoleClient)] && Mine(e.watched, i) == map[]
    ensures var e' := Add(Add(e, d.inst.wireFd, Ctx(i, RoleWire)), fd, Ctx(i, RoleClient));
      && TableOk(e') && OthersSame(i, e, e')
      && (e'.aborted <==> ShapeOf(d.inst).Stuck?)
      && (!e'.aborted ==> ShapeOk(i, d.inst.(clientFd := fd, state := Relaying), e'))
  {
    AddsWire(i, d, e, fd);
    if ShapeOf(d.inst).Waiting? {
      AddKeeps(i, Add(e, d.inst.wireFd, Ctx(i, RoleWire)), fd, Ctx(i, RoleClient));
    }
  }

  lemma AddsWire(i: nat, d: Desk, e: Epoll, fd: nat)
    requires TableOk(e) && !e.aborted && FdsOk(d.inst) && d.inst.state == WaitClient
    requires fd != d.inst.wireFd && fd != d.inst.serverFd
    requires Mine(e.open, i) == OpenOf(i, d.inst)[fd := Ctx(i, RoleClient)] && Mine(e.watched, i) == map[]
    ensures var e' := Add(e, d.inst.wireFd, Ctx(i, RoleWire));
      && TableOk(e') && OthersSame(i, e, e')
      && Mine(e'.open, i) == Mine(e.open, i)
      && (e'.aborted <==> ShapeOf(d.inst).Stuck?)
      && (!e'.aborted ==> Mine(e'.watched, i) == map[d.inst.wireFd := Ctx(i, RoleWire)])
      && (e'.aborted ==> e' == e.(aborted := true))
  {
    assert ShapeOf(d.inst).Waiting? ==> d.inst.wireFd in Mine(e.open, i);
    AddKeeps(i, e, d.inst.wireFd, Ctx(i, RoleWire));
  }

  // The wire is gone and the client is still there.
  predicate Headless(i: nat, d: Desk) {
    var t := d.inst;
    && t.clientFd >= 0 && t.serverFd >= 0 && t.wireFd == -1 && t.serverFd != t.clientFd
    && Mine(d.epoll.open, i) == map[t.serverFd := Ctx(i, RoleServer)] + map[t.clientFd := Ctx(i, RoleClient)]
    && Mine(d.epoll.watched, i) == map[t.clientFd := Ctx(i, RoleClient)]
  }

  // The wire is open again and not registered, and the client is still there.
  predicate Rewired(i: nat, d: Desk) {
    var t := d.inst;
    && t.clientFd >= 0 && t.serverFd >= 0 && t.wireFd >= 0
    && t.serverFd != t.clientFd && t.wireFd != t.clientFd && t.wireFd != t.serverFd
    && Mine(d.epoll.open, i) == map[t.wireFd := Ctx(i, RoleWire)] + map[t.serverFd := Ctx(i, RoleServer)] + map[t.clientFd := Ctx(i, RoleClient)]
    && Mine(d.epoll.watched, i) == map[t.clientFd := Ctx(i, RoleClient)]
  }

  lemma EofLeaves(i: nat, d: Desk)
    requires TableOk(d.epoll) && ShapeOk(i, d.inst, d.epoll) && ShapeOf(d.inst).Linked?
    ensures var d' := Desk(d.inst.(wireFd := -1), Close(DelWire(d).epoll, d.inst.wireFd));
      Moves(i, d, d') && d'.epoll.aborted == d.epoll.aborted && Headless(i, d')
  {
    assert d.inst.wireFd in Mine(d.epoll.open, i);
    WireLeaves(i, d);
    CloseKeeps(i, DelWire(d).epoll, d.inst.wireFd);
    assert Mine(Close(DelWire(d).epoll, d.inst.wireFd).watched, i) == map[d.inst.clientFd := Ctx(i, RoleClient)];
  }

  lemma EofReopens(i: nat, d: Desk, closed: Fifo, r: Reopened)
    requires TableOk(d.epoll) && ShapeOk(i, d.inst, d.epoll) && ShapeOf(d.inst).Linked?
    requires Unused(Close(d.epoll, d.inst.wireFd), r)
    ensures var d' := Reopen(i, DelWire(d), closed, r);
      && Moves(i, d, d') && d'.epoll.aborted == d.epoll.aborted
      && (if r.NoWire? then Headless(i, d') else Rewired(i, d'))
  {
    EofLeaves(i, d);
    var e := Close(DelWire(d).epoll, d.inst.wireFd);
    if r.NewWire? {
      assert d.inst.serverFd in Mine(e.open, i) && d.inst.clientFd in Mine(e.open, i);
      OpenedKeeps(i, e, r.fd, Ctx(i, RoleWire));
    }
  }

  lemma HeadlessCloses(i: nat, d: Desk)
    requires TableOk(d.epoll) && Headless(i, d)
    ensures var d' := ClientClose(d);
      Moves(i, d, d') && d'.epoll.aborted == d.epoll.aborted && Bare(i, d')
  {
    ClientCloses(i, d);
  }

  lemma RewiredCloses(i: nat, d: Desk)
    requires TableOk(d.epoll) && Rewired(i, d)
    ensures var d' := ClientClose(d);
      Moves(i, d, d') && d'.epoll.aborted == d.epoll.aborted && Detached(i, d')
  {
    ClientCloses(i, d);
  }

  lemma BareDestroyed(i: nat, d: Desk)
    requires TableOk(d.epoll) && Bare(i, d) && d.inst.state == Relaying
    ensures var d' := Destroy(d);
      Moves(i, d, d') && d'.epoll.aborted == d.epoll.aborted && ShapeOk(i, d'.inst, d'.epoll)
  {
    assert d.inst.serverFd in Mine(d.epoll.open, i);
    CloseKeeps(i, d.epoll, d.inst.serverFd);
  }

  lemma EofShape(i: nat, d: Desk, closed: Fifo, r: Reopened)
    requires TableOk(d.epoll) && !d.epoll.aborted && ShapeOk(i, d.inst, d.epoll) && ShapeOf(d.inst).Linked?
    requires Unused(Close(d.epoll, d.inst.wireFd), r)
    ensures var d' := OnWire(i, d, WireEof(closed, r));
      Moves(i, d, d') && !d'.epoll.aborted && ShapeOk(i, d'.inst, d'.epoll)
  {
    EofReopens(i, d, closed, r);
    var d1 := Reopen(i, DelWire(d), closed, r);
    if r.NoWire? {
      HeadlessCloses(i, d1);
      BareDestroyed(i, ClientClose(d1));
    } else {
      RewiredCloses(i, d1);
      Waits(i, ClientClose(d1));
    }
  }

  lemma CutShape(i: nat, d: Desk, at: Fifo, n: nat, drain: Drain)
    requires TableOk(d.epoll) && !d.epoll.aborted && ShapeOk(i, d.inst, d.epoll) && ShapeOf(d.inst).Linked?
    requires DrainOk(DelWire(ClientClose(d.(inst := Send(d.inst, at, n)))), drain)
    ensures var d' := OnWire(i, d, CutShort(at, n, drain));
      Moves(i, d, d') && !d'.epoll.aborted && ShapeOk(i, d'.inst, d'.epoll)
  {
    CloseAndDrainShape(i, d.(inst := Send(d.inst, at, n)), drain);
  }

  lemma WireShape(i: nat, d: Desk, a: WireCall)
    requires TableOk(d.epoll) && !d.epoll.aborted && ShapeOk(i, d.inst, d.epoll)
    requires d.inst.state == Relaying && WireOk(d, a)
    ensures var d' := OnWire(i, d, a);
      Moves(i, d, d') && !d'.epoll.aborted && ShapeOk(i, d'.inst, d'.epoll)
  {
    match a {
      case WireFails =>
      case WireEof(closed, r) => EofShape(i, d, closed, r);
      case Forwarded(at) =>
      case CutShort(at, n, drain) => CutShape(i, d, at, n, drain);
    }
  }

  lemma ClientShape(i: nat, d: Desk, a: ClientCall)
    requires TableOk(d.epoll) && !d.epoll.aborted && ShapeOk(i, d.inst, d.epoll)
    requires d.inst.state == Relaying && ClientOk(d, a)
    ensures var d' := OnClient(i, d, a);
      && Moves(i, d, d')
      && (d'.epoll.aborted <==> ShapeOf(d.inst).Offline?)
      && (!d'.epoll.aborted ==> ShapeOk(i, d'.inst, d'.epoll))
  {
    if a.ClientEnds? {
      if ShapeOf(d.inst).Linked? {
        CloseAndDrainShape(i, d, a.drain);
      } else {
        LostDrainShape(i, d, a.drain);
      }
    }
  }

  // --- any handler ---

  // Registering a descriptor that is not open aborts the process.
  predicate Fatal(s: Shape, a: Answer) {
    (s.Stuck? && a.ServerAnswer? && a.accept.Accepted?) || (s.Offline? && a.ClientAnswer?)
  }

  lemma HandleShape(i: nat, d: Desk, a: Answer)
    requires TableOk(d.epoll) && !d.epoll.aborted && ShapeOk(i, d.inst, d.epoll) && AnswerOk(d, a)
    ensures var d' := Handle(i, d, a);
      && Moves(i, d, d')
      && (d'.epoll.aborted <==> Fatal(ShapeOf(d.inst), a))
      && (!d'.epoll.aborted ==> ShapeOk(i, d'.inst, d'.epoll))
  {
    match a {
      case ServerAnswer(x) =>
        if d.inst.state == WaitClient && x.Accepted? {
          ServerShape(i, d, x);
        }
      case WireAnswer(x) =>
        if d.inst.state == Relaying {
          WireShape(i, d, x);
        }
      case ClientAnswer(x) =>
        if d.inst.state == Relaying {
          ClientShape(i, d, x);
        }
    }
  }

  // Whatever a handler is told, the tables stay in order, no other instance is
  // touched, this one keeps to the five shapes, and the process aborts exactly
  // when a client is accepted without a wire or a late event reaches an instance
  // that is offline.
  lemma DispatchShape(i: nat, d: Desk, a: Answer)
    requires TableOk(d.epoll) && !d.epoll.aborted && ShapeOk(i, d.inst, d.epoll) && AnswerOk(d, a)
    ensures var d' := Dispatch(i, d, a);
      && Moves(i, d, d')
      && (d'.epoll.aborted <==> Fatal(ShapeOf(d.inst), a))
      && (!d'.epoll.aborted ==> ShapeOk(i, d'.inst, d'.epoll))
  {
    HandleShape(i, d, a);
  }

  // --- reopens that succeed ---

  predicate DrainReopens(a: Drain) {
    a.Drains? && a.end.AtEof? ==> a.end.reopened.NewWire?
  }

  predicate Reopening(a: Answer) {
    match a
    case ServerAnswer(_) => true
    case WireAnswer(x) => (
      match x
      case WireEof(_, r) => r.NewWire?
      case CutShort(_, _, drain) => DrainReopens(drain)
      case _ => true)
    case ClientAnswer(x) => x.ClientEnds? ==> DrainReopens(x.drain)
  }

  predicate Healthy(s: Shape) {
    s.Waiting? || s.Linked?
  }

  lemma StaysHealthy(i: nat, d: Desk, a: Answer)
    requires Healthy(ShapeOf(d.inst)) && Reopening(a)
    ensures Healthy(ShapeOf(Dispatch(i, d, a).inst))
  {
    match a {
      case ServerAnswer(x) =>
      case WireAnswer(x) =>
        if x.CutShort? {
          DrainHealthy(i, d.(inst := Send(d.inst, x.at, x.sent)), x.drain);
        }
      case ClientAnswer(x) =>
        if x.ClientEnds? {
          DrainHealthy(i, d, x.drain);
        }
    }
  }

  lemma DrainHealthy(i: nat, d: Desk, a: Drain)
    requires d.inst.wireFd >= 0 && DrainReopens(a)
    ensures CloseAndDrain(i, d, a).inst.wireFd >= 0
  {}

  // --- sessions ---

  // Only accepting starts a session; any other handler either changes no
  // descriptor or leaves the relaying state or the wire behind.
  lemma SessionKept(i: nat, d: Desk, a: Answer)
    requires !a.ServerAnswer?
    ensures var t, t' := d.inst, Dispatch(i, d, a).inst;
      && t'.log.session == t.log.session
      && (ShapeOf(t').Linked? ==> t.state == Relaying && t'.wireFd == t.wireFd && t'.clientFd == t.clientFd)
  {}
}

// Start-up and shutdown of the daemon: all instances or none.
module RelayStartup {
  import opened Relay
  import opened RelayShapes
  import opened RelayProtocol
  import opened RelayTheorems
  import opened RelayLeaks
  import opened RelayDaemon
  import opened RelayLoop

  // How far starting one instance gets, with the descriptors it was given.
  datatype Start =
    | NoWireDevice
    | NoSocket(wire: nat)
    | PathTooLong(wire: nat, server: nat)
    | BindFails(wire: nat, server: nat)
    | ListenFails(wire: nat, server: nat)
    | Ready(wire: nat, server: nat, found: Fifo)

  predicate Unlinks(a: Start) {
    !a.NoWireDevice? && !a.NoSocket?
  }

  // The kernel hands out descriptors that are not in use.
  predicate StartOk(e: Epoll, a: Start) {
    match a
    case NoWireDevice => true
    case NoSocket(wire) => wire !in e.open
    case Ready(wire, server, found) => wire !in e.open && server !in e.open && server != wire && found.gone <= found.arrived && !found.reset
    case _ => a.wire !in e.open && a.server !in e.open && a.server != a.wire
  }

  // The socket paths that exist, by instance.
  class SocketDir {
    var paths: set<nat>

    constructor (p: set<nat>)
      ensures paths == p
    {
      paths := p;
    }

    method Unlink(i: nat)
      modifies this
      ensures paths == old(paths) - {i}
    {
      paths := paths - {i};
    }

    method Bind(i: nat)
      modifies this
      ensures paths == old(paths) + {i}
    {
      paths := paths + {i};
    }
  }

  function Started(i: nat, e: Epoll, wire: nat, server: nat): Epoll {
    Add(Opened(Opened(e, wire, Ctx(i, RoleWire)), server, Ctx(i, RoleServer)), server, Ctx(i, RoleServer))
  }

  lemma StartsWaiting(i: nat, e: Epoll, t: Inst)
    requires TableOk(e) && !e.aborted && Free(e, i)
    requires t.wireFd >= 0 && t.serverFd >= 0 && t.clientFd == -1 && t.state == WaitClient
    requires t.wireFd !in e.open && t.serverFd !in e.open && t.wireFd != t.serverFd
    ensures var e' := Started(i, e, t.wireFd, t.serverFd);
      TableOk(e') && OthersSame(i, e, e') && !e'.aborted && ShapeOk(i, t, e')
  {
    var e1 := Opened(e, t.wireFd, Ctx(i, RoleWire));
    OpenedKeeps(i, e, t.wireFd, Ctx(i, RoleWire));
    var e2 := Opened(e1, t.serverFd, Ctx(i, RoleServer));
    OpenedKeeps(i, e1, t.serverFd, Ctx(i, RoleServer));
    assert t.serverFd in Mine(e2.open, i);
    AddKeeps(i, e2, t.serverFd, Ctx(i, RoleServer));
  }

  lemma OpenThenClose(e: Epoll, fd: int, c: Ctx)
    requires TableOk(e) && fd !in e.open
    ensures Close(Opened(e, fd, c), fd) == e
  {
    assert Close(Opened(e, fd, c), fd).open == e.open;
    assert Close(Opened(e, fd, c), fd).watched == e.watched;
  }

  // Either the instance waits for a client with its two descriptors open, its
  // socket bound and its server registered, or everything is as it was, but for
  // the stale socket that was removed.
  method InstanceInit(t: UartInstance, ep: EpollSet, dir: SocketDir, a: Start) returns (ok: bool)
    requires TableOk(ep.View()) && !ep.aborted && StartOk(ep.View(), a)
    modifies t, ep, dir
    ensures ok <==> a.Ready?
    ensures t.log == old(t.log) && t.clientFd == -1 && t.state == WaitClient
    ensures ok ==> t.wireFd == a.wire && t.serverFd == a.server && t.fifo == a.found
    ensures ok ==> ep.View() == Started(t.idx, old(ep.View()), a.wire, a.server) && dir.paths == old(dir.paths) + {t.idx}
    ensures !ok ==> t.wireFd == t.serverFd == -1 && ep.View() == old(ep.View())
    ensures !ok ==> dir.paths == old(dir.paths) - if Unlinks(a) then {t.idx} else {}
  {
    t.clientFd, t.wireFd, t.serverFd, t.state := -1, -1, -1, WaitClient;
    ghost var e := ep.View();
    if a.NoWireDevice? {
      return false;
    }
    t.wireFd := a.wire;
    ep.Opened(a.wire, Ctx(t.idx, RoleWire));
    OpenThenClose(e, a.wire, Ctx(t.idx, RoleWire));
    ghost var e1 := ep.View();
    if !a.NoSocket? {
      t.serverFd := a.server;
      ep.Opened(a.server, Ctx(t.idx, RoleServer));
      OpenThenClose(e1, a.server, Ctx(t.idx, RoleServer));
      dir.Unlink(t.idx);
      if a.ListenFails? || a.Ready? {
        dir.Bind(t.idx);
      }
      if a.Ready? {
        t.fifo := a.found;
        ep.Add(t.serverFd, Ctx(t.idx, RoleServer));
        return true;
      }
      if a.ListenFails? {
        dir.Unlink(t.idx);
      }
      ep.Close(t.serverFd);
      t.serverFd := -1;
    }
    ep.Close(t.wireFd);
    t.wireFd := -1;
    ok := false;
  }

  lemma ClosedMine(i: nat, e: Epoll, fd: int)
    requires TableOk(e) && (fd >= 0 ==> fd in Mine(e.open, i))
    ensures var e' := CloseIf(e, fd);
      && TableOk(e') && OthersSame(i, e, e') && e'.aborted == e.aborted
      && Mine(e'.open, i) == Mine(e.open, i) - {fd} && Mine(e'.watched, i) == Mine(e.watched, i) - {fd}
  {
    if fd >= 0 {
      CloseKeeps(i, e, fd);
    } else {
      assert fd !in Mine(e.open, i) && fd !in Mine(e.watched, i);
    }
  }

  lemma OpenFds(i: nat, t: Inst, e: Epoll)
    requires TableOk(e) && ShapeOk(i, t, e)
    ensures t.clientFd >= 0 ==> t.clientFd in Mine(e.open, i)
    ensures t.serverFd >= 0 ==> t.serverFd in Mine(e.open, i)
    ensures t.wireFd >= 0 ==> t.wireFd in Mine(e.open, i)
    ensures t.clientFd != t.serverFd || t.clientFd < 0
    ensures t.clientFd != t.wireFd || t.clientFd < 0
    ensures t.serverFd != t.wireFd || t.serverFd < 0
    ensures Mine(e.open, i).Keys <= {t.clientFd, t.serverFd, t.wireFd}
    ensures Mine(e.watched, i).Keys <= {t.clientFd, t.serverFd, t.wireFd}
  {}

  // Whatever shape an instance is in, destroying it releases all it has.
  lemma DestroyFrees(i: nat, d: Desk)
    requires TableOk(d.epoll) && ShapeOk(i, d.inst, d.epoll)
    ensures var e := Destroy(d).epoll;
      TableOk(e) && OthersSame(i, d.epoll, e) && e.aborted == d.epoll.aborted && Free(e, i)
  {
    var t := d.inst;
    OpenFds(i, t, d.epoll);
    var e1 := CloseIf(d.epoll, t.clientFd);
    ClosedMine(i, d.epoll, t.clientFd);
    var e2 := CloseIf(e1, t.serverFd);
    ClosedMine(i, e1, t.serverFd);
    ClosedMine(i, e2, t.wireFd);
  }

  lemma Belong(m: map<int, Ctx>)
    ensures forall fd | fd in m :: fd in Mine(m, m[fd].inst)
  {}

  lemma NoneBelong(m: map<int, Ctx>)
    requires forall j: nat :: Mine(m, j) == map[]
    ensures m == map[]
  {
    Belong(m);
    assert forall fd :: fd !in m;
  }

  lemma AllFree(e: Epoll)
    requires TableOk(e) && !e.aborted && forall j: nat :: Free(e, j)
    ensures e == Epoll(map[], map[], false)
  {
    assert forall j: nat :: Free(e, j) ==> Mine(e.open, j) == map[] && Mine(e.watched, j) == map[];
    NoneBelong(e.open);
    NoneBelong(e.watched);
  }

  ghost predicate PartOk(insts: seq<Inst>, lo: nat, hi: nat, e: Epoll, j: nat)
    requires hi <= |insts|
  {
    if lo <= j < hi then ShapeOk(j, insts[j], e) else Free(e, j)
  }

  // The instances from lo to hi have the shapes their fields say, the others nothing.
  ghost predicate Split(insts: seq<Inst>, lo: nat, hi: nat, e: Epoll) {
    TableOk(e) && lo <= hi <= |insts| && forall j: nat :: PartOk(insts, lo, hi, e, j)
  }

  // Destroying the last instance, or the first, leaves the others.
  lemma OneFewer(insts: seq<Inst>, lo: nat, hi: nat, k: nat, lo': nat, hi': nat, e: Epoll)
    requires Split(insts, lo, hi, e) && lo <= k < hi
    requires (k == hi - 1 && lo' == lo && hi' == k) || (k == lo && lo' == k + 1 && hi' == hi)
    ensures var e' := Destroy(Desk(insts[k], e)).epoll;
      Split(insts, lo', hi', e') && e'.aborted == e.aborted
  {
    var e' := Destroy(Desk(insts[k], e)).epoll;
    assert PartOk(insts, lo, hi, e, k);
    DestroyFrees(k, Desk(insts[k], e));
    forall j: nat ensures PartOk(insts, lo', hi', e', j) {
      assert PartOk(insts, lo, hi, e, j);
    }
  }

  lemma OneMore(insts: seq<Inst>, e: Epoll, t: Inst)
    requires Split(insts, 0, |insts|, e) && !e.aborted
    requires t.wireFd >= 0 && t.serverFd >= 0 && t.clientFd == -1 && t.state == WaitClient
    requires t.wireFd !in e.open && t.serverFd !in e.open && t.wireFd != t.serverFd
    ensures var e' := Started(|insts|, e, t.wireFd, t.serverFd);
      Split(insts + [t], 0, |insts| + 1, e') && !e'.aborted
  {
    var e' := Started(|insts|, e, t.wireFd, t.serverFd);
    assert PartOk(insts, 0, |insts|, e, |insts|);
    StartsWaiting(|insts|, e, t);
    var all, n := insts + [t], |insts| + 1;
    forall j: nat ensures PartOk(all, 0, n, e', j) {
      assert PartOk(insts, 0, |insts|, e, j);
    }
  }

  lemma NoneLeft(insts: seq<Inst>, k: nat, e: Epoll)
    requires Split(insts, k, k, e) && !e.aborted
    ensures e == Epoll(map[], map[], false)
  {
    forall j: nat ensures Free(e, j) {
      assert PartOk(insts, k, k, e, j);
    }
    AllFree(e);
  }

  lemma AllPresent(w: World)
    requires w.batch == []
    ensures Split(w.insts, 0, |w.insts|, w.epoll) <==> Inv(w)
  {
    forall i: nat ensures InstOk(w, i) <==> PartOk(w.insts, 0, |w.insts|, w.epoll, i) {}
    if Inv(w) {
      forall i: nat ensures PartOk(w.insts, 0, |w.insts|, w.epoll, i) {
        assert InstOk(w, i);
      }
    }
    if Split(w.insts, 0, |w.insts|, w.epoll) {
      forall i: nat ensures InstOk(w, i) {
        assert PartOk(w.insts, 0, |w.insts|, w.epoll, i);
      }
    }
  }

  // History and waiting events do not matter here.
  lemma InvWithoutBatch(w: World)
    requires Inv(w)
    ensures Inv(w.(batch := []))
  {
    forall i: nat ensures InstOk(w.(batch := []), i) {
      assert InstOk(w, i);
    }
  }

  // --- taking instances down ---

  // Unlink the socket and close what the instance holds.
  method InstanceDestroy(t: UartInstance, ep: EpollSet, dir: SocketDir)
    modifies t, ep, dir
    ensures t.Beside(ep) == Destroy(old(t.Beside(ep)))
    ensures dir.paths == old(dir.paths) - {t.idx}
  {
    dir.Unlink(t.idx);
    t.Destroy(ep);
  }

  ghost function Below(n: nat): (s: set<nat>)
    ensures forall j: nat :: j in s <==> j < n
  {
    if n == 0 then {} else Below(n - 1) + {n - 1}
  }

  // Destroy instances n - 1 down to 0.
  method DestroyAll(insts: seq<UartInstance>, n: nat, ep: EpollSet, dir: SocketDir)
    requires Numbered(insts) && n <= |insts| && Split(Views(insts), 0, n, ep.View())
    modifies insts, ep, dir
    ensures Split(Views(insts), 0, 0, ep.View()) && ep.aborted == old(ep.aborted)
    ensures dir.paths == old(dir.paths) - Below(n)
  {
    var k: nat := n;
    while k > 0
      invariant k <= n && Split(Views(insts), 0, k, ep.View()) && ep.aborted == old(ep.aborted)
      invariant dir.paths == old(dir.paths) - (Below(n) - Below(k))
    {
      k := k - 1;
      ghost var was, e := Views(insts), ep.View();
      OneFewer(was, 0, k + 1, k, 0, k, e);
      InstanceDestroy(insts[k], ep, dir);
      assert Below(k + 1) == Below(k) + {k};
      SplitIgnores(was, Views(insts), 0, k, ep.View());
    }
  }

  lemma SplitIgnores(insts: seq<Inst>, insts': seq<Inst>, lo: nat, hi: nat, e: Epoll)
    requires Split(insts, lo, hi, e) && |insts'| == |insts| && insts'[lo..hi] == insts[lo..hi]
    ensures Split(insts', lo, hi, e)
  {
    forall j: nat ensures PartOk(insts', lo, hi, e, j) {
      assert PartOk(insts, lo, hi, e, j);
      assert lo <= j < hi ==> insts'[j] == insts'[lo..hi][j - lo] && insts[j] == insts[lo..hi][j - lo];
    }
  }

  // --- start-up ---

  function FdsOf(a: Start): set<int> {
    match a
    case NoWireDevice => {}
    case NoSocket(wire) => {wire}
    case _ => {a.wire, a.server}
  }

  function UsedBy(answers: seq<Start>, n: nat): set<int>
    requires n <= |answers|
  {
    if n == 0 then {} else UsedBy(answers, n - 1) + FdsOf(answers[n - 1])
  }

  // All descriptors that stay open together have different numbers.
  ghost predicate AnswersOk(answers: seq<Start>) {
    forall i: nat | i < |answers| :: StartOk(Epoll(map[], map[], false), answers[i]) && FdsOf(answers[i]) !! UsedBy(answers, i)
  }

  // What a failed start-up has removed: the sockets of the instances it had
  // started, and a stale one of the instance that failed.
  ghost function Touched(k: nat, a: Start): set<nat> {
    Below(k) + if Unlinks(a) then {k} else {}
  }

  lemma StillUnused(answers: seq<Start>, k: nat, e: Epoll)
    requires AnswersOk(answers) && k < |answers| && e.open.Keys <= UsedBy(answers, k)
    ensures StartOk(e, answers[k])
  {
    assert FdsOf(answers[k]) !! e.open.Keys;
  }

  ghost predicate AsStarted(t: Inst) {
    ShapeOf(t).Waiting? && t.clientFd == -1 && t.log == Log(0, [], []) && !t.fifo.reset && t.fifo.gone <= t.fifo.arrived
  }

  ghost predicate AllReady(answers: seq<Start>, n: nat)
    requires n <= |answers|
  {
    forall i: nat | i < n :: answers[i].Ready?
  }

  ghost predicate AllAsStarted(insts: seq<Inst>) {
    forall i: nat | i < |insts| :: AsStarted(insts[i])
  }

  // The instance has the descriptors and the wire device it was given.
  predicate Given(t: Inst, a: Start) {
    a.Ready? && t.wireFd == a.wire && t.serverFd == a.server && t.fifo == a.found
  }

  ghost predicate AllGiven(insts: seq<Inst>, answers: seq<Start>) {
    |insts| <= |answers| && forall i: nat | i < |insts| :: Given(insts[i], answers[i])
  }

  lemma GivenAlso(insts: seq<Inst>, answers: seq<Start>, t: Inst)
    requires AllGiven(insts, answers) && |insts| < |answers| && Given(t, answers[|insts|])
    ensures AllGiven(insts + [t], answers)
  {}

  // The state of the loop before the next instance is started.
  ghost predicate Underway(insts: seq<Inst>, e: Epoll, answers: seq<Start>) {
    && |insts| <= |answers|
    && Split(insts, 0, |insts|, e) && !e.aborted
    && e.open.Keys <= UsedBy(answers, |insts|)
    && AllReady(answers, |insts|) && AllAsStarted(insts) && AllGiven(insts, answers)
  }

  lemma StartedFits(t: Inst)
    requires AsStarted(t)
    ensures Healthy(ShapeOf(t)) && LogOk(t, 0) && HistoryOk(t) && Ordered(t)
  {
    assert forall n: nat :: SentAt(t.log, n) && StretchOk(t.log, t.fifo.gone, n);
  }

  lemma AllStartedFit(w: World)
    requires Inv(w) && AllAsStarted(w.insts)
    ensures AllFit(w)
  {
    forall i: nat | i < |w.insts|
      ensures Healthy(ShapeOf(w.insts[i])) && LogOk(w.insts[i], 0) && HistoryOk(w.insts[i]) && Ordered(w.insts[i])
    {
      StartedFits(w.insts[i]);
    }
  }

  lemma OneStarted(insts: seq<Inst>, e: Epoll, answers: seq<Start>, t: Inst)
    requires Underway(insts, e, answers) && |insts| < |answers| && AnswersOk(answers)
    requires var a := answers[|insts|]; a.Ready? && t == Inst(a.wire, a.server, -1, WaitClient, a.found, Log(0, [], []))
    ensures Underway(insts + [t], Started(|insts|, e, t.wireFd, t.serverFd), answers)
  {
    StillUnused(answers, |insts|, e);
    OneMore(insts, e, t);
    StartedKeys(|insts|, e, t.wireFd, t.serverFd);
    StartedAlso(insts, t);
    ReadyAlso(answers, |insts|);
    GivenAlso(insts, answers, t);
    assert |insts + [t]| == |insts| + 1;
  }

  lemma StartedAlso(insts: seq<Inst>, t: Inst)
    requires AllAsStarted(insts) && t.wireFd >= 0 && t.clientFd == -1 && t.state == WaitClient
    requires t.log == Log(0, [], []) && t.fifo.gone <= t.fifo.arrived && !t.fifo.reset
    ensures AllAsStarted(insts + [t])
  {}

  lemma ReadyAlso(answers: seq<Start>, n: nat)
    requires n < |answers| && AllReady(answers, n) && answers[n].Ready?
    ensures AllReady(answers, n + 1)
  {}

  lemma StartedKeys(i: nat, e: Epoll, wire: nat, server: nat)
    ensures Started(i, e, wire, server).open.Keys == e.open.Keys + {wire, server}
  {
    var e1 := Opened(e, wire, Ctx(i, RoleWire));
    assert e1.open.Keys == e.open.Keys + {wire};
    assert Opened(e1, server, Ctx(i, RoleServer)).open.Keys == e1.open.Keys + {server};
  }

  // Start one more instance.
  method StartNext(insts: seq<UartInstance>, ep: EpollSet, dir: SocketDir, answers: seq<Start>)
    returns (ok: bool, t: UartInstance)
    requires |insts| < |answers| && AnswersOk(answers) && Numbered(insts) && Underway(Views(insts), ep.View(), answers)
    modifies ep, dir
    ensures fresh(t) && t.idx == |insts| && Views(insts) == old(Views(insts))
    ensures ok <==> answers[|insts|].Ready?
    ensures Underway(if ok then Views(insts) + [t.View()] else Views(insts), ep.View(), answers)
    ensures dir.paths == Paths(old(dir.paths), |insts|, ok, answers[|insts|])
  {
    ghost var e, was := ep.View(), Views(insts);
    StillUnused(answers, |insts|, e);
    t := new UartInstance(|insts|);
    ok := InstanceInit(t, ep, dir, answers[|insts|]);
    assert Views(insts) == was;
    if ok {
      OneStarted(was, e, answers, t.View());
    }
  }

  // The sockets after instance k was tried.
  ghost function Paths(before: set<nat>, k: nat, ok: bool, a: Start): set<nat> {
    if ok then before + {k} else before - if Unlinks(a) then {k} else {}
  }

  method TakeDown(insts: seq<UartInstance>, ep: EpollSet, dir: SocketDir)
    requires Numbered(insts) && Split(Views(insts), 0, |insts|, ep.View()) && !ep.aborted
    modifies insts, ep, dir
    ensures ep.View() == Epoll(map[], map[], false)
    ensures dir.paths == old(dir.paths) - Below(|insts|)
  {
    DestroyAll(insts, |insts|, ep, dir);
    NoneLeft(Views(insts), 0, ep.View());
  }

  // Start instances until all are started or one fails.
  method StartMany(ep: EpollSet, dir: SocketDir, answers: seq<Start>) returns (ok: bool, insts: seq<UartInstance>)
    requires ep.View() == Epoll(map[], map[], false) && AnswersOk(answers)
    modifies ep, dir
    ensures fresh(insts) && Numbered(insts) && Underway(Views(insts), ep.View(), answers)
    ensures if ok then |insts| == |answers| else |insts| < |answers| && !answers[|insts|].Ready?
    ensures ok ==> dir.paths == old(dir.paths) + Below(|answers|)
    ensures !ok ==> dir.paths == Paths(old(dir.paths) + Below(|insts|), |insts|, false, answers[|insts|])
  {
    insts := [];
    NothingStarted(ep.View(), answers);
    assert Views(insts) == [];
    while |insts| < |answers|
      invariant fresh(insts) && Numbered(insts) && Underway(Views(insts), ep.View(), answers)
      invariant dir.paths == old(dir.paths) + Below(|insts|)
      decreases |answers| - |insts|
    {
      var one, t := StartNext(insts, ep, dir, answers);
      if !one {
        ok := false;
        return;
      }
      OneMoreView(insts, t);
      OneMoreNumber(insts, t);
      insts := insts + [t];
    }
    ok := true;
  }

  lemma OneMoreView(insts: seq<UartInstance>, t: UartInstance)
    ensures Views(insts + [t]) == Views(insts) + [t.View()]
  {}

  lemma OneMoreNumber(insts: seq<UartInstance>, t: UartInstance)
    requires Numbered(insts) && t.idx == |insts|
    ensures Numbered(insts + [t]) && Below(|insts| + 1) == Below(|insts|) + {|insts|}
  {}

  // All instances start, or those already started are taken down again.  On
  // success the daemon is in a state from which the theorems about runs hold; on
  // failure nothing is open or registered and no socket is left behind.
  method StartAll(ep: EpollSet, dir: SocketDir, answers: seq<Start>) returns (ok: bool, insts: seq<UartInstance>)
    requires ep.View() == Epoll(map[], map[], false) && AnswersOk(answers)
    modifies ep, dir
    ensures fresh(insts)
    ensures if ok then |insts| == |answers| else |insts| < |answers| && !answers[|insts|].Ready?
    ensures ok ==> AllReady(answers, |answers|) && Numbered(insts) && AllFit(WorldOf(insts, ep, [])) && !ep.aborted
    ensures ok ==> AllAsStarted(Views(insts)) && AllGiven(Views(insts), answers) && dir.paths == old(dir.paths) + Below(|answers|)
    ensures !ok ==> ep.View() == Epoll(map[], map[], false) && dir.paths == old(dir.paths) - Touched(|insts|, answers[|insts|])
  {
    ok, insts := StartMany(ep, dir, answers);
    if ok {
      AllIsWell(Views(insts), ep.View(), answers);
    } else {
      TakeDown(insts, ep, dir);
    }
  }

  lemma AllIsWell(insts: seq<Inst>, e: Epoll, answers: seq<Start>)
    requires Underway(insts, e, answers) && |insts| == |answers|
    ensures AllFit(World(insts, e, [])) && AllReady(answers, |answers|) && AllAsStarted(insts)
  {
    AllPresent(World(insts, e, []));
    AllStartedFit(World(insts, e, []));
  }

  lemma NothingStarted(e: Epoll, answers: seq<Start>)
    requires e == Epoll(map[], map[], false)
    ensures Underway([], e, answers)
  {
    forall j: nat ensures PartOk([], 0, 0, e, j) {}
  }

  // On a signal every instance is destroyed, whatever state it is in: nothing is
  // left open or registered and no socket remains.
  method StopAll(insts: seq<UartInstance>, ep: EpollSet, dir: SocketDir, ghost rest: seq<Event>)
    requires Numbered(insts) && Inv(WorldOf(insts, ep, rest)) && !ep.aborted
    modifies insts, ep, dir
    ensures ep.View() == Epoll(map[], map[], false)
    ensures dir.paths == old(dir.paths) - Below(|insts|)
  {
    InvWithoutBatch(WorldOf(insts, ep, rest));
    AllPresent(WorldOf(insts, ep, []));
    var k: nat := 0;
    while k < |insts|
      invariant k <= |insts| && Split(Views(insts), k, |insts|, ep.View()) && !ep.aborted
      invariant dir.paths == old(dir.paths) - Below(k)
    {
      ghost var was, e := Views(insts), ep.View();
      OneFewer(was, k, |insts|, k, k + 1, |insts|, e);
      InstanceDestroy(insts[k], ep, dir);
      k := k + 1;
      SplitIgnores(was, Views(insts), k, |insts|, ep.View());
    }
    NoneLeft(Views(insts), k, ep.View());
  }
}

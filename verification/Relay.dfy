// One relay instance of the daemon: its three file descriptors, the wire device
// behind one of them, and the epoll set all instances share.  Each handler is a
// function of what the calls it makes answer; RelayDaemon does the same in place.
module Relay {

  const BUF: nat := 4096

  // --- descriptors and the epoll set ---

  datatype Role = RoleWire | RoleServer | RoleClient

  datatype Ctx = Ctx(inst: nat, role: Role)

  // The open descriptors of the process with what they are, and the registered
  // ones with the context their events carry.
  datatype Epoll = Epoll(open: map<int, Ctx>, watched: map<int, Ctx>, aborted: bool)

  // EPOLL_CTL_ADD fails for a descriptor that is not open or already registered,
  // and that failure aborts the process.
  function Add(e: Epoll, fd: int, c: Ctx): Epoll {
    if e.aborted then e
    else if fd in e.open && fd !in e.watched then e.(watched := e.watched[fd := c])
    else e.(aborted := true)
  }

  function Del(e: Epoll, fd: int): Epoll {
    e.(watched := e.watched - {fd})
  }

  // Closing a descriptor also removes it from the epoll set.
  function Close(e: Epoll, fd: int): Epoll {
    e.(open := e.open - {fd}, watched := e.watched - {fd})
  }

  function Opened(e: Epoll, fd: int, c: Ctx): Epoll {
    e.(open := e.open[fd := c])
  }

  // --- the wire device as its reader sees it ---

  // The bytes [gone, arrived) of the stream are in rx_fifo; reset says that this
  // session is at its end.
  datatype Fifo = Fifo(arrived: nat, gone: nat, reset: bool)

  // What the device may do by itself while a session is open: more bytes arrive,
  // a closing port throws bytes away, the bus is reset.
  predicate Later(f: Fifo, g: Fifo) {
    f.arrived <= g.arrived && f.gone <= g.gone && g.gone <= g.arrived && (f.reset ==> g.reset)
  }

  function Amount(f: Fifo): nat {
    if f.arrived <= f.gone then 0 else if f.arrived - f.gone < BUF then f.arrived - f.gone else BUF
  }

  // What one read of 4096 bytes returns.
  function Readable(f: Fifo): nat {
    if f.arrived <= f.gone then 0 else if f.arrived <= f.gone + 4096 then f.arrived - f.gone else 4096
  }

  function ReadSome(f: Fifo): Fifo {
    f.(gone := f.gone + Amount(f))
  }

  // Releasing the device throws away what is queued.
  function Released(f: Fifo): Fifo {
    f.(gone := f.arrived)
  }

  // --- one instance ---

  datatype State = WaitClient | Relaying

  // The stretch [from, to) of the wire stream handed to the simulator of a session.
  datatype Sent = Sent(session: nat, from: nat, to: nat)

  // History: sessions are numbered from 1; floors[k] is how much had arrived when
  // the handler that ended session k + 1 was entered.
  datatype Log = Log(session: nat, floors: seq<nat>, sent: seq<Sent>)

  datatype Inst = Inst(wireFd: int, serverFd: int, clientFd: int, state: State, fifo: Fifo, log: Log)

  datatype Desk = Desk(inst: Inst, epoll: Epoll)

  function ClientClose(d: Desk): Desk {
    if d.inst.clientFd < 0 then d
    else Desk(d.inst.(clientFd := -1), Close(Del(d.epoll, d.inst.clientFd), d.inst.clientFd))
  }

  function EnterWait(i: nat, d: Desk): Desk {
    Desk(d.inst.(state := WaitClient), Add(d.epoll, d.inst.serverFd, Ctx(i, RoleServer)))
  }

  // What opening the wire device answered.
  datatype Reopened = NoWire | NewWire(fd: nat)

  // Close the wire and open it again; closed is the device as the close finds it.
  function Reopen(i: nat, d: Desk, closed: Fifo, r: Reopened): Desk {
    var e := Close(d.epoll, d.inst.wireFd);
    match r
    case NoWire => Desk(d.inst.(wireFd := -1, fifo := Released(closed)), e)
    case NewWire(fd) =>
      Desk(d.inst.(wireFd := fd, fifo := Released(closed).(reset := false)), Opened(e, fd, Ctx(i, RoleWire)))
  }

  function DelWire(d: Desk): Desk {
    d.(epoll := Del(d.epoll, d.inst.wireFd))
  }

  // --- the inline drain ---

  // reads holds the device as each successful read finds it, last as the final
  // one does.
  datatype Drain =
    | FcntlFails
    | Drains(found: seq<Fifo>, last: Fifo, end: DrainEnd)

  datatype DrainEnd = Empty | ReadFails | AtEof(closed: Fifo, reopened: Reopened)

  function AfterReads(f: Fifo, rs: seq<Fifo>): Fifo {
    if rs == [] then f else ReadSome(rs[|rs| - 1])
  }

  // Drain a wire that is no longer registered, then wait for the next client.
  function DrainAndWait(i: nat, d: Desk, a: Drain): Desk {
    match a
    case FcntlFails => EnterWait(i, d)
    case Drains(_, last, end) =>
      match end
      case Empty => EnterWait(i, d.(inst := d.inst.(fifo := last)))
      case ReadFails => EnterWait(i, d.(inst := d.inst.(fifo := last)))
      case AtEof(closed, r) =>
        var d1 := Reopen(i, d, closed, r);
        if r.NoWire? then d1 else EnterWait(i, d1)
  }

  function CloseAndDrain(i: nat, d: Desk, a: Drain): Desk {
    DrainAndWait(i, DelWire(ClientClose(d)), a)
  }

  // --- the three handlers ---

  datatype Accept = AcceptFails | Accepted(fd: nat)

  datatype WireCall =
    | WireFails
    | WireEof(closed: Fifo, reopened: Reopened)
    | Forwarded(at: Fifo)
    | CutShort(at: Fifo, sent: nat, drain: Drain)

  datatype ClientCall = FromClient | ClientEnds(drain: Drain)

  function OnServer(i: nat, d: Desk, a: Accept): Desk {
    if d.inst.state != WaitClient || a.AcceptFails? then d
    else
      var t := d.inst;
      var e1 := Del(Opened(d.epoll, a.fd, Ctx(i, RoleClient)), t.serverFd);
      var e2 := Add(Add(e1, t.wireFd, Ctx(i, RoleWire)), a.fd, Ctx(i, RoleClient));
      Desk(t.(clientFd := a.fd, state := Relaying, log := t.log.(session := t.log.session + 1)), e2)
  }

  // n bytes of what a read takes from the device go to the simulator.
  function Send(t: Inst, at: Fifo, n: nat): Inst {
    t.(fifo := ReadSome(at), log := t.log.(sent := t.log.sent + [Sent(t.log.session, at.gone, at.gone + n)]))
  }

  function CloseIf(e: Epoll, fd: int): Epoll {
    if fd >= 0 then Close(e, fd) else e
  }

  function Destroy(d: Desk): Desk {
    var t := d.inst;
    Desk(t.(clientFd := -1, serverFd := -1, wireFd := -1),
         CloseIf(CloseIf(CloseIf(d.epoll, t.clientFd), t.serverFd), t.wireFd))
  }

  function OnWire(i: nat, d: Desk, a: WireCall): Desk {
    if d.inst.state != Relaying then d
    else
      match a
      case WireFails => d
      case WireEof(closed, r) =>
        var d1 := ClientClose(Reopen(i, DelWire(d), closed, r));
        if r.NoWire? then Destroy(d1) else EnterWait(i, d1)
      case Forwarded(at) => d.(inst := Send(d.inst, at, Amount(at)))
      case CutShort(at, n, drain) => CloseAndDrain(i, d.(inst := Send(d.inst, at, n)), drain)
  }

  function OnClient(i: nat, d: Desk, a: ClientCall): Desk {
    if d.inst.state != Relaying || a.FromClient? then d else CloseAndDrain(i, d, a.drain)
  }

  // --- dispatch ---

  datatype Answer = ServerAnswer(accept: Accept) | WireAnswer(wire: WireCall) | ClientAnswer(client: ClientCall)

  function Handle(i: nat, d: Desk, a: Answer): Desk {
    match a
    case ServerAnswer(x) => OnServer(i, d, x)
    case WireAnswer(x) => OnWire(i, d, x)
    case ClientAnswer(x) => OnClient(i, d, x)
  }

  // Note in the history when the handler has ended a session.
  function Noted(before: Inst, after: Inst): Inst {
    if before.clientFd >= 0 && after.clientFd < 0
    then after.(log := after.log.(floors := after.log.floors + [before.fifo.arrived]))
    else after
  }

  function Dispatch(i: nat, d: Desk, a: Answer): Desk {
    var r := Handle(i, d, a);
    r.(inst := Noted(d.inst, r.inst))
  }
}

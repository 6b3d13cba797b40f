// The epoll set and the instances of the daemon, updated in place.
module RelayDaemon {
  import opened Relay

  class EpollSet {
    var open: map<int, Ctx>
    var watched: map<int, Ctx>
    var aborted: bool

    function View(): Epoll
      reads this
    {
      Epoll(open, watched, aborted)
    }

    constructor ()
      ensures View() == Epoll(map[], map[], false)
    {
      open, watched, aborted := map[], map[], false;
    }

    method Add(fd: int, c: Ctx)
      modifies this`watched, this`aborted
      ensures View() == Relay.Add(old(View()), fd, c)
    {
      if aborted {
        return;
      }
      if fd in open && fd !in watched {
        watched := watched[fd := c];
      } else {
        aborted := true;
      }
    }

    method Del(fd: int)
      modifies this`watched
      ensures View() == Relay.Del(old(View()), fd)
    {
      watched := watched - {fd};
    }

    method Close(fd: int)
      modifies this`open, this`watched
      ensures View() == Relay.Close(old(View()), fd)
    {
      open := open - {fd};
      watched := watched - {fd};
    }

    method Opened(fd: int, c: Ctx)
      modifies this`open
      ensures View() == Relay.Opened(old(View()), fd, c)
    {
      open := open[fd := c];
    }
  }

  class UartInstance {
    const idx: nat
    var wireFd: int
    var serverFd: int
    var clientFd: int
    var state: State
    var fifo: Fifo
    ghost var log: Log

    ghost function View(): Inst
      reads this
    {
      Inst(wireFd, serverFd, clientFd, state, fifo, log)
    }

    ghost function Beside(ep: EpollSet): Desk
      reads this, ep
    {
      Desk(View(), ep.View())
    }

    constructor (i: nat)
      ensures idx == i && wireFd == serverFd == clientFd == -1 && state == WaitClient
      ensures fifo == Fifo(0, 0, false) && log == Log(0, [], [])
    {
      idx := i;
      wireFd, serverFd, clientFd, state := -1, -1, -1, WaitClient;
      fifo := Fifo(0, 0, false);
      log := Log(0, [], []);
    }

    method ClientClose(ep: EpollSet)
      modifies this`clientFd, ep
      ensures Beside(ep) == Relay.ClientClose(old(Beside(ep)))
    {
      if clientFd < 0 {
        return;
      }
      ep.Del(clientFd);
      ep.Close(clientFd);
      clientFd := -1;
    }

    method EnterWait(ep: EpollSet)
      modifies this`state, ep
      ensures Beside(ep) == Relay.EnterWait(idx, old(Beside(ep)))
    {
      ep.Add(serverFd, Ctx(idx, RoleServer));
      state := WaitClient;
    }

    method Reopen(ep: EpollSet, closed: Fifo, r: Reopened)
      modifies this`wireFd, this`fifo, ep
      ensures Beside(ep) == Relay.Reopen(idx, old(Beside(ep)), closed, r)
    {
      ep.Close(wireFd);
      fifo := Released(closed);
      wireFd := -1;
      if r.NewWire? {
        wireFd := r.fd;
        fifo := fifo.(reset := false);
        ep.Opened(wireFd, Ctx(idx, RoleWire));
      }
    }

    // Read and discard until the device has nothing more.
    method DiscardAll(found: seq<Fifo>)
      modifies this`fifo
      ensures fifo == AfterReads(old(fifo), found)
    {
      var k := 0;
      while k < |found|
        invariant k <= |found|
        invariant fifo == AfterReads(old(fifo), found[..k])
      {
        fifo := ReadSome(found[k]);
        k := k + 1;
      }
      assert found[..k] == found;
    }

    method CloseAndDrain(ep: EpollSet, a: Drain)
      modifies this, ep
      ensures Beside(ep) == Relay.CloseAndDrain(idx, old(Beside(ep)), a)
    {
      ClientClose(ep);
      ep.Del(wireFd);
      if a.FcntlFails? {
        EnterWait(ep);
        return;
      }
      DiscardAll(a.found);
      if a.end.AtEof? {
        Reopen(ep, a.end.closed, a.end.reopened);
        if wireFd < 0 {
          return;
        }
      } else {
        fifo := a.last;
      }
      EnterWait(ep);
    }

    method OnServerReadable(ep: EpollSet, a: Accept)
      modifies this, ep
      ensures Beside(ep) == OnServer(idx, old(Beside(ep)), a)
      ensures old(state) == WaitClient && a.Accepted? ==>
        && state == Relaying && clientFd == a.fd && wireFd == old(wireFd) && serverFd == old(serverFd) && fifo == old(fifo)
        && log == old(log).(session := old(log.session) + 1)
      ensures old(state) != WaitClient || a.AcceptFails? ==> Beside(ep) == old(Beside(ep))
    {
      if state != WaitClient {
        return;
      }
      if a.AcceptFails? {
        return;
      }
      ep.Opened(a.fd, Ctx(idx, RoleClient));
      clientFd := a.fd;
      ep.Del(serverFd);
      ep.Add(wireFd, Ctx(idx, RoleWire));
      ep.Add(clientFd, Ctx(idx, RoleClient));
      state := Relaying;
      log := log.(session := log.session + 1);
    }

    method Destroy(ep: EpollSet)
      modifies this, ep
      ensures Beside(ep) == Relay.Destroy(old(Beside(ep)))
    {
      if clientFd >= 0 {
        ep.Close(clientFd);
      }
      clientFd := -1;
      if serverFd >= 0 {
        ep.Close(serverFd);
      }
      serverFd := -1;
      if wireFd >= 0 {
        ep.Close(wireFd);
      }
      wireFd := -1;
    }

    method OnWireReadable(ep: EpollSet, a: WireCall)
      modifies this, ep
      ensures Beside(ep) == OnWire(idx, old(Beside(ep)), a)
      // all that was read goes to the simulator, and the session goes on
      ensures old(state) == Relaying && a.Forwarded? ==>
        && fifo == a.at.(gone := fifo.gone) && fifo.gone == a.at.gone + Readable(a.at)
        && log == old(log).(sent := old(log.sent) + [Sent(old(log.session), a.at.gone, fifo.gone)])
        && state == Relaying && clientFd == old(clientFd) && wireFd == old(wireFd) && ep.View() == old(ep.View())
      // or what the socket took of it, and the session ends
      ensures old(state) == Relaying && a.CutShort? && old(clientFd) >= 0 ==>
        && log == old(log).(sent := old(log.sent) + [Sent(old(log.session), a.at.gone, a.at.gone + a.sent)])
        && clientFd == -1
      ensures old(state) == Relaying && a.WireEof? && old(clientFd) >= 0 ==> log == old(log) && clientFd == -1
      ensures old(state) != Relaying || a.WireFails? ==> Beside(ep) == old(Beside(ep))
    {
      if state != Relaying {
        return;
      }
      match a
      case WireFails =>
      case WireEof(closed, r) =>
        ep.Del(wireFd);
        Reopen(ep, closed, r);
        if wireFd < 0 {
          ClientClose(ep);
          Destroy(ep);
        } else {
          ClientClose(ep);
          EnterWait(ep);
        }
      case Forwarded(at) =>
        fifo := ReadSome(at);
        log := log.(sent := log.sent + [Sent(log.session, at.gone, at.gone + Amount(at))]);
      case CutShort(at, n, drain) =>
        fifo := ReadSome(at);
        log := log.(sent := log.sent + [Sent(log.session, at.gone, at.gone + n)]);
        CloseAndDrain(ep, drain);
    }

    method OnClientReadable(ep: EpollSet, a: ClientCall)
      modifies this, ep
      ensures Beside(ep) == OnClient(idx, old(Beside(ep)), a)
      ensures old(state) == Relaying && a.ClientEnds? && old(clientFd) >= 0 ==> clientFd == -1 && log == old(log)
      ensures old(state) != Relaying || a.FromClient? ==> Beside(ep) == old(Beside(ep))
    {
      if state != Relaying {
        return;
      }
      if a.ClientEnds? {
        CloseAndDrain(ep, a.drain);
      }
    }

    // History: note a session that has ended since before.
    ghost method Note(before: Inst)
      modifies this`log
      ensures View() == Noted(before, old(View()))
    {
      if before.clientFd >= 0 && clientFd < 0 {
        log := log.(floors := log.floors + [before.fifo.arrived]);
      }
    }
  }
}

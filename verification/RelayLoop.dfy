// The dispatch loop of the daemon, in place.
module RelayLoop {
  import opened Relay
  import opened RelayProtocol
  import opened RelayDaemon

  // --- one batch ---

  ghost predicate Numbered(insts: seq<UartInstance>) {
    forall i | 0 <= i < |insts| :: insts[i].idx == i
  }

  ghost function Views(insts: seq<UartInstance>): seq<Inst>
    reads insts
  {
    seq(|insts|, i requires 0 <= i < |insts| reads insts => insts[i].View())
  }

  ghost function WorldOf(insts: seq<UartInstance>, ep: EpollSet, rest: seq<Event>): World
    reads insts, ep
  {
    World(Views(insts), ep.View(), rest)
  }

  // One event goes to the handler of its role; the history notes an ended session.
  method DispatchOne(t: UartInstance, ep: EpollSet, a: Answer)
    modifies t, ep
    ensures t.Beside(ep) == Dispatch(t.idx, old(t.Beside(ep)), a)
  {
    ghost var before := t.View();
    match a {
      case ServerAnswer(x) => t.OnServerReadable(ep, x);
      case WireAnswer(x) => t.OnWireReadable(ep, x);
      case ClientAnswer(x) => t.OnClientReadable(ep, x);
    }
    t.Note(before);
  }

  function Handled(answers: seq<Answer>, n: nat): seq<Action>
    requires n <= |answers|
  {
    if n == 0 then [] else Handled(answers, n - 1) + [HandleNext(answers[n - 1])]
  }

  lemma LastHandled(w: World, answers: seq<Answer>, n: nat)
    requires 0 < n <= |answers| && Runs(w, Handled(answers, n))
    ensures Runs(w, Handled(answers, n - 1)) && Enabled(After(w, Handled(answers, n - 1)), HandleNext(answers[n - 1]))
  {
    var run := Handled(answers, n);
    assert run[..|run| - 1] == Handled(answers, n - 1);
  }

  lemma {:induction false} HandledPrefix(w: World, answers: seq<Answer>, k: nat, n: nat)
    requires k <= n <= |answers| && Runs(w, Handled(answers, n))
    ensures Runs(w, Handled(answers, k))
    decreases n
  {
    if k < n {
      LastHandled(w, answers, n);
      HandledPrefix(w, answers, k, n - 1);
    }
  }

  lemma HandledStep(w: World, answers: seq<Answer>, k: nat)
    requires k < |answers| && Runs(w, Handled(answers, k)) && Enabled(After(w, Handled(answers, k)), HandleNext(answers[k]))
    ensures Runs(w, Handled(answers, k + 1))
    ensures After(w, Handled(answers, k + 1)) == Next(After(w, Handled(answers, k)), HandleNext(answers[k]))
  {
    var run := Handled(answers, k + 1);
    assert run[..|run| - 1] == Handled(answers, k);
  }

  // What the world becomes when the handler of its next event has run.
  lemma NextOfDispatch(w: World, a: Answer, t: Inst, e: Epoll)
    requires Enabled(w, HandleNext(a))
    requires Desk(t, e) == Dispatch(w.batch[0].ctx.inst, DeskOf(w, w.batch[0].ctx.inst), a)
    ensures World(w.insts[w.batch[0].ctx.inst := t], e, w.batch[1..]) == Next(w, HandleNext(a))
  {}

  // The next event of the batch.
  method DispatchNext(insts: seq<UartInstance>, ep: EpollSet, rest: seq<Event>, a: Answer)
    requires Numbered(insts) && Enabled(WorldOf(insts, ep, rest), HandleNext(a))
    modifies insts, ep
    ensures WorldOf(insts, ep, rest[1..]) == Next(old(WorldOf(insts, ep, rest)), HandleNext(a))
  {
    ghost var w := WorldOf(insts, ep, rest);
    var i := rest[0].ctx.inst;
    DispatchOne(insts[i], ep, a);
    assert Views(insts) == w.insts[i := insts[i].View()];
    NextOfDispatch(w, a, insts[i].View(), ep.View());
  }

  lemma RestOf(events: seq<Event>, k: nat)
    requires k < |events|
    ensures events[k..][1..] == events[k + 1..]
  {}

  // The loop over the events of one epoll_wait does exactly the steps of the
  // protocol, one event after the other.
  method DispatchBatch(insts: seq<UartInstance>, ep: EpollSet, events: seq<Event>, answers: seq<Answer>)
    requires Numbered(insts) && |answers| <= |events|
    requires Runs(WorldOf(insts, ep, events), Handled(answers, |answers|))
    modifies insts, ep
    ensures WorldOf(insts, ep, events[|answers|..]) == After(old(WorldOf(insts, ep, events)), Handled(answers, |answers|))
  {
    ghost var w := WorldOf(insts, ep, events);
    var k := 0;
    while k < |answers|
      invariant k <= |answers|
      invariant Runs(w, Handled(answers, k))
      invariant WorldOf(insts, ep, events[k..]) == After(w, Handled(answers, k))
    {
      HandledPrefix(w, answers, k + 1, |answers|);
      LastHandled(w, answers, k + 1);
      HandledStep(w, answers, k);
      DispatchNext(insts, ep, events[k..], answers[k]);
      RestOf(events, k);
      k := k + 1;
    }
  }
}

// The default bus: its up/down state with the events sent to the peripherals,
// and the seed of the shared random stream.
module BusCore {
  import opened KernelText
  import opened Prng
  import opened PrngNumbers

  datatype Event = Up | Down | Reset

  // An event as a peripheral callback sees it, with the bus state it reads then.
  datatype Emitted = Emitted(event: Event, seenUp: bool)

  // What is written to the "state" attribute.
  datatype Command = SetUp | SetDown | DoReset

  datatype Bus = Bus(up: bool, trace: seq<Emitted>)

  const INITIAL := Bus(true, [])

  // Each command runs to its end under the state mutex.
  function Execute(b: Bus, c: Command): Bus {
    match c
    case SetUp => if b.up then b else Bus(true, b.trace + [Emitted(Up, true)])
    case SetDown => if b.up then Bus(false, b.trace + [Emitted(Down, false)]) else b
    case DoReset => Bus(true, b.trace + [Emitted(Reset, b.up), Emitted(Up, true)])
  }

  // A change is announced once, after it; RESET is announced in the old state, and then UP.
  lemma CommandEffect(b: Bus, c: Command)
    ensures Execute(b, c).up <==> !c.SetDown?
    ensures Execute(b, c).trace == b.trace +
      match c
      case SetUp => if b.up then [] else [Emitted(Up, true)]
      case SetDown => if b.up then [Emitted(Down, false)] else []
      case DoReset => [Emitted(Reset, b.up), Emitted(Up, true)]
  {}

  function ExecuteAll(b: Bus, cs: seq<Command>): Bus {
    if cs == [] then b else Execute(ExecuteAll(b, cs[..|cs| - 1]), cs[|cs| - 1])
  }

  // --- what the trace of any run looks like ---

  // The bus state just before event k: up at first, then decided by event k-1.
  predicate UpBefore(t: seq<Emitted>, k: nat)
    requires k <= |t|
  {
    k == 0 || t[k - 1].event == Up
  }

  ghost predicate ResetsThenUp(t: seq<Emitted>) {
    forall k | 0 <= k < |t| && t[k].event == Reset :: k + 1 < |t| && t[k + 1].event == Up
  }

  ghost predicate DownsSeparated(t: seq<Emitted>) {
    forall j, k | 0 <= j < k < |t| && t[j].event == Down && t[k].event == Down ::
      exists m :: j < m < k && t[m].event == Up
  }

  // What event k is, given the bus state before it: RESET callbacks see that
  // state, the others see the new one, and a plain UP or DOWN reports a change.
  predicate Sound(before: bool, e: Emitted) {
    match e.event
    case Reset => e.seenUp == before
    case Up => e.seenUp && !before
    case Down => !e.seenUp && before
  }

  ghost predicate AllSound(t: seq<Emitted>) {
    forall k | 0 <= k < |t| :: Sound(UpBefore(t, k), t[k])
  }

  // Every RESET but a last one is followed at once by UP.
  ghost predicate InnerResetsThenUp(t: seq<Emitted>) {
    forall k | 0 <= k < |t| - 1 && t[k].event == Reset :: t[k + 1].event == Up
  }

  lemma SoundAt(t: seq<Emitted>, e: Emitted, k: nat)
    requires AllSound(t) && Sound(UpBefore(t, |t|), e) && k <= |t|
    ensures Sound(UpBefore(t + [e], k), (t + [e])[k])
  {
    assert UpBefore(t + [e], k) == UpBefore(t, k);
    if k < |t| {
      assert (t + [e])[k] == t[k];
    }
  }

  lemma ExtendsSound(t: seq<Emitted>, e: Emitted)
    requires AllSound(t) && Sound(UpBefore(t, |t|), e)
    ensures AllSound(t + [e])
  {
    forall k | 0 <= k < |t + [e]| ensures Sound(UpBefore(t + [e], k), (t + [e])[k]) {
      SoundAt(t, e, k);
    }
  }

  lemma ExtendsResets(t: seq<Emitted>, e: Emitted)
    requires InnerResetsThenUp(t) && (|t| > 0 && t[|t| - 1].event == Reset ==> e.event == Up)
    ensures InnerResetsThenUp(t + [e])
  {}

  lemma Extend(t: seq<Emitted>, e: Emitted)
    requires AllSound(t) && InnerResetsThenUp(t)
    requires Sound(UpBefore(t, |t|), e)
    requires |t| > 0 && t[|t| - 1].event == Reset ==> e.event == Up
    ensures AllSound(t + [e]) && InnerResetsThenUp(t + [e])
  {
    ExtendsSound(t, e);
    ExtendsResets(t, e);
  }

  lemma {:induction false} TraceShape(cs: seq<Command>)
    ensures var b := ExecuteAll(INITIAL, cs);
      && b.up == UpBefore(b.trace, |b.trace|)
      && AllSound(b.trace)
      && ResetsThenUp(b.trace)
  {
    if cs != [] {
      TraceShape(cs[..|cs| - 1]);
      var b := ExecuteAll(INITIAL, cs[..|cs| - 1]);
      match cs[|cs| - 1] {
        case SetUp => if !b.up { Extend(b.trace, Emitted(Up, true)); }
        case SetDown => if b.up { Extend(b.trace, Emitted(Down, false)); }
        case DoReset =>
          var e := Emitted(Reset, b.up);
          Extend(b.trace, e);
          Extend(b.trace + [e], Emitted(Up, true));
          assert b.trace + [e] + [Emitted(Up, true)] == b.trace + [e, Emitted(Up, true)];
      }
    }
  }

  // A DOWN comes only while up, so between two of them the bus went up.
  lemma ChangesSeparateDowns(t: seq<Emitted>)
    requires AllSound(t)
    ensures DownsSeparated(t)
  {
    forall j, k | 0 <= j < k < |t| && t[j].event == Down && t[k].event == Down
      ensures exists m :: j < m < k && t[m].event == Up
    {
      assert Sound(UpBefore(t, k), t[k]);
      assert j < k - 1 && t[k - 1].event == Up;
    }
  }

  // Whatever is written to "state", in whatever order: every RESET is followed
  // at once by UP, no two DOWNs come without an UP between them, the last event
  // decides the state, and each callback sees the state it is promised.
  lemma EventTraces(cs: seq<Command>)
    ensures var b := ExecuteAll(INITIAL, cs);
      && ResetsThenUp(b.trace)
      && DownsSeparated(b.trace)
      && AllSound(b.trace)
      && b.up == (b.trace == [] || b.trace[|b.trace| - 1].event == Up)
  {
    TraceShape(cs);
    ChangesSeparateDowns(ExecuteAll(INITIAL, cs).trace);
  }

  // The last command of a trace, and the events it emitted.
  function LastCommand(t: seq<Emitted>): (r: (Command, nat))
    requires t != []
    ensures r.1 <= |t|
  {
    if |t| >= 2 && t[|t| - 2].event == Reset then (DoReset, |t| - 2)
    else (if t[|t| - 1].event == Up then SetUp else SetDown, |t| - 1)
  }

  lemma ResetEmits(t: seq<Emitted>)
    requires AllSound(t) && ResetsThenUp(t) && |t| >= 2 && t[|t| - 2].event == Reset
    ensures var n := |t| - 2; Execute(Bus(UpBefore(t, n), t[..n]), DoReset).trace == t
    ensures |t| > 2 ==> t[|t| - 3].event != Reset
  {
    var n := |t| - 2;
    assert Sound(UpBefore(t, n), t[n]) && Sound(UpBefore(t, n + 1), t[n + 1]);
    assert t == t[..n] + [t[n], t[n + 1]];
  }

  lemma ChangeEmits(t: seq<Emitted>)
    requires AllSound(t) && ResetsThenUp(t) && t != []
    requires |t| >= 2 ==> t[|t| - 2].event != Reset
    ensures var n := |t| - 1;
      Execute(Bus(UpBefore(t, n), t[..n]), if t[n].event == Up then SetUp else SetDown).trace == t
  {
    var n := |t| - 1;
    assert Sound(UpBefore(t, n), t[n]);
    assert t == t[..n] + [t[n]];
  }

  lemma LastCommandEmits(t: seq<Emitted>)
    requires AllSound(t) && ResetsThenUp(t) && t != []
    ensures var (c, n) := LastCommand(t); Execute(Bus(UpBefore(t, n), t[..n]), c).trace == t
    ensures var (c, n) := LastCommand(t); n > 0 ==> t[n - 1].event != Reset
  {
    if |t| >= 2 && t[|t| - 2].event == Reset {
      ResetEmits(t);
    } else {
      ChangeEmits(t);
    }
  }

  // Conversely, those conditions allow nothing the bus cannot do.
  lemma {:induction false} EveryShapeHappens(t: seq<Emitted>) returns (cs: seq<Command>)
    requires AllSound(t) && ResetsThenUp(t)
    ensures ExecuteAll(INITIAL, cs).trace == t
    decreases |t|
  {
    if t == [] {
      cs := [];
    } else {
      LastCommandEmits(t);
      var (c, n) := LastCommand(t);
      CutKeepsShape(t, n);
      cs := EveryShapeHappens(t[..n]);
      cs := AppendCommand(cs, t[..n], c);
      assert UpBefore(t[..n], n) == UpBefore(t, n);
    }
  }

  lemma AppendCommand(cs: seq<Command>, t: seq<Emitted>, c: Command) returns (r: seq<Command>)
    requires ExecuteAll(INITIAL, cs).trace == t
    ensures ExecuteAll(INITIAL, r) == Execute(Bus(UpBefore(t, |t|), t), c)
  {
    TraceShape(cs);
    r := cs + [c];
    assert r[..|r| - 1] == cs;
  }

  // Cutting a trace where no RESET is left alone keeps its shape.
  lemma CutKeepsShape(t: seq<Emitted>, n: nat)
    requires AllSound(t) && ResetsThenUp(t)
    requires n <= |t| && (n > 0 ==> t[n - 1].event != Reset)
    ensures AllSound(t[..n]) && ResetsThenUp(t[..n])
  {
    forall k | 0 <= k < n ensures Sound(UpBefore(t[..n], k), t[..n][k]) {
      assert Sound(UpBefore(t, k), t[k]);
    }
    forall k | 0 <= k < n && t[..n][k].event == Reset
      ensures k + 1 < n && t[..n][k + 1].event == Up
    {
      assert t[k].event == Reset;
    }
  }

  // --- the seed over a run ---

  datatype SeedOp = Draw | Store(value: Word)

  // Storing zero is refused and changes nothing.
  function SeedStep(state: Word, op: SeedOp): Word {
    match op
    case Draw => Next(state)
    case Store(v) => if v == {} then state else v
  }

  function SeedRun(state: Word, ops: seq<SeedOp>): Word {
    if ops == [] then state else SeedStep(SeedRun(state, ops[..|ops| - 1]), ops[|ops| - 1])
  }

  // The values handed out during a run.
  function Handed(state: Word, ops: seq<SeedOp>): seq<Word> {
    if ops == [] then []
    else
      var front := ops[..|ops| - 1];
      Handed(state, front) + if ops[|ops| - 1].Draw? then [SeedRun(state, ops)] else []
  }

  lemma {:induction false} SeedNeverZero(state: Word, ops: seq<SeedOp>)
    requires state != {}
    ensures SeedRun(state, ops) != {}
  {
    if ops != [] {
      SeedNeverZero(state, ops[..|ops| - 1]);
      NonZeroStays(SeedRun(state, ops[..|ops| - 1]));
    }
  }

  lemma FrontOf(a: seq<SeedOp>, b: seq<SeedOp>)
    requires b != []
    ensures a + b != [] && (a + b)[..|a + b| - 1] == a + b[..|b| - 1] && (a + b)[|a + b| - 1] == b[|b| - 1]
  {}

  lemma {:induction false} SeedSplit(state: Word, a: seq<SeedOp>, b: seq<SeedOp>)
    ensures SeedRun(state, a + b) == SeedRun(SeedRun(state, a), b)
  {
    if b == [] {
      assert a + b == a;
    } else {
      SeedSplit(state, a, b[..|b| - 1]);
      FrontOf(a, b);
    }
  }

  lemma {:induction false} RunSplit(state: Word, a: seq<SeedOp>, b: seq<SeedOp>)
    ensures SeedRun(state, a + b) == SeedRun(SeedRun(state, a), b)
    ensures Handed(state, a + b) == Handed(state, a) + Handed(SeedRun(state, a), b)
  {
    SeedSplit(state, a, b);
    if b == [] {
      assert a + b == a;
    } else {
      RunSplit(state, a, b[..|b| - 1]);
      FrontOf(a, b);
    }
  }

  // Reading the seed, doing anything at all, and writing back what was read
  // replays the values that would have been handed out the first time.
  lemma Replay(before: seq<SeedOp>, between: seq<SeedOp>, future: seq<SeedOp>)
    ensures var read := SeedRun(DEFAULT_SEED, before);
      var restored := before + between + [Store(read)];
      && read != {}
      && SeedRun(DEFAULT_SEED, restored) == read
      && Handed(DEFAULT_SEED, restored + future) == Handed(DEFAULT_SEED, restored) + Handed(read, future)
      && Handed(DEFAULT_SEED, before + future) == Handed(DEFAULT_SEED, before) + Handed(read, future)
  {
    var read := SeedRun(DEFAULT_SEED, before);
    SeedNeverZero(DEFAULT_SEED, before);
    RunSplit(DEFAULT_SEED, before + between, [Store(read)]);
    var last := [Store(read)];
    assert last[..|last| - 1] == [];
    RunSplit(DEFAULT_SEED, before + between + [Store(read)], future);
    RunSplit(DEFAULT_SEED, before, future);
  }

  // --- the texts of the attributes ---

  function ParseCommand(text: string): Option<Command> {
    if SameLine(text, "up") then Some(SetUp)
    else if SameLine(text, "down") then Some(SetDown)
    else if SameLine(text, "reset") then Some(DoReset)
    else None
  }

  // A seed is a number of 32 bits that is not zero.
  function ParseSeed(text: string): Option<Word> {
    match Kstrto(text, Pow2(WIDTH))
    case None => None
    case Some(n) =>
      var w: Word := ToWord(n, WIDTH);
      if n == 0 then None else Some(w)
  }

  // A text is taken if it spells a number from 1 to 2^32 - 1, which is then the seed.
  lemma SeedsAccepted(text: string)
    ensures match ParseSeed(text)
            case Some(w) => Numeral(text, Number(w)) && 0 < Number(w) < 0x1_0000_0000
            case None => forall n: nat | 0 < n < 0x1_0000_0000 :: !Numeral(text, n)
  {
    U32IsPower(WIDTH);
    forall n: nat | 0 < n < 0x1_0000_0000 && Numeral(text, n) ensures Kstrto(text, Pow2(WIDTH)) == Some(n) {
      NumeralIsParsed(text, Pow2(WIDTH), n);
    }
    match Kstrto(text, Pow2(WIDTH)) {
      case None =>
      case Some(n) =>
        NumeralIsParsed(text, Pow2(WIDTH), n);
        ToWordRoundTrip(n, WIDTH);
    }
  }

  function ShowSeed(seed: Word): string {
    Decimal(Value(seed, WIDTH)) + "\n"
  }

  // Writing back the text that was read stores the seed that was read.
  lemma SeedTextRoundTrip(seed: Word)
    requires seed != {}
    ensures ParseSeed(ShowSeed(seed)) == Some(seed)
  {
    ValueBound(seed, WIDTH);
    ShownNumberIsRead(Value(seed, WIDTH), Pow2(WIDTH));
    ToWordRoundTrip(Value(seed, WIDTH), WIDTH);
    ValueInjective(ToWord(Value(seed, WIDTH), WIDTH), seed, WIDTH);
    ZeroHasNoBits(WIDTH);
    if Value(seed, WIDTH) == 0 {
      ValueInjective(seed, {}, WIDTH);
    }
  }

  // --- the globals of the core module ---

  class Core {
    var up: bool
    var seed: Word
    ghost var trace: seq<Emitted>

    ghost function Abs(): Bus
      reads this
    {
      Bus(up, trace)
    }

    constructor ()
      ensures Abs() == INITIAL && seed == DEFAULT_SEED
      ensures up && trace == [] && ShowSeed(seed) == "1\n"
    {
      up, seed := true, DEFAULT_SEED;
      trace := [];
      ZeroIsOne({}, WIDTH);
    }

    // The notifier chain: the callbacks run here and read the state as it is.
    method CallNotifiers(event: Event)
      modifies this`trace
      ensures trace == old(trace) + [Emitted(event, up)]
    {
      trace := trace + [Emitted(event, up)];
    }

    method SetState(newUp: bool)
      modifies this`up, this`trace
      ensures Abs() == Execute(old(Abs()), if newUp then SetUp else SetDown)
    {
      var oldUp := up;
      up := newUp;
      if oldUp != newUp {
        CallNotifiers(if newUp then Up else Down);
      }
    }

    method DoBusReset()
      modifies this`up, this`trace
      ensures Abs() == Execute(old(Abs()), DoReset)
    {
      CallNotifiers(Reset);
      up := true;
      CallNotifiers(Up);
    }

    // A write to "state": one trailing newline is tolerated, anything else is
    // refused without effect.
    method StateStore(text: string) returns (ok: bool)
      modifies this`up, this`trace
      ensures ok <==> CString(text) in {"up", "up\n", "down", "down\n", "reset", "reset\n"}
      ensures CString(text) in {"up", "up\n"} ==>
        up && trace == old(trace) + (if old(up) then [] else [Emitted(Up, true)])
      ensures CString(text) in {"down", "down\n"} ==>
        !up && trace == old(trace) + (if old(up) then [Emitted(Down, false)] else [])
      ensures CString(text) in {"reset", "reset\n"} ==>
        up && trace == old(trace) + [Emitted(Reset, old(up)), Emitted(Up, true)]
      ensures !ok ==> up == old(up) && trace == old(trace)
      ensures ok <==> ParseCommand(text).Some?
      ensures Abs() == match ParseCommand(text)
                       case Some(c) => Execute(old(Abs()), c)
                       case None => old(Abs())
    {
      assert "up" + "\n" == "up\n" && "down" + "\n" == "down\n" && "reset" + "\n" == "reset\n";
      ok := true;
      if SameLine(text, "up") {
        SetState(true);
      } else if SameLine(text, "down") {
        SetState(false);
      } else if SameLine(text, "reset") {
        DoBusReset();
      } else {
        ok := false;
      }
    }

    method SeedShow() returns (text: string)
      ensures text == ShowSeed(seed) == Decimal(Number(seed)) + "\n"
    {
      text := Decimal(Value(seed, WIDTH)) + "\n";
    }

    method SeedStore(text: string) returns (ok: bool)
      modifies this`seed
      ensures ok <==> ParseSeed(text).Some?
      ensures seed == match ParseSeed(text)
                      case Some(w) => SeedStep(old(seed), Store(w))
                      case None => old(seed)
      // a number that is spelled out, from 1 to 2^32 - 1
      ensures ok ==> Numeral(text, Number(seed)) && 0 < Number(seed) < 0x1_0000_0000
      ensures !ok ==> seed == old(seed) && forall n: nat | 0 < n < 0x1_0000_0000 :: !Numeral(text, n)
    {
      SeedsAccepted(text);
      var n := Kstrto(text, Pow2(WIDTH));
      if n.None? || n.value == 0 {
        return false;
      }
      NonZeroWord(n.value, WIDTH);
      seed := ToWord(n.value, WIDTH);
      ok := true;
    }

    method NextPrng() returns (value: Word)
      modifies this`seed
      ensures seed == value == SeedStep(old(seed), Draw)
      ensures IsDraw(Number(old(seed)), Number(value))
    {
      DrawOnNumbers(seed);
      value := seed;
      if value == {} {
        value := DEFAULT_SEED;
      }
      value := XorShl(value, 13);
      value := XorShr(value, 17);
      value := XorShl(value, 5);
      seed := value;
    }
  }
}

// What a write to the inject attribute means: the text "N:V" and its checks.
module GpioInject {
  import opened Counters
  import opened FaultGate
  import opened GpioDevice
  import P = GpioProtocol
  import opened KernelText

  datatype Request = Request(line: nat, val: Level)

  const INDEX_BUF: nat := 4
  const ULONG: nat := U64

  // memchr: where c first occurs in s, or |s|.
  function FirstOf(s: string, c: char): (n: nat)
    ensures n <= |s| && c !in s[..n] && (n < |s| ==> s[n] == c)
  {
    if s == "" || s[0] == c then 0
    else
      var n := FirstOf(s[1..], c);
      assert s[..n + 1] == [s[0]] + s[1..][..n];
      n + 1
  }

  function Body(buf: string): string {
    if buf != "" && buf[|buf| - 1] == '\n' then buf[..|buf| - 1] else buf
  }

  function ParseInject(buf: string): Option<Request> {
    var body := Body(buf);
    var sep := FirstOf(body, ':');
    if sep == |body| || sep == 0 then None
    else if |body| != sep + 2 then None
    else if body[sep + 1] != '0' && body[sep + 1] != '1' then None
    else if sep >= INDEX_BUF then None
    else
      match Kstrto(body[..sep], ULONG)
      case None => None
      case Some(n) => if n >= LINES then None else Some(Request(n, if body[sep + 1] == '0' then 0 else 1))
  }

  // --- the texts that are accepted ---

  // A write is accepted exactly if it is such a number, one colon, one digit 0 or
  // 1 and perhaps a newline, where the number takes at most three characters and
  // is the index of a line; the request is what the text says.
  lemma AcceptedTexts(buf: string, r: Request)
    ensures ParseInject(buf) == Some(r) <==>
      var body := Body(buf); var len := |body| - 2;
      && 1 <= len < 4 && ':' !in body[..len] && body[len] == ':'
      && body[len + 1] == (if r.val == 0 then '0' else '1')
      && r.line < 8 && Numeral(body[..len], r.line)
  {
    var body := Body(buf);
    var len := |body| - 2;
    var sep := FirstOf(body, ':');
    if len >= 0 && ':' !in body[..len] && body[len] == ':' {
      FirstIsUnique(body, ':', len);
      NumeralIsParsed(body[..len], ULONG, r.line);
    }
  }

  lemma {:induction false} FirstIsUnique(s: string, c: char, n: nat)
    requires n < |s| && c !in s[..n] && s[n] == c
    ensures FirstOf(s, c) == n
  {
    if n > 0 {
      assert s[0] in s[..n];
      assert s[1..][..n - 1] == s[..n][1..];
      FirstIsUnique(s[1..], c, n - 1);
    }
  }

  // --- writing what is documented ---

  function Show(r: Request): string
    requires r.line < LINES
  {
    Digit(r.line) + ":" + (if r.val == 0 then "0" else "1")
  }

  // The documented form is read back, with or without a newline.
  lemma ShownIsRead(r: Request)
    requires r.line < LINES
    ensures ParseInject(Show(r)) == Some(r) && ParseInject(Show(r) + "\n") == Some(r)
  {
    var text := Show(r);
    assert Body(text) == text && Body(text + "\n") == text;
    assert text[..1] == Digit(r.line) && text[1] == ':' && |text| == 3;
    ShownNumberIsRead(r.line, ULONG);
    NumeralIsParsed(Digit(r.line), ULONG, r.line);
    AcceptedTexts(text, r);
    AcceptedTexts(text + "\n", r);
  }

  // More than the documented form is accepted: a sign, leading zeros, and a
  // newline in front of the colon.
  lemma SignAccepted()
    ensures ParseInject("+3:1") == Some(Request(3, 1))
  {
    ThreeSpelled("+3", "+", "");
    assert "+3:1"[..2] == "+3";
    AcceptedTexts("+3:1", Request(3, 1));
  }

  lemma NewlineAccepted()
    ensures ParseInject("3\n:1") == Some(Request(3, 1))
  {
    ThreeSpelled("3\n", "", "\n");
    assert "3\n:1"[..2] == "3\n";
    AcceptedTexts("3\n:1", Request(3, 1));
  }

  lemma ThreeSpelled(text: string, sign: string, newline: string)
    requires text == sign + "3" + newline && (sign == "" || sign == "+") && (newline == "" || newline == "\n")
    ensures Kstrto(text, ULONG) == Some(3)
  {
    DecimalRoundTrip(3);
    assert Decimal(3) == "3";
    assert text == sign + "3" + newline + "";
    SpelledIsParsed(text, ULONG, sign, "3", newline, "", 3);
  }

  // --- the whole write ---

  datatype Errno = Ok | EInval | EIo

  // What a write does when nothing else runs: the section under the lock, then
  // an apply at once or a timer.
  function WriteAlone(b: Bank, r: Request, drop: Draw, flip: Draw): Bank
    requires |b.lines| == LINES && r.line < LINES
  {
    var b1 := InjectSection(b, r.line, r.val, drop);
    match InjectOutcome(b, drop)
    case Immediate => ApplyAlone(b1, r.line, flip)
    case Delayed => ArmTimer(b1, r.line)
    case _ => b1
  }

  // A malformed text is refused before the state of the bus is looked at; a write
  // that fails changes nothing.
  method InjectStore(bank: GpioBank, busUp: bool, buf: string, drop: Draw, flip: Draw, hi: Draw, lo: Draw)
    returns (e: Errno, delay: nat)
    requires bank.lines.Length == LINES
    modifies bank, bank.lines
    ensures e == if ParseInject(buf).None? then EInval else if busUp then Ok else EIo
    ensures !e.Ok? ==> bank.Abs() == old(bank.Abs())
    ensures e.Ok? ==> ParseInject(buf).Some? && ParseInject(buf).value.line < LINES
    ensures e.Ok? ==> bank.Abs() == WriteAlone(old(bank.Abs()), ParseInject(buf).value, drop, flip)
    ensures e.Ok? && InjectOutcome(old(bank.Abs()), drop).Delayed? ==> delay == Delay(old(bank.latency), old(bank.jitter), hi, lo)
    // a disabled bank ignores the write; an enabled one counts it as dropped, or takes it
    // and, if a delay is set, arms the timer
    ensures e.Ok? && !old(bank.enabled) ==> bank.Abs() == old(bank.Abs())
    ensures e.Ok? && old(bank.enabled) && old(bank.dropPpm) != 0 && drop % 1000000 < old(bank.dropPpm) ==>
      bank.lines[..] == old(bank.lines[..]) && bank.drops == (old(bank.drops) + 1) % 0x1_0000_0000_0000_0000
    ensures e.Ok? && old(bank.enabled) && (old(bank.dropPpm) == 0 || drop % 1000000 >= old(bank.dropPpm)) ==>
      var i, v := ParseInject(buf).value.line, ParseInject(buf).value.val;
      && bank.lines[i].accepted == old(bank.lines[..])[i].accepted + [Snap(v, old(bank.flipPpm))]
      && bank.lines[i].timerArmed == (old(bank.lines[..])[i].timerArmed || old(bank.latency) != 0 || old(bank.jitter) != 0)
  {
    delay := 0;
    var p := ParseInject(buf);
    if p.None? {
      return EInval, 0;
    }
    if !busUp {
      return EIo, 0;
    }
    var i := p.value.line;
    var o;
    o, delay := bank.InjectLocked(i, p.value.val, drop, hi, lo);
    if o.Immediate? {
      bank.LineApply(i, flip);
    } else if o.Delayed? {
      bank.lines[i] := bank.lines[i].(timerArmed := true);
    }
    e := Ok;
  }

  // With no faults and no delay, a write on an input line is seen there at once,
  // and on an output line changes nothing that can be seen.
  lemma FaultlessWrite(b: Bank, r: Request, drop: Draw, flip: Draw)
    requires BankOk(b) && r.line < LINES
    requires b.enabled && b.dropPpm == b.flipPpm == b.latency == b.jitter == 0
    requires b.lines[r.line].applied == |b.lines[r.line].accepted|
    ensures var l, l' := b.lines[r.line], WriteAlone(b, r, drop, flip).lines[r.line];
      && l'.value == (if l.isOutput then l.value else r.val)
      && l'.isOutput == l.isOutput && l'.applied == |l'.accepted| && l'.applyGen == l'.snapGen
  {
    assert LineOk(b.lines[r.line]);
  }

  // That is what a run of the protocol does in which only this write moves.
  lemma WriteIsRun(s: P.System, t: nat, r: Request, drop: Draw, flip: Draw) returns (run: seq<P.Action>)
    requires |s.bank.lines| == |s.workers| == LINES && r.line < LINES && t !in s.injectors
    ensures P.Runs(s, run) && P.After(s, run) == s.(bank := WriteAlone(s.bank, r, drop, flip))
  {
    var a := P.Inject(t, r.line, r.val, drop);
    var s1 := P.Next(s, a);
    assert P.Runs(s, []);
    P.Extend(s, [], a);
    run := [] + [a];
    if InjectOutcome(s.bank, drop).Delayed? {
      P.Extend(s, run, P.Arm(t));
      run := run + [P.Arm(t)];
      assert s1.injectors - {t} == s.injectors;
    } else if InjectOutcome(s.bank, drop).Immediate? {
      assert s1.injectors - {t} == s.injectors;
      run := ApplyIsRun(s, run, s1, t, r.line, flip);
    }
  }

  lemma ApplyIsRun(s: P.System, run: seq<P.Action>, s1: P.System, t: nat, i: nat, flip: Draw) returns (run': seq<P.Action>)
    requires P.Runs(s, run) && P.After(s, run) == s1 && i < |s1.bank.lines|
    requires t in s1.injectors && s1.injectors[t] == P.Applying(i, P.AtEntry)
    ensures P.Runs(s, run')
    ensures P.After(s, run') == s1.(bank := ApplyAlone(s1.bank, i, flip), injectors := s1.injectors - {t})
  {
    var w := P.ByInjector(t);
    P.Extend(s, run, P.First(w));
    run' := run + [P.First(w)];
    if ApplyFirst(s1.bank.lines[i]).Fresh? {
      var s2 := P.Next(s1, P.First(w));
      P.Extend(s, run', P.Second(w, flip));
      run' := run' + [P.Second(w, flip)];
      assert s2.injectors - {t} == s1.injectors - {t};
    }
  }
}

// The text helpers of the kernel that the attributes use.
module KernelText {

  datatype Option<+T> = None | Some(value: T)

  predicate IsDigit(c: char) { '0' <= c <= '9' }

  function DigitOf(c: char): nat
    requires IsDigit(c)
  {
    (c as int) - ('0' as int)
  }

  // How many digits s starts with.
  function DigitRun(s: string): (n: nat)
    ensures n <= |s| && (forall k | 0 <= k < n :: IsDigit(s[k])) && (n < |s| ==> !IsDigit(s[n]))
  {
    if s == "" || !IsDigit(s[0]) then 0 else 1 + DigitRun(s[1..])
  }

  function DecimalValue(digits: string): nat
    requires forall c | c in digits :: IsDigit(c)
  {
    if digits == "" then 0
    else
      var c := digits[|digits| - 1];
      assert c in digits;
      10 * DecimalValue(digits[..|digits| - 1]) + DigitOf(c)
  }

  function Skip(s: string, c: char): string {
    if s != "" && s[0] == c then s[1..] else s
  }

  // kstrtoul and kstrtou32 in base 10 on the bytes of s up to its end or a NUL; a
  // number of limit or more is a range error.
  function Kstrto(s: string, limit: nat): Option<nat> {
    var t := Skip(s, '+');
    var n := DigitRun(t);
    var rest := Skip(t[n..], '\n');
    if n == 0 || (rest != "" && rest[0] != '\0') || DecimalValue(t[..n]) >= limit then None
    else Some(DecimalValue(t[..n]))
  }

  // text is a number n: an optional plus sign, digits, an optional newline, and
  // then nothing or a NUL byte with anything behind it.
  ghost predicate Spells(text: string, sign: string, digits: string, newline: string, rest: string, n: nat) {
    && text == sign + digits + newline + rest
    && (sign == "" || sign == "+") && (newline == "" || newline == "\n")
    && digits != "" && (forall c | c in digits :: IsDigit(c)) && DecimalValue(digits) == n
    && (rest == "" || rest[0] == '\0')
  }

  lemma {:induction false} RunIsLongest(s: string, n: nat)
    requires n <= |s| && (forall k | 0 <= k < n :: IsDigit(s[k])) && (n < |s| ==> !IsDigit(s[n]))
    ensures DigitRun(s) == n
  {
    if n > 0 {
      assert s[0] == s[0] && IsDigit(s[0]);
      forall k | 0 <= k < n - 1 ensures IsDigit(s[1..][k]) {
        assert IsDigit(s[k + 1]);
      }
      RunIsLongest(s[1..], n - 1);
    }
  }

  lemma DigitsFirst(digits: string, tail: string)
    requires (forall c | c in digits :: IsDigit(c)) && (tail != "" ==> !IsDigit(tail[0]))
    ensures DigitRun(digits + tail) == |digits|
  {
    forall k | 0 <= k < |digits| ensures IsDigit((digits + tail)[k]) {
      assert digits[k] in digits;
    }
    RunIsLongest(digits + tail, |digits|);
  }

  lemma SignSkipped(sign: string, t: string)
    requires (sign == "" || sign == "+") && t != "" && t[0] != '+'
    ensures Skip(sign + t, '+') == t
  {
    assert sign == "" ==> sign + t == t;
  }

  lemma TailSkipped(newline: string, rest: string)
    requires (newline == "" || newline == "\n") && (rest == "" || rest[0] == '\0')
    ensures Skip(newline + rest, '\n') == rest
    ensures newline + rest != "" ==> !IsDigit((newline + rest)[0])
  {
    assert newline == "" ==> newline + rest == rest;
  }

  lemma SpelledIsParsed(text: string, limit: nat, sign: string, digits: string, newline: string, rest: string, n: nat)
    requires Spells(text, sign, digits, newline, rest, n)
    ensures Kstrto(text, limit) == if n < limit then Some(n) else None
  {
    var tail := newline + rest;
    var t := digits + tail;
    assert digits[0] in digits;
    assert text == sign + t;
    SignSkipped(sign, t);
    TailSkipped(newline, rest);
    DigitsFirst(digits, tail);
    assert t[..|digits|] == digits && t[|digits|..] == tail;
  }

  lemma ParsedIsSpelled(text: string, limit: nat, n: nat)
    returns (sign: string, digits: string, newline: string, rest: string)
    requires Kstrto(text, limit) == Some(n)
    ensures Spells(text, sign, digits, newline, rest, n)
  {
    var t := Skip(text, '+');
    sign := if t == text then "" else "+";
    var k := DigitRun(t);
    digits := t[..k];
    rest := Skip(t[k..], '\n');
    newline := if rest == t[k..] then "" else "\n";
  }

  ghost predicate Numeral(text: string, n: nat) {
    exists sign, digits, newline, rest :: Spells(text, sign, digits, newline, rest, n)
  }

  // A number is read from a text exactly if the text spells it and it is in range.
  lemma NumeralIsParsed(text: string, limit: nat, n: nat)
    ensures Kstrto(text, limit) == Some(n) <==> Numeral(text, n) && n < limit
  {
    if Kstrto(text, limit) == Some(n) {
      var sign, digits, newline, rest := ParsedIsSpelled(text, limit, n);
    }
    if Numeral(text, n) {
      var sign, digits, newline, rest :| Spells(text, sign, digits, newline, rest, n);
      SpelledIsParsed(text, limit, sign, digits, newline, rest, n);
    }
  }

  // --- numbers written out ---

  function Digit(n: nat): string
    requires n < 10
  {
    [('0' as int + n) as char]
  }

  // The "%u" of the kernel.
  function Decimal(n: nat): (s: string)
    ensures s != "" && forall c | c in s :: IsDigit(c)
  {
    if n < 10 then Digit(n) else Decimal(n / 10) + Digit(n % 10)
  }

  lemma {:induction false} DecimalRoundTrip(n: nat)
    ensures DecimalValue(Decimal(n)) == n
  {
    var s := Decimal(n);
    if n < 10 {
      assert s[..|s| - 1] == "";
    } else {
      DecimalRoundTrip(n / 10);
      assert s[..|s| - 1] == Decimal(n / 10);
    }
  }

  // A number that is shown on a line of its own is read back.
  lemma ShownNumberIsRead(n: nat, limit: nat)
    requires n < limit
    ensures Kstrto(Decimal(n), limit) == Some(n) && Kstrto(Decimal(n) + "\n", limit) == Some(n)
  {
    DecimalRoundTrip(n);
    var s := Decimal(n);
    assert s == "" + s + "" + "" && s + "\n" == "" + s + "\n" + "";
    SpelledIsParsed(s, limit, "", s, "", "", n);
    SpelledIsParsed(s + "\n", limit, "", s, "\n", "", n);
  }

  // --- words ---

  // The bytes of s up to its end or a NUL.
  function CString(s: string): (r: string)
    ensures r <= s && '\0' !in r
  {
    if s == "" || s[0] == '\0' then "" else [s[0]] + CString(s[1..])
  }

  // sysfs_streq: the same word, but for one newline at the end.
  predicate SameLine(text: string, word: string) {
    CString(text) == word || CString(text) == word + "\n"
  }

  // A text without a NUL is all there is.
  lemma {:induction false} WholeString(text: string)
    requires '\0' !in text
    ensures CString(text) == text
  {
    if text != "" {
      assert text[0] in text;
      WholeString(text[1..]);
    }
  }

  // Numbers are read in base ten.
  lemma ReadsDecimal(digits: string, c: char)
    requires IsDigit(c) && forall d | d in digits :: IsDigit(d)
    ensures DecimalValue(digits + [c]) == 10 * DecimalValue(digits) + (c as int - '0' as int) && DecimalValue("") == 0
  {
    assert (digits + [c])[..|digits|] == digits;
  }

  // What stands behind a NUL does not count.
  lemma {:induction false} NulEnds(text: string, more: string)
    requires '\0' !in text
    ensures CString(text + "\0" + more) == CString(text) == text
  {
    var s := text + "\0" + more;
    if text != "" {
      assert text[0] in text && s[1..] == text[1..] + "\0" + more;
      NulEnds(text[1..], more);
    }
  }
}

/**
 * `runAsUser`: a command line is handed to `bash -c` as ONE single-quoted
 * argument, run as the unprivileged `www-data` account. The same helper is
 * repeated in the Node.js, Python and git services.
 */
module Shell {
  import opened Text

  /** Replace every `'` by `'\''` (close the quote, an escaped quote, reopen). */
  function EscapeQuotes(cmd: string): (r: string)
    ensures |r| >= |cmd|
  {
    if cmd == [] then []
    else EscapeChar(cmd[0]) + EscapeQuotes(cmd[1..])
  }

  function EscapeChar(c: char): string {
    if c == '\'' then "'\\''" else [c]
  }

  /** The command line `sudo -u www-data bash -c '<cmd>'`. */
  function RunAsUser(cmd: string): string {
    "sudo -u www-data bash -c " + QuoteArg(cmd)
  }

  /** `cmd` as one single-quoted shell word. */
  function QuoteArg(cmd: string): string {
    "'" + EscapeQuotes(cmd) + "'"
  }

  function Prepend(c: char, r: Option<string>): Option<string> {
    Prepend2([c], r)
  }

  /**
   * How bash reads one word that is made only of single-quoted runs and
   * backslash-escaped characters. Anything else outside quotes (a space, `;`,
   * `$`, ...) would be interpreted by the shell, so the word is refused.
   */
  function ReadWord(s: string, quoted: bool): Option<string>
    decreases |s|
  {
    if s == [] then (if quoted then None else Some(""))
    else if quoted then
      (if s[0] == '\'' then ReadWord(s[1..], false) else Prepend(s[0], ReadWord(s[1..], true)))
    else if s[0] == '\'' then ReadWord(s[1..], true)
    else if s[0] == '\\' && |s| >= 2 then Prepend(s[1], ReadWord(s[2..], false))
    else None
  }

  lemma {:induction false} ReadEscaped(cmd: string, rest: string)
    ensures ReadWord(EscapeQuotes(cmd) + "'" + rest, true) == Prepend2(cmd, ReadWord(rest, false))
  {
    if cmd == [] {
      assert EscapeQuotes(cmd) + "'" + rest == ['\''] + rest;
      assert (['\''] + rest)[1..] == rest;
      PrependNothing(ReadWord(rest, false));
    } else {
      var tail := EscapeQuotes(cmd[1..]) + "'" + rest;
      ReadEscaped(cmd[1..], rest);
      ReadOneEscaped(cmd[0], tail);
      assert EscapeQuotes(cmd) + "'" + rest == EscapeChar(cmd[0]) + tail;
      PrependTwice(cmd[0], cmd[1..], ReadWord(rest, false));
      assert [cmd[0]] + cmd[1..] == cmd;
    }
  }

  lemma PrependNothing(r: Option<string>)
    ensures Prepend2([], r) == r
  {
    if r.Some? {
      assert [] + r.value == r.value;
    }
  }

  lemma PrependTwice(c: char, p: string, r: Option<string>)
    ensures Prepend(c, Prepend2(p, r)) == Prepend2([c] + p, r)
  {
    if r.Some? {
      assert [c] + (p + r.value) == ([c] + p) + r.value;
    }
  }

  lemma ReadOneEscaped(c: char, tail: string)
    ensures ReadWord(EscapeChar(c) + tail, true) == Prepend(c, ReadWord(tail, true))
  {
    var s := EscapeChar(c) + tail;
    if c == '\'' {
      var s1 := s[1..];
      var s2 := s1[2..];
      assert s1 == "\\''" + tail;
      assert s2 == "'" + tail;
      assert s2[1..] == tail;
      assert ReadWord(s2, false) == ReadWord(tail, true);
      assert s1[0] == '\\' && s1[1] == '\'';
      assert ReadWord(s1, false) == Prepend('\'', ReadWord(s2, false));
      assert ReadWord(s, true) == ReadWord(s1, false);
    } else {
      assert s[1..] == tail;
    }
  }

  function Prepend2(p: string, r: Option<string>): Option<string> {
    match r
    case None => None
    case Some(s) => Some(p + s)
  }

  /** bash reads the quoted argument back as exactly the original command line. */
  lemma QuoteArgRoundTrip(cmd: string)
    ensures ReadWord(QuoteArg(cmd), false) == Some(cmd)
  {
    var q := QuoteArg(cmd);
    assert q[1..] == EscapeQuotes(cmd) + "'" + "";
    ReadEscaped(cmd, "");
    assert cmd + "" == cmd;
  }

  predicate IsOctal(c: char) { '0' <= c <= '7' }

  /** How many of the first `max` characters of `s` are octal digits in a row. */
  function OctalRun(s: string, max: nat): (k: nat)
    ensures k <= max && k <= |s| && forall i | 0 <= i < k :: IsOctal(s[i])
    ensures s != [] && max > 0 && IsOctal(s[0]) ==> k >= 1
  {
    if s == [] || max == 0 || !IsOctal(s[0]) then 0 else 1 + OctalRun(s[1..], max - 1)
  }

  function OctalValue(digits: string): nat
    requires forall i | 0 <= i < |digits| :: IsOctal(digits[i])
  {
    if digits == [] then 0
    else
      var last := digits[|digits| - 1];
      assert IsOctal(last);
      8 * OctalValue(digits[..|digits| - 1]) + (last as int - '0' as int)
  }

  /** The character a one-letter escape of `echo` stands for: `\\`, `\a`, `\b`, `\f`, `\n`, `\r`, `\t`, `\v`. */
  function LetterEscape(c: char): Option<char> {
    match c
    case '\\' => Some('\\')
    case 'a' => Some('\U{7}')
    case 'b' => Some('\U{8}')
    case 'f' => Some('\U{C}')
    case 'n' => Some('\n')
    case 'r' => Some('\r')
    case 't' => Some('\t')
    case 'v' => Some('\U{B}')
    case _ => None
  }

  /**
   * The text the `echo` built into `/bin/sh` (dash) prints for one argument
   * before its final newline, and whether that newline follows. A backslash
   * starts an escape: a letter escape, `\c` (stop, and no newline), or one to
   * three octal digits after an optional `0` (the byte of that value, taken
   * modulo 256; a zero byte is printed like any other and the text goes on). Before any other character, or at the end, the
   * backslash is printed as it is.
   */
  function EchoRun(s: string): (string, bool)
    decreases |s|
  {
    if s == [] then ([], true)
    else if s[0] != '\\' || |s| == 1 then
      var (t, newline) := EchoRun(s[1..]);
      ([s[0]] + t, newline)
    else if s[1] == 'c' then ([], false)
    else if LetterEscape(s[1]).Some? then
      var (t, newline) := EchoRun(s[2..]);
      ([LetterEscape(s[1]).value] + t, newline)
    else if IsOctal(s[1]) then
      var start := if s[1] == '0' && |s| > 2 && IsOctal(s[2]) then 2 else 1;
      var k := OctalRun(s[start..], 3);
      var v := OctalValue(s[start..start + k]) % 256;
      var (t, newline) := EchoRun(s[start + k..]);
      ([v as char] + t, newline)
    else
      var (t, newline) := EchoRun(s[1..]);
      (['\\'] + t, newline)
  }

  /** What `echo` prints for one argument. */
  function Echo(s: string): string {
    var (t, newline) := EchoRun(s);
    if newline then t + "\n" else t
  }

  /** Text without a backslash is printed as it is, before whatever follows it prints. */
  lemma {:induction false} EchoRunPlain(a: string, rest: string)
    requires '\\' !in a
    ensures EchoRun(a + rest) == (a + EchoRun(rest).0, EchoRun(rest).1)
    decreases |a|
  {
    if a != [] {
      assert (a + rest)[0] == a[0] && (a + rest)[1..] == a[1..] + rest;
      EchoRunPlain(a[1..], rest);
      assert [a[0]] + (a[1..] + EchoRun(rest).0) == a + EchoRun(rest).0;
    } else {
      assert a + rest == rest && a + EchoRun(rest).0 == EchoRun(rest).0;
    }
  }

  /** `echo` prints text without a backslash as it is, and a newline. */
  lemma EchoPlain(s: string)
    requires '\\' !in s
    ensures Echo(s) == s + "\n"
  {
    EchoRunPlain(s, []);
    assert s + [] == s;
  }

  /** A `\n` in the argument comes out as a line break. */
  lemma EchoBreaksLine(a: string, b: string)
    requires '\\' !in a && '\\' !in b
    ensures Echo(a + "\\n" + b) == a + "\n" + b + "\n"
  {
    var rest := "\\n" + b;
    assert a + "\\n" + b == a + rest;
    EchoRunPlain(a, rest);
    assert rest[0] == '\\' && rest[1] == 'n' && rest[2..] == b;
    EchoRunPlain(b, []);
    assert b + [] == b;
  }

  /** A `\0` not followed by an octal digit stands for the zero byte. */
  lemma {:induction false} EchoRunZero(b: string)
    requires b == [] || !IsOctal(b[0])
    ensures EchoRun("\\0" + b) == (['\0'] + EchoRun(b).0, EchoRun(b).1)
  {
    var s := "\\0" + b;
    assert s[0] == '\\' && s[1] == '0' && s[2..] == b && !(|s| > 2 && IsOctal(s[2]));
    assert OctalRun(s[1..], 3) == 1 by {
      assert s[1..] == "0" + b && s[1..][1..] == b;
      assert OctalRun(b, 2) == 0;
    }
    assert OctalValue(s[1..2]) % 256 == 0 by {
      assert s[1..2] == "0";
    }
  }

  /** A `\0` in the argument prints a zero byte and the text goes on after it. */
  lemma {:induction false} EchoKeepsZero(a: string, b: string)
    requires '\\' !in a && '\\' !in b
    requires b == [] || !IsOctal(b[0])
    ensures Echo(a + "\\0" + b) == a + "\0" + b + "\n"
  {
    var rest := "\\0" + b;
    assert a + "\\0" + b == a + rest;
    EchoRunPlain(a, rest);
    EchoRunZero(b);
    EchoRunPlain(b, []);
    assert b + [] == b;
    assert a + (['\0'] + b) + "\n" == a + "\0" + b + "\n";
  }

  /** A `\c` in the argument ends the output there, without the newline. */
  lemma EchoStopsAtC(a: string, b: string)
    requires '\\' !in a
    ensures Echo(a + "\\c" + b) == a
  {
    var rest := "\\c" + b;
    assert a + "\\c" + b == a + rest;
    EchoRunPlain(a, rest);
    assert rest[0] == '\\' && rest[1] == 'c';
    assert a + [] == a;
  }
}

/**
 * String operations with the meaning JavaScript gives them, on `seq<char>`:
 * `trim`, `split`, `join`, `includes`, `startsWith`, regex character classes
 * and the decimal rendering of a non-negative integer.
 */
module Text {

  datatype Option<+T> = None | Some(value: T)

  /** A call that returns a value or throws an error with a message. */
  datatype Result<+T> = Ok(value: T) | Err(error: string)

  /** JavaScript's `\s` class; `String.prototype.trim` removes exactly these. */
  predicate IsSpace(c: char) {
    || c == ' ' || c == '\t' || c == '\n' || c == '\r' || c == '\U{B}' || c == '\U{C}'
    || c == '\U{A0}' || c == '\U{1680}' || ('\U{2000}' <= c <= '\U{200A}')
    || c == '\U{2028}' || c == '\U{2029}' || c == '\U{202F}' || c == '\U{205F}'
    || c == '\U{3000}' || c == '\U{FEFF}'
  }

  predicate NotSpace(c: char) { !IsSpace(c) }

  /** The characters JavaScript's `.` does not match. */
  predicate IsLineTerminator(c: char) {
    c == '\n' || c == '\r' || c == '\U{2028}' || c == '\U{2029}'
  }

  predicate IsDigit(c: char) { '0' <= c <= '9' }

  predicate IsLetter(c: char) { 'a' <= c <= 'z' || 'A' <= c <= 'Z' }

  predicate IsAlnum(c: char) { IsLetter(c) || IsDigit(c) }

  /** `[a-zA-Z0-9_-]`, the character class of site names. */
  predicate IsNameChar(c: char) { IsAlnum(c) || c == '_' || c == '-' }

  /** Every character of `s` satisfies `p`. */
  predicate AllChars(s: string, p: char -> bool) {
    forall i | 0 <= i < |s| :: p(s[i])
  }

  predicate StartsWith(s: string, prefix: string) {
    |prefix| <= |s| && s[..|prefix|] == prefix
  }

  /** `t` occurs in `s` at position `k`. */
  predicate OccursAt(s: string, t: string, k: nat) {
    k + |t| <= |s| && s[k..k + |t|] == t
  }

  /** The first index at or after `from` at which `t` occurs in `s`. */
  function FindFrom(s: string, t: string, from: nat): (r: Option<nat>)
    ensures r.Some? ==> from <= r.value && OccursAt(s, t, r.value)
    ensures r.Some? ==> forall k: nat | from <= k < r.value :: !OccursAt(s, t, k)
    ensures r.None? ==> forall k: nat | from <= k :: !OccursAt(s, t, k)
    decreases |s| - from
  {
    if from + |t| > |s| then None
    else if s[from..from + |t|] == t then Some(from)
    else FindFrom(s, t, from + 1)
  }

  /** The first index at which `t` occurs in `s` (JavaScript `indexOf`). */
  function FindStr(s: string, t: string): (r: Option<nat>)
    ensures r.Some? ==> OccursAt(s, t, r.value) && forall k: nat | k < r.value :: !OccursAt(s, t, k)
    ensures r.None? ==> forall k: nat :: !OccursAt(s, t, k)
  {
    FindFrom(s, t, 0)
  }

  /** JavaScript `s.includes(t)`. */
  predicate Contains(s: string, t: string) {
    FindStr(s, t).Some?
  }

  lemma ContainsAt(s: string, t: string, k: nat)
    requires OccursAt(s, t, k)
    ensures Contains(s, t)
  {
  }

  lemma ContainsInfix(a: string, t: string, b: string)
    ensures Contains(a + t + b, t)
  {
    assert OccursAt(a + t + b, t, |a|);
  }

  lemma ContainsSuffix(a: string, t: string)
    ensures Contains(a + t, t)
  {
    assert OccursAt(a + t, t, |a|);
  }

  lemma ContainsSecond(a: string, t: string, b: string, c: string)
    ensures Contains(a + t + b + c, t)
  {
    assert OccursAt(a + t + b + c, t, |a|);
  }

  lemma ContainsChar(s: string, c: char)
    ensures Contains(s, [c]) <==> c in s
  {
    if c in s {
      var k :| 0 <= k < |s| && s[k] == c;
      assert OccursAt(s, [c], k);
    }
    if Contains(s, [c]) {
      var k := FindStr(s, [c]).value;
      assert s[k..k + 1] == [c];
      assert s[k] == c;
    }
  }

  /** Every slice of a text whose characters all satisfy `p` has the same property. */
  lemma AllCharsSlice(s: string, i: nat, j: nat, p: char -> bool)
    requires i <= j <= |s| && AllChars(s, p)
    ensures AllChars(s[i..j], p)
  {
    assert forall k | 0 <= k < j - i :: s[i..j][k] == s[i + k];
  }

  /** JavaScript `trimStart`. */
  function TrimStart(s: string): (r: string)
    ensures |r| <= |s| && r == s[|s| - |r|..]
    ensures AllChars(s[..|s| - |r|], IsSpace)
    ensures r == [] || !IsSpace(r[0])
  {
    if |s| > 0 && IsSpace(s[0]) then
      var t := TrimStart(s[1..]);
      SpaceThenSuffix(s, t);
      t
    else s
  }

  /** A suffix of `s[1..]` after white space, when `s` starts with white space. */
  lemma SpaceThenSuffix(s: string, t: string)
    requires |s| > 0 && IsSpace(s[0])
    requires |t| <= |s| - 1 && t == s[1..][|s| - 1 - |t|..] && AllChars(s[1..][..|s| - 1 - |t|], IsSpace)
    ensures t == s[|s| - |t|..] && AllChars(s[..|s| - |t|], IsSpace)
  {
    assert s[1..][..|s| - 1 - |t|] == s[1..|s| - |t|];
    assert s[..|s| - |t|] == [s[0]] + s[1..|s| - |t|];
  }

  /** JavaScript `trimEnd`. */
  function TrimEnd(s: string): (r: string)
    ensures |r| <= |s| && r == s[..|r|]
    ensures AllChars(s[|r|..], IsSpace)
    ensures r == [] || !IsSpace(r[|r| - 1])
  {
    if |s| > 0 && IsSpace(s[|s| - 1]) then
      var t := TrimEnd(s[..|s| - 1]);
      PrefixThenSpace(s, t);
      t
    else s
  }

  /** A prefix of `s[..|s| - 1]` before white space, when `s` ends with white space. */
  lemma PrefixThenSpace(s: string, t: string)
    requires |s| > 0 && IsSpace(s[|s| - 1])
    requires |t| <= |s| - 1 && t == s[..|s| - 1][..|t|] && AllChars(s[..|s| - 1][|t|..], IsSpace)
    ensures t == s[..|t|] && AllChars(s[|t|..], IsSpace)
  {
    assert s[|t|..] == s[..|s| - 1][|t|..] + [s[|s| - 1]];
  }

  /** Neither starts nor ends with white space. */
  predicate Trimmed(s: string) {
    s == [] || (!IsSpace(s[0]) && !IsSpace(s[|s| - 1]))
  }

  /** JavaScript `trim`: `r` is `s` without its leading and trailing white space. */
  function Trim(s: string): (r: string)
    ensures Trimmed(r)
  {
    TrimEnd(TrimStart(s))
  }

  lemma TrimOfTrimmed(s: string)
    requires Trimmed(s)
    ensures Trim(s) == s
  {
  }

  /** A trimmed text followed by one white-space character trims back to itself. */
  lemma TrimSpaceAfter(x: string, c: char)
    requires x != [] && Trimmed(x) && IsSpace(c)
    ensures Trim(x + [c]) == x
  {
    var s := x + [c];
    assert TrimStart(s) == s;
    assert s[..|s| - 1] == x;
    assert TrimEnd(s) == TrimEnd(x);
    TrimOfTrimmed(x);
    assert TrimEnd(x) == x;
  }

  lemma TrimKeepsChars(s: string, p: char -> bool)
    requires AllChars(s, p)
    ensures AllChars(Trim(s), p)
  {
    var a := TrimStart(s);
    AllCharsSlice(s, |s| - |a|, |s|, p);
    assert a == s[|s| - |a|..|s|];
    AllCharsSlice(a, 0, |TrimEnd(a)|, p);
  }

  /** JavaScript `parts.join(sep)`. */
  function Join(parts: seq<string>, sep: string): string {
    if |parts| == 0 then ""
    else if |parts| == 1 then parts[0]
    else parts[0] + sep + Join(parts[1..], sep)
  }
  /** Three parts joined. */
  lemma Join3(x: string, y: string, z: string, sep: string)
    ensures Join([x, y, z], sep) == x + sep + y + sep + z
  {
    assert [x, y, z][1..] == [y, z];
    assert [y, z][1..] == [z];
    assert Join([y, z], sep) == y + sep + z;
    assert x + sep + (y + sep + z) == x + sep + y + sep + z;
  }


  /** `Join` of two non-empty lists is the two joins glued by the separator. */
  lemma {:induction false} JoinConcat(a: seq<string>, b: seq<string>, sep: string)
    requires a != [] && b != []
    ensures Join(a + b, sep) == Join(a, sep) + sep + Join(b, sep)
    decreases |a|
  {
    if |a| == 1 {
      assert (a + b)[1..] == b;
    } else {
      assert (a + b)[1..] == a[1..] + b;
      JoinConcat(a[1..], b, sep);
    }
  }

  /**
   * What a loop over `xs` collects when each element contributes `f` of it,
   * in order; written from the last element so that each step extends it.
   */
  function Gather<T>(xs: seq<string>, f: string -> seq<T>): seq<T> {
    if xs == [] then [] else Gather(xs[..|xs| - 1], f) + f(xs[|xs| - 1])
  }

  /** One more element adds its contribution. */
  lemma GatherStep<T>(xs: seq<string>, i: nat, f: string -> seq<T>)
    requires i < |xs|
    ensures Gather(xs[..i + 1], f) == Gather(xs[..i], f) + f(xs[i])
  {
    assert xs[..i + 1][..i] == xs[..i];
  }

  /** Gathering consecutive blocks is gathering each, in order. */
  lemma {:induction false} GatherAppend<T>(a: seq<string>, b: seq<string>, f: string -> seq<T>)
    ensures Gather(a + b, f) == Gather(a, f) + Gather(b, f)
    decreases |b|
  {
    if b == [] {
      assert a + b == a;
    } else {
      var n := |b| - 1;
      assert (a + b)[..|a + b| - 1] == a + b[..n];
      assert (a + b)[|a + b| - 1] == b[n];
      GatherAppend(a, b[..n], f);
    }
  }

  /** Lines of a text file: each line followed by a newline. */
  function Unlines(lines: seq<string>): string {
    Join(lines, "\n") + "\n"
  }

  lemma JoinAppend(parts: seq<string>, last: string, sep: string)
    requires |parts| >= 1
    ensures Join(parts + [last], sep) == Join(parts, sep) + sep + last
  {
    if |parts| == 1 {
      assert parts + [last] == [parts[0], last];
    } else {
      assert (parts + [last])[1..] == parts[1..] + [last];
      JoinAppend(parts[1..], last, sep);
    }
  }

  /** Every character of a join comes from a part or from the separator. */
  lemma {:induction false} JoinChars(parts: seq<string>, sep: string, p: char -> bool)
    requires AllChars(sep, p)
    requires forall i | 0 <= i < |parts| :: AllChars(parts[i], p)
    ensures AllChars(Join(parts, sep), p)
  {
    if |parts| > 1 {
      JoinChars(parts[1..], sep, p);
      var a, b := parts[0] + sep, Join(parts[1..], sep);
      assert AllChars(a, p) by {
        assert forall i | |parts[0]| <= i < |a| :: a[i] == sep[i - |parts[0]|];
      }
      assert forall i | |a| <= i < |a + b| :: (a + b)[i] == b[i - |a|];
    }
  }

  /** The first position of `c` in `s`. */
  function IndexOf(s: string, c: char): (i: nat)
    requires c in s
    ensures i < |s| && s[i] == c && c !in s[..i]
  {
    if s[0] == c then 0 else 1 + IndexOf(s[1..], c)
  }

  lemma IndexOfIs(s: string, c: char, i: nat)
    requires i < |s| && s[i] == c && c !in s[..i]
    ensures IndexOf(s, c) == i
  {
    if i > 0 {
      assert s[0] == s[..i][0];
      assert s[1..][..i - 1] == s[..i][1..];
      IndexOfIs(s[1..], c, i - 1);
    }
  }

  /** JavaScript `s.split(sep)` for a one-character separator. */
  function Split(s: string, sep: char): (parts: seq<string>)
    ensures |parts| >= 1
    ensures forall i | 0 <= i < |parts| :: sep !in parts[i]
    ensures Join(parts, [sep]) == s
    decreases |s|
  {
    if sep !in s then [s]
    else
      var i := IndexOf(s, sep);
      var rest := Split(s[i + 1..], sep);
      assert s == s[..i] + [sep] + s[i + 1..];
      [s[..i]] + rest
  }

  /** Appending is associative. */
  lemma AppendAssoc<T>(a: seq<T>, b: seq<T>, c: seq<T>)
    ensures (a + b) + c == a + (b + c)
  {
  }

  /** A non-empty tail splits off its last element. */
  lemma SnocSplit<T>(a: seq<T>, b: seq<T>)
    requires b != []
    ensures a + b == (a + b[..|b| - 1]) + [b[|b| - 1]]
  {
    assert b == b[..|b| - 1] + [b[|b| - 1]];
  }

  /** The first separator of `s` ends its first part. */
  lemma SplitAt(s: string, i: nat, sep: char)
    requires i < |s| && s[i] == sep && sep !in s[..i]
    ensures Split(s, sep) == [s[..i]] + Split(s[i + 1..], sep)
  {
    IndexOfIs(s, sep, i);
  }

  /** Splitting what `Join` glued back gives the parts again. */
  lemma {:induction false} SplitJoin(parts: seq<string>, sep: char)
    requires |parts| >= 1
    requires forall i | 0 <= i < |parts| :: sep !in parts[i]
    ensures Split(Join(parts, [sep]), sep) == parts
  {
    if |parts| > 1 {
      var s := Join(parts, [sep]);
      var p := parts[0];
      assert s == p + [sep] + Join(parts[1..], [sep]);
      assert s[..|p|] == p;
      IndexOfIs(s, sep, |p|);
      assert s[|p| + 1..] == Join(parts[1..], [sep]);
      SplitJoin(parts[1..], sep);
    }
  }
  /** Three separator-free parts glued by the separator split back into the parts. */
  lemma SplitThree(a: string, b: string, c: string, sep: char)
    requires sep !in a && sep !in b && sep !in c
    ensures Split(a + [sep] + b + [sep] + c, sep) == [a, b, c]
  {
    Join3(a, b, c, [sep]);
    SplitJoin([a, b, c], sep);
  }


  /** The first white-space position of `s`, if any. */
  function FirstSpace(s: string): (r: Option<nat>)
    ensures r.Some? ==> r.value < |s| && IsSpace(s[r.value]) && AllChars(s[..r.value], NotSpace)
    ensures r.None? ==> AllChars(s, NotSpace)
  {
    if s == [] then None
    else if IsSpace(s[0]) then Some(0)
    else match FirstSpace(s[1..])
      case None => None
      case Some(k) => Some(k + 1)
  }

  lemma FirstSpaceIs(s: string, i: nat)
    requires i < |s| && IsSpace(s[i]) && AllChars(s[..i], NotSpace)
    ensures FirstSpace(s) == Some(i)
  {
    if i > 0 {
      assert s[0] == s[..i][0];
      assert s[1..][..i - 1] == s[..i][1..];
      FirstSpaceIs(s[1..], i - 1);
    }
  }

  /** JavaScript `s.split(/\s+/)`: the pieces between maximal runs of white space. */
  function SplitWs(s: string): (parts: seq<string>)
    ensures |parts| >= 1
    ensures forall i | 0 <= i < |parts| :: AllChars(parts[i], NotSpace)
    decreases |s|
  {
    match FirstSpace(s)
    case None => [s]
    case Some(i) => [s[..i]] + SplitWs(TrimStart(s[i + 1..]))
  }

  /** A word of a white-space separated text. */
  predicate IsWord(w: string) {
    w != [] && AllChars(w, NotSpace)
  }

  /** Words joined by single spaces split back into the same words. */
  lemma {:induction false} SplitWsJoin(words: seq<string>)
    requires |words| >= 1
    requires forall i | 0 <= i < |words| :: IsWord(words[i])
    ensures SplitWs(Join(words, " ")) == words
  {
    var w := words[0];
    assert AllChars(w, NotSpace);
    if |words| == 1 {
      assert FirstSpace(w).None?;
    } else {
      var s := Join(words, " ");
      var rest := Join(words[1..], " ");
      assert s == w + " " + rest;
      assert s[..|w|] == w;
      FirstSpaceIs(s, |w|);
      assert s[|w| + 1..] == rest;
      assert words[1][0] == rest[0] by { JoinHead(words[1..], " "); }
      assert TrimStart(rest) == rest;
      SplitWsJoin(words[1..]);
    }
  }

  lemma JoinHead(parts: seq<string>, sep: string)
    requires |parts| >= 1 && parts[0] != []
    ensures Join(parts, sep) != [] && Join(parts, sep)[0] == parts[0][0]
  {
  }

  /** JavaScript `s.toLowerCase()`, for ASCII letters. */
  function Lower(s: string): (r: string)
    ensures |r| == |s|
  {
    seq(|s|, i requires 0 <= i < |s| => if 'A' <= s[i] <= 'Z' then (s[i] as int + 32) as char else s[i])
  }

  /** Lower-casing works character by character. */
  lemma LowerConcat(a: string, b: string)
    ensures Lower(a + b) == Lower(a) + Lower(b)
  {
    assert forall i | 0 <= i < |a + b| :: Lower(a + b)[i] == (Lower(a) + Lower(b))[i];
  }

  /** The characters of `s` that satisfy `keep`, in order (a global regex `replace` with ''). */
  function Filter(s: string, keep: char -> bool): (r: string)
    ensures AllChars(r, keep)
    ensures |r| <= |s|
    ensures AllChars(s, keep) ==> r == s
  {
    if s == [] then [] else (if keep(s[0]) then [s[0]] else []) + Filter(s[1..], keep)
  }

  /** Filtering distributes over concatenation, so the order of kept characters is preserved. */
  lemma {:induction false} FilterConcat(a: string, b: string, keep: char -> bool)
    ensures Filter(a + b, keep) == Filter(a, keep) + Filter(b, keep)
  {
    if a != [] {
      assert (a + b)[1..] == a[1..] + b;
      FilterConcat(a[1..], b, keep);
    } else {
      assert a + b == b;
    }
  }

  /** The value of a digit. */
  function DigitValue(c: char): nat
    requires IsDigit(c)
  {
    c as int - '0' as int
  }

  /** The value of a string of decimal digits, most significant first. */
  function DecimalValue(s: string): nat
    requires AllChars(s, IsDigit)
  {
    if s == [] then 0 else DecimalValue(s[..|s| - 1]) * 10 + DigitValue(s[|s| - 1])
  }

  /** JavaScript's `${n}` for a non-negative integer: canonical decimal digits. */
  function NatToString(n: nat): (s: string)
    ensures |s| >= 1 && AllChars(s, IsDigit)
    ensures DecimalValue(s) == n
    ensures s[0] == '0' ==> n == 0
  {
    var d := [('0' as int + n % 10) as char];
    if n < 10 then d
    else
      var h := NatToString(n / 10);
      assert (h + d)[..|h + d| - 1] == h;
      h + d
  }

  /** A string made only of digits. */
  predicate IsDigits(s: string) {
    s != [] && AllChars(s, IsDigit)
  }
}

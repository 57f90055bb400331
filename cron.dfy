/**
 * The `www-data` crontab: `list` reads and parses it, `save` serialises a
 * job list and installs it through `echo '…' | crontab -`, and `add` and
 * `remove` re-read, edit and save the list.
 */
module Cron {
  import opened Text
  import opened World
  import Shell

  /** One crontab entry. */
  datatype Job = Job(schedule: string, command: string, comment: string)

  const ListCommand := "crontab -u www-data -l"

  /** The words of a white-space separated text, as a list of non-empty non-space strings. */
  predicate Words(ws: seq<string>) {
    forall i | 0 <= i < |ws| :: IsWord(ws[i])
  }

  /**
   * One line of `crontab -l`: trimmed; blank lines, comment lines and lines
   * with fewer than six fields give nothing; the first five fields are the
   * schedule and the rest the command, whose text after the first `#` is the
   * comment.
   */
  function ParseLine(line: string): Option<Job> {
    var t := Trim(line);
    if t == [] || t[0] == '#' then None else ParseFields(SplitWs(t))
  }

  /** The fields of a non-blank, non-comment line. */
  function ParseFields(parts: seq<string>): Option<Job> {
    if |parts| < 6 then None
    else Some(SplitComment(Join(parts[..5], " "), Join(parts[5..], " ")))
  }

  /** The command field, with any text after its first `#` taken as the comment. */
  function SplitComment(schedule: string, command: string): Job {
    if '#' in command then
      var cp := Split(command, '#');
      Job(schedule, Trim(cp[0]), Trim(Join(cp[1..], "#")))
    else Job(schedule, command, "")
  }

  /** A single-spaced join of words neither starts nor ends with white space. */
  lemma JoinWordsTrimmed(ws: seq<string>)
    requires |ws| >= 1 && Words(ws)
    ensures Trimmed(Join(ws, " "))
  {
    JoinHead(ws, " ");
    JoinEnd(ws);
  }

  /** The last character of a join is the last of the last part, or the separator. */
  lemma {:induction false} JoinEnd(ws: seq<string>)
    requires |ws| >= 1 && Words(ws)
    ensures var s := Join(ws, " "); s != [] && !IsSpace(s[|s| - 1])
    decreases |ws|
  {
    if |ws| > 1 {
      JoinEnd(ws[1..]);
      assert ws[1..][|ws| - 2] == ws[|ws| - 1];
      var t := Join(ws[1..], " ");
      assert Join(ws, " ") == ws[0] + " " + t;
    }
  }

  /**
   * `parseCrontab`: the jobs of the lines of `stdout`, in order. Written
   * from the last line down so that a loop over the lines extends it.
   */
  function Collect(lines: seq<string>): (jobs: seq<Job>)
    ensures |jobs| <= |lines|
  {
    if lines == [] then []
    else
      Collect(lines[..|lines| - 1]) + match ParseLine(lines[|lines| - 1])
        case None => []
        case Some(j) => [j]
  }

  function ParsedJobs(stdout: string): seq<Job> {
    Collect(Split(stdout, '\n'))
  }

  lemma {:induction false} CollectAppend(a: seq<string>, b: seq<string>)
    ensures Collect(a + b) == Collect(a) + Collect(b)
    decreases |b|
  {
    if b == [] {
      assert a + b == a;
    } else {
      var n := |b| - 1;
      assert (a + b)[..|a + b| - 1] == a + b[..n];
      assert (a + b)[|a + b| - 1] == b[n];
      CollectAppend(a, b[..n]);
    }
  }

  /** One more line adds its job, if it has one. */
  lemma CollectStep(lines: seq<string>, i: nat)
    requires i < |lines|
    ensures var found := ParseLine(lines[i]);
      Collect(lines[..i + 1]) == Collect(lines[..i]) + if found.Some? then [found.value] else []
  {
    assert lines[..i + 1][..i] == lines[..i];
  }

  /** `parseCrontab` as the loop it is: each line adds its job, if it has one. */
  method ParseCrontab(stdout: string) returns (jobs: seq<Job>)
    ensures jobs == ParsedJobs(stdout)
  {
    var lines := Split(stdout, '\n');
    jobs := [];
    var i := 0;
    while i < |lines|
      invariant 0 <= i <= |lines| && jobs == Collect(lines[..i])
    {
      CollectStep(lines, i);
      var line := ParseLine(lines[i]);
      if line.Some? {
        jobs := jobs + [line.value];
      }
      i := i + 1;
    }
    assert lines[..i] == lines;
  }

  /** `${schedule} ${command} # ${comment || ''}`. */
  function SerializeLine(j: Job): string {
    Join([j.schedule, j.command, "#", j.comment], " ")
  }

  function Lines(jobs: seq<Job>): (r: seq<string>)
    ensures |r| == |jobs| && forall i | 0 <= i < |jobs| :: r[i] == SerializeLine(jobs[i])
  {
    seq(|jobs|, i requires 0 <= i < |jobs| => SerializeLine(jobs[i]))
  }

  /** The `save` serialiser: one line per job, in order, joined by newlines, with a final newline. */
  function Serialize(jobs: seq<Job>): string {
    Join(Lines(jobs), "\n") + "\n"
  }

  /** The command line `save` runs: `echo`, the serialised list as one quoted word, piped to `crontab -`. */
  function SaveCommand(jobs: seq<Job>): string {
    "echo " + Shell.QuoteArg(Serialize(jobs)) + " | crontab -u www-data -"
  }

  /** The quoted argument reaches `echo` as exactly the serialised list: no job can break out of it. */
  lemma SaveCommandQuotes(jobs: seq<Job>)
    ensures Shell.ReadWord(Shell.QuoteArg(Serialize(jobs)), false) == Some(Serialize(jobs))
  {
    Shell.QuoteArgRoundTrip(Serialize(jobs));
  }

  /** What `crontab -` installs: the text `/bin/sh`'s `echo` prints for the serialised list. */
  function Installed(jobs: seq<Job>): string {
    Shell.Echo(Serialize(jobs))
  }

  /** `s` is words separated by single spaces. */
  predicate SingleSpaced(s: string) {
    Words(SplitWs(s)) && Join(SplitWs(s), " ") == s
  }

  /**
   * A job that survives a save and a re-read unchanged: a five-field
   * schedule not starting with `#`, a single-spaced command without `#`,
   * an empty or single-spaced comment, and no backslash anywhere (`echo`
   * would read it as an escape).
   */
  predicate WellFormed(j: Job) {
    SingleSpaced(j.schedule) && |SplitWs(j.schedule)| == 5 && j.schedule[0] != '#'
    && SingleSpaced(j.command) && '#' !in j.command
    && (j.comment == [] || SingleSpaced(j.comment))
    && '\\' !in j.schedule && '\\' !in j.command && '\\' !in j.comment
  }

  /** Every job of the list is well-formed. */
  predicate AllWellFormed(jobs: seq<Job>) {
    forall j | j in jobs :: WellFormed(j)
  }

  /** Splitting at a first separator: the part before it, then the split of the rest. */
  lemma SplitFirst(a: string, sep: char, b: string)
    requires sep !in a
    ensures Split(a + [sep] + b, sep) == [a] + Split(b, sep)
  {
    var s := a + [sep] + b;
    assert s[|a|] == sep && s[..|a|] == a;
    IndexOfIs(s, sep, |a|);
    assert s[|a| + 1..] == b;
  }

  /** A space followed by a trimmed text trims to the text. */
  lemma TrimSpaceBefore(x: string)
    requires Trimmed(x)
    ensures Trim(" " + x) == x
  {
    var s := " " + x;
    assert s[1..] == x;
    assert TrimStart(s) == TrimStart(x);
    TrimOfTrimmed(x);
  }

  /** Joining three non-empty groups of parts is joining the three joins. */
  lemma Glue3(a: seq<string>, b: seq<string>, c: seq<string>, sep: string)
    requires a != [] && b != [] && c != []
    ensures Join(a + b + c, sep) == Join([Join(a, sep), Join(b, sep), Join(c, sep)], sep)
  {
    var x, y, z := Join(a, sep), Join(b, sep), Join(c, sep);
    JoinConcat(b, c, sep);
    JoinConcat(a, b + c, sep);
    assert a + b + c == a + (b + c);
    assert [y, z][1..] == [z];
    assert Join([y, z], sep) == y + sep + z;
    assert [x, y, z][1..] == [y, z];
  }

  /** Joining four non-empty groups of parts is joining the four joins. */
  lemma Glue4(a: seq<string>, b: seq<string>, c: seq<string>, d: seq<string>, sep: string)
    requires a != [] && b != [] && c != [] && d != []
    ensures Join(a + b + c + d, sep) == Join([Join(a, sep), Join(b, sep), Join(c, sep), Join(d, sep)], sep)
  {
    var w, x, y, z := Join(a, sep), Join(b, sep), Join(c, sep), Join(d, sep);
    Glue3(b, c, d, sep);
    JoinConcat(a, b + c + d, sep);
    assert a + b + c + d == a + (b + c + d);
    assert [w, x, y, z][1..] == [x, y, z];
  }

  /** A join ending in an empty part ends in the separator. */
  lemma JoinEmptyLast(parts: seq<string>, sep: string)
    requires parts != []
    ensures Join(parts + [[]], sep) == Join(parts, sep) + sep
  {
    JoinAppend(parts, [], sep);
    assert Join(parts, sep) + sep + [] == Join(parts, sep) + sep;
  }

  /** The words of a well-formed job's line, in order. */
  lemma LineWords(sw: seq<string>, cw: seq<string>, mw: seq<string>)
    requires |sw| == 5 && |cw| >= 1 && Words(sw) && Words(cw) && Words(mw)
    ensures var j := Job(Join(sw, " "), Join(cw, " "), Join(mw, " "));
      ( mw != [] ==> SerializeLine(j) == Join(sw + cw + ["#"] + mw, " "))
      && (mw == [] ==> SerializeLine(j) == Join(sw + cw + ["#"], " ") + " ")
  {
    var s, c, m := Join(sw, " "), Join(cw, " "), Join(mw, " ");
    var j := Job(s, c, m);
    assert Join(["#"], " ") == "#";
    if mw != [] {
      Glue4(sw, cw, ["#"], mw, " ");
    } else {
      assert m == [];
      Glue3(sw, cw, ["#"], " ");
      JoinEmptyLast([s, c, "#"], " ");
      assert [s, c, "#"] + [[]] == [s, c, "#", m];
    }
  }

  /** The words of the three groups, together, are words. */
  lemma WordsConcat(a: seq<string>, b: seq<string>, c: seq<string>)
    requires Words(a) && Words(b) && Words(c)
    ensures Words(a + b + c)
  {
    var w := a + b + c;
    forall i | 0 <= i < |w| ensures IsWord(w[i]) {
      if i < |a| { assert w[i] == a[i]; }
      else if i < |a| + |b| { assert w[i] == b[i - |a|]; }
      else { assert w[i] == c[i - |a| - |b|]; }
    }
  }

  /** The text of the command field of a saved line: the command, ` #`, and the comment after a space. */
  lemma CommandField(cw: seq<string>, mw: seq<string>)
    requires |cw| >= 1
    ensures var tail := if mw == [] then [] else " " + Join(mw, " ");
      Join(cw + ["#"] + mw, " ") == (Join(cw, " ") + " ") + ['#'] + tail
  {
    var c := Join(cw, " ");
    assert cw + ["#"] + mw == cw + (["#"] + mw);
    JoinConcat(cw, ["#"] + mw, " ");
    if mw != [] {
      HashThenWords(c, mw);
    } else {
      assert ["#"] + mw == ["#"];
      assert c + " " + "#" == (c + " ") + ['#'] + [];
    }
  }

  lemma HashThenWords(c: string, mw: seq<string>)
    requires mw != []
    ensures c + " " + Join(["#"] + mw, " ") == (c + " ") + ['#'] + (" " + Join(mw, " "))
  {
    var m := Join(mw, " ");
    JoinConcat(["#"], mw, " ");
    assert Join(["#"], " ") == "#";
    assert c + " " + ("#" + " " + m) == (c + " ") + ['#'] + (" " + m);
  }

  /** The command field splits at its first `#` into the command and the comment, once trimmed. */
  lemma CommandFieldSplits(s: string, c: string, m: string, tail: string)
    requires c != [] && Trimmed(c) && '#' !in c
    requires Trimmed(m) && tail == (if m == [] then [] else " " + m)
    ensures SplitComment(s, (c + " ") + ['#'] + tail) == Job(s, c, m)
  {
    assert '#' !in c + " ";
    SplitCommentAt(s, c + " ", tail);
    TrimSpaceAfter(c, ' ');
    if m != [] {
      TrimSpaceBefore(m);
    }
  }

  /** A command with a `#` after a first part free of `#` splits there. */
  lemma SplitCommentAt(s: string, a: string, tail: string)
    requires '#' !in a
    ensures SplitComment(s, a + ['#'] + tail) == Job(s, Trim(a), Trim(tail))
  {
    var command := a + ['#'] + tail;
    assert command[|a|] == '#';
    SplitFirst(a, '#', tail);
    assert Split(command, '#')[1..] == Split(tail, '#');
  }

  /** Five schedule words and the rest make a job of the joined schedule and command fields. */
  lemma ParseFieldsSplit(sw: seq<string>, rest: seq<string>)
    requires |sw| == 5 && |rest| >= 1
    ensures ParseFields(sw + rest) == Some(SplitComment(Join(sw, " "), Join(rest, " ")))
  {
    assert (sw + rest)[..5] == sw;
    assert (sw + rest)[5..] == rest;
  }

  /** The fields of a saved line: the five schedule words, then the command, `#` and the comment. */
  lemma FieldsOfLine(sw: seq<string>, cw: seq<string>, mw: seq<string>)
    requires |sw| == 5 && |cw| >= 1 && Words(cw) && Words(mw) && '#' !in Join(cw, " ")
    ensures ParseFields(sw + cw + ["#"] + mw) == Some(Job(Join(sw, " "), Join(cw, " "), Join(mw, " ")))
  {
    var rest := cw + ["#"] + mw;
    assert sw + cw + ["#"] + mw == sw + rest;
    ParseFieldsSplit(sw, rest);
    var c, m := Join(cw, " "), Join(mw, " ");
    CommandField(cw, mw);
    JoinWordsTrimmed(cw);
    assert Trimmed(m) by {
      if mw != [] { JoinWordsTrimmed(mw); }
    }
    CommandFieldSplits(Join(sw, " "), c, m, if mw == [] then [] else " " + m);
  }

  /** A saved line trims to its words joined by single spaces. */
  lemma TrimOfLine(sw: seq<string>, cw: seq<string>, mw: seq<string>)
    requires |sw| == 5 && |cw| >= 1 && Words(sw) && Words(cw) && Words(mw)
    ensures var words := sw + cw + ["#"] + mw;
      Words(words)
      && Trim(SerializeLine(Job(Join(sw, " "), Join(cw, " "), Join(mw, " ")))) == Join(words, " ")
  {
    var words := sw + cw + ["#"] + mw;
    assert Words(["#"] + mw) by { assert IsWord("#"); }
    WordsConcat(sw, cw, ["#"] + mw);
    assert words == sw + cw + (["#"] + mw);
    var joined := Join(words, " ");
    JoinWordsTrimmed(words);
    LineWords(sw, cw, mw);
    if mw != [] {
      TrimOfTrimmed(joined);
    } else {
      assert words == sw + cw + ["#"];
      TrimSpaceAfter(joined, ' ');
    }
  }

  /** The line of a job made of words parses back to that job. */
  lemma ParseSerializedLine(sw: seq<string>, cw: seq<string>, mw: seq<string>)
    requires |sw| == 5 && |cw| >= 1 && Words(sw) && Words(cw) && Words(mw)
    requires sw[0][0] != '#' && '#' !in Join(cw, " ")
    ensures var j := Job(Join(sw, " "), Join(cw, " "), Join(mw, " "));
      ParseLine(SerializeLine(j)) == Some(j)
  {
    var words := sw + cw + ["#"] + mw;
    TrimOfLine(sw, cw, mw);
    JoinHead(words, " ");
    SplitWsJoin(words);
    FieldsOfLine(sw, cw, mw);
  }

  predicate NotNewline(c: char) { c != '\n' }

  /** Single-spaced text has no newline: it is words and spaces. */
  lemma SingleSpacedOneLine(s: string)
    requires SingleSpaced(s)
    ensures AllChars(s, NotNewline)
  {
    var ws := SplitWs(s);
    forall i, k | 0 <= i < |ws| && 0 <= k < |ws[i]| ensures NotNewline(ws[i][k]) {
      assert NotSpace(ws[i][k]);
    }
    JoinChars(ws, " ", NotNewline);
  }

  /** Four parts and a separator free of a kind of character join to a text free of it. */
  lemma Join4Chars(a: string, b: string, c: string, d: string, sep: string, p: char -> bool)
    requires AllChars(a, p) && AllChars(b, p) && AllChars(c, p) && AllChars(d, p) && AllChars(sep, p)
    ensures AllChars(Join([a, b, c, d], sep), p)
  {
    var parts := [a, b, c, d];
    assert forall i | 0 <= i < |parts| :: parts[i] == a || parts[i] == b || parts[i] == c || parts[i] == d;
    JoinChars(parts, sep, p);
  }

  /** Text free of newlines. */
  lemma OneLine(s: string)
    requires AllChars(s, NotNewline)
    ensures '\n' !in s
  {
  }

  /** A well-formed job's saved line holds no newline. */
  lemma WellFormedOneLine(j: Job)
    requires WellFormed(j)
    ensures '\n' !in SerializeLine(j)
  {
    FieldsOneLine(j.schedule, j.command, j.comment);
  }

  /** Single-spaced fields make a saved line without a newline. */
  lemma FieldsOneLine(schedule: string, command: string, comment: string)
    requires SingleSpaced(schedule) && SingleSpaced(command) && (comment == [] || SingleSpaced(comment))
    ensures '\n' !in Join([schedule, command, "#", comment], " ")
  {
    SingleSpacedOneLine(schedule);
    SingleSpacedOneLine(command);
    if comment != [] {
      SingleSpacedOneLine(comment);
    }
    assert AllChars("#", NotNewline) && AllChars(" ", NotNewline);
    Join4Chars(schedule, command, "#", comment, " ", NotNewline);
    OneLine(Join([schedule, command, "#", comment], " "));
  }

  predicate NotBackslash(c: char) { c != '\\' }

  lemma NoBackslashChars(s: string)
    requires '\\' !in s
    ensures AllChars(s, NotBackslash)
  {
    forall i | 0 <= i < |s| ensures NotBackslash(s[i]) {
      assert s[i] in s;
    }
  }

  /** No saved line of well-formed jobs holds a backslash, so neither does the saved list. */
  lemma SerializeNoBackslash(jobs: seq<Job>)
    requires AllWellFormed(jobs)
    ensures '\\' !in Serialize(jobs)
  {
    var ls := Lines(jobs);
    forall i | 0 <= i < |ls| ensures AllChars(ls[i], NotBackslash) {
      var j := jobs[i];
      assert WellFormed(j);
      NoBackslashChars(j.schedule);
      NoBackslashChars(j.command);
      NoBackslashChars(j.comment);
      assert AllChars("#", NotBackslash) && AllChars(" ", NotBackslash);
      Join4Chars(j.schedule, j.command, "#", j.comment, " ", NotBackslash);
    }
    assert AllChars("\n", NotBackslash);
    JoinChars(ls, "\n", NotBackslash);
    assert AllChars(Serialize(jobs), NotBackslash);
    forall i | 0 <= i < |Serialize(jobs)| ensures Serialize(jobs)[i] != '\\' {
      assert NotBackslash(Serialize(jobs)[i]);
    }
  }

  /** A well-formed job's saved line parses back to the job. */
  lemma WellFormedParses(j: Job)
    requires WellFormed(j)
    ensures ParseLine(SerializeLine(j)) == Some(j)
  {
    var sw, cw := SplitWs(j.schedule), SplitWs(j.command);
    var mw := if j.comment == [] then [] else SplitWs(j.comment);
    assert Join(mw, " ") == j.comment;
    assert sw[0] != [] && sw[0][0] == j.schedule[0] by { JoinHead(sw, " "); }
    ParseSerializedLine(sw, cw, mw);
  }

  /** `Lines` of all but the last job. */
  lemma LinesPrefix(jobs: seq<Job>)
    requires jobs != []
    ensures Lines(jobs) == Lines(jobs[..|jobs| - 1]) + [SerializeLine(jobs[|jobs| - 1])]
  {
  }

  lemma {:induction false} CollectLines(jobs: seq<Job>)
    requires AllWellFormed(jobs)
    ensures Collect(Lines(jobs)) == jobs
    decreases |jobs|
  {
    if jobs != [] {
      var n := |jobs| - 1;
      var ls := Lines(jobs);
      assert jobs == jobs[..n] + [jobs[n]];
      LinesPrefix(jobs);
      assert ls[..|ls| - 1] == Lines(jobs[..n]);
      CollectLines(jobs[..n]);
      WellFormedParses(jobs[n]);
    }
  }

  /** A text followed by two separators is a join with two empty parts after it. */
  lemma JoinTwoEmpty(ls: seq<string>, sep: string)
    ensures Join(ls, sep) + sep + sep == Join(if ls == [] then [[], [], []] else ls + [[], []], sep)
  {
    if ls != [] {
      JoinAppend(ls, [], sep);
      JoinAppend(ls + [[]], [], sep);
      assert ls + [[]] + [[]] == ls + [[], []];
    } else {
      var e: string := [];
      assert [e, e][1..] == [e];
      assert Join([e, e], sep) == sep;
      assert [e, e, e][1..] == [e, e];
      assert Join([e, e, e], sep) == sep + sep;
    }
  }

  /** No saved line of well-formed jobs holds a newline. */
  lemma LinesOneLine(jobs: seq<Job>)
    requires AllWellFormed(jobs)
    ensures forall i | 0 <= i < |Lines(jobs)| :: '\n' !in Lines(jobs)[i]
  {
    forall i | 0 <= i < |jobs| ensures '\n' !in SerializeLine(jobs[i]) {
      WellFormedOneLine(jobs[i]);
    }
  }

  /** Blank lines give no jobs. */
  lemma CollectBlank(b: seq<string>)
    requires b == ["", ""] || b == ["", "", ""]
    ensures Collect(b) == []
  {
    assert ParseLine("") == None;
    assert b[..|b| - 1] == ["", ""] || b[..|b| - 1] == [""];
    assert ["", ""][..1] == [""];
    assert [""][..0] == [];
  }

  /**
   * `add` and `remove` re-read what `save` installed: a list of well-formed
   * jobs installed and parsed again is the same list, in the same order.
   */
  lemma ParseInstalled(jobs: seq<Job>)
    requires AllWellFormed(jobs)
    ensures ParsedJobs(Installed(jobs)) == jobs
  {
    var blank: seq<string> := if jobs == [] then ["", "", ""] else ["", ""];
    InstalledLines(jobs);
    CollectBlank(blank);
    CollectAppend(Lines(jobs), blank);
    CollectLines(jobs);
  }

  /** The installed crontab's lines: one per job, then two empty ones (three for no jobs). */
  lemma InstalledLines(jobs: seq<Job>)
    requires AllWellFormed(jobs)
    ensures Split(Installed(jobs), '\n') == Lines(jobs) + if jobs == [] then ["", "", ""] else ["", ""]
  {
    SerializeNoBackslash(jobs);
    Shell.EchoPlain(Serialize(jobs));
    LinesOneLine(jobs);
    if jobs == [] {
      SplitTwoSeparators('\n');
    } else {
      SplitTwoTrailing(Lines(jobs), '\n');
    }
  }

  /** Parts joined and followed by two separators split into the parts and two empty ones. */
  lemma SplitTwoTrailing(ls: seq<string>, sep: char)
    requires ls != [] && forall i | 0 <= i < |ls| :: sep !in ls[i]
    ensures Split(Join(ls, [sep]) + [sep] + [sep], sep) == ls + ["", ""]
  {
    var all := ls + [[], []];
    JoinTwoEmpty(ls, [sep]);
    assert forall i | 0 <= i < |all| :: sep !in all[i];
    SplitJoin(all, sep);
  }

  /** Two separators alone split into three empty parts. */
  lemma SplitTwoSeparators(sep: char)
    ensures Split([sep, sep], sep) == ["", "", ""]
  {
    var e: string := [];
    JoinTwoEmpty([], [sep]);
    assert Join([], [sep]) + [sep] + [sep] == [sep, sep];
    SplitJoin([e, e, e], sep);
  }

  /** `list`: the parsed jobs of the installed crontab, or none when `crontab -l` fails. */
  method List(h: Host) returns (jobs: seq<Job>)
    modifies h`log
    ensures h.log == old(h.log) + [Run(ListCommand)]
    ensures jobs == if h.crontab.None? then [] else ParsedJobs(h.crontab.value)
  {
    h.log := h.log + [Run(ListCommand)];
    if h.crontab.None? {
      return [];
    }
    jobs := ParseCrontab(h.crontab.value);
  }

  /** `save`: the serialised list is installed when the `crontab -` call succeeds; its failure is rethrown. */
  method Save(h: Host, jobs: seq<Job>) returns (r: Result<()>)
    modifies h`log, h`crontab
    ensures h.log == old(h.log) + [Run(SaveCommand(jobs))]
    ensures match old(h.Next(Run(SaveCommand(jobs))))
      case Failed(m) => r == Err(m) && h.crontab == old(h.crontab)
      case Done(_, _) => r == Ok(()) && h.crontab == Some(Installed(jobs))
  {
    var o := h.Exec(Run(SaveCommand(jobs)));
    if o.Failed? {
      return Err(o.message);
    }
    h.crontab := Some(Installed(jobs));
    return Ok(());
  }

  /** The jobs `list` would return from this crontab. */
  function Listed(crontab: Option<string>): seq<Job> {
    if crontab.None? then [] else ParsedJobs(crontab.value)
  }

  /** `add`: the new job goes after all the listed ones, and the whole list is saved. */
  method Add(h: Host, schedule: string, command: string, comment: Option<string>) returns (r: Result<()>)
    modifies h`log, h`crontab
    ensures var jobs := Listed(old(h.crontab)) + [Job(schedule, command, if comment.Some? then comment.value else "")];
      h.log == old(h.log) + [Run(ListCommand), Run(SaveCommand(jobs))]
      && match h.shell(Run(SaveCommand(jobs)), |old(h.log)| + 1)
        case Failed(m) => r == Err(m) && h.crontab == old(h.crontab)
        case Done(_, _) => r == Ok(()) && h.crontab == Some(Installed(jobs))
  {
    var jobs := List(h);
    jobs := jobs + [Job(schedule, command, if comment.Some? then comment.value else "")];
    r := Save(h, jobs);
  }

  /** `remove`: an index inside the list deletes that job and saves; any other index saves nothing. */
  method Remove(h: Host, index: int) returns (r: Result<bool>)
    modifies h`log, h`crontab
    ensures var listed := Listed(old(h.crontab));
      if 0 <= index < |listed| then
        var jobs := listed[..index] + listed[index + 1..];
        h.log == old(h.log) + [Run(ListCommand), Run(SaveCommand(jobs))]
        && match h.shell(Run(SaveCommand(jobs)), |old(h.log)| + 1)
          case Failed(m) => r == Err(m) && h.crontab == old(h.crontab)
          case Done(_, _) => r == Ok(true) && h.crontab == Some(Installed(jobs))
      else r == Ok(false) && h.log == old(h.log) + [Run(ListCommand)] && h.crontab == old(h.crontab)
  {
    var jobs := List(h);
    if 0 <= index < |jobs| {
      jobs := jobs[..index] + jobs[index + 1..];
      var saved := Save(h, jobs);
      if saved.Err? {
        return Err(saved.error);
      }
      return Ok(true);
    }
    return Ok(false);
  }

  /** After a successful `add`, `list` gives the earlier jobs and then the new one, when all are well-formed. */
  lemma AddThenList(listed: seq<Job>, j: Job)
    requires AllWellFormed(listed) && WellFormed(j)
    ensures Listed(Some(Installed(listed + [j]))) == listed + [j]
  {
    ParseInstalled(listed + [j]);
  }

  /** After a successful `remove` of index `k`, `list` gives the other jobs in their order. */
  lemma RemoveThenList(listed: seq<Job>, k: nat)
    requires k < |listed| && AllWellFormed(listed)
    ensures Listed(Some(Installed(listed[..k] + listed[k + 1..]))) == listed[..k] + listed[k + 1..]
    ensures |listed[..k] + listed[k + 1..]| == |listed| - 1
  {
    var rest := listed[..k] + listed[k + 1..];
    assert forall j | j in rest :: j in listed;
    ParseInstalled(rest);
  }
}

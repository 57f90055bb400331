/**
 * The UFW firewall wrapper: the numbered status listing and its parser, and
 * the allow, deny and delete commands with their guards.
 */
module Security {
  import opened Text
  import opened World

  /** One numbered rule of `ufw status numbered`. */
  datatype Rule = Rule(id: string, to: string, action: string, from: string)

  /** Whether the firewall is active, and its rules in listing order. */
  datatype Status = Status(active: bool, rules: seq<Rule>)

  const StatusCommand := "ufw status numbered"
  const ActiveMarker := "Status: active"
  const StatusFailed := "Failed to get firewall status: "
  const AllowFailed := "Failed to allow port: "
  const DenyFailed := "Failed to deny port: "
  const DeleteFailed := "Failed to delete rule: "
  const InvalidPort := "Invalid port"

  /** The character classes of the rule pattern. */
  datatype Class = Space | Digit | NonSpace | AnyButTerminator

  predicate In(k: Class, c: char) {
    match k
    case Space => IsSpace(c)
    case Digit => IsDigit(c)
    case NonSpace => !IsSpace(c)
    case AnyButTerminator => !IsLineTerminator(c)
  }

  /** The characters JavaScript's `.` matches. */
  predicate NotTerminator(c: char) { !IsLineTerminator(c) }

  /**
   * One element of a regular expression: a literal character, or a run of a
   * class (`*`, or `+` when `plus`), captured as a group when `group`.
   */
  datatype Piece = Lit(ch: char) | Many(k: Class, plus: bool, group: bool)

  const Gap := Many(Space, true, false)
  const Token := Many(NonSpace, true, true)

  /** `\s+([^\s]+)` followed by the pattern `p`. */
  function GapToken(p: seq<Piece>): seq<Piece> {
    [Gap, Token] + p
  }

  /** `\s+(.*)`. */
  const Tail := [Gap, Many(AnyButTerminator, false, true)]

  /** `\]` followed by `\s+([^\s]+)\s+([^\s]+)\s+([^\s]+)\s+(.*)`. */
  const AfterNumber := [Lit(']')] + GapToken(GapToken(GapToken(Tail)))

  /** `\[\s*(\d+)\]\s+([^\s]+)\s+([^\s]+)\s+([^\s]+)\s+(.*)` */
  const RulePattern := [Lit('['), Many(Space, false, false), Many(Digit, true, true)] + AfterNumber

  /** The longest prefix of `s` in class `k`. */
  function ClassRun(k: Class, s: string): (r: string)
    ensures |r| <= |s| && r == s[..|r|]
  {
    if s == [] || !In(k, s[0]) then [] else [s[0]] + ClassRun(k, s[1..])
  }

  /** A run of class `k` ending where the class does. */
  lemma RunOf(k: Class, a: string, b: string)
    requires forall i | 0 <= i < |a| :: In(k, a[i])
    requires b == [] || !In(k, b[0])
    ensures ClassRun(k, a + b) == a && (a + b)[|a|..] == b
  {
    if a != [] {
      assert (a + b)[1..] == a[1..] + b;
      RunOf(k, a[1..], b);
    } else {
      assert a + b == b;
    }
  }

  /**
   * The groups of `pat` matched at the start of `s`. Every run takes all it
   * can: in the rule pattern each run is followed by a class it cannot
   * contain, or by the final `.*`, which always matches, so backtracking can
   * find no other match.
   */
  function MatchPrefix(pat: seq<Piece>, s: string): (r: Option<seq<string>>)
    decreases |pat|
  {
    if pat == [] then Some([])
    else match pat[0]
      case Lit(c) => if s != [] && s[0] == c then MatchPrefix(pat[1..], s[1..]) else None
      case Many(k, plus, group) =>
        var w := ClassRun(k, s);
        if plus && w == [] then None
        else match MatchPrefix(pat[1..], s[|w|..])
          case None => None
          case Some(groups) => Some(if group then [w] + groups else groups)
  }

  /** A rule from the five groups of the rule pattern. */
  function RuleOf(groups: seq<string>): Option<Rule> {
    if |groups| == 5 then Some(Rule(groups[0], groups[1], groups[2] + " " + groups[3], Trim(groups[4])))
    else None
  }

  /** `line.match(re)`: the match starting furthest to the left, if any. */
  function FirstMatch(line: string): Option<Rule>
  {
    match MatchPrefix(RulePattern, line)
    case Some(groups) => RuleOf(groups)
    case None => if line == [] then None else FirstMatch(line[1..])
  }

  /** The rules one line contributes: its match, if it starts with `[`. */
  function LineRules(line: string): seq<Rule> {
    if StartsWith(line, "[") then
      match FirstMatch(line)
      case None => []
      case Some(r) => [r]
    else []
  }

  /** The rules of the lines, in order. */
  function RulesOf(lines: seq<string>): seq<Rule> {
    Gather(lines, LineRules)
  }

  /** Some line mentions the active status. */
  predicate ActiveIn(lines: seq<string>) {
    exists i | 0 <= i < |lines| :: Contains(lines[i], ActiveMarker)
  }

  /** `parseUfwStatus` of a status listing. */
  function StatusOf(stdout: string): Status {
    var lines := Split(stdout, '\n');
    Status(ActiveIn(lines), RulesOf(lines))
  }

  /** A line that does not start with `[` is ignored, wherever it stands. */
  lemma OtherLinesIgnored(a: seq<string>, line: string, b: seq<string>)
    requires !StartsWith(line, "[")
    ensures RulesOf(a + [line] + b) == RulesOf(a + b)
  {
    GatherAppend(a + [line], b, LineRules);
    GatherAppend(a, [line], LineRules);
    GatherAppend(a, b, LineRules);
    assert [line][..0] == [];
    assert LineRules(line) == [];
  }

  /** The rules of consecutive blocks of lines are the rules of each block, in order. */
  lemma RulesInOrder(a: seq<string>, b: seq<string>)
    ensures RulesOf(a + b) == RulesOf(a) + RulesOf(b)
  {
    GatherAppend(a, b, LineRules);
  }

  /** One more line raises the flag exactly when it holds the marker. */
  lemma ActiveStep(lines: seq<string>, i: nat)
    requires i < |lines|
    ensures ActiveIn(lines[..i + 1]) <==> ActiveIn(lines[..i]) || Contains(lines[i], ActiveMarker)
  {
    var p := lines[..i + 1];
    assert p[i] == lines[i];
    assert forall k | 0 <= k < i :: p[k] == lines[..i][k];
  }

  /** `parseUfwStatus` as the loop it is: a flag raised by the active marker, rules pushed line by line. */
  method ParseUfwStatus(stdout: string) returns (st: Status)
    ensures st == StatusOf(stdout)
  {
    var lines := Split(stdout, '\n');
    var rules: seq<Rule> := [];
    var isActive := false;
    var i := 0;
    while i < |lines|
      invariant 0 <= i <= |lines| && rules == Gather(lines[..i], LineRules)
      invariant isActive == ActiveIn(lines[..i])
    {
      var line := lines[i];
      ActiveStep(lines, i);
      if Contains(line, ActiveMarker) {
        isActive := true;
      }
      GatherStep(lines, i, LineRules);
      if StartsWith(line, "[") {
        var parts := FirstMatch(line);
        if parts.Some? {
          rules := rules + [parts.value];
        }
      }
      i := i + 1;
    }
    assert lines[..i] == lines;
    return Status(isActive, rules);
  }

  /** A rule line as `ufw status numbered` prints it. */
  function RuleLine(pad: string, id: string, g1: string, to: string, g2: string, a1: string,
                    g3: string, a2: string, g4: string, from: string): string {
    "[" + (pad + (id + ("]" + (g1 + (to + (g2 + (a1 + (g3 + (a2 + (g4 + from))))))))))
  }

  predicate Spaces(g: string) { g != [] && AllChars(g, IsSpace) }

  /**
   * The fields of a printed rule line: a padded number, non-empty gaps of
   * white space, single-word target and actions, and a trimmed source that
   * reaches the end of the line.
   */
  predicate PrintedFields(pad: string, id: string, g1: string, to: string, g2: string, a1: string,
                          g3: string, a2: string, g4: string, from: string) {
    && AllChars(pad, IsSpace) && IsDigits(id)
    && Spaces(g1) && Spaces(g2) && Spaces(g3) && Spaces(g4)
    && IsWord(to) && IsWord(a1) && IsWord(a2)
    && Trimmed(from) && AllChars(from, NotTerminator)
  }

  /** A run step of a match over a maximal run `w`. */
  lemma ManyStep(x: Piece, p: seq<Piece>, w: string, rest: string)
    requires x.Many? && (x.plus ==> w != [])
    requires forall i | 0 <= i < |w| :: In(x.k, w[i])
    requires rest == [] || !In(x.k, rest[0])
    ensures MatchPrefix([x] + p, w + rest) == match MatchPrefix(p, rest)
      case None => None
      case Some(groups) => Some(if x.group then [w] + groups else groups)
  {
    RunOf(x.k, w, rest);
    assert ([x] + p)[0] == x && ([x] + p)[1..] == p;
  }

  /** A gap and a token, before a gap or the end. */
  lemma GapTokenStep(p: seq<Piece>, g: string, w: string, rest: string)
    requires Spaces(g) && IsWord(w) && (rest == [] || IsSpace(rest[0]))
    ensures MatchPrefix(GapToken(p), g + (w + rest)) == match MatchPrefix(p, rest)
      case None => None
      case Some(groups) => Some([w] + groups)
  {
    assert GapToken(p) == [Gap] + ([Token] + p);
    ManyStep(Token, p, w, rest);
    ManyStep(Gap, [Token] + p, g, w + rest);
  }

  /** The last gap and `(.*)`, over a source without line terminators. */
  lemma TailMatch(g: string, from: string)
    requires Spaces(g) && AllChars(from, NotTerminator) && (from == [] || !IsSpace(from[0]))
    ensures MatchPrefix(Tail, g + from) == Some([from])
  {
    var any := Many(AnyButTerminator, false, true);
    assert Tail == [Gap] + [any];
    assert [any] + [] == [any] && from + [] == from && [from] + [] == [from];
    ManyStep(any, [], from, []);
    assert MatchPrefix([any], from) == Some([from]);
    ManyStep(Gap, [any], g, from);
  }

  /** A gap and a token before a matched rest of the line. */
  lemma GapTokenSome(p: seq<Piece>, g: string, w: string, rest: string, groups: seq<string>)
    requires Spaces(g) && IsWord(w) && (rest == [] || IsSpace(rest[0]))
    requires MatchPrefix(p, rest) == Some(groups)
    ensures MatchPrefix(GapToken(p), g + (w + rest)) == Some([w] + groups)
  {
    GapTokenStep(p, g, w, rest);
  }

  /** The groups after the rule number of a printed rule line. */
  lemma AfterNumberGroups(g1: string, to: string, g2: string, a1: string,
                          g3: string, a2: string, g4: string, from: string)
    requires Spaces(g1) && Spaces(g2) && Spaces(g3) && Spaces(g4)
    requires IsWord(to) && IsWord(a1) && IsWord(a2)
    requires AllChars(from, NotTerminator) && (from == [] || !IsSpace(from[0]))
    ensures MatchPrefix(AfterNumber, "]" + (g1 + (to + (g2 + (a1 + (g3 + (a2 + (g4 + from))))))))
      == Some([to, a1, a2, from])
  {
    var s8 := g4 + from;
    var s6 := g3 + (a2 + s8);
    var s4 := g2 + (a1 + s6);
    var s2 := g1 + (to + s4);
    TailMatch(g4, from);
    Spaces1(g4, from);
    GapTokenSome(Tail, g3, a2, s8, [from]);
    Spaces1(g3, a2 + s8);
    GapTokenSome(GapToken(Tail), g2, a1, s6, [a2] + [from]);
    Spaces1(g2, a1 + s6);
    GapTokenSome(GapToken(GapToken(Tail)), g1, to, s4, [a1] + ([a2] + [from]));
    assert [to] + ([a1] + ([a2] + [from])) == [to, a1, a2, from];
    LitSome(']', GapToken(GapToken(GapToken(Tail))), s2);
  }

  /** A literal before a matched rest. */
  lemma LitSome(c: char, p: seq<Piece>, rest: string)
    ensures MatchPrefix([Lit(c)] + p, [c] + rest) == MatchPrefix(p, rest)
  {
    assert ([Lit(c)] + p)[0] == Lit(c) && ([Lit(c)] + p)[1..] == p;
    assert ([c] + rest)[1..] == rest;
  }

  /** A text that starts with white space. */
  lemma Spaces1(g: string, rest: string)
    requires Spaces(g)
    ensures g + rest != [] && IsSpace((g + rest)[0])
  {
  }

  /** The five groups of a printed rule line. */
  lemma RuleLineGroups(pad: string, id: string, g1: string, to: string, g2: string, a1: string,
                       g3: string, a2: string, g4: string, from: string)
    requires PrintedFields(pad, id, g1, to, g2, a1, g3, a2, g4, from)
    ensures MatchPrefix(RulePattern, RuleLine(pad, id, g1, to, g2, a1, g3, a2, g4, from)) == Some([id, to, a1, a2, from])
    ensures RuleLine(pad, id, g1, to, g2, a1, g3, a2, g4, from)[0] == '['
  {
    var s := "]" + (g1 + (to + (g2 + (a1 + (g3 + (a2 + (g4 + from)))))));
    AfterNumberGroups(g1, to, g2, a1, g3, a2, g4, from);
    var digits := Many(Digit, true, true);
    var pads := Many(Space, false, false);
    ManyStep(digits, AfterNumber, id, s);
    assert [id] + [to, a1, a2, from] == [id, to, a1, a2, from];
    assert MatchPrefix([digits] + AfterNumber, id + s) == Some([id, to, a1, a2, from]);
    ManyStep(pads, [digits] + AfterNumber, pad, id + s);
    assert MatchPrefix([pads] + ([digits] + AfterNumber), pad + (id + s)) == Some([id, to, a1, a2, from]);
    LitSome('[', [pads] + ([digits] + AfterNumber), pad + (id + s));
    assert RulePattern == [Lit('[')] + ([pads] + ([digits] + AfterNumber));
    assert RuleLine(pad, id, g1, to, g2, a1, g3, a2, g4, from) == "[" + (pad + (id + s));
  }

  /**
   * Every line in the printed shape parses back to its fields: the number,
   * the target, the two action words joined by one space and the source.
   */
  lemma RuleLineParses(pad: string, id: string, g1: string, to: string, g2: string, a1: string,
                       g3: string, a2: string, g4: string, from: string)
    requires PrintedFields(pad, id, g1, to, g2, a1, g3, a2, g4, from)
    ensures LineRules(RuleLine(pad, id, g1, to, g2, a1, g3, a2, g4, from)) == [Rule(id, to, a1 + " " + a2, from)]
  {
    RuleLineGroups(pad, id, g1, to, g2, a1, g3, a2, g4, from);
    TrimOfTrimmed(from);
    LineRulesOf(RuleLine(pad, id, g1, to, g2, a1, g3, a2, g4, from), id, to, a1, a2, from);
  }

  /** A line starting with `[` on which the pattern matches gives the rule of the groups. */
  lemma LineRulesOf(line: string, id: string, to: string, a1: string, a2: string, from: string)
    requires line != [] && line[0] == '[' && MatchPrefix(RulePattern, line) == Some([id, to, a1, a2, from])
    requires Trim(from) == from
    ensures LineRules(line) == [Rule(id, to, a1 + " " + a2, from)]
  {
    assert line[..1] == "[";
  }

  /** `/^\d+$/.test(port)`. */
  function PortValid(port: string): (ok: bool)
    ensures ok <==> IsDigits(port)
  {
    |port| > 0 && forall i | 0 <= i < |port| :: IsDigit(port[i])
  }

  /** Every port number written in decimal passes the guard, and nothing with another character does. */
  lemma PortGuard(n: nat, s: string)
    ensures PortValid(NatToString(n))
    ensures (exists i | 0 <= i < |s| :: !IsDigit(s[i])) ==> !PortValid(s)
  {
  }

  /** `allow ${port}/${protocol}` or `deny …`, with `tcp` for a missing protocol. */
  function RuleCommand(verb: string, port: string, protocol: Option<string>): string {
    "ufw " + verb + " " + port + "/" + (if protocol.Some? then protocol.value else "tcp")
  }

  /** `getStatus`: the parsed listing, or the command's error behind the status prefix. */
  method GetStatus(h: Host) returns (r: Result<Status>)
    modifies h`log
    ensures h.log == old(h.log) + [Run(StatusCommand)]
    ensures match old(h.Next(Run(StatusCommand)))
      case Failed(m) => r == Err(StatusFailed + m)
      case Done(out, _) => r == Ok(StatusOf(out))
  {
    var o := h.Exec(Run(StatusCommand));
    if o.Failed? {
      return Err(StatusFailed + o.message);
    }
    var st := ParseUfwStatus(o.stdout);
    return Ok(st);
  }

  /** `allowPort` and `denyPort`: a port that is not all digits is refused before any command runs. */
  method AllowOrDeny(h: Host, allow: bool, port: string, protocol: Option<string>) returns (r: Result<()>)
    modifies h`log
    ensures !PortValid(port) ==> r == Err(InvalidPort) && h.log == old(h.log)
    ensures PortValid(port) ==>
      var c := Run(RuleCommand(if allow then "allow" else "deny", port, protocol));
      h.log == old(h.log) + [c]
      && match old(h.Next(c))
        case Failed(m) => r == Err((if allow then AllowFailed else DenyFailed) + m)
        case Done(_, _) => r == Ok(())
  {
    if !PortValid(port) {
      return Err(InvalidPort);
    }
    var o := h.Exec(Run(RuleCommand(if allow then "allow" else "deny", port, protocol)));
    if o.Failed? {
      return Err((if allow then AllowFailed else DenyFailed) + o.message);
    }
    return Ok(());
  }

  /** `deleteRule`: `yes | ufw delete <n>`, its failure behind the delete prefix. */
  method DeleteRule(h: Host, ruleNumber: string) returns (r: Result<()>)
    modifies h`log
    ensures h.log == old(h.log) + [Run("yes | ufw delete " + ruleNumber)]
    ensures match old(h.Next(Run("yes | ufw delete " + ruleNumber)))
      case Failed(m) => r == Err(DeleteFailed + m)
      case Done(_, _) => r == Ok(())
  {
    var o := h.Exec(Run("yes | ufw delete " + ruleNumber));
    if o.Failed? {
      return Err(DeleteFailed + o.message);
    }
    return Ok(());
  }

  /** `enable` and `disable`: the command's own error passes through unchanged. */
  method EnableOrDisable(h: Host, on: bool) returns (r: Result<()>)
    modifies h`log
    ensures var c := Run(if on then "yes | ufw enable" else "yes | ufw disable");
      h.log == old(h.log) + [c]
      && match old(h.Next(c))
        case Failed(m) => r == Err(m)
        case Done(_, _) => r == Ok(())
  {
    var o := h.Exec(Run(if on then "yes | ufw enable" else "yes | ufw disable"));
    if o.Failed? {
      return Err(o.message);
    }
    return Ok(());
  }
}

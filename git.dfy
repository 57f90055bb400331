/**
 * The git service: parameters are sanitised by deleting shell
 * metacharacters, paths must lie under `/var/www/`, the commands run as
 * `www-data` (or, for a clone with a deploy key, as root), and the output of
 * `git log` and `git branch` is parsed into records.
 */
module Git {
  import opened Text
  import opened World

  /** A character `sanitizeGitParam` keeps: none of ``;&|`$(){}[]<>\!#*?"'`` and no line break. */
  predicate Kept(c: char) {
    c != ';' && c != '&' && c != '|' && c != '`' && c != '$' && c != '(' && c != ')'
    && c != '{' && c != '}' && c != '[' && c != ']' && c != '<' && c != '>' && c != '\\'
    && c != '!' && c != '#' && c != '*' && c != '?' && c != '"' && c != '\'' && c != '\n' && c != '\r'
  }

  /**
   * `sanitizeGitParam`: `''` for a falsy parameter, otherwise the parameter
   * without the stripped characters, trimmed.
   */
  function Sanitize(param: Option<string>): (r: string)
    ensures AllChars(r, Kept) && Trimmed(r)
    ensures param.None? || param.value == [] ==> r == []
  {
    if param.None? || param.value == [] then [] else Clean(param.value)
  }

  /** The stripped characters deleted, then white space trimmed. */
  function Clean(s: string): (r: string)
    ensures AllChars(r, Kept) && Trimmed(r)
  {
    var f := Filter(s, Kept);
    TrimKeepsChars(f, Kept);
    Trim(f)
  }

  lemma SanitizeIsClean(param: string)
    requires param != []
    ensures Sanitize(Some(param)) == Clean(param)
  {
  }

  lemma CleanOfClean(s: string)
    requires AllChars(s, Kept) && Trimmed(s)
    ensures Clean(s) == s
  {
    assert Filter(s, Kept) == s;
    TrimOfTrimmed(s);
  }

  /** Sanitising twice is sanitising once. */
  lemma SanitizeIdempotent(param: Option<string>)
    ensures Sanitize(Some(Sanitize(param))) == Sanitize(param)
  {
    var r := Sanitize(param);
    if r != [] {
      CleanOfClean(r);
      SanitizeIsClean(r);
    }
  }

  /** A parameter with nothing to strip and no surrounding white space is kept as it is. */
  lemma SanitizeClean(param: string)
    requires AllChars(param, Kept) && Trimmed(param)
    ensures Sanitize(Some(param)) == param
  {
    if param != [] {
      CleanOfClean(param);
      SanitizeIsClean(param);
    }
  }

  const DefaultBranch := "main"

  lemma DefaultBranchKept()
    ensures AllChars(DefaultBranch, Kept)
  {
    assert forall i | 0 <= i < 4 :: DefaultBranch[i] in "main";
  }

  /** `sanitizeGitParam(branch) || 'main'`. */
  function BranchOrMain(branch: Option<string>): (b: string)
    ensures b != [] && AllChars(b, Kept)
    ensures b == DefaultBranch || b == Sanitize(branch)
    ensures Sanitize(branch) != [] ==> b == Sanitize(branch)
  {
    var s := Sanitize(branch);
    if s == [] then DefaultBranchKept(); DefaultBranch else s
  }

  /** `/^https?:\/\/[^\s]+$/`. */
  predicate IsHttpUrl(u: string) {
    (StartsWith(u, "http://") && |u| > 7 && AllChars(u[7..], NotSpace))
    || (StartsWith(u, "https://") && |u| > 8 && AllChars(u[8..], NotSpace))
  }

  /**
   * `/^git@[^\s]+:[^\s]+$/`: after `git@`, no white space and a colon with
   * at least one character on each side.
   */
  predicate IsGitSshUrl(u: string) {
    StartsWith(u, "git@") && AllChars(u[4..], NotSpace)
    && exists k | 5 <= k < |u| - 1 :: u[k] == ':'
  }

  predicate IsCloneUrl(u: string) { IsHttpUrl(u) || IsGitSshUrl(u) }

  /** The guard of every path: the string starts with `/var/www/`. */
  predicate UnderWebRoot(p: string) { StartsWith(p, "/var/www/") }

  const CloneFailed := "Git clone failed: "
  const PullFailed := "Git pull failed: "
  const PushFailed := "Git push failed: "

  /** The message of a failed guard of `clone`, if one fails; the URL is checked first. */
  function CloneGuard(url: string, dest: string): (e: Option<string>)
    ensures e.None? <==> IsCloneUrl(url) && UnderWebRoot(dest)
  {
    if !IsCloneUrl(url) then Some("Invalid repository URL format")
    else if !UnderWebRoot(dest) then Some("Invalid destination path")
    else None
  }

  function CloneCommand(branch: string, url: string, dest: string): string {
    "git clone -b " + branch + " " + url + " " + dest
  }

  /** The `GIT_SSH_COMMAND` a keyed clone runs under: ssh with the key file, host keys not checked. */
  function SshCommand(keyPath: string): string {
    "ssh -i " + keyPath + " -o StrictHostKeyChecking=no"
  }

  /**
   * The calls of `clone` once the guards pass: prepare and remove the
   * destination, then clone, as root with a deploy key written to `keyPath`
   * and named by `GIT_SSH_COMMAND` (the key removed and the tree handed to
   * `www-data` afterwards), or else as `www-data`.
   */
  function CloneCalls(url: string, dest: string, branch: string, hasKey: bool, key: string, keyPath: string): seq<Cmd> {
    var clone := CloneCommand(branch, url, dest);
    [Run("mkdir -p " + dest + " && chown www-data:www-data " + dest), Run("rm -rf " + dest)]
    + if hasKey then
        [ Run("printf '%s' '" + key + "' > " + keyPath + " && chmod 600 " + keyPath),
          Run("GIT_SSH_COMMAND='" + SshCommand(keyPath) + "' " + clone), Run("rm -f " + keyPath), Run("chown -R www-data:www-data " + dest) ]
      else [RunAs(clone)]
  }

  /** A run's error with the operation's prefix, or success. */
  function Prefixed(prefix: string, e: Option<string>): (r: Result<()>)
    ensures r.Ok? <==> e.None?
    ensures r.Err? ==> r.error == prefix + e.value
  {
    match e
    case None => Ok(())
    case Some(m) => Err(prefix + m)
  }

  /**
   * `clone`: a failing guard makes no call; otherwise the calls are made in
   * order until one fails. Every error carries the `Git clone failed: `
   * prefix. `keyPath` stands for the timestamped random file name.
   */
  method Clone(h: Host, repoUrl: Option<string>, destination: Option<string>, branch: Option<string>,
               deployKey: Option<string>, keyPath: string)
    returns (r: Result<()>)
    modifies h`log
    ensures var url, dest := Sanitize(repoUrl), Sanitize(destination);
      match CloneGuard(url, dest)
      case Some(e) => r == Err(CloneFailed + e) && h.log == old(h.log)
      case None =>
        var hasKey := deployKey.Some? && deployKey.value != [];
        var calls := CloneCalls(url, dest, BranchOrMain(branch), hasKey, if hasKey then deployKey.value else [], keyPath);
        var (e, k) := RunUntilError(h.shell, |old(h.log)|, calls);
        r == Prefixed(CloneFailed, e) && h.log == old(h.log) + calls[..k]
  {
    var url := Sanitize(repoUrl);
    var dest := Sanitize(destination);
    var b := BranchOrMain(branch);
    var guard := CloneGuard(url, dest);
    if guard.Some? {
      return Err(CloneFailed + guard.value);
    }
    var hasKey := deployKey.Some? && deployKey.value != [];
    var err := h.ExecAll(CloneCalls(url, dest, b, hasKey, if hasKey then deployKey.value else [], keyPath));
    r := Prefixed(CloneFailed, err);
  }

  /** A clone whose URL or destination fails its guard makes no call at all. */
  lemma CloneGuardFirst(url: string, dest: string)
    requires !UnderWebRoot(dest) || !IsCloneUrl(url)
    ensures CloneGuard(url, dest).Some?
  {
  }

  /** The calls of `pull`. */
  function PullCalls(path: string, branch: string): seq<Cmd> {
    [RunAs("git -C " + path + " pull origin " + branch)]
  }

  /** The calls of `push`: stage everything, commit, push. */
  function PushCalls(path: string, branch: string): seq<Cmd> {
    [ RunAs("git -C " + path + " add ."),
      RunAs("git -C " + path + " commit -m \"Auto commit via NexPanel\""),
      RunAs("git -C " + path + " push origin " + branch) ]
  }

  const InvalidRepoPath := "Invalid repository path"

  /** `pull`: a path outside `/var/www/` makes no call. */
  method Pull(h: Host, repoPath: Option<string>, branch: Option<string>) returns (r: Result<()>)
    modifies h`log
    ensures var path := Sanitize(repoPath);
      if !UnderWebRoot(path) then r == Err(PullFailed + InvalidRepoPath) && h.log == old(h.log)
      else
        var calls := PullCalls(path, BranchOrMain(branch));
        var (e, k) := RunUntilError(h.shell, |old(h.log)|, calls);
        r == Prefixed(PullFailed, e) && h.log == old(h.log) + calls[..k]
  {
    var path := Sanitize(repoPath);
    var b := BranchOrMain(branch);
    if !UnderWebRoot(path) {
      return Err(PullFailed + InvalidRepoPath);
    }
    var err := h.ExecAll(PullCalls(path, b));
    r := Prefixed(PullFailed, err);
  }

  /** `push`: a path outside `/var/www/` makes no call; a failed step skips the rest. */
  method Push(h: Host, repoPath: Option<string>, branch: Option<string>) returns (r: Result<()>)
    modifies h`log
    ensures var path := Sanitize(repoPath);
      if !UnderWebRoot(path) then r == Err(PushFailed + InvalidRepoPath) && h.log == old(h.log)
      else
        var calls := PushCalls(path, BranchOrMain(branch));
        var (e, k) := RunUntilError(h.shell, |old(h.log)|, calls);
        r == Prefixed(PushFailed, e) && h.log == old(h.log) + calls[..k]
  {
    var path := Sanitize(repoPath);
    var b := BranchOrMain(branch);
    if !UnderWebRoot(path) {
      return Err(PushFailed + InvalidRepoPath);
    }
    var err := h.ExecAll(PushCalls(path, b));
    r := Prefixed(PushFailed, err);
  }

  /** One entry of the commit history; fields missing from a line are `undefined`. */
  datatype Commit = Commit(hash: string, author: Option<string>, date: Option<string>, message: Option<string>)

  function Field(fields: seq<string>, i: nat): Option<string> {
    if i < |fields| then Some(fields[i]) else None
  }

  /** `const [hash, author, date, message] = line.split('|')`. */
  function CommitOf(line: string): Commit {
    var f := Split(line, '|');
    Commit(f[0], Field(f, 1), Field(f, 2), Field(f, 3))
  }

  /** `filter(l => l)`: the non-empty lines, in order. */
  function NonEmpty(lines: seq<string>): (r: seq<string>)
    ensures forall i | 0 <= i < |r| :: r[i] != []
    ensures forall l :: l in r <==> l in lines && l != []
    ensures (forall i | 0 <= i < |lines| :: lines[i] != []) ==> r == lines
  {
    if lines == [] then []
    else (if lines[0] != [] then [lines[0]] else []) + NonEmpty(lines[1..])
  }

  /** The `git log` output, one record per non-empty line, in order. */
  function ParseCommits(stdout: string): (r: seq<Commit>)
    ensures |r| == |NonEmpty(Split(stdout, '\n'))|
  {
    var lines := NonEmpty(Split(stdout, '\n'));
    seq(|lines|, i requires 0 <= i < |lines| => CommitOf(lines[i]))
  }

  /** What `--pretty=format:"%h|%an|%ar|%s"` prints for one commit. */
  datatype LogEntry = LogEntry(hash: string, author: string, date: string, subject: string)

  function FormatEntry(e: LogEntry): string {
    Join([e.hash, e.author, e.date, e.subject], "|")
  }

  /** A field that neither the line nor the field separator can cut. */
  predicate PlainField(s: string) { '|' !in s && '\n' !in s }

  predicate PlainEntry(e: LogEntry) {
    e.hash != [] && PlainField(e.hash) && PlainField(e.author) && PlainField(e.date) && PlainField(e.subject)
  }

  function ToCommit(e: LogEntry): Commit {
    Commit(e.hash, Some(e.author), Some(e.date), Some(e.subject))
  }

  /** One formatted line reads back as its commit. */
  lemma CommitOfFormat(e: LogEntry)
    requires PlainEntry(e)
    ensures CommitOf(FormatEntry(e)) == ToCommit(e)
  {
    SplitJoin([e.hash, e.author, e.date, e.subject], '|');
  }

  lemma {:induction false} FormatNoNewline(e: LogEntry)
    requires PlainEntry(e)
    ensures '\n' !in FormatEntry(e) && FormatEntry(e) != []
  {
    var f := [e.hash, e.author, e.date, e.subject];
    JoinChars(f, "|", c => c != '\n');
    assert FormatEntry(e)[0] == e.hash[0] by { JoinHead(f, "|"); }
  }

  /**
   * Parsing the log of commits whose fields contain no `|` and no newline
   * gives back one record per commit, in order, with every field present.
   */
  lemma LogRoundTrip(entries: seq<LogEntry>)
    requires forall i | 0 <= i < |entries| :: PlainEntry(entries[i])
    ensures var lines := seq(|entries|, i requires 0 <= i < |entries| => FormatEntry(entries[i]));
      ParseCommits(Join(lines, "\n")) == seq(|entries|, i requires 0 <= i < |entries| => ToCommit(entries[i]))
  {
    var lines := seq(|entries|, i requires 0 <= i < |entries| => FormatEntry(entries[i]));
    if entries == [] {
      assert Split("", '\n') == [""];
    } else {
      forall i | 0 <= i < |entries| ensures '\n' !in lines[i] && lines[i] != [] {
        FormatNoNewline(entries[i]);
      }
      SplitJoin(lines, '\n');
      forall i | 0 <= i < |entries| ensures CommitOf(lines[i]) == ToCommit(entries[i]) {
        CommitOfFormat(entries[i]);
      }
    }
  }

  /** A subject that contains `|` is cut at its first `|`. */
  lemma SubjectCutAtBar(hash: string, author: string, date: string, s1: string, s2: string)
    requires PlainField(hash) && PlainField(author) && PlainField(date) && PlainField(s1) && PlainField(s2)
    ensures CommitOf(Join([hash, author, date, s1 + "|" + s2], "|")).message == Some(s1)
  {
    var f := [hash, author, date, s1, s2];
    assert Join(f[3..], "|") == s1 + "|" + s2;
    assert Join(f[2..], "|") == Join([date, s1 + "|" + s2], "|");
    assert Join(f[1..], "|") == Join([author, date, s1 + "|" + s2], "|");
    assert Join(f, "|") == Join([hash, author, date, s1 + "|" + s2], "|");
    SplitJoin(f, '|');
  }

  /** `b.replace('*', '')`: the first `*` removed. */
  function RemoveFirstStar(s: string): (r: string)
    ensures '*' !in s ==> r == s
    ensures '*' in s ==> |r| == |s| - 1
  {
    if '*' in s then var i := IndexOf(s, '*'); s[..i] + s[i + 1..] else s
  }

  /** `filter(b => b.trim())`: the lines that are not blank, in order. */
  function NonBlank(lines: seq<string>): (r: seq<string>)
    ensures forall i | 0 <= i < |r| :: Trim(r[i]) != []
    ensures forall l :: l in r <==> l in lines && Trim(l) != []
  {
    if lines == [] then []
    else (if Trim(lines[0]) != [] then [lines[0]] else []) + NonBlank(lines[1..])
  }

  function BranchName(line: string): (r: string)
    ensures Trimmed(r)
  {
    Trim(RemoveFirstStar(line))
  }

  /** The `git branch -a` output: one trimmed name per non-blank line, without the current-branch star. */
  function ParseBranches(stdout: string): (r: seq<string>)
    ensures |r| == |NonBlank(Split(stdout, '\n'))|
    ensures forall i | 0 <= i < |r| :: Trimmed(r[i])
  {
    var lines := NonBlank(Split(stdout, '\n'));
    seq(|lines|, i requires 0 <= i < |lines| => BranchName(lines[i]))
  }

  lemma TrimStartSpaces(pad: string, name: string)
    requires AllChars(pad, IsSpace) && (name == [] || !IsSpace(name[0]))
    ensures TrimStart(pad + name) == name
    decreases |pad|
  {
    if pad != [] {
      assert (pad + name)[1..] == pad[1..] + name;
      TrimStartSpaces(pad[1..], name);
    } else {
      assert pad + name == name;
    }
  }

  /** The marked current branch and an indented other branch both read as their bare names. */
  lemma BranchLines(name: string)
    requires name != [] && Trimmed(name) && '*' !in name
    ensures BranchName("* " + name) == name && BranchName("  " + name) == name
  {
    var marked := "* " + name;
    assert marked[0] == '*';
    assert IndexOf(marked, '*') == 0;
    assert RemoveFirstStar(marked) == " " + name by {
      assert marked[..0] + marked[1..] == " " + name;
    }
    TrimStartSpaces(" ", name);
    assert Trim(" " + name) == name;
    TrimStartSpaces("  ", name);
    assert '*' !in "  " + name;
    assert Trim("  " + name) == name;
  }

  const InvalidPath := "Invalid path"

  /** The `git log` call of `getCommitHistory`. */
  function LogCall(path: string, limit: nat): Cmd {
    RunAs("git -C " + path + " log --pretty=format:\"%h|%an|%ar|%s\" -n " + NatToString(limit))
  }

  /** `getCommitHistory`: the parsed log, or `[]` for a path outside `/var/www/` (no call) or a failed call. */
  method GetCommitHistory(h: Host, repoPath: Option<string>, limit: nat) returns (commits: seq<Commit>)
    modifies h`log
    ensures var path := Sanitize(repoPath);
      if !UnderWebRoot(path) then commits == [] && h.log == old(h.log)
      else
        h.log == old(h.log) + [LogCall(path, limit)]
        && commits == match h.shell(LogCall(path, limit), |old(h.log)|)
          case Failed(_) => []
          case Done(out, _) => ParseCommits(out)
  {
    var path := Sanitize(repoPath);
    if !UnderWebRoot(path) {
      return [];
    }
    var o := h.Exec(LogCall(path, limit));
    commits := if o.Failed? then [] else ParseCommits(o.stdout);
  }

  function BranchCall(path: string): Cmd { RunAs("git -C " + path + " branch -a") }

  /** `getBranches`: the parsed branch list, or `[]` for a path outside `/var/www/` (no call) or a failed call. */
  method GetBranches(h: Host, repoPath: Option<string>) returns (branches: seq<string>)
    modifies h`log
    ensures var path := Sanitize(repoPath);
      if !UnderWebRoot(path) then branches == [] && h.log == old(h.log)
      else
        h.log == old(h.log) + [BranchCall(path)]
        && branches == match h.shell(BranchCall(path), |old(h.log)|)
          case Failed(_) => []
          case Done(out, _) => ParseBranches(out)
  {
    var path := Sanitize(repoPath);
    if !UnderWebRoot(path) {
      return [];
    }
    var o := h.Exec(BranchCall(path));
    branches := if o.Failed? then [] else ParseBranches(o.stdout);
  }
}

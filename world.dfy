/**
 * The machine the panel drives, reduced to the state the website lifecycle
 * touches, and the one way the panel reaches it: a call into the operating
 * system (`exec` of a command line, or an `fs` call) whose result is decided
 * by an oracle. The oracle is indexed by the position of the call in the log,
 * so every call may succeed or fail independently and every operation is
 * deterministic once the oracle is fixed.
 */
module World {
  import opened Text

  /** The three runtime kinds a site can have. */
  datatype Runtime = Php | NodeJs | Python

  /** One call into the operating system. */
  datatype Cmd =
    | Run(line: string)                     // a command line handed to `exec`
    | RunAs(cmd: string)                    // `runAsUser(cmd)`: `exec` of `Shell.RunAsUser(cmd)`
    | WriteFile(path: string)               // `fs.writeFile`
    | Symlink(target: string, link: string) // `fs.symlink`
    | Unlink(path: string)                  // `fs.unlink`, whose failure the panel always ignores

  /** A call resolved with its output, or rejected with an error message. */
  datatype Outcome = Done(stdout: string, stderr: string) | Failed(message: string)

  /** What `JSON.parse` makes of a `package.json`, as far as `start` looks at it. */
  datatype Manifest = Manifest(hasStartScript: bool, main: string)

  /**
   * A virtual-host file under `/etc/nginx/sites-available`, recorded by the
   * arguments it was rendered from; its text is `Nginx.VhostText` of them.
   */
  datatype VhostConf = VhostConf(runtime: Runtime, name: string, domain: string, phpVersion: Option<string>, port: Option<nat>)

  /** A php-fpm pool file `/etc/php/<version>/fpm/pool.d/<name>.conf`. */
  datatype PoolKey = PoolKey(version: string, name: string)

  /**
   * What starting an app under pm2 did: the call's result, the pm2 command
   * line registered under the site's name (if the `pm2 start` call
   * succeeded), and the calls made, in order.
   */
  datatype StartRun = StartRun(result: Result<()>, registered: Option<string>, calls: seq<Cmd>)

  /** The process table after an attempt to register `name`. */
  function Register(processes: map<string, string>, name: string, registered: Option<string>): map<string, string> {
    match registered
    case None => processes
    case Some(c) => processes[name := c]
  }

  /** A port as a template literal renders it: its digits, or `null` for a site without one. */
  function PortText(port: Option<nat>): string {
    match port
    case None => "null"
    case Some(p) => NatToString(p)
  }

  /** The error message of a rejected call. */
  function ErrorOf(o: Outcome): Option<string> {
    if o.Failed? then Some(o.message) else None
  }

  /** The first failing step of a sequence of steps (its index and message). */
  function FirstError(errs: seq<Option<string>>): (r: Option<(nat, string)>)
    ensures r.None? <==> forall i | 0 <= i < |errs| :: errs[i].None?
    ensures r.Some? ==> r.value.0 < |errs| && errs[r.value.0] == Some(r.value.1)
    ensures r.Some? ==> forall i | 0 <= i < r.value.0 :: errs[i].None?
  {
    if errs == [] then None
    else if errs[0].Some? then Some((0, errs[0].value))
    else match FirstError(errs[1..])
      case None => None
      case Some((k, m)) => Some((k + 1, m))
  }

  /** The first error of `a + b` is the first of `a`, or else the first of `b`, shifted. */
  lemma {:induction false} FirstErrorAppend(a: seq<Option<string>>, b: seq<Option<string>>)
    ensures FirstError(a + b) == match FirstError(a)
      case Some(e) => Some(e)
      case None => match FirstError(b)
        case None => None
        case Some((k, m)) => Some((|a| + k, m))
  {
    if a != [] {
      assert (a + b)[1..] == a[1..] + b;
      FirstErrorAppend(a[1..], b);
    } else {
      assert a + b == b;
    }
  }

  /** `FirstError` of two steps, spelled out. */
  lemma FirstError2(a: Option<string>, b: Option<string>)
    ensures FirstError([a, b]) ==
      if a.Some? then Some((0, a.value)) else if b.Some? then Some((1, b.value)) else None
  {
    assert [a, b][1..] == [b];
    assert [b][1..] == [];
  }

  /** `FirstError` of four steps, spelled out. */
  lemma FirstError4(a: Option<string>, b: Option<string>, c: Option<string>, d: Option<string>)
    ensures FirstError([a, b, c, d]) ==
      if a.Some? then Some((0, a.value)) else if b.Some? then Some((1, b.value))
      else if c.Some? then Some((2, c.value)) else if d.Some? then Some((3, d.value)) else None
  {
    assert [a, b, c, d][1..] == [b, c, d];
    assert [b, c, d][1..] == [c, d];
    FirstError2(c, d);
  }

  /**
   * Making `cmds` in order from log position `n`, stopping at the first
   * rejected call: that call's message (if any) and how many calls were made.
   */
  function RunUntilError(shell: (Cmd, nat) -> Outcome, n: nat, cmds: seq<Cmd>): (r: (Option<string>, nat))
    ensures r.1 <= |cmds|
    ensures r.0.None? ==> r.1 == |cmds|
    decreases |cmds|
  {
    if cmds == [] then (None, 0)
    else match shell(cmds[0], n)
      case Failed(m) => (Some(m), 1)
      case Done(_, _) => var (e, k) := RunUntilError(shell, n + 1, cmds[1..]); (e, k + 1)
  }

  /** The run succeeds exactly when every call does; a failed run stops right after its first failed call. */
  lemma {:induction false} RunUntilErrorMeaning(shell: (Cmd, nat) -> Outcome, n: nat, cmds: seq<Cmd>)
    ensures var (e, k) := RunUntilError(shell, n, cmds);
      (e.None? <==> forall i | 0 <= i < |cmds| :: shell(cmds[i], n + i).Done?)
      && (e.Some? ==> 1 <= k && shell(cmds[k - 1], n + k - 1) == Failed(e.value)
                      && forall i | 0 <= i < k - 1 :: shell(cmds[i], n + i).Done?)
    decreases |cmds|
  {
    if cmds != [] && shell(cmds[0], n).Done? {
      RunUntilErrorMeaning(shell, n + 1, cmds[1..]);
      var (e, k) := RunUntilError(shell, n + 1, cmds[1..]);
      if e.None? {
        DoneShift(shell, n, cmds, |cmds|);
      } else {
        DoneShift(shell, n, cmds, k);
        assert cmds[k] == cmds[1..][k - 1];
      }
    }
  }

  /** A first call that succeeds, followed by `m - 1` that succeed one position later. */
  lemma DoneShift(shell: (Cmd, nat) -> Outcome, n: nat, cmds: seq<Cmd>, m: nat)
    requires 1 <= m <= |cmds| && shell(cmds[0], n).Done?
    requires forall i | 0 <= i < m - 1 :: shell(cmds[1..][i], n + 1 + i).Done?
    ensures forall i | 0 <= i < m :: shell(cmds[i], n + i).Done?
  {
    forall i | 0 <= i < m ensures shell(cmds[i], n + i).Done? {
      if i > 0 {
        assert cmds[i] == cmds[1..][i - 1];
      }
    }
  }

  /** Running from the `i`-th command on, once the first `i` have succeeded. */
  lemma RunUntilErrorSkip(shell: (Cmd, nat) -> Outcome, n: nat, cmds: seq<Cmd>, i: nat)
    requires i < |cmds| && shell(cmds[i], n + i).Done?
    ensures var (e, k) := RunUntilError(shell, n + i + 1, cmds[i + 1..]);
      RunUntilError(shell, n + i, cmds[i..]) == (e, k + 1)
  {
    assert cmds[i..][0] == cmds[i];
    assert cmds[i..][1..] == cmds[i + 1..];
  }

  class Host {
    /** The answer the system gives to the call made at a given log position. */
    const shell: (Cmd, nat) -> Outcome
    /** `JSON.parse` of a file's text, or the message of the error it throws. */
    const parseManifest: string -> Result<Manifest>

    /** Every call made so far, in order. */
    var log: seq<Cmd>
    /** `/etc/nginx/sites-available/<name>`: file name to what the file was rendered from. */
    var available: map<string, VhostConf>
    /** `/etc/nginx/sites-enabled/<name>` links. */
    var enabled: set<string>
    /** php-fpm pool files; a pool file's text is fixed by its version and name. */
    var pools: set<PoolKey>
    /** pm2 processes by name, with the pm2 command line that registered each. */
    var processes: map<string, string>
    /** Document roots `/var/www/<name>` created by the panel. */
    var siteDirs: set<string>
    /** The `www-data` crontab, if one is installed. */
    var crontab: Option<string>

    constructor (shell: (Cmd, nat) -> Outcome, parseManifest: string -> Result<Manifest>)
      ensures this.shell == shell && this.parseManifest == parseManifest
      ensures log == [] && available == map[] && enabled == {} && pools == {}
      ensures processes == map[] && siteDirs == {} && crontab == None
    {
      this.shell := shell;
      this.parseManifest := parseManifest;
      log := [];
      available := map[];
      enabled := {};
      pools := {};
      processes := map[];
      siteDirs := {};
      crontab := None;
    }

    /** The answer the next call will receive. */
    ghost function Next(c: Cmd): Outcome
      reads this
    {
      shell(c, |log|)
    }

    /** Make the calls in order, stopping at the first one rejected, whose message is returned. */
    method ExecAll(cmds: seq<Cmd>) returns (err: Option<string>)
      modifies this`log
      ensures var (e, k) := RunUntilError(shell, |old(log)|, cmds);
        err == e && log == old(log) + cmds[..k]
    {
      ghost var n := |log|;
      var i := 0;
      while i < |cmds|
        invariant 0 <= i <= |cmds| && log == old(log) + cmds[..i] && |log| == n + i
        invariant var (e, k) := RunUntilError(shell, n + i, cmds[i..]);
          RunUntilError(shell, n, cmds) == (e, k + i)
      {
        var o := Exec(cmds[i]);
        assert cmds[..i + 1] == cmds[..i] + [cmds[i]];
        if o.Failed? {
          assert cmds[i..][0] == cmds[i];
          return Some(o.message);
        }
        RunUntilErrorSkip(shell, n, cmds, i);
        i := i + 1;
      }
      assert cmds[i..] == [];
      assert cmds[..i] == cmds;
      return None;
    }

    /** Make one call: it is logged and answered by the oracle. */
    method Exec(c: Cmd) returns (o: Outcome)
      modifies this`log
      ensures log == old(log) + [c]
      ensures o == old(Next(c))
    {
      o := shell(c, |log|);
      log := log + [c];
    }
  }
}

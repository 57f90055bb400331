/**
 * The Node.js service: install an app's dependencies, resolve how to start
 * it, and run it under pm2 (as `www-data`) under the site's name.
 */
module NodeJs {
  import opened Text
  import opened World

  const StartPrefix := "Failed to start Node.js app: "
  const StopPrefix := "Failed to stop Node.js app: "
  const NoManifestMessage := "package.json not found"
  const NoEntryMessage := "No start script or entry file found"
  /** What the manifest check prints when `package.json` is there. */
  const ExistsMarker := "exists"
  /** The start command a `start` script in the manifest stands for. */
  const NpmStart := "npm start"

  /** The files tried, in order, when `package.json` names neither a start script nor a main file. */
  const EntryPoints: seq<string> := ["index.js", "app.js", "server.js", "main.js"]

  function AppPath(name: string): string { "/var/www/" + name }

  function CheckManifest(app: string): Cmd { Run("test -f " + app + "/package.json && echo \"exists\"") }
  function ReadManifest(app: string): Cmd { Run("cat " + app + "/package.json") }
  function Install(app: string): Cmd { RunAs("cd " + app + " && npm install --production") }
  function ProbeEntry(app: string, file: string): Cmd { Run("test -f " + app + "/" + file) }
  function LaunchCall(app: string, pm2: string): Cmd { RunAs("cd " + app + " && " + pm2) }
  const SaveCall: Cmd := RunAs("pm2 save")
  function DeleteCall(name: string): Cmd { RunAs("pm2 delete " + name) }

  /** The probes `start` makes for the given files, in order. */
  function ProbeCalls(app: string, files: seq<string>): (r: seq<Cmd>)
    ensures |r| == |files|
  {
    if files == [] then [] else
      ProbeCalls(app, files[..|files| - 1]) + [ProbeEntry(app, files[|files| - 1])]
  }

  /**
   * The first of `files` whose `test -f` succeeds when the probes start at
   * log position `n`, and how many probes that took.
   */
  function FirstEntry(shell: (Cmd, nat) -> Outcome, n: nat, app: string, files: seq<string>): (r: (Option<string>, nat))
    ensures r.1 <= |files|
    decreases |files|
  {
    if files == [] then (None, 0)
    else if shell(ProbeEntry(app, files[0]), n).Done? then (Some(files[0]), 1)
    else
      var (f, k) := FirstEntry(shell, n + 1, app, files[1..]);
      (f, k + 1)
  }

  /** The start command: the `start` script, else the `main` file, else the entry file found. */
  function StartCommand(manifest: Manifest, entry: Option<string>): Option<string> {
    if manifest.hasStartScript then Some(NpmStart)
    else if manifest.main != "" then Some(manifest.main)
    else entry
  }

  /** The flag that names the pm2 process, with the spaces around it. */
  function NameFlag(name: string): string { " --name " + name + " " }

  /** The pm2 command line for a start command. */
  function Pm2Command(app: string, name: string, startCommand: string): string {
    if startCommand == NpmStart then "pm2 start npm" + NameFlag(name) + "-- start"
    else "pm2 start " + app + "/" + startCommand + NameFlag(name) + "-i 1 --max-memory-restart 256M"
  }

  /** Either form of the pm2 command names the process exactly after the site. */
  lemma Pm2CommandNamesSite(app: string, name: string, startCommand: string)
    ensures Contains(Pm2Command(app, name, startCommand), NameFlag(name))
  {
    if startCommand == NpmStart {
      ContainsInfix("pm2 start npm", NameFlag(name), "-- start");
    } else {
      ContainsInfix("pm2 start " + app + "/" + startCommand, NameFlag(name), "-i 1 --max-memory-restart 256M");
    }
  }

  /**
   * The first three steps of `start`: check that `package.json` exists,
   * read and parse it, install dependencies. The result is the parsed
   * manifest or the (prefixed) error, with the calls made.
   */
  function Prepare(shell: (Cmd, nat) -> Outcome, parse: string -> Result<Manifest>, n: nat, app: string): (r: (Result<Manifest>, seq<Cmd>))
    ensures r.0.Ok? ==> |r.1| == 3
  {
    var c0, c1, c2 := CheckManifest(app), ReadManifest(app), Install(app);
    match shell(c0, n)
    case Failed(m) => (Err(StartPrefix + m), [c0])
    case Done(out, _) =>
      if !Contains(out, ExistsMarker) then (Err(StartPrefix + NoManifestMessage), [c0])
      else match shell(c1, n + 1)
        case Failed(m) => (Err(StartPrefix + m), [c0, c1])
        case Done(content, _) =>
          match parse(content)
          case Err(m) => (Err(StartPrefix + m), [c0, c1])
          case Ok(manifest) =>
            match shell(c2, n + 2)
            case Failed(m) => (Err(StartPrefix + m), [c0, c1, c2])
            case Done(_, _) => (Ok(manifest), [c0, c1, c2])
  }

  /** The entry file found and the probes made, for a manifest that names no start command. */
  function Resolve(shell: (Cmd, nat) -> Outcome, n: nat, app: string, manifest: Manifest): (Option<string>, nat) {
    if manifest.hasStartScript || manifest.main != "" then (None, 0) else FirstEntry(shell, n, app, EntryPoints)
  }

  /** The last two steps: `pm2 start`, then `pm2 save`, when the calls start at position `k`. */
  function Launch(shell: (Cmd, nat) -> Outcome, k: nat, app: string, pm2: string): StartRun {
    var c := LaunchCall(app, pm2);
    match shell(c, k)
    case Failed(m) => StartRun(Err(StartPrefix + m), None, [c])
    case Done(_, _) =>
      match shell(SaveCall, k + 1)
      case Failed(m) => StartRun(Err(StartPrefix + m), Some(pm2), [c, SaveCall])
      case Done(_, _) => StartRun(Ok(()), Some(pm2), [c, SaveCall])
  }

  /** What `start` does after a successful `Prepare`, when its calls start at log position `k`. */
  function Proceed(shell: (Cmd, nat) -> Outcome, k: nat, app: string, name: string, manifest: Manifest): StartRun {
    var (entry, probes) := Resolve(shell, k, app, manifest);
    var probed := ProbeCalls(app, EntryPoints[..probes]);
    match StartCommand(manifest, entry)
    case None => StartRun(Err(StartPrefix + NoEntryMessage), None, probed)
    case Some(sc) =>
      var l := Launch(shell, k + probes, app, Pm2Command(app, name, sc));
      StartRun(l.result, l.registered, probed + l.calls)
  }

  /** What `start` does for site `name` when its calls start at log position `n`. */
  function StartFrom(shell: (Cmd, nat) -> Outcome, parse: string -> Result<Manifest>, n: nat, name: string): StartRun {
    var app := AppPath(name);
    var (prepared, calls) := Prepare(shell, parse, n, app);
    match prepared
    case Err(m) => StartRun(Err(m), None, calls)
    case Ok(manifest) =>
      var p := Proceed(shell, n + 3, app, name, manifest);
      StartRun(p.result, p.registered, calls + p.calls)
  }

  /** Once the first `i` probes failed, the next one to succeed determines `FirstEntry`. */
  lemma FirstEntryAt(shell: (Cmd, nat) -> Outcome, n: nat, app: string, files: seq<string>, i: nat)
    requires i <= |files|
    requires forall j | 0 <= j < i :: shell(ProbeEntry(app, files[j]), n + j).Failed?
    ensures i == |files| ==> FirstEntry(shell, n, app, files) == (None, |files|)
    ensures i < |files| && shell(ProbeEntry(app, files[i]), n + i).Done? ==>
      FirstEntry(shell, n, app, files) == (Some(files[i]), i + 1)
    decreases i
  {
    if i > 0 {
      FailedShift(shell, n, app, files, i);
      FirstEntryAt(shell, n + 1, app, files[1..], i - 1);
      if i < |files| {
        assert files[1..][i - 1] == files[i];
      }
    }
  }

  lemma FailedShift(shell: (Cmd, nat) -> Outcome, n: nat, app: string, files: seq<string>, i: nat)
    requires 0 < i <= |files|
    requires forall j | 0 <= j < i :: shell(ProbeEntry(app, files[j]), n + j).Failed?
    ensures forall j | 0 <= j < i - 1 :: shell(ProbeEntry(app, files[1..][j]), n + 1 + j).Failed?
  {
    forall j | 0 <= j < i - 1
      ensures shell(ProbeEntry(app, files[1..][j]), n + 1 + j).Failed?
    {
      assert files[1..][j] == files[j + 1];
    }
  }

  /** The entry found is the first file whose probe succeeds; none is found only when every probe fails. */
  lemma {:induction false} FirstEntryMeaning(shell: (Cmd, nat) -> Outcome, n: nat, app: string, files: seq<string>)
    ensures FirstEntry(shell, n, app, files).0.None? <==> AllProbesFail(shell, n, app, files)
    ensures var k := FirstEntry(shell, n, app, files).1;
      FirstEntry(shell, n, app, files).0.Some? ==>
        shell(ProbeEntry(app, files[k - 1]), n + k - 1).Done? && AllProbesFail(shell, n, app, files[..k - 1])
    decreases |files|
  {
    if files != [] && shell(ProbeEntry(app, files[0]), n).Failed? {
      FirstEntryMeaning(shell, n + 1, app, files[1..]);
      ProbesFailCons(shell, n, app, files);
      var k := FirstEntry(shell, n + 1, app, files[1..]).1;
      if FirstEntry(shell, n + 1, app, files[1..]).0.Some? {
        assert files[1..][k - 1] == files[k];
        ProbesFailCons(shell, n, app, files[..k]);
        assert files[..k][1..] == files[1..][..k - 1];
      }
    } else if files != [] {
      assert files[..0] == [];
    }
  }

  /** Every probe of `files` fails when the probes start at log position `n`. */
  predicate AllProbesFail(shell: (Cmd, nat) -> Outcome, n: nat, app: string, files: seq<string>) {
    forall j | 0 <= j < |files| :: shell(ProbeEntry(app, files[j]), n + j).Failed?
  }

  lemma ProbesFailCons(shell: (Cmd, nat) -> Outcome, n: nat, app: string, files: seq<string>)
    requires files != []
    ensures AllProbesFail(shell, n, app, files) <==>
      shell(ProbeEntry(app, files[0]), n).Failed? && AllProbesFail(shell, n + 1, app, files[1..])
  {
    if shell(ProbeEntry(app, files[0]), n).Failed? && AllProbesFail(shell, n + 1, app, files[1..]) {
      forall j | 0 <= j < |files|
        ensures shell(ProbeEntry(app, files[j]), n + j).Failed?
      {
        if j > 0 {
          assert files[j] == files[1..][j - 1];
        }
      }
    }
    if AllProbesFail(shell, n, app, files) {
      forall j | 0 <= j < |files| - 1
        ensures shell(ProbeEntry(app, files[1..][j]), n + 1 + j).Failed?
      {
        assert files[1..][j] == files[j + 1];
      }
    }
  }

  /** `start`'s entry-file loop: probe each file in turn and stop at the first that exists. */
  method FindEntry(h: Host, app: string, files: seq<string>) returns (entry: Option<string>)
    modifies h`log
    ensures entry == FirstEntry(h.shell, |old(h.log)|, app, files).0
    ensures h.log == old(h.log) + ProbeCalls(app, files[..FirstEntry(h.shell, |old(h.log)|, app, files).1])
  {
    ghost var n := |h.log|;
    var i := 0;
    while i < |files|
      invariant 0 <= i <= |files|
      invariant h.log == old(h.log) + ProbeCalls(app, files[..i])
      invariant forall j | 0 <= j < i :: h.shell(ProbeEntry(app, files[j]), n + j).Failed?
    {
      var o := h.Exec(ProbeEntry(app, files[i]));
      assert files[..i + 1][..i] == files[..i];
      if o.Done? {
        FirstEntryAt(h.shell, n, app, files, i);
        return Some(files[i]);
      }
      i := i + 1;
    }
    FirstEntryAt(h.shell, n, app, files, i);
    assert files[..i] == files;
    return None;
  }

  /**
   * `start`: the calls, their order and the result are those of
   * `StartFrom`; a successful `pm2 start` registers the site's process.
   */
  method Start(h: Host, name: string) returns (r: Result<()>)
    modifies h`log, h`processes
    ensures var s := StartFrom(h.shell, h.parseManifest, |old(h.log)|, name);
      r == s.result && h.log == old(h.log) + s.calls && h.processes == Register(old(h.processes), name, s.registered)
  {
    var app := AppPath(name);
    ghost var n := |h.log|;
    var prepared := RunPrepare(h, app);
    if prepared.Err? {
      return Err(prepared.error);
    }
    ghost var log0, log1 := old(h.log), h.log;
    r := RunProceed(h, app, name, prepared.value);
    AppendAssoc(log0, log1[|log0|..], h.log[|log1|..]);
  }

  /** `start` from the choice of the start command on. */
  method RunProceed(h: Host, app: string, name: string, manifest: Manifest) returns (r: Result<()>)
    modifies h`log, h`processes
    ensures var p := Proceed(h.shell, |old(h.log)|, app, name, manifest);
      r == p.result && h.log == old(h.log) + p.calls && h.processes == Register(old(h.processes), name, p.registered)
  {
    ghost var log0 := h.log;
    ghost var resolved := Resolve(h.shell, |log0|, app, manifest);
    var startCommand := ChooseStart(h, app, manifest);
    assert |h.log| == |log0| + resolved.1;
    if startCommand.None? {
      return Err(StartPrefix + NoEntryMessage);
    }
    var pm2 := Pm2Command(app, name, startCommand.value);
    ghost var log1 := h.log;
    r := RunLaunch(h, app, name, pm2);
    AppendAssoc(log0, log1[|log0|..], h.log[|log1|..]);
  }

  /** The start command: from the manifest, or else by probing the entry files. */
  method ChooseStart(h: Host, app: string, manifest: Manifest) returns (startCommand: Option<string>)
    modifies h`log
    ensures var (entry, probes) := Resolve(h.shell, |old(h.log)|, app, manifest);
      startCommand == StartCommand(manifest, entry) && h.log == old(h.log) + ProbeCalls(app, EntryPoints[..probes])
  {
    if manifest.hasStartScript {
      startCommand := Some(NpmStart);
    } else if manifest.main != "" {
      startCommand := Some(manifest.main);
    } else {
      startCommand := FindEntry(h, app, EntryPoints);
    }
    assert EntryPoints[..0] == [];
  }

  /** The first three steps of `start`. */
  method RunPrepare(h: Host, app: string) returns (r: Result<Manifest>)
    modifies h`log
    ensures var (p, calls) := Prepare(h.shell, h.parseManifest, |old(h.log)|, app);
      r == p && h.log == old(h.log) + calls
  {
    var o := h.Exec(CheckManifest(app));
    if o.Failed? {
      return Err(StartPrefix + o.message);
    }
    if !Contains(o.stdout, ExistsMarker) {
      return Err(StartPrefix + NoManifestMessage);
    }
    o := h.Exec(ReadManifest(app));
    if o.Failed? {
      return Err(StartPrefix + o.message);
    }
    var parsed := h.parseManifest(o.stdout);
    if parsed.Err? {
      return Err(StartPrefix + parsed.error);
    }
    o := h.Exec(Install(app));
    if o.Failed? {
      return Err(StartPrefix + o.message);
    }
    return parsed;
  }

  /** `pm2 start` (registering the process) followed by `pm2 save`. */
  method RunLaunch(h: Host, app: string, name: string, pm2: string) returns (r: Result<()>)
    modifies h`log, h`processes
    ensures var l := Launch(h.shell, |old(h.log)|, app, pm2);
      r == l.result && h.log == old(h.log) + l.calls && h.processes == Register(old(h.processes), name, l.registered)
  {
    var o := h.Exec(LaunchCall(app, pm2));
    if o.Failed? {
      return Err(StartPrefix + o.message);
    }
    h.processes := h.processes[name := pm2];
    o := h.Exec(SaveCall);
    r := if o.Failed? then Err(StartPrefix + o.message) else Ok(());
  }

  /** Every failure of `start` is reported with the same prefix. */
  lemma StartErrorsPrefixed(shell: (Cmd, nat) -> Outcome, parse: string -> Result<Manifest>, n: nat, name: string)
    ensures var s := StartFrom(shell, parse, n, name);
      s.result.Err? ==> StartsWith(s.result.error, StartPrefix)
  {
  }

  /**
   * Without `package.json` nothing else is tried and nothing is registered.
   * An absent file makes `test -f` exit non-zero, so the check call fails
   * and its message is reported; a check that succeeds without printing
   * the marker reports the missing manifest instead.
   */
  lemma StartNeedsManifest(shell: (Cmd, nat) -> Outcome, parse: string -> Result<Manifest>, n: nat, name: string)
    requires var o := shell(CheckManifest(AppPath(name)), n); o.Failed? || !Contains(o.stdout, ExistsMarker)
    ensures var o := shell(CheckManifest(AppPath(name)), n);
      var s := StartFrom(shell, parse, n, name);
      s.result == Err(StartPrefix + (if o.Failed? then o.message else NoManifestMessage))
      && s.registered.None? && s.calls == [CheckManifest(AppPath(name))]
  {
  }

  /** A `pm2 save` that fails after a successful `pm2 start` fails the start, yet the process stays registered. */
  lemma SaveFailureKeepsProcess(shell: (Cmd, nat) -> Outcome, k: nat, app: string, pm2: string)
    requires shell(LaunchCall(app, pm2), k).Done? && shell(SaveCall, k + 1).Failed?
    ensures Launch(shell, k, app, pm2) == StartRun(Err(StartPrefix + shell(SaveCall, k + 1).message), Some(pm2), [LaunchCall(app, pm2), SaveCall])
  {
  }

  /** A started app was registered under the site's name, and registered with the command the priority rule picks. */
  lemma StartRegisters(shell: (Cmd, nat) -> Outcome, parse: string -> Result<Manifest>, n: nat, name: string)
    ensures var s := StartFrom(shell, parse, n, name);
      var app := AppPath(name);
      var (p, _) := Prepare(shell, parse, n, app);
      (s.result.Ok? ==> s.registered.Some? && p.Ok?)
      && (s.registered.Some? ==>
            p.Ok? && StartCommand(p.value, Resolve(shell, n + 3, app, p.value).0).Some?
            && s.registered.value == Pm2Command(app, name, StartCommand(p.value, Resolve(shell, n + 3, app, p.value).0).value))
  {
  }

  /** The start-command priority: the start script, then `main`, then the first entry file that exists. */
  lemma StartCommandPriority(shell: (Cmd, nat) -> Outcome, n: nat, app: string, manifest: Manifest)
    ensures var (entry, probes) := Resolve(shell, n, app, manifest);
      var sc := StartCommand(manifest, entry);
      (manifest.hasStartScript ==> sc == Some(NpmStart) && probes == 0)
      && (!manifest.hasStartScript && manifest.main != "" ==> sc == Some(manifest.main) && probes == 0)
      && (!manifest.hasStartScript && manifest.main == "" ==>
           (sc.None? <==> AllProbesFail(shell, n, app, EntryPoints))
           && (sc.Some? ==> sc.value in EntryPoints && shell(ProbeEntry(app, sc.value), n + probes - 1).Done?))
  {
    if !manifest.hasStartScript && manifest.main == "" {
      FirstEntryMeaning(shell, n, app, EntryPoints);
    }
  }

  /** The error of `stop` for a failed pm2 call: none when the message mentions `not found`. */
  function StopError(message: string): (r: Result<()>)
    ensures r.Ok? <==> Contains(message, "not found")
    ensures r.Err? ==> r.error == StopPrefix + message
  {
    if Contains(message, "not found") then Ok(()) else Err(StopPrefix + message)
  }

  /**
   * `stop`: `pm2 delete <name>` then `pm2 save`; a failure whose message
   * contains `not found` counts as success. Only a successful delete removes
   * the process.
   */
  method Stop(h: Host, name: string) returns (r: Result<()>)
    modifies h`log, h`processes
    ensures var n := |old(h.log)|;
      match h.shell(DeleteCall(name), n)
      case Failed(m) => r == StopError(m) && h.log == old(h.log) + [DeleteCall(name)] && h.processes == old(h.processes)
      case Done(_, _) =>
        h.log == old(h.log) + [DeleteCall(name), SaveCall] && h.processes == old(h.processes) - {name}
        && r == match h.shell(SaveCall, n + 1) case Done(_, _) => Ok(()) case Failed(m) => StopError(m)
  {
    var o := h.Exec(DeleteCall(name));
    if o.Failed? {
      return StopError(o.message);
    }
    h.processes := h.processes - {name};
    o := h.Exec(SaveCall);
    r := if o.Failed? then StopError(o.message) else Ok(());
  }
}

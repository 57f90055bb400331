/**
 * The Python service: prepare a virtualenv, install requirements, guess the
 * framework from the sources, and run the app under pm2 under the site's
 * name, bound to 127.0.0.1 on the site's port.
 */
module Python {
  import opened Text
  import opened World

  const StartPrefix := "Failed to start Python app: "
  const StopPrefix := "Failed to stop Python app: "

  datatype Framework = Django | Flask | FastApi

  function AppPath(name: string): string { "/var/www/" + name }
  function VenvPath(app: string): string { app + "/venv" }
  function RequirementsPath(app: string): string { app + "/requirements.txt" }

  function Chown(app: string): Cmd { Run("chown -R www-data:www-data " + app) }
  function MakeVenv(app: string): Cmd { RunAs("test -d " + VenvPath(app) + " || python3 -m venv " + VenvPath(app)) }
  function InstallRequirements(app: string): Cmd {
    RunAs("test -f " + RequirementsPath(app) + " && " + VenvPath(app) + "/bin/pip install -r " + RequirementsPath(app))
  }
  function GrepDjango(app: string): Cmd { Run("grep -l \"django\\|Django\" " + app + "/*.py 2>/dev/null || echo \"\"") }
  function GrepFlask(app: string): Cmd { Run("grep -l \"flask\\|Flask\" " + app + "/*.py 2>/dev/null || echo \"\"") }
  function LaunchCall(app: string, name: string, startCommand: string): Cmd {
    RunAs("cd " + app + " && pm2 start \"" + startCommand + "\" --name " + name)
  }
  const SaveCall: Cmd := RunAs("pm2 save")
  function DeleteCall(name: string): Cmd { RunAs("pm2 delete " + name) }

  /**
   * `detectFramework`: a grep for django, then one for flask; a grep that
   * prints anything picks its framework, and a failing call gives fastapi.
   */
  function Detect(shell: (Cmd, nat) -> Outcome, k: nat, app: string): (r: (Framework, seq<Cmd>))
    ensures r.0 == Django <==> shell(GrepDjango(app), k).Done? && shell(GrepDjango(app), k).stdout != []
    ensures r.0 == Flask <==>
      shell(GrepDjango(app), k).Done? && shell(GrepDjango(app), k).stdout == []
      && shell(GrepFlask(app), k + 1).Done? && shell(GrepFlask(app), k + 1).stdout != []
    ensures r.1 == if shell(GrepDjango(app), k).Done? && shell(GrepDjango(app), k).stdout == []
      then [GrepDjango(app), GrepFlask(app)] else [GrepDjango(app)]
  {
    match shell(GrepDjango(app), k)
    case Failed(_) => (FastApi, [GrepDjango(app)])
    case Done(out, _) =>
      if out != [] then (Django, [GrepDjango(app)])
      else match shell(GrepFlask(app), k + 1)
        case Failed(_) => (FastApi, [GrepDjango(app), GrepFlask(app)])
        case Done(out2, _) => (if out2 != [] then Flask else FastApi, [GrepDjango(app), GrepFlask(app)])
  }

  /** A shell in which `… || echo ""` always succeeds and prints at least the newline. */
  predicate EchoesFallback(shell: (Cmd, nat) -> Outcome, app: string, k: nat) {
    shell(GrepDjango(app), k).Done? && shell(GrepDjango(app), k).stdout != []
  }

  /**
   * Because the django grep ends in `|| echo ""`, its output is never empty
   * when it runs, so django is chosen whatever the sources contain.
   */
  lemma DetectAlwaysDjango(shell: (Cmd, nat) -> Outcome, k: nat, app: string)
    requires EchoesFallback(shell, app, k)
    ensures Detect(shell, k, app).0 == Django && Detect(shell, k, app).1 == [GrepDjango(app)]
  {
  }

  /** The bind address of the gunicorn launches. */
  function Bind(port: Option<nat>): string { "--bind 127.0.0.1:" + PortText(port) }

  const GunicornOptions := " --workers 2 --timeout 300 "

  /** A gunicorn launch of the WSGI callable `callable`. */
  function Gunicorn(venv: string, port: Option<nat>, callable: string): string {
    venv + "/bin/gunicorn " + Bind(port) + GunicornOptions + callable
  }

  const UvicornApp := "main:app "

  /** The host and port options of the uvicorn launch. */
  function UvicornListen(port: Option<nat>): string { "--host 127.0.0.1 --port " + PortText(port) }

  /** The launch command for a framework. */
  function LaunchCommand(framework: Framework, app: string, port: Option<nat>): string {
    var venv := VenvPath(app);
    match framework
    case Django => Gunicorn(venv, port, "wsgi:application")
    case Flask => Gunicorn(venv, port, "app:app")
    case FastApi => venv + "/bin/uvicorn " + UvicornApp + UvicornListen(port) + " --workers 2"
  }

  /** A gunicorn launch binds 127.0.0.1 at the port and serves the callable it names. */
  lemma GunicornServes(venv: string, port: Option<nat>, callable: string)
    ensures Contains(Gunicorn(venv, port, callable), Bind(port))
    ensures Contains(Gunicorn(venv, port, callable), callable)
  {
    ContainsSecond(venv + "/bin/gunicorn ", Bind(port), GunicornOptions, callable);
    ContainsSuffix(venv + "/bin/gunicorn " + Bind(port) + GunicornOptions, callable);
  }

  /** Every launch command serves on 127.0.0.1 at the site's port, with the framework's entry point. */
  lemma LaunchCommandBinds(framework: Framework, app: string, port: Option<nat>)
    ensures var c := LaunchCommand(framework, app, port);
      (framework != FastApi ==> Contains(c, Bind(port)))
      && (framework == FastApi ==> Contains(c, UvicornListen(port)) && Contains(c, UvicornApp))
      && (framework == Django ==> Contains(c, "wsgi:application"))
      && (framework == Flask ==> Contains(c, "app:app"))
  {
    var venv := VenvPath(app);
    match framework
    case Django => GunicornServes(venv, port, "wsgi:application");
    case Flask => GunicornServes(venv, port, "app:app");
    case FastApi =>
      ContainsSecond(venv + "/bin/uvicorn ", UvicornApp, UvicornListen(port), " --workers 2");
      ContainsInfix(venv + "/bin/uvicorn " + UvicornApp, UvicornListen(port), " --workers 2");
  }

  /** The first three steps of `start`: ownership, virtualenv, requirements. */
  function Prepare(shell: (Cmd, nat) -> Outcome, n: nat, app: string): (r: (Option<string>, seq<Cmd>))
    ensures r.0.None? ==> r.1 == [Chown(app), MakeVenv(app), InstallRequirements(app)]
  {
    var c0, c1, c2 := Chown(app), MakeVenv(app), InstallRequirements(app);
    match shell(c0, n)
    case Failed(m) => (Some(StartPrefix + m), [c0])
    case Done(_, _) =>
      match shell(c1, n + 1)
      case Failed(m) => (Some(StartPrefix + m), [c0, c1])
      case Done(_, _) =>
        match shell(c2, n + 2)
        case Failed(m) => (Some(StartPrefix + m), [c0, c1, c2])
        case Done(_, _) => (None, [c0, c1, c2])
  }

  /** `pm2 start` of the launch command, then `pm2 save`, from log position `k`. */
  function Launch(shell: (Cmd, nat) -> Outcome, k: nat, app: string, name: string, startCommand: string): StartRun {
    var c := LaunchCall(app, name, startCommand);
    match shell(c, k)
    case Failed(m) => StartRun(Err(StartPrefix + m), None, [c])
    case Done(_, _) =>
      var registered := Some(c.cmd);
      match shell(SaveCall, k + 1)
      case Failed(m) => StartRun(Err(StartPrefix + m), registered, [c, SaveCall])
      case Done(_, _) => StartRun(Ok(()), registered, [c, SaveCall])
  }

  /** `start` from the framework detection on, from log position `k`. */
  function Proceed(shell: (Cmd, nat) -> Outcome, k: nat, app: string, name: string, port: Option<nat>): StartRun {
    var (framework, greps) := Detect(shell, k, app);
    var l := Launch(shell, k + |greps|, app, name, LaunchCommand(framework, app, port));
    StartRun(l.result, l.registered, greps + l.calls)
  }

  /** What `start` does for a site when its calls start at log position `n`. */
  function StartFrom(shell: (Cmd, nat) -> Outcome, n: nat, name: string, port: Option<nat>): StartRun {
    var app := AppPath(name);
    var (err, calls) := Prepare(shell, n, app);
    if err.Some? then StartRun(Err(err.value), None, calls)
    else
      var p := Proceed(shell, n + 3, app, name, port);
      StartRun(p.result, p.registered, calls + p.calls)
  }

  /** The first three steps of `start`. */
  method RunPrepare(h: Host, app: string) returns (err: Option<string>)
    modifies h`log
    ensures var (e, calls) := Prepare(h.shell, |old(h.log)|, app);
      err == e && h.log == old(h.log) + calls
  {
    var o := h.Exec(Chown(app));
    if o.Failed? {
      return Some(StartPrefix + o.message);
    }
    o := h.Exec(MakeVenv(app));
    if o.Failed? {
      return Some(StartPrefix + o.message);
    }
    o := h.Exec(InstallRequirements(app));
    if o.Failed? {
      return Some(StartPrefix + o.message);
    }
    return None;
  }

  /** `detectFramework`. */
  method DetectFramework(h: Host, app: string) returns (framework: Framework)
    modifies h`log
    ensures var (f, calls) := Detect(h.shell, |old(h.log)|, app);
      framework == f && h.log == old(h.log) + calls
  {
    var o := h.Exec(GrepDjango(app));
    if o.Failed? {
      return FastApi;
    }
    if o.stdout != [] {
      return Django;
    }
    o := h.Exec(GrepFlask(app));
    if o.Failed? {
      return FastApi;
    }
    return if o.stdout != [] then Flask else FastApi;
  }

  /** `pm2 start`, registering the process, then `pm2 save`. */
  method RunLaunch(h: Host, app: string, name: string, startCommand: string) returns (r: Result<()>)
    modifies h`log, h`processes
    ensures var l := Launch(h.shell, |old(h.log)|, app, name, startCommand);
      r == l.result && h.log == old(h.log) + l.calls && h.processes == Register(old(h.processes), name, l.registered)
  {
    var c := LaunchCall(app, name, startCommand);
    var o := h.Exec(c);
    if o.Failed? {
      return Err(StartPrefix + o.message);
    }
    h.processes := h.processes[name := c.cmd];
    o := h.Exec(SaveCall);
    r := if o.Failed? then Err(StartPrefix + o.message) else Ok(());
  }

  /** `start`: the calls, their order and the result are those of `StartFrom`. */
  method Start(h: Host, name: string, port: Option<nat>) returns (r: Result<()>)
    modifies h`log, h`processes
    ensures var s := StartFrom(h.shell, |old(h.log)|, name, port);
      r == s.result && h.log == old(h.log) + s.calls && h.processes == Register(old(h.processes), name, s.registered)
  {
    var app := AppPath(name);
    var err := RunPrepare(h, app);
    if err.Some? {
      return Err(err.value);
    }
    ghost var log0, log1 := old(h.log), h.log;
    r := RunProceed(h, app, name, port);
    AppendAssoc(log0, log1[|log0|..], h.log[|log1|..]);
  }

  /** `start` from the framework detection on. */
  method RunProceed(h: Host, app: string, name: string, port: Option<nat>) returns (r: Result<()>)
    modifies h`log, h`processes
    ensures var p := Proceed(h.shell, |old(h.log)|, app, name, port);
      r == p.result && h.log == old(h.log) + p.calls && h.processes == Register(old(h.processes), name, p.registered)
  {
    ghost var log0 := h.log;
    var framework := DetectFramework(h, app);
    ghost var log1 := h.log;
    r := RunLaunch(h, app, name, LaunchCommand(framework, app, port));
    AppendAssoc(log0, log1[|log0|..], h.log[|log1|..]);
  }

  /** Every failure of `start` carries the same prefix. */
  lemma StartErrorsPrefixed(shell: (Cmd, nat) -> Outcome, n: nat, name: string, port: Option<nat>)
    ensures var s := StartFrom(shell, n, name, port);
      s.result.Err? ==> StartsWith(s.result.error, StartPrefix)
  {
  }

  /**
   * The requirements step is `test -f … && pip install …`: when it fails,
   * for instance because there is no `requirements.txt`, start fails and
   * nothing is registered.
   */
  lemma RequirementsFailureFailsStart(shell: (Cmd, nat) -> Outcome, n: nat, name: string, port: Option<nat>)
    requires shell(Chown(AppPath(name)), n).Done? && shell(MakeVenv(AppPath(name)), n + 1).Done?
    requires shell(InstallRequirements(AppPath(name)), n + 2).Failed?
    ensures var s := StartFrom(shell, n, name, port);
      s.result == Err(StartPrefix + shell(InstallRequirements(AppPath(name)), n + 2).message)
      && s.registered.None? && |s.calls| == 3
  {
  }

  /** A `pm2 save` that fails after a successful `pm2 start` fails the start, yet the process stays registered. */
  lemma SaveFailureKeepsProcess(shell: (Cmd, nat) -> Outcome, k: nat, app: string, name: string, startCommand: string)
    requires shell(LaunchCall(app, name, startCommand), k).Done? && shell(SaveCall, k + 1).Failed?
    ensures var c := LaunchCall(app, name, startCommand);
      Launch(shell, k, app, name, startCommand) == StartRun(Err(StartPrefix + shell(SaveCall, k + 1).message), Some(c.cmd), [c, SaveCall])
  {
  }

  /** A started app is registered under the site's name with the launch command of the detected framework. */
  lemma StartRegisters(shell: (Cmd, nat) -> Outcome, n: nat, name: string, port: Option<nat>)
    ensures var s := StartFrom(shell, n, name, port);
      var app := AppPath(name);
      (s.result.Ok? ==> s.registered.Some?)
      && (s.registered.Some? ==>
            Prepare(shell, n, app).0.None?
            && s.registered == Some(LaunchCall(app, name, LaunchCommand(Detect(shell, n + 3, app).0, app, port)).cmd))
  {
  }

  /** With the `|| echo ""` fallback honoured, every started Python app is launched as django. */
  lemma StartAlwaysDjango(shell: (Cmd, nat) -> Outcome, n: nat, name: string, port: Option<nat>)
    requires EchoesFallback(shell, AppPath(name), n + 3)
    ensures var s := StartFrom(shell, n, name, port);
      var app := AppPath(name);
      s.registered.Some? ==> s.registered == Some(LaunchCall(app, name, LaunchCommand(Django, app, port)).cmd)
  {
  }

  /** `stop` tolerates a failure that mentions `not found` or `doesn't exist`. */
  function StopError(message: string): (r: Result<()>)
    ensures r.Ok? <==> Contains(message, "not found") || Contains(message, "doesn't exist")
    ensures r.Err? ==> r.error == StopPrefix + message
  {
    if Contains(message, "not found") || Contains(message, "doesn't exist") then Ok(()) else Err(StopPrefix + message)
  }

  /** `stop`: `pm2 delete <name>` then `pm2 save`; only a successful delete removes the process. */
  method Stop(h: Host, name: string) returns (r: Result<()>)
    modifies h`log, h`processes
    ensures var n := |old(h.log)|;
      match h.shell(DeleteCall(name), n)
      case Failed(m) => r == StopError(m) && h.log == old(h.log) + [DeleteCall(name)] && h.processes == old(h.processes)
      case Done(_, _) =>
        h.log == old(h.log) + [DeleteCall(name), SaveCall] && h.processes == old(h.processes) - {name}
        && r == match h.shell(SaveCall, n + 1) case Done(_, _) => Ok(()) case Failed(m) => StopError(m)
  {
    var o := h.Exec(DeleteCall(name));
    if o.Failed? {
      return StopError(o.message);
    }
    h.processes := h.processes - {name};
    o := h.Exec(SaveCall);
    r := if o.Failed? then StopError(o.message) else Ok(());
  }
}

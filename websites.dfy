/**
 * The website routes: a table of website rows driven through create, start,
 * stop, restart and delete, each handler validating its input, calling the
 * nginx, php-fpm, Node.js and Python services and updating the row.
 */
module Websites {
  import opened Text
  import opened World
  import Validation
  import Nginx
  import PhpFpm
  import NodeJs
  import Python

  /** The `status` column. */
  datatype Status = Running | Stopped

  /** One row of the `websites` table. */
  datatype Website = Website(
    id: nat, name: string, domain: string, runtime: Runtime,
    phpVersion: Option<string>, port: Option<nat>, status: Status)

  /** The fields of a create request; an absent field is `None`. */
  datatype WebsiteInput = WebsiteInput(
    name: Option<string>, domain: Option<string>, runtime: Option<string>, phpVersion: Option<string>)

  /** The body of a reply: an error, a message, or the id of a created site with a message. */
  datatype Body = Error(error: string) | Message(message: string) | Created(id: nat, message: string)

  datatype Reply = Reply(code: nat, body: Body)

  /** A field JavaScript treats as true: present and not the empty string. */
  predicate Truthy(field: Option<string>) { field.Some? && field.value != [] }

  const NameCharsMessage := "Website name must contain only alphanumeric characters, dashes, and underscores"
  const NameLengthMessage := "Website name must be between 2 and 50 characters"
  const DomainMessage := "Invalid domain format"
  const DomainLengthMessage := "Domain too long (max 255 characters)"
  const RuntimeMessage := "Invalid runtime. Must be php, nodejs, or python"
  const PhpVersionMessage := "Invalid PHP version. Must be 7.4, 8.0, 8.1, or 8.2"

  /** `/^[a-zA-Z0-9_-]+$/` on a present name. */
  predicate NameCharsOk(name: Option<string>) {
    Truthy(name) && AllChars(name.value, IsNameChar)
  }

  /** The length check only applies to a present name. */
  predicate NameLengthBad(name: Option<string>) {
    Truthy(name) && !(2 <= |name.value| <= 50)
  }

  /** `[a-zA-Z0-9][a-zA-Z0-9-]*`. */
  predicate IsRouteLabel(s: string) {
    s != [] && IsAlnum(s[0]) && AllChars(s, Validation.IsLabelChar)
  }

  /**
   * `/^label(\.label)*\.[a-zA-Z]{2,}$/`: split at the dots, at least two
   * parts, labels first, and a last part of two or more letters.
   */
  predicate IsRouteDomain(domain: string) {
    var parts := Split(domain, '.');
    |parts| >= 2 && 2 <= |parts[|parts| - 1]| && AllChars(parts[|parts| - 1], IsLetter)
    && forall i | 0 <= i < |parts| - 1 :: IsRouteLabel(parts[i])
  }

  predicate DomainOk(domain: Option<string>) {
    Truthy(domain) && IsRouteDomain(domain.value)
  }

  predicate DomainLengthBad(domain: Option<string>) {
    Truthy(domain) && |domain.value| > 255
  }

  /** The runtime named by a request, if it is one of the three. */
  function ParseRuntime(runtime: Option<string>): (r: Option<Runtime>)
    ensures r.Some? <==> runtime.Some? && runtime.value in ["php", "nodejs", "python"]
  {
    if runtime == Some("php") then Some(Php)
    else if runtime == Some("nodejs") then Some(NodeJs)
    else if runtime == Some("python") then Some(Python)
    else None
  }

  predicate PhpVersionBad(phpVersion: Option<string>) {
    Truthy(phpVersion) && phpVersion.value !in PhpFpm.Versions
  }

  /** Every check of `validateWebsiteInput` passes. */
  predicate InputAccepted(data: WebsiteInput) {
    NameCharsOk(data.name) && !NameLengthBad(data.name)
    && DomainOk(data.domain) && !DomainLengthBad(data.domain)
    && ParseRuntime(data.runtime).Some? && !PhpVersionBad(data.phpVersion)
  }

  /** `errors.push(message)` when a check failed. */
  function Push(errors: seq<string>, failed: bool, message: string): (r: seq<string>)
    ensures r == [] <==> errors == [] && !failed
    ensures forall x :: x in r <==> x in errors || (failed && x == message)
  {
    if failed then errors + [message] else errors
  }

  /** The messages of the failed checks, in the order the checks run. */
  function ValidationErrors(data: WebsiteInput): seq<string> {
    var e1 := Push([], !NameCharsOk(data.name), NameCharsMessage);
    var e2 := Push(e1, NameLengthBad(data.name), NameLengthMessage);
    var e3 := Push(e2, !DomainOk(data.domain), DomainMessage);
    var e4 := Push(e3, DomainLengthBad(data.domain), DomainLengthMessage);
    var e5 := Push(e4, ParseRuntime(data.runtime).None?, RuntimeMessage);
    Push(e5, PhpVersionBad(data.phpVersion), PhpVersionMessage)
  }

  /** A request is refused exactly when one of its checks fails, and each message names its failed check. */
  lemma ValidationErrorsMeaning(data: WebsiteInput)
    ensures var errors := ValidationErrors(data);
      (errors == [] <==> InputAccepted(data))
      && (NameCharsMessage in errors <==> !NameCharsOk(data.name))
      && (NameLengthMessage in errors <==> NameLengthBad(data.name))
      && (DomainMessage in errors <==> !DomainOk(data.domain))
      && (DomainLengthMessage in errors <==> DomainLengthBad(data.domain))
      && (RuntimeMessage in errors <==> ParseRuntime(data.runtime).None?)
      && (PhpVersionMessage in errors <==> PhpVersionBad(data.phpVersion))
  {
    MessagesDistinct();
    PushSix(!NameCharsOk(data.name), NameLengthBad(data.name), !DomainOk(data.domain),
      DomainLengthBad(data.domain), ParseRuntime(data.runtime).None?, PhpVersionBad(data.phpVersion),
      NameCharsMessage, NameLengthMessage, DomainMessage, DomainLengthMessage, RuntimeMessage, PhpVersionMessage);
  }

  /** Six pushes of distinct messages: the list is empty when nothing failed, and holds each message exactly when its check failed. */
  lemma PushSix(f1: bool, f2: bool, f3: bool, f4: bool, f5: bool, f6: bool,
                m1: string, m2: string, m3: string, m4: string, m5: string, m6: string)
    requires var ms := [m1, m2, m3, m4, m5, m6]; forall i, j | 0 <= i < j < |ms| :: ms[i] != ms[j]
    ensures var e := Push(Push(Push(Push(Push(Push([], f1, m1), f2, m2), f3, m3), f4, m4), f5, m5), f6, m6);
      (e == [] <==> !f1 && !f2 && !f3 && !f4 && !f5 && !f6)
      && (m1 in e <==> f1) && (m2 in e <==> f2) && (m3 in e <==> f3)
      && (m4 in e <==> f4) && (m5 in e <==> f5) && (m6 in e <==> f6)
  {
    var ms := [m1, m2, m3, m4, m5, m6];
    assert m1 == ms[0] && m2 == ms[1] && m3 == ms[2] && m4 == ms[3] && m5 == ms[4] && m6 == ms[5];
  }

  /** The six messages differ (they have different lengths). */
  lemma MessagesDistinct()
    ensures var ms := [NameCharsMessage, NameLengthMessage, DomainMessage, DomainLengthMessage, RuntimeMessage, PhpVersionMessage];
      forall i, j | 0 <= i < j < |ms| :: ms[i] != ms[j]
  {
    assert |NameCharsMessage| == 79 && |NameLengthMessage| == 48 && |DomainMessage| == 21;
    assert |DomainLengthMessage| == 36 && |RuntimeMessage| == 47 && |PhpVersionMessage| == 50;
  }

  /** `validateWebsiteInput`: push the message of every failed check. */
  method ValidateWebsiteInput(data: WebsiteInput) returns (errors: seq<string>)
    ensures errors == ValidationErrors(data)
  {
    errors := [];
    if !NameCharsOk(data.name) {
      errors := errors + [NameCharsMessage];
    }
    assert errors == Push([], !NameCharsOk(data.name), NameCharsMessage);
    ghost var e := errors;
    if NameLengthBad(data.name) {
      errors := errors + [NameLengthMessage];
    }
    assert errors == Push(e, NameLengthBad(data.name), NameLengthMessage);
    e := errors;
    if !DomainOk(data.domain) {
      errors := errors + [DomainMessage];
    }
    assert errors == Push(e, !DomainOk(data.domain), DomainMessage);
    e := errors;
    if DomainLengthBad(data.domain) {
      errors := errors + [DomainLengthMessage];
    }
    assert errors == Push(e, DomainLengthBad(data.domain), DomainLengthMessage);
    e := errors;
    if ParseRuntime(data.runtime).None? {
      errors := errors + [RuntimeMessage];
    }
    assert errors == Push(e, ParseRuntime(data.runtime).None?, RuntimeMessage);
    e := errors;
    if PhpVersionBad(data.phpVersion) {
      errors := errors + [PhpVersionMessage];
    }
    assert errors == Push(e, PhpVersionBad(data.phpVersion), PhpVersionMessage);
  }

  const FirstPort: nat := 3000
  const LastPort: nat := 65535

  /**
   * `allocatePort`: the least port from 3000 on that no row holds, or none
   * once the count passes 65535.
   */
  method AllocatePort(used: set<nat>) returns (port: Option<nat>)
    ensures port.Some? ==> FirstPort <= port.value <= LastPort && port.value !in used
    ensures port.Some? ==> forall q | FirstPort <= q < port.value :: q in used
    ensures port.None? <==> forall q | FirstPort <= q <= LastPort :: q in used
  {
    var p := FirstPort;
    while p in used
      invariant FirstPort <= p <= LastPort
      invariant forall q | FirstPort <= q < p :: q in used
      decreases LastPort - p
    {
      p := p + 1;
      if p > LastPort {
        return None;
      }
    }
    return Some(p);
  }

  /** The ports of the rows that have one. */
  function UsedPorts(sites: map<nat, Website>): set<nat> {
    set id | id in sites && sites[id].port.Some? :: sites[id].port.value
  }

  /** The version a php site's pool gets: the requested one, or 8.2. */
  function PoolVersion(phpVersion: Option<string>): string {
    if Truthy(phpVersion) then phpVersion.value else PhpFpm.DefaultVersion
  }

  /** The two name checks disagree: `ab` passes the route and fails the shared validator. */
  lemma NameCheckShortDisagreement()
    ensures NameCharsOk(Some("ab")) && !NameLengthBad(Some("ab")) && !Validation.IsValidWebsiteName("ab")
  {
  }

  /** Names of 51 to 63 allowed characters pass the shared validator and fail the route. */
  lemma NameCheckLongDisagreement(name: string)
    requires 51 <= |name| <= 63 && AllChars(name, IsNameChar)
    ensures Validation.IsValidWebsiteName(name) && NameLengthBad(Some(name))
  {
  }

  /**
   * A name the route accepts is already clean, so the pool `createPool`
   * writes under the sanitised name is the one `removePool` deletes.
   */
  lemma AcceptedNamePoolRemovable(name: string, version: string)
    requires NameCharsOk(Some(name)) && version in PhpFpm.Versions
    ensures PhpFpm.PoolKeyOf(name, version) == PoolKey(version, name)
    ensures PhpFpm.PoolKeyOf(name, version) in PhpFpm.PoolKeysOf(name, PhpFpm.Versions)
  {
    PhpFpm.SanitizeIdentity(name);
  }

  /**
   * The socket nginx forwards a php site to is the one its pool listens on
   * exactly when a version was given: without one nginx renders `undefined`
   * (or the empty string) while the pool gets 8.2.
   */
  lemma PhpSocketsAgree(name: string, phpVersion: Option<string>)
    requires NameCharsOk(Some(name))
    ensures Nginx.FastcgiSocket(Nginx.VersionText(phpVersion), name)
      == PhpFpm.ListenSocket(PoolVersion(phpVersion), PhpFpm.SanitizeName(name))
      <==> Truthy(phpVersion)
  {
    PhpFpm.SanitizeIdentity(name);
    var a := Nginx.FastcgiSocket(Nginx.VersionText(phpVersion), name);
    var b := PhpFpm.ListenSocket(PoolVersion(phpVersion), name);
    if !Truthy(phpVersion) {
      assert b[12] == '8';
      if phpVersion.None? {
        assert a[12] == 'u';
      } else {
        assert a[12] == '-';
      }
      Nginx.DiffersAt(a, b, 12);
    }
  }

  const NotFoundMessage := "Website not found"

  /** The document root of a site. */
  function SiteDir(name: string): string { "/var/www/" + name }

  function MakeDir(name: string): Cmd { Run("mkdir -p " + SiteDir(name)) }
  function ChownDir(name: string): Cmd { Run("chown www-data:www-data " + SiteDir(name)) }

  /** A row as the table holds it: a clean name, a port exactly for proxied runtimes, a known PHP version. */
  predicate RowOk(w: Website) {
    NameCharsOk(Some(w.name)) && 2 <= |w.name| <= 50
    && (w.runtime == Php <==> w.port.None?)
    && (w.port.Some? ==> FirstPort <= w.port.value <= LastPort)
    && (w.phpVersion.Some? ==> w.phpVersion.value in PhpFpm.Versions)
  }

  /** Some row already has this name. */
  predicate NameTaken(sites: map<nat, Website>, name: string) {
    exists id | id in sites :: sites[id].name == name
  }

  /** Every port from 3000 to 65535 is held by a row. */
  predicate PortsExhausted(sites: map<nat, Website>) {
    forall q | FirstPort <= q <= LastPort :: q in UsedPorts(sites)
  }

  /** `port` is what `allocatePort` returns for these rows. */
  predicate LeastFreePort(sites: map<nat, Website>, port: nat) {
    FirstPort <= port <= LastPort && port !in UsedPorts(sites)
    && forall q | FirstPort <= q < port :: q in UsedPorts(sites)
  }

  /** Whether the calls that provision a new site all succeed when they start at log position `n`. */
  function ProvisionOk(shell: (Cmd, nat) -> Outcome, n: nat, name: string, runtime: Runtime,
                       phpVersion: Option<string>, linked: bool): bool
  {
    shell(MakeDir(name), n).Done? && shell(ChownDir(name), n + 1).Done?
    && FirstError(Nginx.VhostErrors(shell, n + 2, name, linked)).None?
    && (runtime == Php ==> PhpFpm.PoolError(shell, n + 6, name, PoolVersion(phpVersion)).None?)
  }

  /** The calls of a pool step that succeeds: the pool file of `php_version || '8.2'`, then its daemon's reload. */
  function PoolSteps(name: string, phpVersion: Option<string>): seq<Cmd> {
    var version := PoolVersion(phpVersion);
    [WriteFile(PhpFpm.PoolPath(PhpFpm.PoolKeyOf(name, version))), Run(PhpFpm.ReloadCommand(version))]
  }

  /** The calls of a create whose host steps all succeed: directory, vhost, and for php the pool. */
  function CreatedCalls(name: string, runtime: Runtime, phpVersion: Option<string>): seq<Cmd> {
    [MakeDir(name), ChownDir(name)] + Nginx.VhostSteps(name) + (if runtime == Php then PoolSteps(name, phpVersion) else [])
  }

  /**
   * The start call for a row's runtime when its calls start at log position
   * `n`: its result, the process it registers and its calls. The php pool
   * registers no process.
   */
  function RuntimeStartRun(shell: (Cmd, nat) -> Outcome, parse: string -> Result<Manifest>, n: nat, w: Website): StartRun {
    match w.runtime
    case NodeJs => NodeJs.StartFrom(shell, parse, n, w.name)
    case Python => Python.StartFrom(shell, n, w.name, w.port)
    case Php =>
      var version := PoolVersion(w.phpVersion);
      var result := match PhpFpm.PoolError(shell, n, w.name, version) case None => Ok(()) case Some(m) => Err(m);
      StartRun(result, None, PhpFpm.PoolCalls(shell, n, w.name, version))
  }

  /** The result of the start call for a row's runtime when its calls start at log position `n`. */
  function RuntimeStart(shell: (Cmd, nat) -> Outcome, parse: string -> Result<Manifest>, n: nat, w: Website): Result<()> {
    RuntimeStartRun(shell, parse, n, w).result
  }

  /** A node or python start that succeeded registered a process; the php pool never does. */
  lemma StartedRegisters(shell: (Cmd, nat) -> Outcome, parse: string -> Result<Manifest>, n: nat, w: Website)
    ensures var s := RuntimeStartRun(shell, parse, n, w);
      (w.runtime != Php && s.result.Ok? ==> s.registered.Some?) && (w.runtime == Php ==> s.registered.None?)
  {
    match w.runtime
    case NodeJs => NodeJs.StartRegisters(shell, parse, n, w.name);
    case Python => Python.StartRegisters(shell, n, w.name, w.port);
    case Php =>
  }

  /** The result and the calls of the stop call for a row's runtime; php makes none. */
  function RuntimeStop(shell: (Cmd, nat) -> Outcome, n: nat, w: Website): (Result<()>, seq<Cmd>) {
    var delete, save := NodeJs.DeleteCall(w.name), NodeJs.SaveCall;
    match w.runtime
    case Php => (Ok(()), [])
    case NodeJs =>
      (match shell(delete, n)
       case Failed(m) => (NodeJs.StopError(m), [delete])
       case Done(_, _) =>
         (match shell(save, n + 1) case Done(_, _) => Ok(()) case Failed(m) => NodeJs.StopError(m), [delete, save]))
    case Python =>
      (match shell(delete, n)
       case Failed(m) => (Python.StopError(m), [delete])
       case Done(_, _) =>
         (match shell(save, n + 1) case Done(_, _) => Ok(()) case Failed(m) => Python.StopError(m), [delete, save]))
  }

  /** The process table after the stop of a row's runtime: `pm2 delete` drops the process when it succeeds; php has none. */
  function StoppedProcesses(shell: (Cmd, nat) -> Outcome, n: nat, w: Website, processes: map<string, string>): map<string, string> {
    if w.runtime != Php && shell(NodeJs.DeleteCall(w.name), n).Done? then processes - {w.name} else processes
  }

  /**
   * What restart does from `log0` and `processes0`, given whether it
   * succeeded, the log and process table it leaves, and the log position
   * `mid` where the stop's calls end: php reloads the 8.2 daemon
   * (`reloadPool(name)` with no version); node and python stop, and unless
   * the stop failed start again from `mid`. `pm2 delete` drops the site's
   * process when it succeeds, and the start may register it again.
   */
  ghost predicate Restarted(shell: (Cmd, nat) -> Outcome, parse: string -> Result<Manifest>, w: Website,
                            log0: seq<Cmd>, processes0: map<string, string>, mid: nat,
                            ok: bool, log: seq<Cmd>, processes: map<string, string>) {
    var n := |log0|;
    if w.runtime == Php then
      var reload := Run(PhpFpm.ReloadCommand(PhpFpm.DefaultVersion));
      ok == shell(reload, n).Done? && log == log0 + [reload] && processes == processes0
    else
      var stop := RuntimeStop(shell, n, w);
      var afterStop := StoppedProcesses(shell, n, w, processes0);
      mid == n + |stop.1|
      && if stop.0.Err? then !ok && log == log0 + stop.1 && processes == afterStop
      else
        var s := RuntimeStartRun(shell, parse, mid, w);
        ok == s.result.Ok? && log == log0 + stop.1 + s.calls && processes == Register(afterStop, w.name, s.registered)
  }

  /**
   * A node or python restart that succeeded leaves the site's process
   * registered, whether or not the row was running before; the row itself
   * is not touched.
   */
  lemma RestartRegisters(shell: (Cmd, nat) -> Outcome, parse: string -> Result<Manifest>, w: Website,
                         log0: seq<Cmd>, processes0: map<string, string>, mid: nat,
                         log: seq<Cmd>, processes: map<string, string>)
    requires w.runtime != Php
    requires Restarted(shell, parse, w, log0, processes0, mid, true, log, processes)
    ensures w.name in processes
  {
    StartedRegisters(shell, parse, mid, w);
  }

  /**
   * The calls of delete's teardown from log position `n`: the vhost's link
   * and file, the nginx reload, then, after a successful reload of a php
   * site, `removePool`'s calls.
   */
  function TeardownCalls(shell: (Cmd, nat) -> Outcome, n: nat, w: Website): seq<Cmd> {
    var vhost := [Unlink(Nginx.LinkPath(w.name)), Unlink(Nginx.ConfigPath(w.name)), Run(Nginx.ReloadCommand)];
    if w.runtime == Php && ErrorOf(shell(Run(Nginx.ReloadCommand), n + 2)).None?
    then vhost + PhpFpm.RemoveCalls(w.name, PhpFpm.Versions)
    else vhost
  }

  /** The calls of delete for a known row: the stop of a running site, then, unless it failed, the teardown. */
  function DeleteCalls(shell: (Cmd, nat) -> Outcome, n: nat, w: Website): seq<Cmd> {
    var (stopped, calls) := DeleteStop(shell, n, w);
    if stopped.Err? then calls else calls + TeardownCalls(shell, n + |calls|, w)
  }

  /** The stop that delete makes first: only for a running site. */
  function DeleteStop(shell: (Cmd, nat) -> Outcome, n: nat, w: Website): (Result<()>, seq<Cmd>) {
    if w.status == Running then RuntimeStop(shell, n, w) else (Ok(()), [])
  }

  /** Delete of a stopped row makes no stop call, so a process registered for it stays in the process table. */
  lemma DeleteSkipsStoppedRow(shell: (Cmd, nat) -> Outcome, n: nat, w: Website)
    requires w.status == Stopped
    ensures DeleteStop(shell, n, w) == (Ok(()), [])
  {
  }

  /** The pool step succeeded exactly when its calls did, and the pool file exists exactly then. */
  predicate PoolCreated(shell: (Cmd, nat) -> Outcome, n: nat, name: string, phpVersion: Option<string>,
                        before: set<PoolKey>, ok: bool, after: set<PoolKey>)
  {
    var key := PhpFpm.PoolKeyOf(name, PoolVersion(phpVersion));
    ok == PhpFpm.PoolError(shell, n, name, PoolVersion(phpVersion)).None?
    && after == if ok then before + {key} else before - {key}
  }

  const DuplicateMessage := "Website with this name already exists"
  const PortMessage := "Failed to allocate port"
  const CreateFailedMessage := "Failed to create website"
  const CreatedMessage := "Website created successfully"
  const StartedMessage := "Website started"
  const StartFailedMessage := "Failed to start website"
  const StoppedMessage := "Website stopped"
  const StopFailedMessage := "Failed to stop website"
  const RestartedMessage := "Website restarted"
  const RestartFailedMessage := "Failed to restart website"
  const DeletedMessage := "Website deleted successfully"
  const DeleteFailedMessage := "Failed to delete website"

  /** The reply create gives before touching anything: a rejected body, a taken name, or no free port. */
  function Refusal(data: WebsiteInput, sites: map<nat, Website>): Option<Reply> {
    if !InputAccepted(data) then Some(Reply(400, Error(Join(ValidationErrors(data), "; "))))
    else if NameTaken(sites, data.name.value) then Some(Reply(409, Error(DuplicateMessage)))
    else if ParseRuntime(data.runtime).value != Php && PortsExhausted(sites) then Some(Reply(500, Error(PortMessage)))
    else None
  }

  /** The row create inserts: status `stopped`, and `php_version || null`. */
  function NewRow(id: nat, data: WebsiteInput, port: Option<nat>): Website
    requires InputAccepted(data)
  {
    Website(id, data.name.value, data.domain.value, ParseRuntime(data.runtime).value,
            if Truthy(data.phpVersion) then data.phpVersion else None, port, Stopped)
  }

  /** The port of a new row: none for php, the least free one for the proxied runtimes. */
  predicate PortFor(sites: map<nat, Website>, runtime: Runtime, port: Option<nat>) {
    if runtime == Php then port.None? else port.Some? && LeastFreePort(sites, port.value)
  }

  /** An accepted request makes a row the table's invariant admits. */
  lemma AcceptedRowOk(id: nat, data: WebsiteInput, sites: map<nat, Website>, port: Option<nat>)
    requires InputAccepted(data) && PortFor(sites, ParseRuntime(data.runtime).value, port)
    ensures RowOk(NewRow(id, data, port))
  {
  }

  /** The result of delete when its calls start at log position `n`: the stop, then the nginx reload. */
  function DeleteResult(shell: (Cmd, nat) -> Outcome, n: nat, w: Website): Result<()> {
    var (stopped, calls) := DeleteStop(shell, n, w);
    if stopped.Err? then stopped
    else match ErrorOf(shell(Run(Nginx.ReloadCommand), n + |calls| + 2))
      case None => Ok(())
      case Some(m) => Err(m)
  }

  /**
   * The table's invariant: ids are keys below `nextId`, names are unique
   * (the `UNIQUE` column), no two rows share a port, and every row is one
   * that create could insert.
   */
  ghost predicate TableOk(sites: map<nat, Website>, nextId: nat) {
    (forall id | id in sites :: sites[id].id == id && id < nextId && RowOk(sites[id]))
    && (forall a, b | a in sites && b in sites && sites[a].name == sites[b].name :: a == b)
    && (forall a, b | a in sites && b in sites && sites[a].port.Some? && sites[a].port == sites[b].port :: a == b)
  }

  /** Changing a row's status keeps the table's invariant. */
  lemma StatusKeepsTable(sites: map<nat, Website>, nextId: nat, id: nat, status: Status)
    requires TableOk(sites, nextId) && id in sites
    ensures TableOk(sites[id := sites[id].(status := status)], nextId)
  {
  }

  /** The panel: the websites table over the host it manages. */
  class Panel {
    const host: Host
    /** The `websites` table by id. */
    var sites: map<nat, Website>
    /** The id the next inserted row gets. */
    var nextId: nat

    constructor (host: Host)
      ensures this.host == host && sites == map[] && nextId == 1
    {
      this.host := host;
      sites := map[];
      nextId := 1;
    }

    /**
     * The table's invariant: ids are keys below `nextId`, names are unique
     * (the `UNIQUE` column), no two rows share a port, and every row is one
     * that create could insert.
     */
    ghost predicate Valid()
      reads this
    {
      TableOk(sites, nextId)
    }

    /** The directory steps of create: `mkdir -p`, then `chown`. */
    method MakeSiteDir(name: string) returns (ok: bool)
      modifies host`log, host`siteDirs
      ensures var n := |old(host.log)|;
        ok == (host.shell(MakeDir(name), n).Done? && host.shell(ChownDir(name), n + 1).Done?)
        && (if host.shell(MakeDir(name), n).Failed? then host.log == old(host.log) + [MakeDir(name)] && host.siteDirs == old(host.siteDirs)
            else host.log == old(host.log) + [MakeDir(name), ChownDir(name)] && host.siteDirs == old(host.siteDirs) + {name})
    {
      var o := host.Exec(MakeDir(name));
      if o.Failed? {
        return false;
      }
      host.siteDirs := host.siteDirs + {name};
      o := host.Exec(ChownDir(name));
      ok := o.Done?;
    }

    /** The service steps of create: the vhost, then (`withPool`, for php) the pool of `php_version || '8.2'`. */
    method Configure(name: string, domain: string, runtime: Runtime, phpVersion: Option<string>, port: Option<nat>,
                     withPool: bool)
      returns (ok: bool)
      modifies host`log, host`available, host`enabled, host`pools
      ensures var n := |old(host.log)|;
        match FirstError(Nginx.VhostErrors(host.shell, n, name, name in old(host.enabled)))
        case Some(_) =>
          !ok && host.available == old(host.available) - {name} && host.enabled == old(host.enabled) - {name}
          && host.pools == old(host.pools)
        case None =>
          host.available == old(host.available)[name := VhostConf(runtime, name, domain, phpVersion, port)]
          && host.enabled == old(host.enabled) + {name}
          && (!withPool ==> ok && host.pools == old(host.pools))
          && (withPool ==> PoolCreated(host.shell, n + 4, name, phpVersion, old(host.pools), ok, host.pools))
      ensures ok ==> host.log == old(host.log) + Nginx.VhostSteps(name) + (if withPool then PoolSteps(name, phpVersion) else [])
    {
      ghost var n, linked := |host.log|, name in host.enabled;
      var r := Nginx.CreateVhost(host, name, domain, runtime, phpVersion, port);
      if r.Err? {
        return false;
      }
      assert FirstError(Nginx.VhostErrors(host.shell, n, name, linked)).None?;
      assert |host.log| == n + 4;
      ok := true;
      if withPool {
        ok := CreatePool(name, phpVersion);
      }
    }

    /** `createPool(name, php_version || '8.2')`, reduced to its result and the pool files. */
    method CreatePool(name: string, phpVersion: Option<string>) returns (ok: bool)
      modifies host`log, host`pools
      ensures PoolCreated(host.shell, |old(host.log)|, name, phpVersion, old(host.pools), ok, host.pools)
      ensures ok ==> host.log == old(host.log) + PoolSteps(name, phpVersion)
    {
      var r := PhpFpm.CreatePool(host, name, PoolVersion(phpVersion));
      ok := r.Ok?;
    }

    /**
     * Everything create does on the host once the row is in: directory,
     * vhost, pool. Success leaves the site served; a failed pool step leaves
     * the vhost in place.
     */
    method Provision(name: string, domain: string, runtime: Runtime, phpVersion: Option<string>, port: Option<nat>)
      returns (ok: bool)
      modifies host`log, host`siteDirs, host`available, host`enabled, host`pools
      ensures ok == ProvisionOk(host.shell, |old(host.log)|, name, runtime, phpVersion, name in old(host.enabled))
      ensures ok ==> name in host.siteDirs && host.enabled == old(host.enabled) + {name}
      ensures ok ==> host.available == old(host.available)[name := VhostConf(runtime, name, domain, phpVersion, port)]
      ensures ok && runtime == Php ==> PhpFpm.PoolKeyOf(name, PoolVersion(phpVersion)) in host.pools
      ensures ok ==> host.log == old(host.log) + CreatedCalls(name, runtime, phpVersion)
      ensures var n := |old(host.log)|;
        !ok && host.shell(MakeDir(name), n).Done? && host.shell(ChownDir(name), n + 1).Done?
        && FirstError(Nginx.VhostErrors(host.shell, n + 2, name, name in old(host.enabled))).None?
        ==> runtime == Php && name in host.available && name in host.enabled
    {
      ghost var n := |host.log|;
      ok := MakeSiteDir(name);
      if !ok {
        return;
      }
      assert |host.log| == n + 2;
      ok := Configure(name, domain, runtime, phpVersion, port, runtime == Php);
      if ok {
        var dirs, pool := [MakeDir(name), ChownDir(name)], if runtime == Php then PoolSteps(name, phpVersion) else [];
        AppendAssoc(old(host.log), dirs, Nginx.VhostSteps(name));
        AppendAssoc(old(host.log), dirs + Nginx.VhostSteps(name), pool);
        assert host.log == old(host.log) + CreatedCalls(name, runtime, phpVersion);
      }
    }

    /** Insert the row under the next id. */
    method Insert(data: WebsiteInput, port: Option<nat>) returns (id: nat)
      requires Valid() && InputAccepted(data) && !NameTaken(sites, data.name.value)
      requires PortFor(sites, ParseRuntime(data.runtime).value, port)
      modifies this`sites, this`nextId
      ensures Valid()
      ensures id == old(nextId) && nextId == id + 1 && sites == old(sites)[id := NewRow(id, data, port)]
    {
      id := nextId;
      AcceptedRowOk(id, data, sites, port);
      sites := sites[id := NewRow(id, data, port)];
      nextId := nextId + 1;
    }

    /**
     * `POST /`: validate, refuse a taken name, allocate a port for the
     * proxied runtimes, insert the row, then provision. Any provisioning
     * failure answers 500 and keeps the row.
     */
    method Create(data: WebsiteInput) returns (reply: Reply)
      requires Valid()
      modifies this`sites, this`nextId, host`log, host`siteDirs, host`available, host`enabled, host`pools
      ensures Valid()
      ensures match Refusal(data, old(sites))
        case Some(refused) =>
          reply == refused && sites == old(sites) && nextId == old(nextId) && host.log == old(host.log)
          && host.siteDirs == old(host.siteDirs) && host.available == old(host.available)
          && host.enabled == old(host.enabled) && host.pools == old(host.pools)
        case None =>
          var id := old(nextId);
          var name, runtime := data.name.value, ParseRuntime(data.runtime).value;
          var ok := ProvisionOk(host.shell, |old(host.log)|, name, runtime, data.phpVersion, name in old(host.enabled));
          nextId == id + 1 && id in sites && sites == old(sites)[id := NewRow(id, data, sites[id].port)]
          && PortFor(old(sites), runtime, sites[id].port)
          && reply == (if ok then Reply(201, Created(id, CreatedMessage)) else Reply(500, Error(CreateFailedMessage)))
          && (ok ==> host.log == old(host.log) + CreatedCalls(name, runtime, data.phpVersion)
                     && name in host.siteDirs && name in host.enabled
                     && name in host.available && host.available[name] == VhostConf(runtime, name, data.domain.value, data.phpVersion, sites[id].port)
                     && (runtime == Php ==> PhpFpm.PoolKeyOf(name, PoolVersion(data.phpVersion)) in host.pools))
    {
      var refused, port := Screen(data);
      if refused.Some? {
        return refused.value;
      }
      var name, runtime := data.name.value, ParseRuntime(data.runtime).value;
      var id := Insert(data, port);
      var ok := Provision(name, data.domain.value, runtime, data.phpVersion, port);
      reply := if ok then Reply(201, Created(id, CreatedMessage)) else Reply(500, Error(CreateFailedMessage));
    }

    /**
     * The checks create makes before touching anything: the validation
     * messages, the taken name, and for the proxied runtimes the port
     * allocation, whose result is the new row's port.
     */
    method Screen(data: WebsiteInput) returns (refused: Option<Reply>, port: Option<nat>)
      ensures refused == Refusal(data, sites)
      ensures refused.None? ==>
        InputAccepted(data) && !NameTaken(sites, data.name.value) && PortFor(sites, ParseRuntime(data.runtime).value, port)
    {
      var errors := ValidateWebsiteInput(data);
      ValidationErrorsMeaning(data);
      if errors != [] {
        return Some(Reply(400, Error(Join(errors, "; ")))), None;
      }
      var name := data.name.value;
      if exists id | id in sites :: sites[id].name == name {
        return Some(Reply(409, Error(DuplicateMessage))), None;
      }
      var runtime := ParseRuntime(data.runtime).value;
      refused, port := None, None;
      if runtime != Php {
        port := AllocatePort(UsedPorts(sites));
        if port.None? {
          return Some(Reply(500, Error(PortMessage))), None;
        }
      }
    }

    /** The start call of a row's runtime: `nodejsService.start`, `pythonService.start`, or the php pool. */
    method RunStart(w: Website) returns (r: Result<()>)
      modifies host`log, host`processes, host`pools
      ensures var s := RuntimeStartRun(host.shell, host.parseManifest, |old(host.log)|, w);
        r == s.result && host.log == old(host.log) + s.calls
        && host.processes == Register(old(host.processes), w.name, s.registered)
      ensures w.runtime == Php ==> PoolCreated(host.shell, |old(host.log)|, w.name, w.phpVersion, old(host.pools), r.Ok?, host.pools)
      ensures w.runtime != Php ==> host.pools == old(host.pools)
    {
      match w.runtime
      case NodeJs => r := NodeJs.Start(host, w.name);
      case Python => r := Python.Start(host, w.name, w.port);
      case Php => r := PhpFpm.CreatePool(host, w.name, PoolVersion(w.phpVersion));
    }

    /** The stop call of a row's runtime; php has none. */
    method RunStop(w: Website) returns (r: Result<()>)
      modifies host`log, host`processes
      ensures var (res, calls) := RuntimeStop(host.shell, |old(host.log)|, w);
        r == res && host.log == old(host.log) + calls
      ensures host.processes == StoppedProcesses(host.shell, |old(host.log)|, w, old(host.processes))
    {
      match w.runtime
      case NodeJs => r := NodeJs.Stop(host, w.name);
      case Python => r := Python.Stop(host, w.name);
      case Php => r := Ok(());
    }

    /** The runtime part of restart: php reloads the 8.2 daemon; node and python stop, then start unless the stop failed. */
    method RunRestart(w: Website) returns (r: Result<()>, ghost mid: nat)
      modifies host`log, host`processes, host`pools
      ensures host.pools == old(host.pools)
      ensures Restarted(host.shell, host.parseManifest, w, old(host.log), old(host.processes), mid, r.Ok?, host.log, host.processes)
      ensures r.Ok? && w.runtime != Php ==> w.name in host.processes
    {
      mid := |host.log|;
      if w.runtime == Php {
        r := PhpFpm.ReloadPool(host, w.name, None);
        return;
      }
      ghost var calls := RuntimeStop(host.shell, mid, w).1;
      r := RunStop(w);
      mid := |host.log|;
      if r.Ok? {
        ghost var s := RuntimeStartRun(host.shell, host.parseManifest, mid, w);
        r := RunStart(w);
        AppendAssoc(old(host.log), calls, s.calls);
        if r.Ok? {
          RestartRegisters(host.shell, host.parseManifest, w, old(host.log), old(host.processes), mid, host.log, host.processes);
        }
      }
    }

    /** `POST /:id/start`: start the runtime; only a successful start marks the row running. */
    method Start(id: nat) returns (reply: Reply)
      requires Valid()
      modifies this`sites, host`log, host`processes, host`pools
      ensures Valid()
      ensures id !in old(sites) ==>
        reply == Reply(404, Error(NotFoundMessage)) && sites == old(sites) && host.log == old(host.log)
        && host.processes == old(host.processes) && host.pools == old(host.pools)
      ensures id in old(sites) ==>
        var w := old(sites)[id];
        var s := RuntimeStartRun(host.shell, host.parseManifest, |old(host.log)|, w);
        host.log == old(host.log) + s.calls
        && host.processes == Register(old(host.processes), w.name, s.registered)
        && (w.runtime == Php ==> PoolCreated(host.shell, |old(host.log)|, w.name, w.phpVersion, old(host.pools), s.result.Ok?, host.pools))
        && (w.runtime != Php ==> host.pools == old(host.pools))
        && match s.result
          case Ok(_) =>
            reply == Reply(200, Message(StartedMessage)) && sites == old(sites)[id := w.(status := Running)]
            && (w.runtime != Php ==> w.name in host.processes)
            && (w.runtime == Php ==> PhpFpm.PoolKeyOf(w.name, PoolVersion(w.phpVersion)) in host.pools)
          case Err(_) => reply == Reply(500, Error(StartFailedMessage)) && sites == old(sites)
    {
      if id !in sites {
        return Reply(404, Error(NotFoundMessage));
      }
      var w := sites[id];
      StatusKeepsTable(sites, nextId, id, Running);
      StartedRegisters(host.shell, host.parseManifest, |host.log|, w);
      var r := RunStart(w);
      if r.Err? {
        return Reply(500, Error(StartFailedMessage));
      }
      sites := sites[id := w.(status := Running)];
      reply := Reply(200, Message(StartedMessage));
    }

    /** `POST /:id/stop`: stop the runtime (php: nothing); only a successful stop marks the row stopped. */
    method Stop(id: nat) returns (reply: Reply)
      requires Valid()
      modifies this`sites, host`log, host`processes
      ensures Valid()
      ensures id !in old(sites) ==>
        reply == Reply(404, Error(NotFoundMessage)) && sites == old(sites) && host.log == old(host.log)
        && host.processes == old(host.processes)
      ensures id in old(sites) ==>
        var w := old(sites)[id];
        var (r, calls) := RuntimeStop(host.shell, |old(host.log)|, w);
        host.log == old(host.log) + calls
        && host.processes == StoppedProcesses(host.shell, |old(host.log)|, w, old(host.processes))
        && match r
          case Ok(_) => reply == Reply(200, Message(StoppedMessage)) && sites == old(sites)[id := w.(status := Stopped)]
          case Err(_) => reply == Reply(500, Error(StopFailedMessage)) && sites == old(sites)
    {
      if id !in sites {
        return Reply(404, Error(NotFoundMessage));
      }
      var w := sites[id];
      var r := RunStop(w);
      if r.Err? {
        return Reply(500, Error(StopFailedMessage));
      }
      StatusKeepsTable(sites, nextId, id, Stopped);
      sites := sites[id := w.(status := Stopped)];
      reply := Reply(200, Message(StoppedMessage));
    }

    /** `POST /:id/restart`: stop, then start again (php: reload the 8.2 daemon); the row is never updated. */
    method Restart(id: nat) returns (reply: Reply, ghost mid: nat)
      modifies host`log, host`processes, host`pools
      ensures host.pools == old(host.pools)
      ensures id !in sites ==>
        reply == Reply(404, Error(NotFoundMessage)) && host.log == old(host.log) && host.processes == old(host.processes)
      ensures id in sites ==>
        var w := sites[id];
        reply in {Reply(200, Message(RestartedMessage)), Reply(500, Error(RestartFailedMessage))}
        && Restarted(host.shell, host.parseManifest, w, old(host.log), old(host.processes), mid, reply.code == 200, host.log, host.processes)
        && (reply.code == 200 && w.runtime != Php ==> w.name in host.processes)
    {
      if id !in sites {
        return Reply(404, Error(NotFoundMessage)), 0;
      }
      var w := sites[id];
      var r;
      r, mid := RunRestart(w);
      reply := if r.Ok? then Reply(200, Message(RestartedMessage)) else Reply(500, Error(RestartFailedMessage));
    }

    /**
     * `DELETE /:id`: stop a running site, remove its vhost, remove its pool
     * (php), then the row. A failure answers 500 and keeps the row, even
     * when the vhost is already gone.
     */
    method Delete(id: nat) returns (reply: Reply)
      requires Valid()
      modifies this`sites, host`log, host`processes, host`available, host`enabled, host`pools
      ensures Valid()
      ensures id !in old(sites) ==>
        reply == Reply(404, Error(NotFoundMessage)) && sites == old(sites) && host.log == old(host.log)
        && host.processes == old(host.processes) && host.pools == old(host.pools)
        && host.available == old(host.available) && host.enabled == old(host.enabled)
      ensures id in old(sites) ==>
        var w := old(sites)[id];
        var (stopped, _) := DeleteStop(host.shell, |old(host.log)|, w);
        host.log == old(host.log) + DeleteCalls(host.shell, |old(host.log)|, w)
        && (if stopped.Ok? then w.name !in host.available && w.name !in host.enabled
            else host.available == old(host.available) && host.enabled == old(host.enabled))
        && host.pools == (if DeleteResult(host.shell, |old(host.log)|, w).Ok? && w.runtime == Php
                          then old(host.pools) - PhpFpm.PoolKeysOf(w.name, PhpFpm.Versions) else old(host.pools))
        && host.processes == (if w.status == Running then StoppedProcesses(host.shell, |old(host.log)|, w, old(host.processes))
                              else old(host.processes))
        && match DeleteResult(host.shell, |old(host.log)|, w)
          case Ok(_) =>
            reply == Reply(200, Message(DeletedMessage)) && sites == old(sites) - {id}
            && (w.runtime == Php ==> forall v | v in PhpFpm.Versions :: PoolKey(v, w.name) !in host.pools)
          case Err(_) => reply == Reply(500, Error(DeleteFailedMessage)) && sites == old(sites)
    {
      if id !in sites {
        return Reply(404, Error(NotFoundMessage));
      }
      var w := sites[id];
      var r := RunDelete(w);
      if r.Err? {
        return Reply(500, Error(DeleteFailedMessage));
      }
      sites := sites - {id};
      reply := Reply(200, Message(DeletedMessage));
    }

    /** The host part of delete: the stop of a running site, then, unless it failed, the teardown. */
    method RunDelete(w: Website) returns (r: Result<()>)
      modifies host`log, host`processes, host`available, host`enabled, host`pools
      ensures r == DeleteResult(host.shell, |old(host.log)|, w)
      ensures host.log == old(host.log) + DeleteCalls(host.shell, |old(host.log)|, w)
      ensures var (stopped, _) := DeleteStop(host.shell, |old(host.log)|, w);
        if stopped.Ok? then w.name !in host.available && w.name !in host.enabled
        else host.available == old(host.available) && host.enabled == old(host.enabled)
      ensures host.pools == if r.Ok? && w.runtime == Php then old(host.pools) - PhpFpm.PoolKeysOf(w.name, PhpFpm.Versions) else old(host.pools)
      ensures r.Ok? && w.runtime == Php ==> forall v | v in PhpFpm.Versions :: PoolKey(v, w.name) !in host.pools
      ensures host.processes == if w.status == Running then StoppedProcesses(host.shell, |old(host.log)|, w, old(host.processes))
                                else old(host.processes)
    {
      ghost var n := |host.log|;
      r := Ok(());
      if w.status == Running {
        r := RunStop(w);
      }
      if r.Err? {
        return;
      }
      ghost var calls := DeleteStop(host.shell, n, w).1;
      assert |host.log| == n + |calls|;
      r := Teardown(w);
      AppendAssoc(old(host.log), calls, TeardownCalls(host.shell, n + |calls|, w));
    }

    /** The host steps of delete after the stop: the vhost goes, then (php, once the reload succeeded) the pools. */
    method Teardown(w: Website) returns (r: Result<()>)
      modifies host`log, host`available, host`enabled, host`pools
      ensures w.name !in host.available && w.name !in host.enabled
      ensures r == match ErrorOf(host.shell(Run(Nginx.ReloadCommand), |old(host.log)| + 2))
        case None => Ok(())
        case Some(m) => Err(m)
      ensures r.Ok? && w.runtime == Php ==> forall v | v in PhpFpm.Versions :: PoolKey(v, w.name) !in host.pools
      ensures host.pools == if r.Ok? && w.runtime == Php then old(host.pools) - PhpFpm.PoolKeysOf(w.name, PhpFpm.Versions) else old(host.pools)
      ensures host.log == old(host.log) + TeardownCalls(host.shell, |old(host.log)|, w)
    {
      r := Nginx.RemoveVhost(host, w.name);
      if r.Ok? && w.runtime == Php {
        PhpFpm.RemovePool(host, w.name);
      }
    }
  }
}

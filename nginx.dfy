/**
 * The nginx service: one virtual-host file per site under
 * `/etc/nginx/sites-available`, enabled by a link under
 * `/etc/nginx/sites-enabled`, checked with `nginx -t` and rolled back when
 * any step fails.
 */
module Nginx {
  import opened Text
  import opened World

  const SitesAvailable := "/etc/nginx/sites-available"
  const SitesEnabled := "/etc/nginx/sites-enabled"
  const TestCommand := "nginx -t"
  const ReloadCommand := "systemctl reload nginx"
  const TestFailedMessage := "Nginx configuration test failed"
  /** The word of `nginx -t`'s report that makes its stderr harmless. */
  const SuccessWord := "successful"
  const LinkExistsPrefix := "EEXIST: file already exists, symlink '"

  function ConfigPath(name: string): string { SitesAvailable + "/" + name }
  function LinkPath(name: string): string { SitesEnabled + "/" + name }

  /** How a template literal renders the PHP version argument; it may be `undefined`. */
  function VersionText(phpVersion: Option<string>): string {
    match phpVersion
    case None => "undefined"
    case Some(v) => v
  }

  /** The `fastcgi_pass` target of a PHP site. */
  function FastcgiSocket(version: string, name: string): string {
    "/run/php/php" + version + "-fpm-" + name + ".sock"
  }

  function ServerNameLine(domain: string): string { "    server_name " + domain + ";" }
  function AccessLogLine(name: string): string { "    access_log /var/log/nginx/" + name + "-access.log;" }
  function ErrorLogLine(name: string): string { "    error_log /var/log/nginx/" + name + "-error.log;" }
  function ProxyPassLine(port: Option<nat>): string { "        proxy_pass http://127.0.0.1:" + PortText(port) + ";" }
  function FastcgiLine(version: string, name: string): string {
    "        fastcgi_pass unix:" + FastcgiSocket(version, name) + ";"
  }
  function StaticAliasLine(name: string): string { "        alias /var/www/" + name + "/static;" }

  const UpgradeLine := "        proxy_set_header Upgrade $http_upgrade;"
  const ConnectionLine := "        proxy_set_header Connection 'upgrade';"
  const DenyLine := "        deny all;"
  const HtLocationLine := "    location ~ /\\.ht {"
  const GitLocationLine := "    location ~ /\\.git {"

  /** The PHP template, line by line. */
  function PhpConfig(name: string, domain: string, phpVersion: Option<string>): seq<string> {
    [ "server {",
      "    listen 80;",
      ServerNameLine(domain),
      "    root /var/www/" + name + "/public;",
      "    index index.php index.html;",
      "",
      AccessLogLine(name),
      ErrorLogLine(name),
      "",
      "    client_max_body_size 100M;",
      "",
      "    location / {",
      "        try_files $uri $uri/ /index.php?$query_string;",
      "    }",
      "",
      "    location ~ \\.php$ {",
      "        include snippets/fastcgi-php.conf;",
      FastcgiLine(VersionText(phpVersion), name),
      "        fastcgi_param SCRIPT_FILENAME $document_root$fastcgi_script_name;",
      "        include fastcgi_params;",
      "    }",
      "",
      HtLocationLine,
      DenyLine,
      "    }",
      "",
      GitLocationLine,
      DenyLine,
      "    }",
      "}" ]
  }

  /** The opening shared by the two proxy templates, up to `location / {`. */
  function ProxyHead(name: string, domain: string): seq<string> {
    [ "server {",
      "    listen 80;",
      ServerNameLine(domain),
      "",
      AccessLogLine(name),
      ErrorLogLine(name),
      "",
      "    location / {" ]
  }

  /** The Node.js template: a reverse proxy that also forwards WebSocket upgrades. */
  function NodeConfig(name: string, domain: string, port: Option<nat>): seq<string> {
    ProxyHead(name, domain) +
    [ ProxyPassLine(port),
      "        proxy_http_version 1.1;",
      UpgradeLine,
      ConnectionLine,
      "        proxy_set_header Host $host;",
      "        proxy_set_header X-Real-IP $remote_addr;",
      "        proxy_set_header X-Forwarded-For $proxy_add_x_forwarded_for;",
      "        proxy_set_header X-Forwarded-Proto $scheme;",
      "        proxy_cache_bypass $http_upgrade;",
      "        proxy_read_timeout 300s;",
      "        proxy_connect_timeout 75s;",
      "    }",
      "}" ]
  }

  /** The `location /` block of the Python template. */
  function PythonProxy(port: Option<nat>): seq<string> {
    [ ProxyPassLine(port),
      "        proxy_set_header Host $host;",
      "        proxy_set_header X-Real-IP $remote_addr;",
      "        proxy_set_header X-Forwarded-For $proxy_add_x_forwarded_for;",
      "        proxy_set_header X-Forwarded-Proto $scheme;",
      "        proxy_read_timeout 300s;",
      "        proxy_connect_timeout 75s;",
      "    }" ]
  }

  /** The `/static` block of the Python template. */
  function PythonStatic(name: string): seq<string> {
    [ "",
      "    location /static {",
      StaticAliasLine(name),
      "        expires 30d;",
      "    }",
      "}" ]
  }

  /** The Python template: a plain reverse proxy plus a `/static` alias. */
  function PythonConfig(name: string, domain: string, port: Option<nat>): seq<string> {
    ProxyHead(name, domain) + PythonProxy(port) + PythonStatic(name)
  }

  /** The template `createVhost` picks for a runtime. */
  function Template(runtime: Runtime, name: string, domain: string, phpVersion: Option<string>, port: Option<nat>): seq<string> {
    match runtime
    case Php => PhpConfig(name, domain, phpVersion)
    case NodeJs => NodeConfig(name, domain, port)
    case Python => PythonConfig(name, domain, port)
  }

  /** The text `createVhost` writes. */
  function VhostText(conf: VhostConf): string {
    Unlines(Template(conf.runtime, conf.name, conf.domain, conf.phpVersion, conf.port))
  }

  /** Two lines differ when they differ at one position. */
  lemma DiffersAt(a: string, b: string, k: nat)
    requires k < |a| && k < |b| && a[k] != b[k]
    ensures a != b
  {
  }

  /** A PHP site hands `.php` requests to the socket of its pool and hides `.ht*` and `.git`. */
  lemma PhpConfigShape(name: string, domain: string, phpVersion: Option<string>)
    ensures var lines := PhpConfig(name, domain, phpVersion);
      FastcgiLine(VersionText(phpVersion), name) in lines
      && (exists i | 0 <= i < |lines| - 1 :: lines[i] == HtLocationLine && lines[i + 1] == DenyLine)
      && (exists i | 0 <= i < |lines| - 1 :: lines[i] == GitLocationLine && lines[i + 1] == DenyLine)
  {
    var lines := PhpConfig(name, domain, phpVersion);
    assert lines[17] == FastcgiLine(VersionText(phpVersion), name);
    assert lines[22] == HtLocationLine && lines[23] == DenyLine;
    assert lines[26] == GitLocationLine && lines[27] == DenyLine;
  }

  /** A Node.js site proxies to its port and forwards the WebSocket upgrade headers. */
  lemma NodeConfigShape(name: string, domain: string, port: Option<nat>)
    ensures var lines := NodeConfig(name, domain, port);
      ProxyPassLine(port) in lines && UpgradeLine in lines && ConnectionLine in lines
  {
    var lines := NodeConfig(name, domain, port);
    assert lines[8] == ProxyPassLine(port) && lines[10] == UpgradeLine && lines[11] == ConnectionLine;
  }

  /** The shared opening of the proxy templates sets no upgrade header. */
  lemma ProxyHeadNoUpgrade(name: string, domain: string)
    ensures UpgradeLine !in ProxyHead(name, domain) && ConnectionLine !in ProxyHead(name, domain)
  {
    DiffersAt(ServerNameLine(domain), UpgradeLine, 4);
    DiffersAt(ServerNameLine(domain), ConnectionLine, 4);
    DiffersAt(AccessLogLine(name), UpgradeLine, 4);
    DiffersAt(AccessLogLine(name), ConnectionLine, 4);
    DiffersAt(ErrorLogLine(name), UpgradeLine, 4);
    DiffersAt(ErrorLogLine(name), ConnectionLine, 4);
  }

  lemma PythonProxyNoUpgrade(port: Option<nat>)
    ensures UpgradeLine !in PythonProxy(port) && ConnectionLine !in PythonProxy(port)
  {
    DiffersAt(ProxyPassLine(port), UpgradeLine, 14);
    DiffersAt(ProxyPassLine(port), ConnectionLine, 14);
  }

  lemma PythonStaticNoUpgrade(name: string)
    ensures UpgradeLine !in PythonStatic(name) && ConnectionLine !in PythonStatic(name)
  {
    DiffersAt(StaticAliasLine(name), UpgradeLine, 8);
    DiffersAt(StaticAliasLine(name), ConnectionLine, 8);
  }

  /** A Python site proxies to its port, does not forward upgrades, and serves `/static` from disk. */
  lemma PythonConfigShape(name: string, domain: string, port: Option<nat>)
    ensures var lines := PythonConfig(name, domain, port);
      ProxyPassLine(port) in lines && StaticAliasLine(name) in lines
      && UpgradeLine !in lines && ConnectionLine !in lines
  {
    ProxyHeadNoUpgrade(name, domain);
    PythonProxyNoUpgrade(port);
    PythonStaticNoUpgrade(name);
    var lines := PythonConfig(name, domain, port);
    assert lines[8] == ProxyPassLine(port) && lines[18] == StaticAliasLine(name);
  }

  /** The message `fs.symlink` throws when the link is already there. */
  function LinkExistsMessage(name: string): string {
    LinkExistsPrefix + ConfigPath(name) + "' -> '" + LinkPath(name) + "'"
  }

  /** `nginx -t` passes unless it fails, or writes to stderr without the word `successful`. */
  function TestError(o: Outcome): (e: Option<string>)
    ensures o.Done? && o.stderr == [] ==> e.None?
    ensures o.Done? && Contains(o.stderr, SuccessWord) ==> e.None?
    ensures o.Done? && o.stderr != [] && !Contains(o.stderr, SuccessWord) ==> e == Some(TestFailedMessage)
    ensures o.Failed? ==> e == Some(o.message)
  {
    match o
    case Failed(m) => Some(m)
    case Done(_, err) => if err != [] && !Contains(err, SuccessWord) then Some(TestFailedMessage) else None
  }

  /** The calls `createVhost` makes when every step succeeds. */
  function VhostSteps(name: string): seq<Cmd> {
    [WriteFile(ConfigPath(name)), Symlink(ConfigPath(name), LinkPath(name)), Run(TestCommand), Run(ReloadCommand)]
  }

  /** The clean-up after a failed step: the file first, then the link. */
  function VhostRollback(name: string): seq<Cmd> {
    [Unlink(ConfigPath(name)), Unlink(LinkPath(name))]
  }

  /** What each step of `createVhost` reports when the calls start at log position `n`. */
  function VhostErrors(shell: (Cmd, nat) -> Outcome, n: nat, name: string, linked: bool): seq<Option<string>> {
    var steps := VhostSteps(name);
    [ ErrorOf(shell(steps[0], n)),
      if linked then Some(LinkExistsMessage(name)) else ErrorOf(shell(steps[1], n + 1)),
      TestError(shell(steps[2], n + 2)),
      ErrorOf(shell(steps[3], n + 3)) ]
  }

  /** The four steps of `createVhost` up to the first failure, before any rollback. */
  method RunVhostSteps(h: Host, name: string, conf: VhostConf) returns (err: Option<string>)
    modifies h`log, h`available, h`enabled
    ensures var fe := FirstError(VhostErrors(h.shell, |old(h.log)|, name, name in old(h.enabled)));
      match fe
      case None =>
        err.None? && h.log == old(h.log) + VhostSteps(name)
        && h.available == old(h.available)[name := conf] && h.enabled == old(h.enabled) + {name}
      case Some((k, m)) =>
        err == Some(m) && h.log == old(h.log) + VhostSteps(name)[..k + 1]
        && h.available - {name} == old(h.available) - {name} && h.enabled - {name} == old(h.enabled) - {name}
  {
    ghost var steps := VhostSteps(name);
    ghost var errs := VhostErrors(h.shell, |h.log|, name, name in h.enabled);
    FirstError4(errs[0], errs[1], errs[2], errs[3]);
    assert errs == [errs[0], errs[1], errs[2], errs[3]];
    ghost var log0 := h.log;
    err := WriteAndLink(h, name, conf);
    if err.Some? {
      if errs[0].Some? {
        assert h.log == log0 + steps[..1];
      } else {
        assert h.log == log0 + steps[..2];
      }
      return;
    }
    ghost var log2 := h.log;
    err := TestAndReload(h);
    if errs[2].Some? {
      assert h.log == log2 + [steps[2]];
      assert h.log == log0 + steps[..3];
    } else {
      assert h.log == log2 + [steps[2], steps[3]];
      assert h.log == log0 + steps;
      assert steps == steps[..4];
    }
  }

  /** The first two steps of `createVhost`: write the file, then link it. */
  method WriteAndLink(h: Host, name: string, conf: VhostConf) returns (err: Option<string>)
    modifies h`log, h`available, h`enabled
    ensures var e0 := ErrorOf(h.shell(WriteFile(ConfigPath(name)), |old(h.log)|));
      var e1 := if name in old(h.enabled) then Some(LinkExistsMessage(name))
        else ErrorOf(h.shell(Symlink(ConfigPath(name), LinkPath(name)), |old(h.log)| + 1));
      if e0.Some? then
        err == e0 && h.log == old(h.log) + [WriteFile(ConfigPath(name))]
        && h.available == old(h.available) && h.enabled == old(h.enabled)
      else
        h.log == old(h.log) + [WriteFile(ConfigPath(name)), Symlink(ConfigPath(name), LinkPath(name))]
        && h.available == old(h.available)[name := conf]
        && (if e1.Some? then err == e1 && h.enabled == old(h.enabled)
            else err.None? && h.enabled == old(h.enabled) + {name})
  {
    var config := ConfigPath(name);
    var link := LinkPath(name);
    var o := h.Exec(WriteFile(config));
    if o.Failed? {
      return Some(o.message);
    }
    h.available := h.available[name := conf];
    var linked := name in h.enabled;
    o := h.Exec(Symlink(config, link));
    if linked {
      err := Some(LinkExistsMessage(name));
    } else if o.Failed? {
      err := Some(o.message);
    } else {
      err := None;
      h.enabled := h.enabled + {name};
    }
  }

  /** The last two steps of `createVhost`: `nginx -t`, then, if it passed, the reload. */
  method TestAndReload(h: Host) returns (err: Option<string>)
    modifies h`log
    ensures var t := TestError(h.shell(Run(TestCommand), |old(h.log)|));
      if t.Some? then
        err == t && h.log == old(h.log) + [Run(TestCommand)]
      else
        err == ErrorOf(h.shell(Run(ReloadCommand), |old(h.log)| + 1))
        && h.log == old(h.log) + [Run(TestCommand), Run(ReloadCommand)]
  {
    var o := h.Exec(Run(TestCommand));
    err := TestError(o);
    if err.None? {
      o := h.Exec(Run(ReloadCommand));
      err := ErrorOf(o);
    }
  }

  /**
   * `createVhost`: write the file, link it, test, reload. The first failing
   * step's error is thrown after removing both the file and the link, so a
   * failure never leaves the site configured, not even a link that was there
   * before the call.
   */
  method CreateVhost(h: Host, name: string, domain: string, runtime: Runtime, phpVersion: Option<string>, port: Option<nat>)
    returns (r: Result<()>)
    modifies h`log, h`available, h`enabled
    ensures var steps := VhostSteps(name);
      match FirstError(VhostErrors(h.shell, |old(h.log)|, name, name in old(h.enabled)))
      case None =>
        r == Ok(()) && h.log == old(h.log) + steps
        && h.available == old(h.available)[name := VhostConf(runtime, name, domain, phpVersion, port)]
        && h.enabled == old(h.enabled) + {name}
      case Some((k, m)) =>
        r == Err(m) && h.log == old(h.log) + steps[..k + 1] + VhostRollback(name)
        && h.available == old(h.available) - {name} && h.enabled == old(h.enabled) - {name}
  {
    var conf := VhostConf(runtime, name, domain, phpVersion, port);
    var err := RunVhostSteps(h, name, conf);
    if err.Some? {
      RollBackVhost(h, name);
      return Err(err.value);
    }
    return Ok(());
  }

  /** The `catch` of `createVhost`: unlink the file, then the link, ignoring failures. */
  method RollBackVhost(h: Host, name: string)
    modifies h`log, h`available, h`enabled
    ensures h.log == old(h.log) + VhostRollback(name)
    ensures h.available == old(h.available) - {name} && h.enabled == old(h.enabled) - {name}
  {
    var _ := h.Exec(Unlink(ConfigPath(name)));
    h.available := h.available - {name};
    var _ := h.Exec(Unlink(LinkPath(name)));
    h.enabled := h.enabled - {name};
  }

  /**
   * `removeVhost`: remove the link and the file (ignoring failures), then
   * reload nginx, whose failure is the only error.
   */
  method RemoveVhost(h: Host, name: string) returns (r: Result<()>)
    modifies h`log, h`available, h`enabled
    ensures h.log == old(h.log) + [Unlink(LinkPath(name)), Unlink(ConfigPath(name)), Run(ReloadCommand)]
    ensures h.available == old(h.available) - {name} && h.enabled == old(h.enabled) - {name}
    ensures r == match ErrorOf(h.shell(Run(ReloadCommand), |old(h.log)| + 2))
      case None => Ok(())
      case Some(m) => Err(m)
  {
    var _ := h.Exec(Unlink(LinkPath(name)));
    h.enabled := h.enabled - {name};
    var _ := h.Exec(Unlink(ConfigPath(name)));
    h.available := h.available - {name};
    var o := h.Exec(Run(ReloadCommand));
    r := if o.Failed? then Err(o.message) else Ok(());
  }
}

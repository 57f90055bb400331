/**
 * The php-fpm service: one pool file per site and PHP version under
 * `/etc/php/<version>/fpm/pool.d`, each listening on its own socket, and the
 * reload of that version's daemon.
 */
module PhpFpm {
  import opened Text
  import opened World

  /** The PHP versions the panel knows, in the order `removePool` visits them. */
  const Versions: seq<string> := ["7.4", "8.0", "8.1", "8.2"]

  /** The version `reloadPool` uses when none is given. */
  const DefaultVersion := "8.2"

  /** `sanitizeName`: drop every character outside `[a-zA-Z0-9_-]` (an empty name stays empty). */
  function SanitizeName(name: string): (r: string)
    ensures AllChars(r, IsNameChar) && |r| <= |name|
  {
    Filter(name, IsNameChar)
  }

  /** Sanitising keeps the allowed characters in order: it works character by character. */
  lemma SanitizeKeepsOrder(a: string, b: string, c: char)
    ensures SanitizeName(a + b) == SanitizeName(a) + SanitizeName(b)
    ensures SanitizeName([c]) == if IsNameChar(c) then [c] else []
  {
    FilterConcat(a, b, IsNameChar);
    assert [c][1..] == [];
  }

  /** A name that is already clean is left alone, so sanitising twice is sanitising once. */
  lemma SanitizeIdentity(name: string)
    ensures AllChars(name, IsNameChar) ==> SanitizeName(name) == name
    ensures SanitizeName(SanitizeName(name)) == SanitizeName(name)
  {
  }

  function PoolPath(key: PoolKey): string {
    "/etc/php/" + key.version + "/fpm/pool.d/" + key.name + ".conf"
  }

  function ReloadCommand(version: string): string {
    "systemctl reload php" + version + "-fpm"
  }

  /** The socket a pool listens on. */
  function ListenSocket(version: string, name: string): string {
    "/run/php/php" + version + "-fpm-" + name + ".sock"
  }

  function ListenLine(version: string, name: string): string {
    "listen = " + ListenSocket(version, name)
  }

  /** `generatePoolConfig`, line by line. */
  function PoolConfig(name: string, version: string): seq<string> {
    [ "[" + name + "]",
      "user = www-data",
      "group = www-data",
      ListenLine(version, name),
      "listen.owner = www-data",
      "listen.group = www-data",
      "listen.mode = 0660",
      "",
      "pm = ondemand",
      "pm.max_children = 5",
      "pm.process_idle_timeout = 10s",
      "pm.max_requests = 500",
      "",
      "php_admin_value[error_log] = /var/log/php-fpm/" + name + "-error.log",
      "php_admin_flag[log_errors] = on",
      "php_admin_value[memory_limit] = 128M",
      "php_admin_value[upload_max_filesize] = 100M",
      "php_admin_value[post_max_size] = 100M",
      "",
      "chdir = /var/www/" + name ]
  }

  /** A pool is named after the site, listens on its own socket and runs in the site's directory. */
  lemma PoolConfigShape(name: string, version: string)
    ensures var lines := PoolConfig(name, version);
      lines[0] == "[" + name + "]" && ListenLine(version, name) in lines
      && lines[|lines| - 1] == "chdir = /var/www/" + name
  {
    assert PoolConfig(name, version)[3] == ListenLine(version, name);
  }

  /** The text of a pool file, which `createPool` writes. */
  function PoolText(key: PoolKey): string {
    Unlines(PoolConfig(key.name, key.version))
  }

  /** The pool file `createPool` writes for a site name and version. */
  function PoolKeyOf(name: string, version: string): PoolKey {
    PoolKey(version, SanitizeName(name))
  }

  /** The error of writing the pool file, or else of the reload, when the calls start at log position `n`. */
  function PoolError(shell: (Cmd, nat) -> Outcome, n: nat, name: string, version: string): Option<string> {
    var key := PoolKeyOf(name, version);
    match shell(WriteFile(PoolPath(key)), n)
    case Failed(m) => Some(m)
    case Done(_, _) => ErrorOf(shell(Run(ReloadCommand(version)), n + 1))
  }

  /** The calls `createPool` makes from log position `n`: the write, the reload once the write succeeded, the removal after a failure. */
  function PoolCalls(shell: (Cmd, nat) -> Outcome, n: nat, name: string, version: string): seq<Cmd> {
    var path := PoolPath(PoolKeyOf(name, version));
    var w, rl, u := WriteFile(path), Run(ReloadCommand(version)), Unlink(path);
    if shell(w, n).Failed? then [w, u]
    else if shell(rl, n + 1).Failed? then [w, rl, u]
    else [w, rl]
  }

  /**
   * `createPool`: write the pool file of the sanitised name, then reload
   * that version's daemon; on either failure the file is removed and the
   * error rethrown.
   */
  method CreatePool(h: Host, name: string, version: string) returns (r: Result<()>)
    modifies h`log, h`pools
    ensures var key := PoolKeyOf(name, version);
      var w, rl, u := WriteFile(PoolPath(key)), Run(ReloadCommand(version)), Unlink(PoolPath(key));
      var n := |old(h.log)|;
      if h.shell(w, n).Failed? then
        r == Err(h.shell(w, n).message) && h.log == old(h.log) + [w] + [u] && h.pools == old(h.pools) - {key}
      else if h.shell(rl, n + 1).Failed? then
        r == Err(h.shell(rl, n + 1).message) && h.log == old(h.log) + [w] + [rl] + [u] && h.pools == old(h.pools) - {key}
      else
        r == Ok(()) && h.log == old(h.log) + [w] + [rl] && h.pools == old(h.pools) + {key}
    ensures r == match PoolError(h.shell, |old(h.log)|, name, version) case None => Ok(()) case Some(m) => Err(m)
    ensures h.log == old(h.log) + PoolCalls(h.shell, |old(h.log)|, name, version)
  {
    var key := PoolKeyOf(name, version);
    var path := PoolPath(key);
    var o := h.Exec(WriteFile(path));
    if o.Done? {
      h.pools := h.pools + {key};
      o := h.Exec(Run(ReloadCommand(version)));
      if o.Done? {
        return Ok(());
      }
    }
    var _ := h.Exec(Unlink(path));
    h.pools := h.pools - {key};
    return Err(o.message);
  }

  /** The calls `removePool` makes for the given versions, in order. */
  function RemoveCalls(name: string, versions: seq<string>): seq<Cmd> {
    if versions == [] then [] else
      var v := versions[|versions| - 1];
      RemoveCalls(name, versions[..|versions| - 1]) + [Unlink(PoolPath(PoolKey(v, name))), Run(ReloadCommand(v))]
  }

  function PoolKeysOf(name: string, versions: seq<string>): set<PoolKey> {
    set v | v in versions :: PoolKey(v, name)
  }

  /**
   * `removePool`: for each known version, unlink `<name>.conf` (the name as
   * given, not sanitised) and reload that daemon, ignoring every failure.
   */
  method RemovePool(h: Host, name: string)
    modifies h`log, h`pools
    ensures h.log == old(h.log) + RemoveCalls(name, Versions)
    ensures h.pools == old(h.pools) - PoolKeysOf(name, Versions)
    ensures forall v | v in Versions :: PoolKey(v, name) !in h.pools
  {
    for i := 0 to |Versions|
      invariant h.log == old(h.log) + RemoveCalls(name, Versions[..i])
      invariant h.pools == old(h.pools) - PoolKeysOf(name, Versions[..i])
    {
      var key := PoolKey(Versions[i], name);
      var _ := h.Exec(Unlink(PoolPath(key)));
      h.pools := h.pools - {key};
      var _ := h.Exec(Run(ReloadCommand(Versions[i])));
      assert Versions[..i + 1][..i] == Versions[..i];
      assert PoolKeysOf(name, Versions[..i + 1]) == PoolKeysOf(name, Versions[..i]) + {key};
    }
    assert Versions[..|Versions|] == Versions;
  }

  /** `reloadPool`: reload one daemon (8.2 unless a version is given); no file is touched. */
  method ReloadPool(h: Host, name: string, version: Option<string>) returns (r: Result<()>)
    modifies h`log
    ensures var v := if version.Some? then version.value else DefaultVersion;
      h.log == old(h.log) + [Run(ReloadCommand(v))]
      && r == match h.shell(Run(ReloadCommand(v)), |old(h.log)|)
        case Done(_, _) => Ok(())
        case Failed(m) => Err("Failed to reload PHP-FPM pool: " + m)
  {
    var v := if version.Some? then version.value else DefaultVersion;
    var o := h.Exec(Run(ReloadCommand(v)));
    r := if o.Failed? then Err("Failed to reload PHP-FPM pool: " + o.message) else Ok(());
  }

  /** `switchVersion`: `removePool` then `createPool` with the new version; the old version is not used. */
  method SwitchVersion(h: Host, name: string, oldVersion: string, newVersion: string) returns (r: Result<()>)
    modifies h`log, h`pools
    ensures var key := PoolKeyOf(name, newVersion);
      match PoolError(h.shell, |old(h.log)| + |RemoveCalls(name, Versions)|, name, newVersion)
      case None => r == Ok(()) && h.pools == old(h.pools) - PoolKeysOf(name, Versions) + {key}
      case Some(m) => r == Err(m) && h.pools == old(h.pools) - PoolKeysOf(name, Versions) - {key}
    ensures h.log == old(h.log) + RemoveCalls(name, Versions)
                     + PoolCalls(h.shell, |old(h.log)| + |RemoveCalls(name, Versions)|, name, newVersion)
  {
    RemovePool(h, name);
    ghost var removed := h.log;
    r := CreatePool(h, name, newVersion);
    AppendAssoc(old(h.log), RemoveCalls(name, Versions), PoolCalls(h.shell, |removed|, name, newVersion));
  }

  /**
   * The pool `createPool` writes for a name with characters outside
   * `[a-zA-Z0-9_-]` is not the file `removePool` deletes for that name.
   */
  lemma RemovePoolMissesSanitized(name: string, version: string)
    requires !AllChars(name, IsNameChar)
    ensures PoolKeyOf(name, version) !in PoolKeysOf(name, Versions)
  {
    assert SanitizeName(name) != name;
  }

  /** For a clean name, `removePool` deletes the pool `createPool` wrote, whatever its version. */
  lemma RemovePoolFindsClean(name: string, version: string)
    requires AllChars(name, IsNameChar) && version in Versions
    ensures PoolKeyOf(name, version) in PoolKeysOf(name, Versions)
  {
  }
}

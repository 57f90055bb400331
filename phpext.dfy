/**
 * The PHP extension manager: a fixed whitelist of extensions, each shipped
 * as the Debian package `php<version>-<extension>`, listed against what
 * `dpkg` and `php -m` report, and installed or removed with `apt-get`.
 */
module PhpExtensions {
  import opened Text
  import opened World

  /** The extensions the panel manages, in the order they are listed. */
  const Extensions: seq<string> := [
    "bcmath", "bz2", "curl", "gd", "imagick", "intl", "mbstring",
    "mysql", "readline", "sqlite3", "xml", "zip", "soap", "imap", "gmp"]

  const VersionCommand := "php -r \"echo PHP_MAJOR_VERSION.'.'.PHP_MINOR_VERSION;\""
  const FallbackVersion := "8.2"
  const ModulesCommand := "php -m"
  const InvalidExtension := "Invalid extension"

  /** The version `getPhpVersion` reports: the trimmed output, or 8.2 when the command fails. */
  function VersionOf(o: Outcome): string {
    match o
    case Done(out, _) => Trim(out)
    case Failed(_) => FallbackVersion
  }

  /** `getPhpVersion`. */
  method GetPhpVersion(h: Host) returns (version: string)
    modifies h`log
    ensures h.log == old(h.log) + [Run(VersionCommand)]
    ensures old(h.Next(Run(VersionCommand))).Failed? ==> version == FallbackVersion
    ensures old(h.Next(Run(VersionCommand))).Done? ==> version == Trim(old(h.Next(Run(VersionCommand))).stdout)
  {
    var o := h.Exec(Run(VersionCommand));
    if o.Failed? {
      return FallbackVersion;
    }
    version := Trim(o.stdout);
  }

  /** The Debian package of an extension for a PHP version. */
  function PackageName(version: string, ext: string): string {
    "php" + version + "-" + ext
  }

  /** For one version, different extensions have different packages, and the extension is the package's tail. */
  lemma PackageNameTail(version: string, ext: string)
    ensures var p := PackageName(version, ext);
      |p| == |version| + |ext| + 4 && p[|version| + 4..] == ext && p[..|version| + 4] == "php" + version + "-"
  {
  }

  lemma PackageNameInjective(version: string, a: string, b: string)
    ensures PackageName(version, a) == PackageName(version, b) ==> a == b
  {
    PackageNameTail(version, a);
    PackageNameTail(version, b);
  }

  /** The `grep` over `dpkg -l` that lists the installed packages of a version. */
  function InstalledCommand(version: string): string {
    "dpkg -l | grep php" + version + "-"
  }

  /** One entry of the listing. */
  datatype Extension = Extension(name: string, package: string, installed: bool, active: bool)

  /** What `listExtensions` returns. */
  datatype Listing = Listing(version: string, extensions: seq<Extension>)

  /**
   * `e` is the entry of extension `ext`: its package, installed exactly when
   * the package list mentions the package, active exactly when the
   * lower-cased module list mentions its name.
   */
  predicate EntryOf(version: string, installedPkgs: string, lowered: string, ext: string, e: Extension) {
    && e.name == ext
    && e.package == PackageName(version, ext)
    && (e.installed <==> Contains(installedPkgs, e.package))
    && (e.active <==> Contains(lowered, ext))
  }

  /** `results` has one entry per extension of `exts`, in the same order. */
  predicate Describes(version: string, installedPkgs: string, activeExts: string, exts: seq<string>, results: seq<Extension>) {
    |results| == |exts|
    && forall k | 0 <= k < |exts| :: EntryOf(version, installedPkgs, Lower(activeExts), exts[k], results[k])
  }

  /** The `for` loop of `listExtensions`. */
  method Describe(version: string, installedPkgs: string, activeExts: string, exts: seq<string>) returns (results: seq<Extension>)
    ensures Describes(version, installedPkgs, activeExts, exts, results)
  {
    results := [];
    var lowered := Lower(activeExts);
    for i := 0 to |exts|
      invariant |results| == i
      invariant forall k | 0 <= k < i :: EntryOf(version, installedPkgs, lowered, exts[k], results[k])
    {
      var pkgName := PackageName(version, exts[i]);
      results := results + [Extension(exts[i], pkgName, Contains(installedPkgs, pkgName), Contains(lowered, exts[i]))];
    }
  }

  /** A package named in the `dpkg` output is reported installed. */
  lemma ListedPackageInstalled(before: string, version: string, ext: string, after: string)
    ensures Contains(before + PackageName(version, ext) + after, PackageName(version, ext))
  {
    ContainsInfix(before, PackageName(version, ext), after);
  }

  /** A module `php -m` prints in any letter case is reported active under its lower-case name. */
  lemma PrintedModuleActive(before: string, printed: string, after: string, ext: string)
    requires Lower(printed) == ext
    ensures Contains(Lower(before + printed + after), ext)
  {
    LowerConcat(before + printed, after);
    LowerConcat(before, printed);
    ContainsInfix(Lower(before), ext, Lower(after));
  }

  /**
   * `listExtensions`: the version, then the package list and the module
   * list; either listing command failing fails the whole call with its
   * message (a `grep` that matches nothing fails too).
   */
  method ListExtensions(h: Host) returns (r: Result<Listing>)
    modifies h`log
    ensures var n := |old(h.log)|;
      var version := VersionOf(h.shell(Run(VersionCommand), n));
      var pkgs := h.shell(Run(InstalledCommand(version)), n + 1);
      var mods := h.shell(Run(ModulesCommand), n + 2);
      if pkgs.Failed? then
        r == Err(pkgs.message) && h.log == old(h.log) + [Run(VersionCommand), Run(InstalledCommand(version))]
      else if mods.Failed? then
        r == Err(mods.message) && h.log == old(h.log) + [Run(VersionCommand), Run(InstalledCommand(version)), Run(ModulesCommand)]
      else
        && h.log == old(h.log) + [Run(VersionCommand), Run(InstalledCommand(version)), Run(ModulesCommand)]
        && r.Ok? && r.value.version == version
        && Describes(version, pkgs.stdout, mods.stdout, Extensions, r.value.extensions)
  {
    var version := GetPhpVersion(h);
    var pkgs := h.Exec(Run(InstalledCommand(version)));
    if pkgs.Failed? {
      return Err(pkgs.message);
    }
    var mods := h.Exec(Run(ModulesCommand));
    if mods.Failed? {
      return Err(mods.message);
    }
    var results := Describe(version, pkgs.stdout, mods.stdout, Extensions);
    return Ok(Listing(version, results));
  }

  const InstallAction := "install"
  const RemoveAction := "remove"

  /** The error a failed change reports. */
  function ChangeFailed(action: string, pkgName: string, message: string): string {
    "Failed to " + action + " " + pkgName + ": " + message
  }

  function AptCommand(action: string, pkgName: string): string {
    "DEBIAN_FRONTEND=noninteractive apt-get " + action + " -y " + pkgName
  }

  function RestartCommand(version: string): string {
    "systemctl restart php" + version + "-fpm"
  }

  /**
   * The calls after the version query: `apt-get <action>` of the package,
   * then the restart of that version's php-fpm.
   */
  function ChangeCalls(version: string, action: string, ext: string): seq<Cmd> {
    [Run(AptCommand(action, PackageName(version, ext))), Run(RestartCommand(version))]
  }

  /**
   * `installExtension` (action `install`) and `uninstallExtension` (action
   * `remove`): a name off the whitelist is refused before any command; the
   * first failing call ends the change, its message prefixed with the
   * action and package.
   */
  method Change(h: Host, ext: string, action: string) returns (r: Result<()>)
    modifies h`log
    ensures ext !in Extensions ==> r == Err(InvalidExtension) && h.log == old(h.log)
    ensures ext in Extensions ==>
      var n := |old(h.log)|;
      var version := VersionOf(h.shell(Run(VersionCommand), n));
      var calls := ChangeCalls(version, action, ext);
      var (e, k) := RunUntilError(h.shell, n + 1, calls);
      && h.log == old(h.log) + [Run(VersionCommand)] + calls[..k]
      && r == if e.None? then Ok(()) else Err(ChangeFailed(action, PackageName(version, ext), e.value))
  {
    if ext !in Extensions {
      return Err(InvalidExtension);
    }
    var version := GetPhpVersion(h);
    var pkgName := PackageName(version, ext);
    var err := h.ExecAll(ChangeCalls(version, action, ext));
    if err.Some? {
      return Err(ChangeFailed(action, pkgName, err.value));
    }
    return Ok(());
  }

  method InstallExtension(h: Host, ext: string) returns (r: Result<()>)
    modifies h`log
    ensures ext !in Extensions ==> r == Err(InvalidExtension) && h.log == old(h.log)
    ensures ext in Extensions ==>
      var n := |old(h.log)|;
      var version := VersionOf(h.shell(Run(VersionCommand), n));
      var calls := ChangeCalls(version, InstallAction, ext);
      var (e, k) := RunUntilError(h.shell, n + 1, calls);
      && h.log == old(h.log) + [Run(VersionCommand)] + calls[..k]
      && r == if e.None? then Ok(()) else Err(ChangeFailed(InstallAction, PackageName(version, ext), e.value))
  {
    r := Change(h, ext, InstallAction);
  }

  method UninstallExtension(h: Host, ext: string) returns (r: Result<()>)
    modifies h`log
    ensures ext !in Extensions ==> r == Err(InvalidExtension) && h.log == old(h.log)
    ensures ext in Extensions ==>
      var n := |old(h.log)|;
      var version := VersionOf(h.shell(Run(VersionCommand), n));
      var calls := ChangeCalls(version, RemoveAction, ext);
      var (e, k) := RunUntilError(h.shell, n + 1, calls);
      && h.log == old(h.log) + [Run(VersionCommand)] + calls[..k]
      && r == if e.None? then Ok(()) else Err(ChangeFailed(RemoveAction, PackageName(version, ext), e.value))
  {
    r := Change(h, ext, RemoveAction);
  }
}

/**
 * The validators of user-supplied names, domains, git branches and
 * repository URLs, each the exact language of its regular expression.
 */
module Validation {
  import opened Text

  /** The characters a shell treats specially outside quotes. */
  const ShellMeta := " \t\n;&|<>`$()'\"\\*?[]{}~#!"

  predicate NotShellMeta(c: char) { c !in ShellMeta }

  /** Letters, digits and `_ - / .` are not shell metacharacters. */
  lemma PlainNotMeta(c: char)
    requires IsAlnum(c) || c == '_' || c == '-' || c == '/' || c == '.'
    ensures NotShellMeta(c)
  {
  }

  /** A word the shell passes through unchanged. */
  predicate ShellSafe(s: string) { AllChars(s, NotShellMeta) }

  /** `/^[a-zA-Z0-9_-]{3,63}$/`. */
  predicate IsValidWebsiteName(name: string) {
    3 <= |name| <= 63 && AllChars(name, IsNameChar)
  }

  /** A valid name is one shell word and one path component: no metacharacter, dot or slash. */
  lemma ValidNameIsSafe(name: string)
    requires IsValidWebsiteName(name)
    ensures ShellSafe(name) && '.' !in name && '/' !in name
  {
    forall i | 0 <= i < |name| ensures NotShellMeta(name[i]) {
      assert IsNameChar(name[i]);
      PlainNotMeta(name[i]);
    }
  }

  /** `[a-zA-Z0-9-]`. */
  predicate IsLabelChar(c: char) { IsAlnum(c) || c == '-' }

  /** `[a-zA-Z0-9](?:[a-zA-Z0-9-]{0,61}[a-zA-Z0-9])?`: 1 to 63 characters, no hyphen at either end. */
  predicate IsDnsLabel(s: string) {
    1 <= |s| <= 63 && IsAlnum(s[0]) && IsAlnum(s[|s| - 1]) && AllChars(s, IsLabelChar)
  }

  /** `[a-zA-Z]{2,63}`. */
  predicate IsTld(s: string) {
    2 <= |s| <= 63 && AllChars(s, IsLetter)
  }

  /**
   * `/^(?:label\.)+[a-zA-Z]{2,63}$|^localhost$/`. A label holds no dot, so a
   * match splits the domain at its dots: labels, then a top-level domain.
   */
  predicate IsValidDomain(domain: string) {
    domain == "localhost" ||
      var parts := Split(domain, '.');
      |parts| >= 2 && IsTld(parts[|parts| - 1]) && forall i | 0 <= i < |parts| - 1 :: IsDnsLabel(parts[i])
  }

  /** Labels and a top-level domain joined by dots always form a valid domain. */
  lemma DomainOfLabels(labels: seq<string>, tld: string)
    requires |labels| >= 1 && IsTld(tld)
    requires forall i | 0 <= i < |labels| :: IsDnsLabel(labels[i])
    ensures IsValidDomain(Join(labels + [tld], "."))
  {
    var parts := labels + [tld];
    NoDotInParts(labels, tld);
    SplitJoin(parts, '.');
    DomainOfParts(Join(parts, "."), labels, tld);
  }

  lemma NoDotInParts(labels: seq<string>, tld: string)
    requires IsTld(tld) && forall i | 0 <= i < |labels| :: IsDnsLabel(labels[i])
    ensures forall i | 0 <= i < |labels + [tld]| :: '.' !in (labels + [tld])[i]
  {
    var parts := labels + [tld];
    forall i | 0 <= i < |parts| ensures '.' !in parts[i] {
      if i < |labels| {
        assert AllChars(labels[i], IsLabelChar);
      } else {
        assert AllChars(tld, IsLetter);
      }
    }
  }

  lemma DomainOfParts(d: string, labels: seq<string>, tld: string)
    requires Split(d, '.') == labels + [tld] && |labels| >= 1 && IsTld(tld)
    requires forall i | 0 <= i < |labels| :: IsDnsLabel(labels[i])
    ensures IsValidDomain(d)
  {
    var parts := labels + [tld];
    assert parts[|parts| - 1] == tld;
    forall i | 0 <= i < |parts| - 1 ensures IsDnsLabel(parts[i]) {
      assert parts[i] == labels[i];
    }
  }

  /** A valid domain is one shell word: labels, a top-level domain and dots. */
  lemma ValidDomainIsSafe(domain: string)
    requires IsValidDomain(domain)
    ensures ShellSafe(domain)
  {
    if domain != "localhost" {
      var parts := Split(domain, '.');
      forall i, j | 0 <= i < |parts| && 0 <= j < |parts[i]| ensures NotShellMeta(parts[i][j]) {
        if i < |parts| - 1 {
          assert IsLabelChar(parts[i][j]);
        } else {
          assert IsLetter(parts[i][j]);
        }
        PlainNotMeta(parts[i][j]);
      }
      PlainNotMeta('.');
      assert AllChars(".", NotShellMeta);
      JoinChars(parts, ".", NotShellMeta);
    }
  }

  /** `[a-zA-Z0-9\/\._-]`. */
  predicate IsBranchChar(c: char) { IsNameChar(c) || c == '/' || c == '.' }

  /** No `..`, and `/^[a-zA-Z0-9\/\._-]+$/`. */
  predicate IsValidGitBranch(branch: string) {
    !Contains(branch, "..") && branch != [] && AllChars(branch, IsBranchChar)
  }

  /** A valid branch is one shell word with no `..` anywhere: it cannot climb out of the repository. */
  lemma ValidBranchIsSafe(branch: string)
    requires IsValidGitBranch(branch)
    ensures ShellSafe(branch)
    ensures forall k | 0 <= k < |branch| - 1 :: !(branch[k] == '.' && branch[k + 1] == '.')
  {
    forall i | 0 <= i < |branch| ensures NotShellMeta(branch[i]) {
      assert IsBranchChar(branch[i]);
      PlainNotMeta(branch[i]);
    }
    forall k | 0 <= k < |branch| - 1 ensures !(branch[k] == '.' && branch[k + 1] == '.') {
      if branch[k] == '.' && branch[k + 1] == '.' {
        assert branch[k..k + 2] == "..";
        ContainsAt(branch, "..", k);
      }
    }
  }

  /** `[;&|><`$]`: the characters that reject a repository URL outright. */
  const InjectionChars := ";&|><`$"

  predicate NotInjection(c: char) { c !in InjectionChars }

  const Schemes: seq<string> := ["http://", "https://", "git://", "ssh://"]

  /** `^scheme[^\s]+$` for one of the schemes. */
  predicate SchemeUrlWith(url: string, scheme: string) {
    StartsWith(url, scheme) && |url| > |scheme| && AllChars(url[|scheme|..], NotSpace)
  }

  /** `/^(https?|git|ssh):\/\/[^\s]+$/`. */
  predicate IsSchemeUrl(url: string) {
    exists i | 0 <= i < |Schemes| :: SchemeUrlWith(url, Schemes[i])
  }

  /** `[a-zA-Z0-9_\-.]`. */
  predicate IsHostChar(c: char) { IsNameChar(c) || c == '.' }

  predicate NotLineTerminator(c: char) { !IsLineTerminator(c) }

  /** `user@host:path` with the `@` at `at` and the `:` at `colon`. */
  predicate ScpAt(url: string, at: nat, colon: nat) {
    0 < at && at + 1 < colon < |url| && url[at] == '@' && url[colon] == ':'
    && AllChars(url[..at], IsHostChar) && AllChars(url[at + 1..colon], IsHostChar)
    && AllChars(url[colon + 1..], NotLineTerminator)
  }

  /** `/^[a-zA-Z0-9_\-.]+@[a-zA-Z0-9_\-.]+:.*$/`. */
  predicate IsScpUrl(url: string) {
    exists at: nat, colon: nat | at < colon < |url| :: ScpAt(url, at, colon)
  }

  /** Not one of `;&|><`$`, and a scheme URL or an scp-style address. */
  predicate IsValidRepoUrl(url: string) {
    AllChars(url, NotInjection) && (IsSchemeUrl(url) || IsScpUrl(url))
  }

  /** The user and host of an scp-style address are fixed: the first `@` and the first `:` after it. */
  lemma ScpSplitUnique(url: string, at: nat, colon: nat, at2: nat, colon2: nat)
    requires ScpAt(url, at, colon) && ScpAt(url, at2, colon2)
    ensures at == at2 && colon == colon2
  {
  }

  /** The cases of the repository's own validator tests. */
  lemma NameExamples()
    ensures IsValidWebsiteName("my-site") && IsValidWebsiteName("site_123") && IsValidWebsiteName("abc")
    ensures !IsValidWebsiteName("ab") && !IsValidWebsiteName("my.site") && !IsValidWebsiteName("my site")
    ensures !IsValidWebsiteName(";rm -rf")
  {
    assert !IsNameChar("my.site"[2]);
    assert !IsNameChar("my site"[2]);
    assert !IsNameChar(";rm -rf"[0]);
  }

  lemma DomainExamples()
    ensures IsValidDomain("example.com") && IsValidDomain("sub.example.com") && IsValidDomain("localhost")
  {
    DomainOfLabels(["example"], "com");
    assert Join(["example"] + ["com"], ".") == "example.com";
    SubdomainExample();
  }

  lemma SubdomainExample()
    ensures IsValidDomain("sub.example.com")
  {
    var labels: seq<string> := ["sub", "example"];
    assert IsDnsLabel(labels[0]) && IsDnsLabel(labels[1]);
    DomainOfLabels(labels, "com");
    assert labels + ["com"] == ["sub", "example", "com"];
    SubdomainJoin();
  }

  lemma SubdomainJoin()
    ensures Join(["sub", "example", "com"], ".") == "sub.example.com"
  {
    var parts: seq<string> := ["sub", "example", "com"];
    assert parts[1..] == ["example", "com"];
    assert Join(parts[1..], ".") == "example.com";
    var d := "sub.example.com";
    assert d[4..] == "example.com";
    assert d == "sub" + "." + d[4..];
  }

  lemma DomainCounterExamples()
    ensures !IsValidDomain("example") && !IsValidDomain(";ls")
  {
    assert '.' !in "example";
    assert '.' !in ";ls";
  }

  lemma BranchExamples()
    ensures IsValidGitBranch("main") && IsValidGitBranch("v1.0")
  {
    NoDoubleDot("main");
    NoDoubleDot("v1.0");
  }

  lemma SlashBranchExample()
    ensures IsValidGitBranch("feature/foo")
  {
    NoDoubleDot("feature/foo");
  }

  lemma BranchCounterExamples()
    ensures !IsValidGitBranch("../foo") && !IsValidGitBranch("foo;bar")
  {
    ContainsAt("../foo", "..", 0);
    assert !IsBranchChar("foo;bar"[3]);
  }

  /** A string without two dots in a row does not contain `..`. */
  lemma NoDoubleDot(s: string)
    requires forall k | 0 <= k < |s| - 1 :: !(s[k] == '.' && s[k + 1] == '.')
    ensures !Contains(s, "..")
  {
    forall k: nat | k + 2 <= |s| ensures !OccursAt(s, "..", k) {
      assert s[k..k + 2][0] == s[k] && s[k..k + 2][1] == s[k + 1];
    }
  }

  /** A scheme followed by a non-empty run of URL characters is a scheme URL. */
  lemma SchemeUrlOf(i: nat, rest: string)
    requires i < |Schemes| && rest != [] && AllChars(rest, IsBranchChar)
    ensures IsSchemeUrl(Schemes[i] + rest)
  {
    var u := Schemes[i] + rest;
    assert u[|Schemes[i]|..] == rest;
    forall j | 0 <= j < |rest| ensures NotSpace(rest[j]) {
      assert IsBranchChar(rest[j]);
    }
    assert SchemeUrlWith(u, Schemes[i]);
  }

  /** `user@host:path` with a plain user and host is an scp-style address. */
  lemma ScpUrlOf(user: string, host: string, path: string)
    requires user != [] && host != [] && AllChars(user, IsHostChar) && AllChars(host, IsHostChar)
    requires AllChars(path, IsBranchChar)
    ensures IsScpUrl(user + "@" + host + ":" + path)
  {
    var u := user + "@" + host + ":" + path;
    var at, colon := |user|, |user| + 1 + |host|;
    assert u[..at] == user;
    assert u[at + 1..colon] == host;
    assert u[colon + 1..] == path;
    forall j | 0 <= j < |path| ensures NotLineTerminator(path[j]) {
      assert IsBranchChar(path[j]);
    }
    assert ScpAt(u, at, colon);
  }

  lemma RepoUrlCounterExample()
    ensures !IsValidRepoUrl("https://example.com/repo;rm -rf")
  {
    assert !NotInjection("https://example.com/repo;rm -rf"[24]);
  }
}

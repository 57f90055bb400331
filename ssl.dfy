/**
 * The certbot wrapper: the input checks in front of certificate issuance,
 * the HSTS step whose failure is tolerated, and the parser of the
 * `certbot certificates` listing.
 */
module Ssl {
  import opened Text
  import opened World

  const GenerateFailed := "SSL generation failed: "
  const RenewFailed := "SSL renewal failed: "
  const RevokeFailed := "Failed to revoke certificate: "
  const InvalidDomain := "Invalid domain name"
  const InvalidEmail := "Invalid email address"
  const ListCommand := "certbot certificates"
  const ReloadNginx := "systemctl reload nginx"

  /** The `sed` script that adds the HSTS header after certbot's `ssl_certificate_key` line. */
  const HstsScript := "'/ssl_certificate_key/a \\    add_header Strict-Transport-Security \"max-age=63072000; includeSubDomains; preload\" always;'"

  const NameMarker := "Certificate Name:"
  const DomainsMarker := "Domains:"
  const ExpiryMarker := "Expiry Date:"
  const PathMarker := "Certificate Path:"

  /** `[a-zA-Z0-9.-]`. */
  predicate IsDomainChar(c: char) { IsAlnum(c) || c == '.' || c == '-' }

  /** `/^[a-zA-Z0-9.-]+$/.test(domain)`, the empty string being refused. */
  predicate ValidDomain(domain: string) {
    domain != [] && AllChars(domain, IsDomainChar)
  }

  /** `[^\s@]`. */
  predicate Plain(c: char) { !IsSpace(c) && c != '@' }

  /**
   * `/^[^\s@]+@[^\s@]+\.[^\s@]+$/.test(email)`: an `@` at `i` and a dot at
   * `j` split the address into three non-empty runs of plain characters.
   */
  predicate ValidEmail(email: string) {
    exists i, j | 0 < i < |email| && i + 1 < j < |email| - 1 :: EmailAt(email, i, j)
  }

  /** Any `local@host.tld` whose three parts are non-empty plain runs passes the check. */
  lemma EmailAccepted(local: string, host: string, tld: string)
    requires local != [] && host != [] && tld != []
    requires AllChars(local, Plain) && AllChars(host, Plain) && AllChars(tld, Plain)
    ensures ValidEmail(local + "@" + host + "." + tld)
  {
    var e := local + "@" + host + "." + tld;
    var i, j := |local|, |local| + 1 + |host|;
    assert e[..i] == local && e[i + 1..j] == host && e[j + 1..] == tld;
    assert e[i] == '@' && e[j] == '.';
    assert EmailAt(e, i, j);
  }

  /** The `@` at `i` and the dot at `j` that make an address valid. */
  predicate EmailAt(email: string, i: int, j: int) {
    && 0 < i < |email| && i + 1 < j < |email| - 1
    && email[i] == '@' && email[j] == '.'
    && AllChars(email[..i], Plain) && AllChars(email[i + 1..j], Plain) && AllChars(email[j + 1..], Plain)
  }

  /** An accepted address has no white space and exactly one `@`, with text before it. */
  lemma EmailShape(email: string)
    requires ValidEmail(email)
    ensures AllChars(email, NotSpace)
    ensures var parts := Split(email, '@'); |parts| == 2 && parts[0] != []
  {
    var i, j :| EmailAt(email, i, j);
    EmailPlain(email, i, j);
    var a, b := email[..i], email[i + 1..];
    assert email == a + "@" + b;
    assert Join([a, b], "@") == a + "@" + b;
    SplitJoin([a, b], '@');
  }

  lemma EmailPlain(email: string, i: int, j: int)
    requires EmailAt(email, i, j)
    ensures AllChars(email, NotSpace)
    ensures '@' !in email[..i] && '@' !in email[i + 1..]
  {
    forall k | 0 <= k < |email| && k != i && k != j ensures Plain(email[k]) {
      if k < i {
        assert email[k] == email[..i][k];
      } else if i < k < j {
        assert email[k] == email[i + 1..j][k - i - 1];
      } else {
        assert email[k] == email[j + 1..][k - j - 1];
      }
    }
  }

  /**
   * An accepted domain is one shell word without a slash, so the certbot
   * argument and the site file path it names are both a single component.
   */
  lemma DomainShape(domain: string)
    requires ValidDomain(domain)
    ensures IsWord(domain) && '/' !in domain
  {
    forall k | 0 <= k < |domain| ensures NotSpace(domain[k]) && domain[k] != '/' {
      assert IsDomainChar(domain[k]);
    }
  }

  function CertbotCommand(domain: string, email: string): string {
    "certbot --nginx --non-interactive --agree-tos --email " + email + " -d " + domain
  }

  /** The in-place edit of the domain's site file. */
  function HstsCommand(domain: string): string {
    "sed -i " + HstsScript + " /etc/nginx/sites-available/" + domain
  }

  function HstsCalls(domain: string): seq<Cmd> {
    [Run(HstsCommand(domain)), Run(ReloadNginx)]
  }

  /** The HSTS calls made from log position `n`: both, or up to the first that fails. */
  function HstsLog(shell: (Cmd, nat) -> Outcome, n: nat, domain: string): seq<Cmd> {
    HstsCalls(domain)[..RunUntilError(shell, n, HstsCalls(domain)).1]
  }

  /**
   * `generateCert`: a bad domain or e-mail is refused before certbot runs;
   * a certbot failure fails the call; once certbot succeeds the HSTS header
   * and the reload are attempted and their failure is ignored.
   */
  method GenerateCert(h: Host, domain: string, email: string) returns (r: Result<()>)
    modifies h`log
    ensures !ValidDomain(domain) ==> r == Err(GenerateFailed + InvalidDomain) && h.log == old(h.log)
    ensures ValidDomain(domain) && !ValidEmail(email) ==> r == Err(GenerateFailed + InvalidEmail) && h.log == old(h.log)
    ensures ValidDomain(domain) && ValidEmail(email) ==>
      var c := Run(CertbotCommand(domain, email));
      var n := |old(h.log)|;
      match h.shell(c, n)
      case Failed(m) => r == Err(GenerateFailed + m) && h.log == old(h.log) + [c]
      case Done(_, _) => r == Ok(()) && h.log == old(h.log) + [c] + HstsLog(h.shell, n + 1, domain)
  {
    if !ValidDomain(domain) {
      return Err(GenerateFailed + InvalidDomain);
    }
    if !ValidEmail(email) {
      return Err(GenerateFailed + InvalidEmail);
    }
    var o := h.Exec(Run(CertbotCommand(domain, email)));
    if o.Failed? {
      return Err(GenerateFailed + o.message);
    }
    ghost var certbotLog := h.log;
    var ignored := h.ExecAll(HstsCalls(domain));
    assert h.log == certbotLog + HstsLog(h.shell, |certbotLog|, domain);
    return Ok(());
  }

  /** `renewCerts`. */
  method RenewCerts(h: Host) returns (r: Result<()>)
    modifies h`log
    ensures h.log == old(h.log) + [Run("certbot renew")]
    ensures match old(h.Next(Run("certbot renew")))
      case Failed(m) => r == Err(RenewFailed + m)
      case Done(_, _) => r == Ok(())
  {
    var o := h.Exec(Run("certbot renew"));
    if o.Failed? {
      return Err(RenewFailed + o.message);
    }
    return Ok(());
  }

  function RevokeCommand(certName: string): string {
    "certbot delete --cert-name " + certName + " --non-interactive"
  }

  /** `revokeCert`. */
  method RevokeCert(h: Host, certName: string) returns (r: Result<()>)
    modifies h`log
    ensures h.log == old(h.log) + [Run(RevokeCommand(certName))]
    ensures match old(h.Next(Run(RevokeCommand(certName))))
      case Failed(m) => r == Err(RevokeFailed + m)
      case Done(_, _) => r == Ok(())
  {
    var o := h.Exec(Run(RevokeCommand(certName)));
    if o.Failed? {
      return Err(RevokeFailed + o.message);
    }
    return Ok(());
  }

  /** One certificate of the listing; a field stays absent until a line sets it. */
  datatype Cert = Cert(name: string, domains: Option<seq<string>>, expiry: Option<string>, path: Option<string>)

  /** `line.split(':')[1]`: the text between the first and the second colon. */
  function SecondField(line: string): string
    requires ':' in line
  {
    Split(line, ':')[1]
  }

  /** `line.split(t)[1]` for a `t` that occurs in `line`: the text after its first occurrence, up to the next. */
  function AfterMarker(line: string, t: string): string
    requires Contains(line, t)
  {
    var i := FindStr(line, t).value;
    var rest := line[i + |t|..];
    match FindStr(rest, t)
    case None => rest
    case Some(j) => rest[..j]
  }

  lemma MarkerColon(line: string, t: string)
    requires Contains(line, t) && t != [] && t[|t| - 1] == ':'
    ensures ':' in line
  {
    var i := FindStr(line, t).value;
    assert line[i..i + |t|] == t;
    assert line[i + |t| - 1] == ':';
  }

  predicate IsNameLine(line: string) { Contains(line, NameMarker) }

  /** The certificate a `Certificate Name:` line opens. */
  function Named(line: string): Cert
    requires IsNameLine(line)
  {
    MarkerColon(line, NameMarker);
    Cert(Trim(SecondField(line)), None, None, None)
  }

  function DomainsOf(line: string): seq<string>
    requires Contains(line, DomainsMarker)
  {
    MarkerColon(line, DomainsMarker);
    Split(Trim(SecondField(line)), ' ')
  }

  function ExpiryOf(line: string): string
    requires Contains(line, ExpiryMarker)
  {
    Trim(Split(AfterMarker(line, ExpiryMarker), '(')[0])
  }

  function PathOf(line: string): string
    requires Contains(line, PathMarker)
  {
    MarkerColon(line, PathMarker);
    Trim(SecondField(line))
  }

  /** What a line that is not a name line does to the current certificate. */
  function Update(c: Cert, line: string): Cert {
    if Contains(line, DomainsMarker) then c.(domains := Some(DomainsOf(line)))
    else if Contains(line, ExpiryMarker) then c.(expiry := Some(ExpiryOf(line)))
    else if Contains(line, PathMarker) then c.(path := Some(PathOf(line)))
    else c
  }

  /**
   * The certificates of the first lines of a listing; the last one is the
   * one still being filled.
   */
  function CertsOf(lines: seq<string>): seq<Cert> {
    if lines == [] then []
    else
      var prev := CertsOf(lines[..|lines| - 1]);
      var line := lines[|lines| - 1];
      if IsNameLine(line) then prev + [Named(line)]
      else if prev == [] then []
      else prev[..|prev| - 1] + [Update(prev[|prev| - 1], line)]
  }

  lemma CertsStep(lines: seq<string>, i: nat)
    requires i < |lines|
    ensures var prev := CertsOf(lines[..i]);
      CertsOf(lines[..i + 1]) ==
        if IsNameLine(lines[i]) then prev + [Named(lines[i])]
        else if prev == [] then []
        else prev[..|prev| - 1] + [Update(prev[|prev| - 1], lines[i])]
  {
    assert lines[..i + 1][..i] == lines[..i];
  }

  /** The parse loop of `listCerts`, with the certificate being filled held apart. */
  method ParseCerts(stdout: string) returns (certs: seq<Cert>)
    ensures certs == CertsOf(Split(stdout, '\n'))
  {
    var lines := Split(stdout, '\n');
    certs := [];
    var current: Option<Cert> := None;
    var i := 0;
    while i < |lines|
      invariant 0 <= i <= |lines|
      invariant current.None? ==> certs == [] && CertsOf(lines[..i]) == []
      invariant current.Some? ==> CertsOf(lines[..i]) == certs + [current.value]
    {
      var line := lines[i];
      CertsStep(lines, i);
      if IsNameLine(line) {
        if current.Some? {
          certs := certs + [current.value];
        }
        current := Some(Named(line));
      } else if Contains(line, DomainsMarker) && current.Some? {
        current := Some(current.value.(domains := Some(DomainsOf(line))));
      } else if Contains(line, ExpiryMarker) && current.Some? {
        current := Some(current.value.(expiry := Some(ExpiryOf(line))));
      } else if Contains(line, PathMarker) && current.Some? {
        current := Some(current.value.(path := Some(PathOf(line))));
      }
      i := i + 1;
    }
    assert lines[..i] == lines;
    if current.Some? {
      certs := certs + [current.value];
    }
  }

  /** `listCerts`: any failure of the command gives no certificates. */
  method ListCerts(h: Host) returns (certs: seq<Cert>)
    modifies h`log
    ensures h.log == old(h.log) + [Run(ListCommand)]
    ensures match old(h.Next(Run(ListCommand)))
      case Failed(_) => certs == []
      case Done(out, _) => certs == CertsOf(Split(out, '\n'))
  {
    var o := h.Exec(Run(ListCommand));
    if o.Failed? {
      return [];
    }
    certs := ParseCerts(o.stdout);
  }

  function Names(certs: seq<Cert>): (names: seq<string>)
    ensures |names| == |certs|
    ensures forall k | 0 <= k < |certs| :: names[k] == certs[k].name
  {
    if certs == [] then [] else Names(certs[..|certs| - 1]) + [certs[|certs| - 1].name]
  }

  /** The name a line contributes, if it is a name line. */
  function NameIn(line: string): seq<string> {
    if IsNameLine(line) then [Named(line).name] else []
  }

  /** One certificate per name line, named by it, in the order of the lines. */
  lemma {:induction false} NamesInOrder(lines: seq<string>)
    ensures Names(CertsOf(lines)) == Gather(lines, NameIn)
  {
    if lines != [] {
      var init := lines[..|lines| - 1];
      NamesInOrder(init);
      var prev := CertsOf(init);
      var line := lines[|lines| - 1];
      if !IsNameLine(line) && prev != [] {
        assert Update(prev[|prev| - 1], line).name == prev[|prev| - 1].name;
        assert Names(CertsOf(lines)) == Names(prev);
      }
    }
  }

  predicate NoNameLines(lines: seq<string>) {
    forall l | l in lines :: !IsNameLine(l)
  }

  lemma {:induction false} NoNamesNoCerts(lines: seq<string>)
    requires NoNameLines(lines)
    ensures CertsOf(lines) == []
  {
    if lines != [] {
      NoNamesNoCerts(lines[..|lines| - 1]);
    }
  }

  /** Lines before the first name line set nothing. */
  lemma {:induction false} LeadingLinesIgnored(a: seq<string>, b: seq<string>)
    requires NoNameLines(a)
    ensures CertsOf(a + b) == CertsOf(b)
    decreases |b|
  {
    if b == [] {
      assert a + b == a;
      NoNamesNoCerts(a);
    } else {
      var init := b[..|b| - 1];
      LeadingLinesIgnored(a, init);
      assert (a + b)[..|a + b| - 1] == a + init;
      assert (a + b)[|a + b| - 1] == b[|b| - 1];
    }
  }

  /** The fields a certificate receives from the lines that follow its name line, applied in order. */
  function Fill(c: Cert, body: seq<string>): Cert {
    if body == [] then c else Update(Fill(c, body[..|body| - 1]), body[|body| - 1])
  }

  /**
   * A name line and the lines up to the next one make exactly one
   * certificate, filled from those lines only.
   */
  lemma {:induction false} BlockCert(p: seq<string>, n: string, body: seq<string>)
    requires IsNameLine(n) && NoNameLines(body)
    ensures CertsOf(p + [n] + body) == CertsOf(p) + [Fill(Named(n), body)]
    decreases |body|
  {
    if body == [] {
      assert p + [n] + body == p + [n];
      CertsSnoc(p, n);
    } else {
      var init, line := body[..|body| - 1], body[|body| - 1];
      BlockCert(p, n, init);
      SnocSplit(p + [n], body);
      CertsSnoc(p + [n] + init, line);
      var prev := CertsOf(p + [n] + init);
      assert line in body;
      assert prev[..|prev| - 1] == CertsOf(p);
      assert prev[|prev| - 1] == Fill(Named(n), init);
    }
  }

  lemma CertsSnoc(init: seq<string>, line: string)
    ensures var prev := CertsOf(init);
      CertsOf(init + [line]) ==
        if IsNameLine(line) then prev + [Named(line)]
        else if prev == [] then []
        else prev[..|prev| - 1] + [Update(prev[|prev| - 1], line)]
  {
    var lines := init + [line];
    assert lines[..|lines| - 1] == init;
    assert lines[|lines| - 1] == line;
  }

  lemma SplitColons(pre: string, x: string, post: string)
    requires ':' !in pre && ':' !in x && (post == [] || post[0] == ':')
    ensures ':' in pre + ":" + x + post && SecondField(pre + ":" + x + post) == x
  {
    var s := pre + ":" + x + post;
    var rest := x + post;
    assert s[|pre|] == ':' && s[..|pre|] == pre && s[|pre| + 1..] == rest;
    SplitAt(s, |pre|, ':');
    if post != [] {
      assert rest[|x|] == ':' && rest[..|x|] == x;
      SplitAt(rest, |x|, ':');
    } else {
      assert rest == x;
    }
  }

  /** `Domains: a b` gives the names after the colon, split on single spaces. */
  lemma DomainsLine(pre: string, list: string)
    requires ':' !in pre && ':' !in list
    ensures Contains(pre + DomainsMarker + list, DomainsMarker)
    ensures DomainsOf(pre + DomainsMarker + list) == Split(Trim(list), ' ')
  {
    ContainsInfix(pre, DomainsMarker, list);
    assert pre + DomainsMarker + list == (pre + "Domains") + ":" + list + "";
    assert ':' !in pre + "Domains";
    SplitColons(pre + "Domains", list, "");
  }

  lemma FirstMarker(pre: string, rest: string)
    requires ':' !in pre
    ensures FindStr(pre + ExpiryMarker + rest, ExpiryMarker) == Some(|pre|)
  {
    var line := pre + ExpiryMarker + rest;
    var t := ExpiryMarker;
    assert OccursAt(line, t, |pre|);
    forall k: nat | k < |pre| ensures !OccursAt(line, t, k) {
      NoEarlyMarker(pre, rest, k);
    }
  }

  /** The marker cannot start inside a colon-free prefix: its colon would fall there or inside the marker itself. */
  lemma NoEarlyMarker(pre: string, rest: string, k: nat)
    requires ':' !in pre && k < |pre|
    ensures !OccursAt(pre + ExpiryMarker + rest, ExpiryMarker, k)
  {
    var line := pre + ExpiryMarker + rest;
    if k + 12 <= |line| {
      assert line[k..k + 12][11] == line[k + 11];
      if k + 11 < |pre| {
        assert line[k + 11] == pre[k + 11];
      } else {
        assert line[k + 11] == ExpiryMarker[k + 11 - |pre|];
      }
    }
  }

  /** `Expiry Date: d (…)` gives `d` trimmed, when the marker occurs once and `d` has no parenthesis. */
  lemma ExpiryLine(pre: string, date: string, tail: string)
    requires ':' !in pre && '(' !in date
    requires !Contains(date + "(" + tail, ExpiryMarker)
    ensures Contains(pre + ExpiryMarker + date + "(" + tail, ExpiryMarker)
    ensures ExpiryOf(pre + ExpiryMarker + date + "(" + tail) == Trim(date)
  {
    var rest := date + "(" + tail;
    var line := pre + ExpiryMarker + date + "(" + tail;
    assert line == pre + ExpiryMarker + rest;
    FirstMarker(pre, rest);
    assert line[|pre| + |ExpiryMarker|..] == rest;
    assert AfterMarker(line, ExpiryMarker) == rest;
    assert rest == date + "(" + tail;
    assert rest[|date|] == '(' && rest[..|date|] == date;
    IndexOfIs(rest, '(', |date|);
  }
}

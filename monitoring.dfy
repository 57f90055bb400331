/**
 * The monitoring service: the uptime formatter, the per-service status map
 * and the traffic counters read from the nginx access log.
 */
module Monitoring {
  import opened Text
  import opened World

  /** Whole days, the hours of the day and the minutes of the hour. */
  datatype Uptime = Uptime(days: nat, hours: nat, minutes: nat)

  function UptimeOf(seconds: nat): Uptime {
    Uptime(seconds / 86400, (seconds % 86400) / 3600, (seconds % 3600) / 60)
  }

  /** `formatUptime`: `<d>d <h>h <m>m`. */
  function FormatUptime(seconds: nat): string {
    var u := UptimeOf(seconds);
    NatToString(u.days) + "d " + NatToString(u.hours) + "h " + NatToString(u.minutes) + "m"
  }

  /**
   * The parts are a proper clock reading: hours below 24, minutes below 60,
   * and together they account for the seconds to within the last minute.
   */
  lemma UptimeBounds(seconds: nat)
    ensures var u := UptimeOf(seconds);
      && u.hours < 24 && u.minutes < 60
      && u.days * 86400 + u.hours * 3600 + u.minutes * 60 <= seconds
      && seconds < u.days * 86400 + u.hours * 3600 + u.minutes * 60 + 60
  {
    var u := UptimeOf(seconds);
    var r1 := seconds % 86400;
    assert seconds == u.days * 86400 + r1;
    var r2 := r1 % 3600;
    assert r1 == u.hours * 3600 + r2;
    assert u.hours < 24;
    assert seconds == (u.days * 24 + u.hours) * 3600 + r2;
    assert seconds % 3600 == r2;
    var r3 := r2 % 60;
    assert r2 == u.minutes * 60 + r3;
  }

  /** A word made of a decimal count and a one-letter unit. */
  function ReadUnit(w: string, unit: char): Option<nat> {
    if |w| >= 2 && w[|w| - 1] == unit && AllChars(w[..|w| - 1], IsDigit) then Some(DecimalValue(w[..|w| - 1]))
    else None
  }

  /** Reads `<d>d <h>h <m>m` back. */
  function ReadUptime(text: string): Option<Uptime> {
    var ws := Split(text, ' ');
    if |ws| != 3 then None
    else match (ReadUnit(ws[0], 'd'), ReadUnit(ws[1], 'h'), ReadUnit(ws[2], 'm'))
      case (Some(d), Some(h), Some(m)) => Some(Uptime(d, h, m))
      case _ => None
  }

  lemma ReadUnitOf(n: nat, unit: char)
    requires unit != ' '
    ensures ' ' !in NatToString(n) + [unit]
    ensures ReadUnit(NatToString(n) + [unit], unit) == Some(n)
  {
    var s := NatToString(n);
    var w := s + [unit];
    assert w[..|w| - 1] == s;
    DigitsHaveNoSpace(s);
  }

  /** The text reads back as the days, hours and minutes it was made from. */
  lemma FormatUptimeReads(seconds: nat)
    ensures ReadUptime(FormatUptime(seconds)) == Some(UptimeOf(seconds))
  {
    var u := UptimeOf(seconds);
    var a, b, c := NatToString(u.days) + "d", NatToString(u.hours) + "h", NatToString(u.minutes) + "m";
    ReadUnitOf(u.days, 'd');
    ReadUnitOf(u.hours, 'h');
    ReadUnitOf(u.minutes, 'm');
    assert FormatUptime(seconds) == a + " " + b + " " + c;
    SplitThree(a, b, c, ' ');
  }

  const Services := ["nginx", "mariadb", "php8.2-fpm", "redis-server", "postfix"]

  function IsActiveCall(service: string): Cmd {
    Run("systemctl is-active " + service)
  }

  /** The status calls for the services, in order. */
  function StatusCalls(services: seq<string>): (calls: seq<Cmd>)
    ensures |calls| == |services|
    ensures forall k | 0 <= k < |services| :: calls[k] == IsActiveCall(services[k])
  {
    if services == [] then [] else StatusCalls(services[..|services| - 1]) + [IsActiveCall(services[|services| - 1])]
  }

  lemma StatusCallsStep(services: seq<string>, i: nat)
    requires i < |services|
    ensures StatusCalls(services[..i + 1]) == StatusCalls(services[..i]) + [IsActiveCall(services[i])]
  {
    assert services[..i + 1][..i] == services[..i];
  }

  /** A service is up when the call succeeds and prints `active`; a failed call reads as down. */
  predicate Active(o: Outcome) {
    o.Done? && Trim(o.stdout) == "active"
  }

  /**
   * The map the status calls fill in, the `k`-th call being made at log
   * position `n + k` and its outcome read by `verdict`.
   */
  function StatusFrom(verdict: Outcome -> bool, shell: (Cmd, nat) -> Outcome, n: nat, services: seq<string>): map<string, bool> {
    if services == [] then map[]
    else
      var init := services[..|services| - 1];
      var last := services[|services| - 1];
      StatusFrom(verdict, shell, n, init)[last := verdict(shell(IsActiveCall(last), n + |init|))]
  }

  lemma StatusFromStep(verdict: Outcome -> bool, shell: (Cmd, nat) -> Outcome, n: nat, services: seq<string>, i: nat)
    requires i < |services|
    ensures StatusFrom(verdict, shell, n, services[..i + 1])
      == StatusFrom(verdict, shell, n, services[..i])[services[i] := verdict(shell(IsActiveCall(services[i]), n + i))]
  {
    assert services[..i + 1][..i] == services[..i];
  }

  predicate Distinct(services: seq<string>) {
    forall i, j | 0 <= i < j < |services| :: services[i] != services[j]
  }

  /**
   * For distinct services the map has exactly their keys, each holding the
   * verdict on its own call.
   */
  lemma {:induction false} StatusFromMeaning(verdict: Outcome -> bool, shell: (Cmd, nat) -> Outcome, n: nat, services: seq<string>)
    requires Distinct(services)
    ensures forall s :: s in StatusFrom(verdict, shell, n, services) <==> s in services
    ensures forall k | 0 <= k < |services| ::
      StatusFrom(verdict, shell, n, services)[services[k]] == verdict(shell(IsActiveCall(services[k]), n + k))
  {
    if services != [] {
      var init := services[..|services| - 1];
      StatusFromMeaning(verdict, shell, n, init);
      var last := services[|services| - 1];
      var m := StatusFrom(verdict, shell, n, services);
      assert services == init + [last];
      forall k | 0 <= k < |services|
        ensures m[services[k]] == verdict(shell(IsActiveCall(services[k]), n + k))
      {
        if k < |init| {
          assert init[k] == services[k];
          assert services[k] != last;
        }
      }
    }
  }

  lemma ServicesDistinct()
    ensures Distinct(Services)
  {
    assert Services[1][0] != Services[4][0];
  }

  /** The five services are reported exactly, each up exactly when its own call printed `active`. */
  lemma ServiceStatusMeaning(shell: (Cmd, nat) -> Outcome, n: nat)
    ensures forall s :: s in StatusFrom(Active, shell, n, Services) <==> s in Services
    ensures forall k | 0 <= k < |Services| ::
      StatusFrom(Active, shell, n, Services)[Services[k]] == Active(shell(IsActiveCall(Services[k]), n + k))
  {
    ServicesDistinct();
    StatusFromMeaning(Active, shell, n, Services);
  }

  /**
   * The loop of `getServiceStatus`: one `systemctl is-active` call per
   * service, in order, each outcome read by `verdict`.
   */
  method CheckServices(h: Host, services: seq<string>, verdict: Outcome -> bool) returns (status: map<string, bool>)
    modifies h`log
    ensures h.log == old(h.log) + StatusCalls(services)
    ensures status == StatusFrom(verdict, h.shell, |old(h.log)|, services)
  {
    ghost var n := |h.log|;
    ghost var shell := h.shell;
    status := map[];
    var i := 0;
    while i < |services|
      invariant 0 <= i <= |services|
      invariant h.log == old(h.log) + StatusCalls(services[..i])
      invariant |h.log| == n + i
      invariant status == StatusFrom(verdict, shell, n, services[..i])
    {
      StatusCallsStep(services, i);
      StatusFromStep(verdict, shell, n, services, i);
      var o := h.Exec(IsActiveCall(services[i]));
      status := status[services[i] := verdict(o)];
      i := i + 1;
    }
    assert services[..i] == services;
  }

  /** `getServiceStatus` over the five services. */
  method GetServiceStatus(h: Host) returns (status: map<string, bool>)
    modifies h`log
    ensures h.log == old(h.log) + StatusCalls(Services)
    ensures status == StatusFrom(Active, h.shell, |old(h.log)|, Services)
  {
    status := CheckServices(h, Services, Active);
  }

  /** The awk script counting requests, errors and bytes in the access log. */
  const TrafficCommand := "\n      awk '\n        /GET|POST/ {requests++}\n        /HTTP\\/[0-9].[0-9]\" 2/ {errors++}\n        /HTTP\\/[0-9].[0-9]\" [45]/ {errors++}\n        {bytes+=$10}\n        END {print requests, errors, bytes}\n      ' /var/log/nginx/access.log\n    "

  /** Request and error counts and the byte total; the byte total stands for its formatted text. */
  datatype Traffic = Traffic(requests: nat, errors: nat, bytes: nat)

  /** `Number(w) || 0` for a word printed by awk: its value when it is a decimal count, else 0. */
  function Count(words: seq<string>, k: nat): nat {
    if k < |words| && IsDigits(words[k]) then DecimalValue(words[k]) else 0
  }

  function TrafficOf(stdout: string): Traffic {
    var words := Split(Trim(stdout), ' ');
    Traffic(Count(words, 0), Count(words, 1), Count(words, 2))
  }

  /** `getTrafficStats`: a failed command gives zero counts and zero bytes (`0 B`). */
  method GetTrafficStats(h: Host) returns (t: Traffic)
    modifies h`log
    ensures h.log == old(h.log) + [Run(TrafficCommand)]
    ensures match old(h.Next(Run(TrafficCommand)))
      case Failed(_) => t == Traffic(0, 0, 0)
      case Done(out, _) => t == TrafficOf(out)
  {
    var o := h.Exec(Run(TrafficCommand));
    if o.Failed? {
      return Traffic(0, 0, 0);
    }
    t := TrafficOf(o.stdout);
  }

  /** The line awk prints reads back as the three counts. */
  lemma TrafficReads(requests: nat, errors: nat, bytes: nat)
    ensures TrafficOf(NatToString(requests) + " " + NatToString(errors) + " " + NatToString(bytes) + "\n")
      == Traffic(requests, errors, bytes)
  {
    var a, b, c := NatToString(requests), NatToString(errors), NatToString(bytes);
    CountsLine(a, b, c);
  }

  /** Three digit words and the newline awk ends its line with split back into the words. */
  lemma CountsLine(a: string, b: string, c: string)
    requires IsDigits(a) && IsDigits(b) && IsDigits(c)
    ensures Split(Trim(a + " " + b + " " + c + "\n"), ' ') == [a, b, c]
  {
    CountsTrimmed(a, b, c);
    DigitsHaveNoSpace(a);
    DigitsHaveNoSpace(b);
    DigitsHaveNoSpace(c);
    SplitThree(a, b, c, ' ');
  }

  lemma CountsTrimmed(a: string, b: string, c: string)
    requires IsDigits(a) && IsDigits(c)
    ensures Trim(a + " " + b + " " + c + "\n") == a + " " + b + " " + c
  {
    var line := a + " " + b + " " + c;
    assert line[0] == a[0] && line[|line| - 1] == c[|c| - 1];
    assert IsDigit(a[0]) && IsDigit(c[|c| - 1]);
    TrimSpaceAfter(line, '\n');
  }

  lemma DigitsHaveNoSpace(s: string)
    requires IsDigits(s)
    ensures ' ' !in s
  {
    assert forall k | 0 <= k < |s| :: IsDigit(s[k]);
  }
}

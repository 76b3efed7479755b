/** The DNS resolver: hostname normalisation, the shaping of a resolution outcome into a
    `DnsResolution`, and the per-address ping with its ordered command fallbacks.
    The resolver thread, the ping processes and `isReachable` are oracles: the lookup
    result is a function of the normalised name, a command's outcome a function of its
    command line, and the reachability probe's outcome a function of the address. */
module DnsResolver {
  import opened Common

  const DnsTimeoutMs: int := 5000

  datatype PingResult = PingResult(ipAddress: string, success: bool, latencyMs: Option<int>, rawOutput: string)

  datatype DnsResolution = DnsResolution(
    isUp: bool,
    errorMessage: Option<string>,
    ipAddresses: seq<string>,
    pingResults: seq<PingResult>,
    logs: seq<string>)

  /** A ping process: its exit code, elapsed milliseconds and captured output, or an exception. */
  datatype CommandOutcome = Exited(exitCode: int, elapsedMs: int, output: string) | CommandFailed(exc: Exc)

  /** `InetAddress.isReachable(3000)`: its answer and elapsed milliseconds, or an exception. */
  datatype ReachOutcome = Reachable(reachable: bool, elapsedMs: int) | ReachFailed(exc: Exc)

  /** The bounded lookup: the latch timed out, `getAllByName` threw, or it returned
      addresses whose `hostAddress` may be null. */
  datatype Lookup = TimedOut | LookupFailed(exc: Exc) | Resolved(addresses: seq<Option<string>>)

  // ---------------------------------------------------------------------------
  // Normalisation

  /** The URI host replaces the input when the input contains "://" and a host parses. */
  function HostOf(t: string, plat: Platform): string {
    if Contains(t, "://") && plat.uriHost(t).Some? then plat.uriHost(t).value else t
  }

  function DropTrailingDot(h: string): string {
    if |h| > 0 && h[|h| - 1] == '.' then h[..|h| - 1] else h
  }

  /** Trim, take the URI host, drop one trailing dot, then IDN, keeping the name if IDN throws. */
  function NormalizeHostname(input: string, plat: Platform): string {
    var h := DropTrailingDot(HostOf(Trim(input), plat));
    plat.idnToAscii(h).GetOr(h)
  }

  /** `normalizeHostname`, step by step on `h`. */
  method Normalize(input: string, plat: Platform) returns (h: string)
    ensures h == NormalizeHostname(input, plat)
  {
    h := Trim(input);
    if Contains(h, "://") {
      var host := plat.uriHost(h);
      if host.Some? {
        h := host.value;
      }
    }
    if |h| > 0 && h[|h| - 1] == '.' {
      h := h[..|h| - 1];
    }
    h := plat.idnToAscii(h).GetOr(h);
  }

  /** Exactly one trailing dot is dropped, however many there are. */
  lemma DropsExactlyOneDot(h: string)
    ensures |h| > 0 && h[|h| - 1] == '.' ==> DropTrailingDot(h) + "." == h
    ensures !(|h| > 0 && h[|h| - 1] == '.') ==> DropTrailingDot(h) == h
  {
  }

  /** A name that is already normal comes back unchanged. */
  lemma NormalizeKeepsNormalName(input: string, plat: Platform)
    requires Trim(input) == input && !Contains(input, "://")
    requires !(|input| > 0 && input[|input| - 1] == '.')
    requires plat.idnToAscii(input) == Some(input)
    ensures NormalizeHostname(input, plat) == input
  {
  }

  /** Whitespace around the input does not change the normalised name. */
  lemma NormalizeIgnoresPadding(p: string, s: string, q: string, plat: Platform)
    requires AllWhitespace(p) && AllWhitespace(q)
    ensures NormalizeHostname(p + s + q, plat) == NormalizeHostname(s, plat)
  {
    TrimIgnoresPadding(p, s, q);
  }

  /** A URL is reduced to its host (one trailing dot dropped) before the IDN step. */
  lemma NormalizeUrlToHost(input: string, host: string, plat: Platform)
    requires Contains(Trim(input), "://") && plat.uriHost(Trim(input)) == Some(host)
    ensures NormalizeHostname(input, plat) == plat.idnToAscii(DropTrailingDot(host)).GetOr(DropTrailingDot(host))
  {
  }

  // ---------------------------------------------------------------------------
  // Pinging one address

  function Candidates(ip: string): seq<seq<string>> {
    [ ["/system/bin/ping", "-c", "1", "-w", "3", ip],
      ["/system/bin/ping", "-c", "1", ip],
      ["ping", "-c", "1", "-w", "3", ip],
      ["ping", "-c", "1", ip] ]
  }

  function PingingLine(ip: string, cmd: seq<string>): string {
    "Pinging " + ip + " with: " + Join(cmd, " ")
  }

  /** The two log lines of one command attempt. */
  function AttemptLines(ip: string, cmd: seq<string>, outcome: CommandOutcome): seq<string> {
    match outcome
    case Exited(code, ms, _) =>
      [PingingLine(ip, cmd),
       "Ping " + (if code == 0 then "succeeded" else "failed") + " for " + ip
       + " (exit=" + IntToString(code) + ", " + IntToString(ms) + "ms)"]
    case CommandFailed(e) =>
      [PingingLine(ip, cmd), "Ping command error for " + ip + ": " + Show(e.message)]
  }

  predicate Succeeds(outcome: CommandOutcome) {
    outcome.Exited? && outcome.exitCode == 0
  }

  /** The `isReachable` fallback and the log lines it adds. */
  function Fallback(ip: string, reach: string -> ReachOutcome): (PingResult, seq<string>) {
    var head := "Fallback isReachable() for " + ip + " (3s)...";
    match reach(ip)
    case Reachable(ok, ms) =>
      (PingResult(ip, ok, Some(ms), "isReachable=" + BoolToString(ok)),
       [head, "isReachable result for " + ip + ": " + BoolToString(ok) + " (" + IntToString(ms) + "ms)"])
    case ReachFailed(e) =>
      (PingResult(ip, false, None, e.message.GetOr("Ping failed")),
       [head, "isReachable error for " + ip + ": " + Show(e.message)])
  }

  /** What `pingIp` does from a given remaining list of candidates on: the result and the
      log lines it appends. */
  function PingFrom(ip: string, cands: seq<seq<string>>, exec: seq<string> -> CommandOutcome,
                    reach: string -> ReachOutcome): (PingResult, seq<string>)
    decreases |cands|
  {
    if cands == [] then Fallback(ip, reach)
    else
      var outcome := exec(cands[0]);
      var lines := AttemptLines(ip, cands[0], outcome);
      if Succeeds(outcome) then (PingResult(ip, true, Some(outcome.elapsedMs), outcome.output), lines)
      else
        var rest := PingFrom(ip, cands[1..], exec, reach);
        (rest.0, lines + rest.1)
  }

  /** `pingIp` from the full candidate list. */
  function PingOne(ip: string, exec: seq<string> -> CommandOutcome, reach: string -> ReachOutcome)
    : (r: (PingResult, seq<string>))
    ensures r.0.ipAddress == ip && (r.0.success ==> r.0.latencyMs.Some?)
  {
    PingResultShape(ip, Candidates(ip), exec, reach);
    PingFrom(ip, Candidates(ip), exec, reach)
  }

  /** `pingIp`: tries the candidates in order, returning at the first exit code 0, and
      falls back to `isReachable` when none succeeds; every line goes to the shared log. */
  method PingIp(ip: string, exec: seq<string> -> CommandOutcome, reach: string -> ReachOutcome, logsIn: seq<string>)
    returns (r: PingResult, logs: seq<string>)
    ensures r == PingOne(ip, exec, reach).0
    ensures logs == logsIn + PingOne(ip, exec, reach).1
    ensures r.ipAddress == ip
    ensures r.success ==> r.latencyMs.Some?
  {
    var cands := Candidates(ip);
    logs := logsIn;
    for i := 0 to |cands|
      invariant PingFrom(ip, cands, exec, reach).0 == PingFrom(ip, cands[i..], exec, reach).0
      invariant logsIn + PingFrom(ip, cands, exec, reach).1 == logs + PingFrom(ip, cands[i..], exec, reach).1
    {
      var outcome := exec(cands[i]);
      var lines := AttemptLines(ip, cands[i], outcome);
      assert cands[i..][1..] == cands[i + 1..];
      if Succeeds(outcome) {
        r := PingResult(ip, true, Some(outcome.elapsedMs), outcome.output);
        logs := logs + lines;
        assert PingFrom(ip, cands[i..], exec, reach) == (r, lines);
        return;
      }
      logs := logs + lines;
    }
    assert cands[|cands|..] == [];
    var fb := Fallback(ip, reach);
    r := fb.0;
    logs := logs + fb.1;
  }

  /** Every ping result names its address, and a successful one has a latency. */
  lemma {:induction false} PingResultShape(ip: string, cands: seq<seq<string>>, exec: seq<string> -> CommandOutcome,
                                           reach: string -> ReachOutcome)
    ensures var p := PingFrom(ip, cands, exec, reach);
      p.0.ipAddress == ip && (p.0.success ==> p.0.latencyMs.Some?) && |p.1| >= 2
    decreases |cands|
  {
    if cands != [] && !Succeeds(exec(cands[0])) {
      PingResultShape(ip, cands[1..], exec, reach);
    }
  }

  /** The first candidate that exits with 0 decides the result: its latency and output are
      reported, and exactly two log lines were added per candidate tried up to it. */
  lemma {:induction false} FirstSuccessWins(ip: string, cands: seq<seq<string>>, exec: seq<string> -> CommandOutcome,
                                            reach: string -> ReachOutcome, k: nat)
    requires k < |cands| && Succeeds(exec(cands[k]))
    requires forall j :: 0 <= j < k ==> !Succeeds(exec(cands[j]))
    ensures var p := PingFrom(ip, cands, exec, reach);
      && p.0 == PingResult(ip, true, Some(exec(cands[k]).elapsedMs), exec(cands[k]).output)
      && |p.1| == 2 * (k + 1)
    decreases k
  {
    if k > 0 {
      assert !Succeeds(exec(cands[0]));
      assert forall j :: 0 <= j < k - 1 ==> cands[1..][j] == cands[j + 1];
      FirstSuccessWins(ip, cands[1..], exec, reach, k - 1);
    }
  }

  /** Only when no candidate succeeds is `isReachable` used, after two lines per candidate. */
  lemma {:induction false} FallbackWhenNoneSucceeds(ip: string, cands: seq<seq<string>>, exec: seq<string> -> CommandOutcome,
                                                    reach: string -> ReachOutcome)
    requires forall j :: 0 <= j < |cands| ==> !Succeeds(exec(cands[j]))
    ensures var p := PingFrom(ip, cands, exec, reach);
      && p.0 == Fallback(ip, reach).0
      && |p.1| == 2 * |cands| + 2
      && p.1[|p.1| - 2..] == Fallback(ip, reach).1
    decreases |cands|
  {
    if cands != [] {
      assert !Succeeds(exec(cands[0]));
      FallbackWhenNoneSucceeds(ip, cands[1..], exec, reach);
      var rest := PingFrom(ip, cands[1..], exec, reach);
      var lines := AttemptLines(ip, cands[0], exec(cands[0]));
      assert (lines + rest.1)[|lines + rest.1| - 2..] == rest.1[|rest.1| - 2..];
    }
  }

  /** The fallback's exception gives a failed result without latency. */
  lemma FallbackFailure(ip: string, reach: string -> ReachOutcome)
    requires reach(ip).ReachFailed?
    ensures !Fallback(ip, reach).0.success && Fallback(ip, reach).0.latencyMs.None?
  {
  }

  // ---------------------------------------------------------------------------
  // Resolving

  /** `mapNotNull { it.hostAddress }`. */
  function HostAddresses(addresses: seq<Option<string>>): seq<string> {
    if addresses == [] then []
    else
      var rest := HostAddresses(addresses[1..]);
      if addresses[0].Some? then [addresses[0].value] + rest else rest
  }

  /** `ips.map { pingIp(it, logs) }`: the ping results and the log lines appended, in order. */
  function PingAll(ips: seq<string>, exec: seq<string> -> CommandOutcome, reach: string -> ReachOutcome)
    : (seq<PingResult>, seq<string>)
    decreases |ips|
  {
    if ips == [] then ([], [])
    else
      var prev := PingAll(ips[..|ips| - 1], exec, reach);
      var one := PingOne(ips[|ips| - 1], exec, reach);
      (prev.0 + [one.0], prev.1 + one.1)
  }

  function ResolvingLine(hostname: string, normalized: string): string {
    "Resolving hostname: '" + hostname + "' -> '" + normalized + "'"
  }

  function TimeoutLine(normalized: string): string {
    "DNS resolution timeout after 5000ms for '" + normalized + "'"
  }

  function LookupFailedLine(normalized: string, e: Exc): string {
    "DNS resolution failed for '" + normalized + "': " + Show(e.message)
  }

  function ResolvedLine(ips: seq<string>): string {
    "Resolved " + IntToString(|ips|) + " IP(s): " + Join(ips, ", ")
  }

  function NoAddressMessage(normalized: string): string {
    "No IP addresses returned for " + normalized
  }

  predicate AnySuccess(pings: seq<PingResult>) {
    exists i :: 0 <= i < |pings| && pings[i].success
  }

  /** `resolveWithPing`, as a function of the oracles. */
  function Resolution(hostname: string, plat: Platform, lookup: string -> Lookup,
                      exec: seq<string> -> CommandOutcome, reach: string -> ReachOutcome): DnsResolution
  {
    var normalized := NormalizeHostname(hostname, plat);
    var logs := [ResolvingLine(hostname, normalized)];
    match lookup(normalized)
    case TimedOut =>
      DnsResolution(false, Some("DNS resolution timeout"), [], [],
        logs + [TimeoutLine(normalized)])
    case LookupFailed(e) =>
      DnsResolution(false, e.message, [], [],
        logs + [LookupFailedLine(normalized, e)])
    case Resolved(addresses) =>
      var ips := HostAddresses(addresses);
      var pings := PingAll(ips, exec, reach);
      DnsResolution(AnySuccess(pings.0) || |ips| > 0,
        if |ips| == 0 then Some(NoAddressMessage(normalized)) else None,
        ips, pings.0, logs + [ResolvedLine(ips)] + pings.1)
  }

  /** The `ips.map { pingIp(it, logs) }` loop: each address is pinged in turn, all on the shared log. */
  method PingEach(ips: seq<string>, exec: seq<string> -> CommandOutcome, reach: string -> ReachOutcome,
                  logsIn: seq<string>)
    returns (pings: seq<PingResult>, logs: seq<string>)
    ensures pings == PingAll(ips, exec, reach).0
    ensures logs == logsIn + PingAll(ips, exec, reach).1
  {
    pings, logs := [], logsIn;
    for i := 0 to |ips|
      invariant pings == PingAll(ips[..i], exec, reach).0
      invariant logs == logsIn + PingAll(ips[..i], exec, reach).1
    {
      PingAllSnoc(ips, i, exec, reach, logsIn);
      var p;
      p, logs := PingIp(ips[i], exec, reach, logs);
      pings := pings + [p];
    }
    assert ips[..|ips|] == ips;
  }

  /** One more address pinged: `PingAll` of the longer prefix extends the shorter one. */
  lemma PingAllSnoc(ips: seq<string>, i: nat, exec: seq<string> -> CommandOutcome, reach: string -> ReachOutcome,
                    logsIn: seq<string>)
    requires i < |ips|
    ensures var before := PingAll(ips[..i], exec, reach);
      var one := PingOne(ips[i], exec, reach);
      var after := PingAll(ips[..i + 1], exec, reach);
      && after.0 == before.0 + [one.0]
      && logsIn + after.1 == (logsIn + before.1) + one.1
  {
    var s := ips[..i + 1];
    assert s[..|s| - 1] == ips[..i];
    assert s[|s| - 1] == ips[i];
  }

  method ResolveWithPing(hostname: string, plat: Platform, lookup: string -> Lookup,
                         exec: seq<string> -> CommandOutcome, reach: string -> ReachOutcome)
    returns (r: DnsResolution)
    ensures r == Resolution(hostname, plat, lookup, exec, reach)
  {
    var normalized := Normalize(hostname, plat);
    var logs := [ResolvingLine(hostname, normalized)];
    match lookup(normalized) {
      case TimedOut =>
        logs := logs + [TimeoutLine(normalized)];
        r := DnsResolution(false, Some("DNS resolution timeout"), [], [], logs);
      case LookupFailed(e) =>
        logs := logs + [LookupFailedLine(normalized, e)];
        r := DnsResolution(false, e.message, [], [], logs);
      case Resolved(addresses) =>
        var ips := HostAddresses(addresses);
        logs := logs + [ResolvedLine(ips)];
        var pings;
        pings, logs := PingEach(ips, exec, reach, logs);
        var error := if |ips| == 0 then Some(NoAddressMessage(normalized)) else None;
        r := DnsResolution(AnySuccess(pings) || |ips| > 0, error, ips, pings, logs);
    }
  }

  /** `resolve`: the (isUp, errorMessage) projection of `resolveWithPing`. */
  method Resolve(hostname: string, plat: Platform, lookup: string -> Lookup,
                 exec: seq<string> -> CommandOutcome, reach: string -> ReachOutcome)
    returns (isUp: bool, errorMessage: Option<string>)
    ensures isUp == Resolution(hostname, plat, lookup, exec, reach).isUp
    ensures errorMessage == Resolution(hostname, plat, lookup, exec, reach).errorMessage
  {
    var r := ResolveWithPing(hostname, plat, lookup, exec, reach);
    isUp, errorMessage := r.isUp, r.errorMessage;
  }

  /** One ping result per address, in the same order, each naming its address. */
  lemma {:induction false} PingAllMatchesAddresses(ips: seq<string>, exec: seq<string> -> CommandOutcome,
                                                   reach: string -> ReachOutcome)
    ensures var p := PingAll(ips, exec, reach).0;
      && |p| == |ips|
      && forall i :: 0 <= i < |ips| ==> p[i] == PingOne(ips[i], exec, reach).0 && p[i].ipAddress == ips[i]
    decreases |ips|
  {
    if ips != [] {
      var init := ips[..|ips| - 1];
      var last := ips[|ips| - 1];
      PingAllMatchesAddresses(init, exec, reach);
      var p := PingAll(ips, exec, reach).0;
      var q := PingAll(init, exec, reach).0;
      assert p == q + [PingOne(last, exec, reach).0];
      forall i | 0 <= i < |ips|
        ensures p[i] == PingOne(ips[i], exec, reach).0 && p[i].ipAddress == ips[i]
      {
        if i < |init| {
          assert p[i] == q[i] && init[i] == ips[i];
        }
      }
    }
  }

  /** A timeout: down, "DNS resolution timeout", no addresses and no pings. */
  lemma TimeoutShape(hostname: string, plat: Platform, lookup: string -> Lookup,
                     exec: seq<string> -> CommandOutcome, reach: string -> ReachOutcome)
    requires lookup(NormalizeHostname(hostname, plat)).TimedOut?
    ensures var r := Resolution(hostname, plat, lookup, exec, reach);
      !r.isUp && r.errorMessage == Some("DNS resolution timeout") && r.ipAddresses == [] && r.pingResults == []
  {
  }

  /** A lookup error: down, the exception's message, no addresses and no pings. */
  lemma LookupErrorShape(hostname: string, plat: Platform, lookup: string -> Lookup,
                         exec: seq<string> -> CommandOutcome, reach: string -> ReachOutcome)
    requires lookup(NormalizeHostname(hostname, plat)).LookupFailed?
    ensures var r := Resolution(hostname, plat, lookup, exec, reach);
      && !r.isUp && r.errorMessage == lookup(NormalizeHostname(hostname, plat)).exc.message
      && r.ipAddresses == [] && r.pingResults == []
  {
  }

  /** After a lookup that returned: pings match the addresses, the host is up exactly
      when some address came back, whatever the pings did, and the error message is
      present exactly when there is no address. */
  lemma ResolvedShape(hostname: string, plat: Platform, lookup: string -> Lookup,
                      exec: seq<string> -> CommandOutcome, reach: string -> ReachOutcome)
    requires lookup(NormalizeHostname(hostname, plat)).Resolved?
    ensures var r := Resolution(hostname, plat, lookup, exec, reach);
      var normalized := NormalizeHostname(hostname, plat);
      && r.ipAddresses == HostAddresses(lookup(normalized).addresses)
      && |r.pingResults| == |r.ipAddresses|
      && (forall i :: 0 <= i < |r.ipAddresses| ==> r.pingResults[i].ipAddress == r.ipAddresses[i])
      && (r.isUp <==> |r.ipAddresses| > 0)
      && (r.errorMessage.Some? <==> |r.ipAddresses| == 0)
      && (r.errorMessage.Some? ==> r.errorMessage.value == NoAddressMessage(normalized))
  {
    var normalized := NormalizeHostname(hostname, plat);
    var ips := HostAddresses(lookup(normalized).addresses);
    var pings := PingAll(ips, exec, reach);
    PingAllMatchesAddresses(ips, exec, reach);
    var r := Resolution(hostname, plat, lookup, exec, reach);
    assert r.ipAddresses == ips && r.pingResults == pings.0;
    if |ips| == 0 {
      assert !AnySuccess(pings.0);
    }
  }

  /** Up/down never depends on the ping outcomes. */
  lemma UpIgnoresPings(hostname: string, plat: Platform, lookup: string -> Lookup,
                       exec1: seq<string> -> CommandOutcome, reach1: string -> ReachOutcome,
                       exec2: seq<string> -> CommandOutcome, reach2: string -> ReachOutcome)
    ensures Resolution(hostname, plat, lookup, exec1, reach1).isUp == Resolution(hostname, plat, lookup, exec2, reach2).isUp
    ensures Resolution(hostname, plat, lookup, exec1, reach1).errorMessage
         == Resolution(hostname, plat, lookup, exec2, reach2).errorMessage
  {
    if lookup(NormalizeHostname(hostname, plat)).Resolved? {
      ResolvedShape(hostname, plat, lookup, exec1, reach1);
      ResolvedShape(hostname, plat, lookup, exec2, reach2);
    }
  }

  /** The log starts with the "Resolving hostname" line, and the ping lines follow the
      resolution lines in address order. */
  lemma LogsStartWithResolving(hostname: string, plat: Platform, lookup: string -> Lookup,
                               exec: seq<string> -> CommandOutcome, reach: string -> ReachOutcome)
    ensures var r := Resolution(hostname, plat, lookup, exec, reach);
      |r.logs| >= 2 && r.logs[0] == ResolvingLine(hostname, NormalizeHostname(hostname, plat))
    ensures var r := Resolution(hostname, plat, lookup, exec, reach);
      lookup(NormalizeHostname(hostname, plat)).Resolved? ==>
        r.logs[2..] == PingAll(r.ipAddresses, exec, reach).1
  {
    var normalized := NormalizeHostname(hostname, plat);
    var first := [ResolvingLine(hostname, normalized)];
    match lookup(normalized)
    case TimedOut =>
      assert Resolution(hostname, plat, lookup, exec, reach).logs == first + [TimeoutLine(normalized)];
    case LookupFailed(e) =>
      assert Resolution(hostname, plat, lookup, exec, reach).logs == first + [LookupFailedLine(normalized, e)];
    case Resolved(addresses) =>
      var ips := HostAddresses(addresses);
      var tail := PingAll(ips, exec, reach).1;
      assert Resolution(hostname, plat, lookup, exec, reach).ipAddresses == ips;
      assert Resolution(hostname, plat, lookup, exec, reach).logs == first + [ResolvedLine(ips)] + tail;
      assert (first + [ResolvedLine(ips)] + tail)[2..] == tail;
  }
}

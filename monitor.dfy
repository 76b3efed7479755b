/** The monitor screen's view model: a full run over the configured URLs, DNS hosts
    and CRLs, the retest of a single item, and the grouped list shown to the user. */
module Monitor {
  import opened Common
  import opened CrlVerification
  import DnsResolver

  /** One line of the report. The validity period is a certificate's (URLs) or a
      CRL's thisUpdate/nextUpdate (CRLs); DNS statuses have none. */
  datatype MonitorStatus = MonitorStatus(
    name: string,
    isUp: bool,
    errorMessage: Option<string>,
    validityPeriodStart: Option<int>,
    validityPeriodEnd: Option<int>)

  datatype ItemType = UrlItem | DnsItem | CrlItem

  /** A row of the grouped view: a section header or a status tagged with its kind. */
  datatype MonitorItem =
    | Header(title: string)
    | Status(name: string, isUp: bool, errorMessage: Option<string>,
             validityPeriodStart: Option<int>, validityPeriodEnd: Option<int>, itemType: ItemType)

  /** What the URL checker reports for one URL. */
  datatype UrlCheck = UrlCheck(
    isUp: bool,
    errorMessage: Option<string>,
    certificateExpiryWarning: Option<string>,
    certificateNotBefore: Option<int>,
    certificateNotAfter: Option<int>)

  /** The collaborators a run consults, as functions of the name asked about:
      `NetworkMonitor.checkUrl`, `DnsResolver.resolve` (up, and the error message),
      `crlVerifier.verifyCRL`, and the exception (if any) thrown while a CRL's status is
      built. */
  datatype Services = Services(
    checkUrl: string -> UrlCheck,
    resolve: string -> (bool, Option<string>),
    verify: string -> CrlVerificationResult,
    crlFault: string -> Option<Exc>)

  /** Kotlin's `ifEmpty { null }` on a built string. */
  function NullIfEmpty(s: string): (r: Option<string>)
    ensures r.None? <==> s == []
    ensures r.Some? ==> r.value == s
  {
    if s == [] then None else Some(s)
  }

  // ---------------------------------------------------------------------------
  // Messages

  /** The URL status message: the error, then " | " and the certificate warning. */
  function UrlMessage(errorMessage: Option<string>, warning: Option<string>): Option<string> {
    var first := errorMessage.GetOr("");
    var text := if warning.Some? then (if first != [] then first + " | " else first) + warning.value else first;
    NullIfEmpty(text)
  }

  /** The parts the URL message is made of: a non-empty error, and the warning. */
  function UrlParts(errorMessage: Option<string>, warning: Option<string>): seq<string> {
    (if errorMessage.Some? && errorMessage.value != [] then [errorMessage.value] else [])
      + (if warning.Some? then [warning.value] else [])
  }

  /** The message is the present parts joined by " | ", null when that comes out empty. */
  lemma UrlMessageJoinsParts(errorMessage: Option<string>, warning: Option<string>)
    ensures UrlMessage(errorMessage, warning) == NullIfEmpty(Join(UrlParts(errorMessage, warning), " | "))
    ensures errorMessage.Some? && errorMessage.value != [] && warning.Some? ==>
      UrlMessage(errorMessage, warning) == Some(errorMessage.value + " | " + warning.value)
    ensures errorMessage.None? && warning.None? ==> UrlMessage(errorMessage, warning).None?
  {
    var parts := UrlParts(errorMessage, warning);
    var hasError := errorMessage.Some? && errorMessage.value != [];
    if hasError && warning.Some? {
      assert parts == [errorMessage.value, warning.value];
      assert parts[1..] == [warning.value];
    } else if hasError {
      assert parts == [errorMessage.value];
    } else if warning.Some? {
      assert parts == [warning.value];
      assert errorMessage.GetOr("") == [];
      assert [] + warning.value == warning.value;
    } else {
      assert parts == [];
    }
  }

  /** The first part of a CRL message, chosen by the first condition that holds. */
  function CrlPrefix(c: CrlVerificationResult): string {
    if !c.canDownload then "Failed to download CRL"
    else if !c.isValid then c.warningMessage.GetOr("CRL validation failed")
    else if c.warningMessage.Some? then "Warning: " + c.warningMessage.value
    else ""
  }

  function ValidityText(thisUpdate: int, nextUpdate: int, plat: Platform): string {
    "Valid: " + plat.formatDate(thisUpdate) + " - " + plat.formatDate(nextUpdate)
  }

  /** The CRL status message. `fullRun` selects the full run's version, which says
      "CRL downloaded" when nothing else would be said about a downloaded CRL; the
      retest's version has no such fallback. */
  function CrlMessage(c: CrlVerificationResult, plat: Platform, fullRun: bool): Option<string> {
    var prefix := CrlPrefix(c);
    var text :=
      if c.thisUpdate.Some? && c.nextUpdate.Some? then
        (if prefix != [] then prefix + " | " else prefix) + ValidityText(c.thisUpdate.value, c.nextUpdate.value, plat)
      else if fullRun && prefix == [] && c.canDownload then "CRL downloaded"
      else prefix;
    NullIfEmpty(text)
  }

  /** The message opens with the text of the first branch that holds, and ends with the
      validity period whenever both dates are known. */
  lemma CrlMessageLayout(c: CrlVerificationResult, plat: Platform, fullRun: bool)
    requires CrlPrefix(c) != [] || (c.thisUpdate.Some? && c.nextUpdate.Some?)
    ensures var m := CrlMessage(c, plat, fullRun);
      && m.Some?
      && StartsWith(m.value, CrlPrefix(c))
      && (c.thisUpdate.Some? && c.nextUpdate.Some? ==>
            EndsWith(m.value, ValidityText(c.thisUpdate.value, c.nextUpdate.value, plat)))
      && (c.thisUpdate.Some? && c.nextUpdate.Some? && CrlPrefix(c) != [] ==>
            m.value == CrlPrefix(c) + " | " + ValidityText(c.thisUpdate.value, c.nextUpdate.value, plat))
      && (!(c.thisUpdate.Some? && c.nextUpdate.Some?) ==> m.value == CrlPrefix(c))
  {
    var prefix := CrlPrefix(c);
    if c.thisUpdate.Some? && c.nextUpdate.Some? {
      var v := ValidityText(c.thisUpdate.value, c.nextUpdate.value, plat);
      var text := (if prefix != [] then prefix + " | " else prefix) + v;
      assert text[..|prefix|] == prefix;
      assert text[|text| - |v|..] == v;
    }
  }

  /** The first branch, spelled out. */
  lemma CrlPrefixCases(c: CrlVerificationResult)
    ensures !c.canDownload ==> CrlPrefix(c) == "Failed to download CRL"
    ensures c.canDownload && !c.isValid ==> CrlPrefix(c) == c.warningMessage.GetOr("CRL validation failed")
    ensures c.canDownload && c.isValid && c.warningMessage.Some? ==> CrlPrefix(c) == "Warning: " + c.warningMessage.value
    ensures c.canDownload && c.isValid && c.warningMessage.None? ==> CrlPrefix(c) == []
  {
  }

  // ---------------------------------------------------------------------------
  // Statuses

  function UrlStatus(url: string, svc: Services): (s: MonitorStatus)
    ensures s.name == url && s.isUp == svc.checkUrl(url).isUp
    ensures s.validityPeriodStart == svc.checkUrl(url).certificateNotBefore
    ensures s.validityPeriodEnd == svc.checkUrl(url).certificateNotAfter
  {
    var u := svc.checkUrl(url);
    MonitorStatus(url, u.isUp, UrlMessage(u.errorMessage, u.certificateExpiryWarning),
      u.certificateNotBefore, u.certificateNotAfter)
  }

  function DnsStatus(host: string, svc: Services): (s: MonitorStatus)
    ensures s.name == host && s.validityPeriodStart.None? && s.validityPeriodEnd.None?
  {
    var answer := svc.resolve(host);
    MonitorStatus(host, answer.0, answer.1, None, None)
  }

  /** A CRL status built from its verification result: up means downloaded and valid. */
  function CrlVerifiedStatus(url: string, svc: Services, plat: Platform, fullRun: bool): (s: MonitorStatus)
    ensures s.name == url
    ensures s.isUp <==> svc.verify(url).canDownload && svc.verify(url).isValid
  {
    var c := svc.verify(url);
    MonitorStatus(url, c.canDownload && c.isValid, CrlMessage(c, plat, fullRun), c.thisUpdate, c.nextUpdate)
  }

  /** A CRL status in a full run, where an exception while building it is caught. */
  function CrlRunStatus(url: string, svc: Services, plat: Platform): (s: MonitorStatus)
    ensures s.name == url
  {
    match svc.crlFault(url)
    case Some(e) => MonitorStatus(url, false, Some("Error: " + Show(e.message)), None, None)
    case None => CrlVerifiedStatus(url, svc, plat, true)
  }

  function RunStatus(name: string, t: ItemType, svc: Services, plat: Platform): (s: MonitorStatus)
    ensures s.name == name
  {
    match t
    case UrlItem => UrlStatus(name, svc)
    case DnsItem => DnsStatus(name, svc)
    case CrlItem => CrlRunStatus(name, svc, plat)
  }

  /** The status a full run builds for one name of the given kind. */
  function StatusOf(t: ItemType, svc: Services, plat: Platform): (f: string -> MonitorStatus)
    ensures forall n :: f(n) == RunStatus(n, t, svc, plat)
  {
    match t
    case UrlItem => n => UrlStatus(n, svc)
    case DnsItem => n => DnsStatus(n, svc)
    case CrlItem => n => CrlRunStatus(n, svc, plat)
  }

  /** The statuses of one configured list, in its order. */
  function Statuses(names: seq<string>, status: string -> MonitorStatus): (r: seq<MonitorStatus>)
    ensures |r| == |names|
    decreases |names|
  {
    if names == [] then []
    else Statuses(names[..|names| - 1], status) + [status(names[|names| - 1])]
  }

  /** What a full run reports: all URLs, then all DNS hosts, then all CRLs. */
  function FullRun(urls: seq<string>, hosts: seq<string>, crls: seq<string>, svc: Services, plat: Platform)
    : seq<MonitorStatus>
  {
    Statuses(urls, StatusOf(UrlItem, svc, plat))
      + Statuses(hosts, StatusOf(DnsItem, svc, plat))
      + Statuses(crls, StatusOf(CrlItem, svc, plat))
  }

  lemma {:induction false} StatusesAt(names: seq<string>, status: string -> MonitorStatus)
    ensures var r := Statuses(names, status);
      forall i :: 0 <= i < |names| ==> r[i] == status(names[i])
    decreases |names|
  {
    if names != [] {
      var init := names[..|names| - 1];
      StatusesAt(init, status);
      assert forall i :: 0 <= i < |init| ==> init[i] == names[i];
    }
  }

  lemma StatusesSnoc(built: seq<MonitorStatus>, names: seq<string>, i: nat, status: string -> MonitorStatus)
    requires i < |names|
    ensures built + Statuses(names[..i + 1], status) == (built + Statuses(names[..i], status)) + [status(names[i])]
  {
    assert names[..i + 1][..i] == names[..i];
    var before := Statuses(names[..i], status);
    assert built + (before + [status(names[i])]) == (built + before) + [status(names[i])];
  }

  /** The kind of the entry at position i of a full run. */
  function KindAt(i: int, urlCount: int, hostCount: int): ItemType {
    if i < urlCount then UrlItem else if i < urlCount + hostCount then DnsItem else CrlItem
  }

  lemma ConcatAt<T>(a: seq<T>, c: seq<T>, j: nat)
    requires j < |c|
    ensures |a + c| == |a| + |c| && (a + c)[|a| + j] == c[j]
  {
  }

  lemma FullRunUrlAt(urls: seq<string>, hosts: seq<string>, crls: seq<string>, svc: Services, plat: Platform, i: nat)
    requires i < |urls|
    ensures var r := FullRun(urls, hosts, crls, svc, plat);
      |r| == |urls| + |hosts| + |crls| && r[i] == UrlStatus(urls[i], svc)
  {
    var f := StatusOf(UrlItem, svc, plat);
    var a := Statuses(urls, f);
    var b := Statuses(hosts, StatusOf(DnsItem, svc, plat));
    var c := Statuses(crls, StatusOf(CrlItem, svc, plat));
    StatusesAt(urls, f);
    assert a[i] == UrlStatus(urls[i], svc);
    assert FullRun(urls, hosts, crls, svc, plat) == (a + b) + c;
    assert ((a + b) + c)[i] == (a + b)[i] == a[i];
  }

  lemma FullRunHostAt(urls: seq<string>, hosts: seq<string>, crls: seq<string>, svc: Services, plat: Platform, j: nat)
    requires j < |hosts|
    ensures var r := FullRun(urls, hosts, crls, svc, plat);
      |r| == |urls| + |hosts| + |crls| && r[|urls| + j] == DnsStatus(hosts[j], svc)
  {
    var f := StatusOf(DnsItem, svc, plat);
    var a := Statuses(urls, StatusOf(UrlItem, svc, plat));
    var b := Statuses(hosts, f);
    var c := Statuses(crls, StatusOf(CrlItem, svc, plat));
    StatusesAt(hosts, f);
    assert b[j] == DnsStatus(hosts[j], svc);
    var front := a + b;
    assert front[|urls| + j] == b[j];
    assert FullRun(urls, hosts, crls, svc, plat) == front + c;
    assert (front + c)[|urls| + j] == front[|urls| + j];
  }

  lemma FullRunCrlAt(urls: seq<string>, hosts: seq<string>, crls: seq<string>, svc: Services, plat: Platform, j: nat)
    requires j < |crls|
    ensures var r := FullRun(urls, hosts, crls, svc, plat);
      |r| == |urls| + |hosts| + |crls| && r[|urls| + |hosts| + j] == CrlRunStatus(crls[j], svc, plat)
  {
    var f := StatusOf(CrlItem, svc, plat);
    var front := Statuses(urls, StatusOf(UrlItem, svc, plat)) + Statuses(hosts, StatusOf(DnsItem, svc, plat));
    var c := Statuses(crls, f);
    assert FullRun(urls, hosts, crls, svc, plat) == front + c;
    ConcatAt(front, c, j);
    StatusesAt(crls, f);
    assert c[j] == f(crls[j]);
  }

  /** Entry i of a full run is the status of the i-th configured name, built as its
      list's kind demands. */
  lemma FullRunAt(urls: seq<string>, hosts: seq<string>, crls: seq<string>, svc: Services, plat: Platform, i: nat)
    requires i < |urls| + |hosts| + |crls|
    ensures |FullRun(urls, hosts, crls, svc, plat)| == |urls| + |hosts| + |crls|
    ensures FullRun(urls, hosts, crls, svc, plat)[i]
         == RunStatus((urls + hosts + crls)[i], KindAt(i, |urls|, |hosts|), svc, plat)
  {
    if i < |urls| {
      FullRunAtUrl(urls, hosts, crls, svc, plat, i);
    } else if i < |urls| + |hosts| {
      FullRunAtHost(urls, hosts, crls, svc, plat, i);
    } else {
      FullRunAtCrl(urls, hosts, crls, svc, plat, i);
    }
  }

  lemma FullRunAtUrl(urls: seq<string>, hosts: seq<string>, crls: seq<string>, svc: Services, plat: Platform, i: nat)
    requires i < |urls|
    ensures |FullRun(urls, hosts, crls, svc, plat)| == |urls| + |hosts| + |crls|
    ensures FullRun(urls, hosts, crls, svc, plat)[i]
         == RunStatus((urls + hosts + crls)[i], KindAt(i, |urls|, |hosts|), svc, plat)
  {
    assert (urls + hosts + crls)[i] == urls[i];
    assert KindAt(i, |urls|, |hosts|) == UrlItem;
    assert RunStatus((urls + hosts + crls)[i], KindAt(i, |urls|, |hosts|), svc, plat) == UrlStatus(urls[i], svc);
    FullRunUrlAt(urls, hosts, crls, svc, plat, i);
  }

  lemma FullRunAtHost(urls: seq<string>, hosts: seq<string>, crls: seq<string>, svc: Services, plat: Platform, i: nat)
    requires |urls| <= i < |urls| + |hosts|
    ensures |FullRun(urls, hosts, crls, svc, plat)| == |urls| + |hosts| + |crls|
    ensures FullRun(urls, hosts, crls, svc, plat)[i]
         == RunStatus((urls + hosts + crls)[i], KindAt(i, |urls|, |hosts|), svc, plat)
  {
    var j := i - |urls|;
    assert (urls + hosts + crls)[i] == hosts[j];
    assert KindAt(i, |urls|, |hosts|) == DnsItem;
    assert RunStatus((urls + hosts + crls)[i], KindAt(i, |urls|, |hosts|), svc, plat) == DnsStatus(hosts[j], svc);
    FullRunHostAt(urls, hosts, crls, svc, plat, j);
  }

  lemma FullRunAtCrl(urls: seq<string>, hosts: seq<string>, crls: seq<string>, svc: Services, plat: Platform, i: nat)
    requires |urls| + |hosts| <= i < |urls| + |hosts| + |crls|
    ensures |FullRun(urls, hosts, crls, svc, plat)| == |urls| + |hosts| + |crls|
    ensures FullRun(urls, hosts, crls, svc, plat)[i]
         == RunStatus((urls + hosts + crls)[i], KindAt(i, |urls|, |hosts|), svc, plat)
  {
    var j := i - |urls| - |hosts|;
    assert (urls + hosts + crls)[i] == crls[j];
    assert KindAt(i, |urls|, |hosts|) == CrlItem;
    assert RunStatus((urls + hosts + crls)[i], KindAt(i, |urls|, |hosts|), svc, plat) == CrlRunStatus(crls[j], svc, plat);
    FullRunCrlAt(urls, hosts, crls, svc, plat, j);
  }

  /** Exactly one status per configured entry, in configured order: URLs, then hosts,
      then CRLs; each carries its entry's name. */
  lemma FullRunLayout(urls: seq<string>, hosts: seq<string>, crls: seq<string>, svc: Services, plat: Platform)
    ensures var r := FullRun(urls, hosts, crls, svc, plat);
      && |r| == |urls| + |hosts| + |crls|
      && (forall i :: 0 <= i < |r| ==> r[i].name == (urls + hosts + crls)[i])
      && (forall i :: 0 <= i < |urls| ==> r[i] == UrlStatus(urls[i], svc))
      && (forall j :: 0 <= j < |hosts| ==> r[|urls| + j] == DnsStatus(hosts[j], svc))
      && (forall j :: 0 <= j < |crls| ==> r[|urls| + |hosts| + j] == CrlRunStatus(crls[j], svc, plat))
  {
    var r := FullRun(urls, hosts, crls, svc, plat);
    forall i | 0 <= i < |r|
      ensures r[i].name == (urls + hosts + crls)[i]
    {
      FullRunAt(urls, hosts, crls, svc, plat, i);
    }
    forall i | 0 <= i < |urls|
      ensures r[i] == UrlStatus(urls[i], svc)
    {
      FullRunUrlAt(urls, hosts, crls, svc, plat, i);
    }
    forall j | 0 <= j < |hosts|
      ensures r[|urls| + j] == DnsStatus(hosts[j], svc)
    {
      FullRunHostAt(urls, hosts, crls, svc, plat, j);
    }
    forall j | 0 <= j < |crls|
      ensures r[|urls| + |hosts| + j] == CrlRunStatus(crls[j], svc, plat)
    {
      FullRunCrlAt(urls, hosts, crls, svc, plat, j);
    }
  }

  /** The services as they would have been had building the status of `url` not thrown. */
  function WithoutFault(svc: Services, url: string): Services {
    svc.(crlFault := u => if u == url then None else svc.crlFault(u))
  }

  lemma RunStatusIgnoresOtherFaults(name: string, t: ItemType, svc: Services, url: string, plat: Platform)
    requires t != CrlItem || name != url
    ensures RunStatus(name, t, svc, plat) == RunStatus(name, t, WithoutFault(svc, url), plat)
  {
    var quiet := WithoutFault(svc, url);
    assert quiet.checkUrl == svc.checkUrl && quiet.resolve == svc.resolve && quiet.verify == svc.verify;
    if t == CrlItem {
      assert quiet.crlFault(name) == svc.crlFault(name);
    }
  }

  /** An exception while building one CRL's status marks that CRL down with an
      "Error: " message, and every entry of another name is what it would have been
      without the exception: the later CRLs are still checked. */
  lemma CrlFaultIsContained(urls: seq<string>, hosts: seq<string>, crls: seq<string>,
                            svc: Services, plat: Platform, j: nat, e: Exc)
    requires j < |crls| && svc.crlFault(crls[j]) == Some(e)
    ensures var r := FullRun(urls, hosts, crls, svc, plat);
      var quiet := FullRun(urls, hosts, crls, WithoutFault(svc, crls[j]), plat);
      && |r| == |quiet| == |urls| + |hosts| + |crls|
      && r[|urls| + |hosts| + j] == MonitorStatus(crls[j], false, Some("Error: " + Show(e.message)), None, None)
      && forall i :: 0 <= i < |r| && r[i].name != crls[j] ==> r[i] == quiet[i]
  {
    var url := crls[j];
    var quietSvc := WithoutFault(svc, url);
    var r := FullRun(urls, hosts, crls, svc, plat);
    var quiet := FullRun(urls, hosts, crls, quietSvc, plat);
    FullRunAt(urls, hosts, crls, svc, plat, |urls| + |hosts| + j);
    assert (urls + hosts + crls)[|urls| + |hosts| + j] == url;
    forall i | 0 <= i < |r| && r[i].name != url
      ensures r[i] == quiet[i]
    {
      FullRunAt(urls, hosts, crls, svc, plat, i);
      FullRunIgnoresOtherFaultAt(urls, hosts, crls, svc, plat, url, i);
    }
  }

  lemma FullRunIgnoresOtherFaultAt(urls: seq<string>, hosts: seq<string>, crls: seq<string>,
                                   svc: Services, plat: Platform, url: string, i: nat)
    requires i < |urls| + |hosts| + |crls| && (urls + hosts + crls)[i] != url
    ensures |FullRun(urls, hosts, crls, svc, plat)| == |FullRun(urls, hosts, crls, WithoutFault(svc, url), plat)|
    ensures FullRun(urls, hosts, crls, svc, plat)[i] == FullRun(urls, hosts, crls, WithoutFault(svc, url), plat)[i]
  {
    FullRunAt(urls, hosts, crls, svc, plat, i);
    FullRunAt(urls, hosts, crls, WithoutFault(svc, url), plat, i);
    RunStatusIgnoresOtherFaults((urls + hosts + crls)[i], KindAt(i, |urls|, |hosts|), svc, url, plat);
  }

  /** What the verifier guarantees about every result it returns: an invalid result
      says why, and a valid one was downloaded and has both dates. */
  predicate Explained(c: CrlVerificationResult) {
    && (!c.isValid ==> c.warningMessage.Some? && c.warningMessage.value != [])
    && (c.isValid ==> c.canDownload && c.thisUpdate.Some? && c.nextUpdate.Some?)
  }

  /** A CRL whose verification leaves it down always says why, in the full run and in
      the retest alike. */
  lemma CrlDownHasMessage(url: string, svc: Services, plat: Platform, fullRun: bool)
    requires Explained(svc.verify(url))
    ensures var s := CrlVerifiedStatus(url, svc, plat, fullRun);
      !s.isUp ==> s.errorMessage.Some? && s.errorMessage.value != []
  {
    var c := svc.verify(url);
    if !(c.canDownload && c.isValid) {
      assert CrlPrefix(c) != [];
      CrlMessageLayout(c, plat, fullRun);
    }
  }

  /** The full run's "CRL downloaded" fallback never fires on an explained result: a
      downloaded CRL is either invalid, with a non-empty explanation, or valid, with both
      dates. So the full run and the retest build the same message. */
  lemma CrlDownloadedNeverShown(c: CrlVerificationResult, plat: Platform)
    requires Explained(c)
    ensures CrlMessage(c, plat, true) == CrlMessage(c, plat, false)
  {
  }

  /** Every CRL of a full run that is down explains itself, whether its verification
      failed or building its status threw. */
  lemma FullRunCrlDownHasMessage(urls: seq<string>, hosts: seq<string>, crls: seq<string>,
                                 svc: Services, plat: Platform, j: nat)
    requires j < |crls| && Explained(svc.verify(crls[j]))
    ensures var r := FullRun(urls, hosts, crls, svc, plat);
      var s := r[|urls| + |hosts| + j];
      s.name == crls[j] && (!s.isUp ==> s.errorMessage.Some? && s.errorMessage.value != [])
  {
    FullRunCrlAt(urls, hosts, crls, svc, plat, j);
    CrlDownHasMessage(crls[j], svc, plat, true);
  }

  // ---------------------------------------------------------------------------
  // The services, wired to the resolver and verifier models

  /** The network's answers to everything a run asks: the URL checker, the DNS lookup and
      ping oracles, the first and retry attempts of each CRL download, and the exception
      (if any) thrown while a CRL's status is built. */
  datatype Network = Network(
    checkUrl: string -> UrlCheck,
    lookup: string -> DnsResolver.Lookup,
    exec: seq<string> -> DnsResolver.CommandOutcome,
    reach: string -> DnsResolver.ReachOutcome,
    crlFirst: string -> Attempt,
    crlRetry: string -> Attempt,
    crlFault: string -> Option<Exc>)

  /** `DnsResolver.resolve`: the up flag and error message of the resolution. */
  function ResolveAnswer(host: string, net: Network, plat: Platform): (bool, Option<string>) {
    var d := DnsResolver.Resolution(host, plat, net.lookup, net.exec, net.reach);
    (d.isUp, d.errorMessage)
  }

  /** `DnsResolver.resolve` and `crlVerifier.verifyCRL` over the network's answers, at
      time `now` and with the verifier's warning threshold. */
  function Wired(net: Network, plat: Platform, now: int, threshold: int): Services {
    Services(
      net.checkUrl,
      h => ResolveAnswer(h, net, plat),
      u => VerifyCrl(net.crlFirst(u), net.crlRetry(u), now, threshold, plat),
      net.crlFault)
  }

  /** The verifier model explains every result, so the CRL lemmas above apply to it. */
  lemma WiredExplains(net: Network, plat: Platform, now: int, threshold: int, url: string)
    ensures Explained(Wired(net, plat, now, threshold).verify(url))
  {
    var c := VerifyCrl(net.crlFirst(url), net.crlRetry(url), now, threshold, plat);
    InvalidResultHasMessage(net.crlFirst(url), net.crlRetry(url), now, threshold, plat);
    assert Explained(c);
    assert Wired(net, plat, now, threshold).verify(url) == c;
  }

  /** With the resolver model, a DNS host is up exactly when the lookup returned at least
      one address, whatever the pings did; a lookup that timed out or threw gives the
      timeout text or the exception's message. */
  lemma WiredDnsStatus(host: string, net: Network, plat: Platform, now: int, threshold: int)
    ensures var s := DnsStatus(host, Wired(net, plat, now, threshold));
      var found := net.lookup(DnsResolver.NormalizeHostname(host, plat));
      && (s.isUp <==> found.Resolved? && DnsResolver.HostAddresses(found.addresses) != [])
      && (found.TimedOut? ==> s.errorMessage == Some("DNS resolution timeout"))
      && (found.LookupFailed? ==> s.errorMessage == found.exc.message)
  {
    var found := net.lookup(DnsResolver.NormalizeHostname(host, plat));
    var d := DnsResolver.Resolution(host, plat, net.lookup, net.exec, net.reach);
    assert DnsStatus(host, Wired(net, plat, now, threshold)) == MonitorStatus(host, d.isUp, d.errorMessage, None, None);
    match found {
      case Resolved(_) =>
        DnsResolver.ResolvedShape(host, plat, net.lookup, net.exec, net.reach);
      case TimedOut =>
        DnsResolver.TimeoutShape(host, plat, net.lookup, net.exec, net.reach);
      case LookupFailed(_) =>
        DnsResolver.LookupErrorShape(host, plat, net.lookup, net.exec, net.reach);
    }
  }

  // ---------------------------------------------------------------------------
  // The full run, step by step

  /** One `forEach` of the full run: append the status of every name, in order. */
  method CheckAll(results: seq<MonitorStatus>, names: seq<string>, t: ItemType, svc: Services, plat: Platform)
    returns (out: seq<MonitorStatus>)
    ensures out == results + Statuses(names, StatusOf(t, svc, plat))
  {
    ghost var status := StatusOf(t, svc, plat);
    out := results;
    for i := 0 to |names|
      invariant out == results + Statuses(names[..i], status)
    {
      StatusesSnoc(results, names, i, status);
      var s := RunStatus(names[i], t, svc, plat);
      out := out + [s];
    }
    assert names[..|names|] == names;
  }

  /** The checking part of `startMonitoring`. */
  method RunAll(urls: seq<string>, hosts: seq<string>, crls: seq<string>, svc: Services, plat: Platform)
    returns (results: seq<MonitorStatus>)
    ensures results == FullRun(urls, hosts, crls, svc, plat)
  {
    ghost var a := Statuses(urls, StatusOf(UrlItem, svc, plat));
    ghost var b := Statuses(hosts, StatusOf(DnsItem, svc, plat));
    ghost var c := Statuses(crls, StatusOf(CrlItem, svc, plat));
    results := CheckAll([], urls, UrlItem, svc, plat);
    assert results == a by {
      assert [] + a == a;
    }
    results := CheckAll(results, hosts, DnsItem, svc, plat);
    results := CheckAll(results, crls, CrlItem, svc, plat);
    assert results == FullRun(urls, hosts, crls, svc, plat) == a + b + c;
  }

  // ---------------------------------------------------------------------------
  // Retest

  /** How a retest treats a name, decided by its shape alone. */
  datatype RetestKind = RetestCrl | RetestUrl | RetestDns | NotRetestable

  predicate IsWebAddress(name: string) {
    StartsWith(name, "http://") || StartsWith(name, "https://")
  }

  function Classify(name: string, hosts: seq<string>): RetestKind {
    if IsWebAddress(name) then
      if EndsWithIgnoreCase(name, ".crl") then RetestCrl else RetestUrl
    else if name in hosts then RetestDns
    else NotRetestable
  }

  /** The kind a full run filed an entry under, for a retest kind. */
  function ItemTypeOf(k: RetestKind): Option<ItemType> {
    match k
    case RetestCrl => Some(CrlItem)
    case RetestUrl => Some(UrlItem)
    case RetestDns => Some(DnsItem)
    case NotRetestable => None
  }

  /** `indexOfFirst { it.name == name }`. */
  function IndexOfFirst(statuses: seq<MonitorStatus>, name: string): (i: int)
    ensures -1 <= i < |statuses|
    ensures i >= 0 ==> statuses[i].name == name && forall j :: 0 <= j < i ==> statuses[j].name != name
    ensures i == -1 <==> forall j :: 0 <= j < |statuses| ==> statuses[j].name != name
  {
    if statuses == [] then -1
    else if statuses[0].name == name then 0
    else
      var k := IndexOfFirst(statuses[1..], name);
      if k == -1 then -1 else k + 1
  }

  /** The status a retest computes for a name of the given kind; none for an unknown
      kind. A CRL retest builds its message without the full run's fallback. */
  function RetestStatus(name: string, kind: RetestKind, svc: Services, plat: Platform): (s: Option<MonitorStatus>)
    ensures s.None? <==> kind == NotRetestable
    ensures s.Some? ==> s.value.name == name
  {
    match kind
    case RetestCrl => Some(CrlVerifiedStatus(name, svc, plat, false))
    case RetestUrl => Some(UrlStatus(name, svc))
    case RetestDns => Some(DnsStatus(name, svc))
    case NotRetestable => None
  }

  /** The status list after `retestItem(name)`, or None when the retest returns without
      changing anything: the name is not in the list, or its kind cannot be retested. */
  function Retested(statuses: seq<MonitorStatus>, name: string, hosts: seq<string>, svc: Services, plat: Platform)
    : (r: Option<seq<MonitorStatus>>)
    ensures r.None? <==> IndexOfFirst(statuses, name) == -1 || Classify(name, hosts) == NotRetestable
    ensures r.Some? ==>
      var i := IndexOfFirst(statuses, name);
      && |r.value| == |statuses|
      && r.value[i] == RetestStatus(name, Classify(name, hosts), svc, plat).value
      && r.value[i].name == name
      && forall j :: 0 <= j < |statuses| && j != i ==> r.value[j] == statuses[j]
  {
    var i := IndexOfFirst(statuses, name);
    if i == -1 then None
    else
      match RetestStatus(name, Classify(name, hosts), svc, plat)
      case None => None
      case Some(s) => Some(statuses[i := s])
  }

  lemma {:induction false} IndexOfFirstSameNames(s1: seq<MonitorStatus>, s2: seq<MonitorStatus>, name: string)
    requires |s1| == |s2| && forall j :: 0 <= j < |s1| ==> s1[j].name == s2[j].name
    ensures IndexOfFirst(s1, name) == IndexOfFirst(s2, name)
    decreases |s1|
  {
    if s1 != [] && s1[0].name != name {
      IndexOfFirstSameNames(s1[1..], s2[1..], name);
    }
  }

  /** Retesting twice against the same answers is retesting once. */
  lemma RetestIdempotent(statuses: seq<MonitorStatus>, name: string, hosts: seq<string>, svc: Services, plat: Platform)
    requires Retested(statuses, name, hosts, svc, plat).Some?
    ensures var once := Retested(statuses, name, hosts, svc, plat).value;
      Retested(once, name, hosts, svc, plat) == Some(once)
  {
    var once := Retested(statuses, name, hosts, svc, plat).value;
    IndexOfFirstSameNames(statuses, once, name);
    var i := IndexOfFirst(statuses, name);
    assert once[i := once[i]] == once;
  }

  /** Right after a full run, retesting an entry against the same answers reproduces
      the list, provided the retest files the name under the kind the run did and, for
      a CRL, its status did not throw during the run and its result is explained. In
      particular the retest's CRL message, although built without the "CRL downloaded"
      fallback, is the full run's. */
  lemma RetestAgreesWithFullRun(urls: seq<string>, hosts: seq<string>, crls: seq<string>,
                                svc: Services, plat: Platform, name: string)
    requires var r := FullRun(urls, hosts, crls, svc, plat);
      var p := IndexOfFirst(r, name);
      && p >= 0
      && ItemTypeOf(Classify(name, hosts)) == Some(KindAt(p, |urls|, |hosts|))
      && (KindAt(p, |urls|, |hosts|) == CrlItem ==> svc.crlFault(name).None? && Explained(svc.verify(name)))
    ensures var r := FullRun(urls, hosts, crls, svc, plat);
      Retested(r, name, hosts, svc, plat) == Some(r)
  {
    var r := FullRun(urls, hosts, crls, svc, plat);
    var p := IndexOfFirst(r, name);
    var kind := Classify(name, hosts);
    FullRunAt(urls, hosts, crls, svc, plat, p);
    assert (urls + hosts + crls)[p] == name;
    if kind == RetestCrl {
      CrlDownloadedNeverShown(svc.verify(name), plat);
    }
    assert RetestStatus(name, kind, svc, plat).value == r[p];
    assert r[p := r[p]] == r;
  }

  // ---------------------------------------------------------------------------
  // The grouped view

  /** `results.find { it.name == name }`. */
  function Find(results: seq<MonitorStatus>, name: string): (r: Option<MonitorStatus>)
    ensures r.None? <==> forall j :: 0 <= j < |results| ==> results[j].name != name
    ensures r.Some? ==> r.value.name == name
  {
    if results == [] then None
    else if results[0].name == name then Some(results[0])
    else Find(results[1..], name)
  }

  /** `find` and `indexOfFirst` pick the same entry. */
  lemma {:induction false} FindIsIndexOfFirst(results: seq<MonitorStatus>, name: string)
    ensures var i := IndexOfFirst(results, name);
      Find(results, name) == if i == -1 then None else Some(results[i])
    decreases |results|
  {
    if results != [] && results[0].name != name {
      FindIsIndexOfFirst(results[1..], name);
    }
  }

  function ItemOf(s: MonitorStatus, t: ItemType): MonitorItem {
    Status(s.name, s.isUp, s.errorMessage, s.validityPeriodStart, s.validityPeriodEnd, t)
  }

  /** The status rows of one section: configured order, first status of each name,
      names without a status skipped. */
  function SectionItems(names: seq<string>, results: seq<MonitorStatus>, t: ItemType): seq<MonitorItem>
    decreases |names|
  {
    if names == [] then []
    else
      var last := names[|names| - 1];
      SectionItems(names[..|names| - 1], results, t)
        + (match Find(results, last) case Some(s) => [ItemOf(s, t)] case None => [])
  }

  function Section(title: string, names: seq<string>, results: seq<MonitorStatus>, t: ItemType): seq<MonitorItem> {
    if |names| > 0 then [Header(title)] + SectionItems(names, results, t) else []
  }

  /** What `updateGroupedItems` posts. */
  function Grouped(urls: seq<string>, hosts: seq<string>, crls: seq<string>, results: seq<MonitorStatus>): seq<MonitorItem> {
    Section("URLs", urls, results, UrlItem)
      + Section("DNS Hosts", hosts, results, DnsItem)
      + Section("CRLs", crls, results, CrlItem)
  }

  predicate AllFound(names: seq<string>, results: seq<MonitorStatus>) {
    forall i :: 0 <= i < |names| ==> Find(results, names[i]).Some?
  }

  /** One more configured name appends its row, if it has a status, to what has been
      built so far. */
  lemma SectionItemsSnoc(built: seq<MonitorItem>, names: seq<string>, i: nat, results: seq<MonitorStatus>, t: ItemType)
    requires i < |names|
    ensures var before := built + SectionItems(names[..i], results, t);
      var after := built + SectionItems(names[..i + 1], results, t);
      var s := Find(results, names[i]);
      && (s.Some? ==> after == before + [ItemOf(s.value, t)])
      && (s.None? ==> after == before)
  {
    assert names[..i + 1][..i] == names[..i];
    var rows := SectionItems(names[..i], results, t);
    var s := Find(results, names[i]);
    if s.Some? {
      assert SectionItems(names[..i + 1], results, t) == rows + [ItemOf(s.value, t)];
      assert built + (rows + [ItemOf(s.value, t)]) == (built + rows) + [ItemOf(s.value, t)];
    }
  }

  /** A section is its header followed by the rows of all its names. */
  lemma SectionAfterHeader(built: seq<MonitorItem>, title: string, names: seq<string>, results: seq<MonitorStatus>, t: ItemType)
    requires |names| > 0
    ensures (built + [Header(title)]) + SectionItems(names[..|names|], results, t) == built + Section(title, names, results, t)
  {
    assert names[..|names|] == names;
    var rows := SectionItems(names, results, t);
    assert Section(title, names, results, t) == [Header(title)] + rows;
    assert (built + [Header(title)]) + rows == built + ([Header(title)] + rows);
  }

  /** The rows of a section are statuses of its kind, at most one per configured name,
      each named after a configured name. */
  lemma {:induction false} SectionItemsRows(names: seq<string>, results: seq<MonitorStatus>, t: ItemType)
    ensures var items := SectionItems(names, results, t);
      && |items| <= |names|
      && forall k :: 0 <= k < |items| ==> items[k].Status? && items[k].itemType == t && items[k].name in names
    decreases |names|
  {
    if names != [] {
      var init := names[..|names| - 1];
      SectionItemsRows(init, results, t);
      assert forall x :: x in init ==> x in names;
    }
  }

  /** There is one row per configured name exactly when every name has a status, and
      then row i is the first status of name i: configured order, not result order. */
  lemma {:induction false} SectionItemsAllFound(names: seq<string>, results: seq<MonitorStatus>, t: ItemType)
    ensures var items := SectionItems(names, results, t);
      && (|items| == |names| <==> AllFound(names, results))
      && (AllFound(names, results) ==> forall i :: 0 <= i < |names| ==> items[i] == ItemOf(Find(results, names[i]).value, t))
    decreases |names|
  {
    if names != [] {
      var init := names[..|names| - 1];
      var last := names[|names| - 1];
      SectionItemsAllFound(init, results, t);
      SectionItemsRows(init, results, t);
      AllFoundSnoc(names, results);
      var items := SectionItems(names, results, t);
      var front := SectionItems(init, results, t);
      var tail := match Find(results, last) case Some(s) => [ItemOf(s, t)] case None => [];
      assert items == front + tail;
      if AllFound(names, results) {
        forall i | 0 <= i < |names|
          ensures items[i] == ItemOf(Find(results, names[i]).value, t)
        {
          if i < |init| {
            assert items[i] == front[i] && names[i] == init[i];
          }
        }
      }
    }
  }

  lemma AllFoundSnoc(names: seq<string>, results: seq<MonitorStatus>)
    requires names != []
    ensures AllFound(names, results)
        <==> AllFound(names[..|names| - 1], results) && Find(results, names[|names| - 1]).Some?
  {
    var init := names[..|names| - 1];
    assert forall i :: 0 <= i < |init| ==> init[i] == names[i];
  }

  /** No section row is a header. */
  lemma HeaderOnlyAtTop(title: string, names: seq<string>, results: seq<MonitorStatus>, t: ItemType)
    ensures var sec := Section(title, names, results, t);
      && (Header(title) in sec <==> |names| > 0)
      && (|names| > 0 ==> sec[0] == Header(title))
      && forall k :: 0 < k < |sec| ==> sec[k].Status?
  {
    SectionItemsRows(names, results, t);
  }

  /** A section holds no header but its own. */
  lemma OtherHeaderAbsent(title: string, names: seq<string>, results: seq<MonitorStatus>, t: ItemType, other: string)
    requires other != title
    ensures Header(other) !in Section(title, names, results, t)
  {
    SectionItemsRows(names, results, t);
  }

  /** A section's header appears exactly when its configured list is non-empty; the
      three headers introduce the URLs, the DNS hosts and the CRLs in that order. */
  lemma HeadersIffConfigured(urls: seq<string>, hosts: seq<string>, crls: seq<string>, results: seq<MonitorStatus>)
    ensures var g := Grouped(urls, hosts, crls, results);
      && (Header("URLs") in g <==> |urls| > 0)
      && (Header("DNS Hosts") in g <==> |hosts| > 0)
      && (Header("CRLs") in g <==> |crls| > 0)
  {
    var a := Section("URLs", urls, results, UrlItem);
    var b := Section("DNS Hosts", hosts, results, DnsItem);
    var c := Section("CRLs", crls, results, CrlItem);
    assert "URLs"[0] != "DNS Hosts"[0] && "URLs"[0] != "CRLs"[0] && "DNS Hosts"[0] != "CRLs"[0];
    HeaderOnlyAtTop("URLs", urls, results, UrlItem);
    HeaderOnlyAtTop("DNS Hosts", hosts, results, DnsItem);
    HeaderOnlyAtTop("CRLs", crls, results, CrlItem);
    OtherHeaderAbsent("URLs", urls, results, UrlItem, "DNS Hosts");
    OtherHeaderAbsent("URLs", urls, results, UrlItem, "CRLs");
    OtherHeaderAbsent("DNS Hosts", hosts, results, DnsItem, "URLs");
    OtherHeaderAbsent("DNS Hosts", hosts, results, DnsItem, "CRLs");
    OtherHeaderAbsent("CRLs", crls, results, CrlItem, "URLs");
    OtherHeaderAbsent("CRLs", crls, results, CrlItem, "DNS Hosts");
    assert Grouped(urls, hosts, crls, results) == a + b + c;
  }

  /** After a full run every configured name has a status, so the grouped view shows a
      header per non-empty list and every configured entry under it. */
  lemma GroupedAfterFullRun(urls: seq<string>, hosts: seq<string>, crls: seq<string>,
                            svc: Services, plat: Platform)
    ensures var r := FullRun(urls, hosts, crls, svc, plat);
      && AllFound(urls, r) && AllFound(hosts, r) && AllFound(crls, r)
      && |Grouped(urls, hosts, crls, r)| ==
           |urls| + |hosts| + |crls|
           + (if |urls| > 0 then 1 else 0) + (if |hosts| > 0 then 1 else 0) + (if |crls| > 0 then 1 else 0)
  {
    var r := FullRun(urls, hosts, crls, svc, plat);
    var all := urls + hosts + crls;
    forall n | n in all
      ensures Find(r, n).Some?
    {
      var i :| 0 <= i < |all| && all[i] == n;
      FullRunAt(urls, hosts, crls, svc, plat, i);
    }
    assert forall i :: 0 <= i < |urls| ==> urls[i] in all;
    assert forall i :: 0 <= i < |hosts| ==> hosts[i] in all;
    assert forall i :: 0 <= i < |crls| ==> crls[i] in all;
    SectionItemsAllFound(urls, r, UrlItem);
    SectionItemsAllFound(hosts, r, DnsItem);
    SectionItemsAllFound(crls, r, CrlItem);
  }

  /** One section of `updateGroupedItems`, step by step. */
  method AddSection(items: seq<MonitorItem>, title: string, names: seq<string>, results: seq<MonitorStatus>, t: ItemType)
    returns (out: seq<MonitorItem>)
    ensures out == items + Section(title, names, results, t)
  {
    out := items;
    if |names| > 0 {
      out := out + [Header(title)];
      ghost var prefix := out;
      for i := 0 to |names|
        invariant out == prefix + SectionItems(names[..i], results, t)
      {
        SectionItemsSnoc(prefix, names, i, results, t);
        var status := Find(results, names[i]);
        if status.Some? {
          out := out + [ItemOf(status.value, t)];
        }
      }
      SectionAfterHeader(items, title, names, results, t);
    }
  }

  method GroupItems(urls: seq<string>, hosts: seq<string>, crls: seq<string>, results: seq<MonitorStatus>)
    returns (items: seq<MonitorItem>)
    ensures items == Grouped(urls, hosts, crls, results)
  {
    items := AddSection([], "URLs", urls, results, UrlItem);
    items := AddSection(items, "DNS Hosts", hosts, results, DnsItem);
    items := AddSection(items, "CRLs", crls, results, CrlItem);
  }

  // ---------------------------------------------------------------------------
  // The view model

  // ---------------------------------------------------------------------------
  // The monitored lists

  /** The lists `MonitorViewModel` monitors; each address is written as its scheme,
      host and path. */
  const MonitoredUrls: seq<string> := [
    "https://" + "pivi.xcloud.authentx.com" + "/portal/index.html",
    "https://" + "piv.xcloud.authentx.com" + "/portal/index.html"
  ]

  const MonitoredHosts: seq<string> := [
    "piv.xcloud.authentx.com",
    "pivi.xcloud.authentx.com",
    "ocsp.xca.xpki.com",
    "crl.xca.xpki.com",
    "aia.xca.xpki.com"
  ]

  const MonitoredCrls: seq<string> := [
    "http://" + "crl.xca.xpki.com" + "/CRLs/XTec_PIVI_CA1.crl",
    "http://" + "66.165.167.225" + "/CRLs/XTec_PIVI_CA1.crl",
    "http://" + "152.186.38.46" + "/CRLs/XTec_PIVI_CA1.crl"
  ]

  predicate Distinct(names: seq<string>) {
    forall i, j :: 0 <= i < j < |names| ==> names[i] != names[j]
  }

  /** When no name is configured twice, retesting the entry at position i right after a
      full run reproduces the list, provided the retest files that name under the kind
      the run did and, for a CRL, its status did not throw and its result is explained. */
  lemma RetestAtAgreesWithFullRun(urls: seq<string>, hosts: seq<string>, crls: seq<string>,
                                  svc: Services, plat: Platform, i: nat)
    requires Distinct(urls + hosts + crls) && i < |urls| + |hosts| + |crls|
    requires ItemTypeOf(Classify((urls + hosts + crls)[i], hosts)) == Some(KindAt(i, |urls|, |hosts|))
    requires KindAt(i, |urls|, |hosts|) == CrlItem ==>
      svc.crlFault((urls + hosts + crls)[i]).None? && Explained(svc.verify((urls + hosts + crls)[i]))
    ensures var r := FullRun(urls, hosts, crls, svc, plat);
      Retested(r, (urls + hosts + crls)[i], hosts, svc, plat) == Some(r)
  {
    var all := urls + hosts + crls;
    var r := FullRun(urls, hosts, crls, svc, plat);
    FullRunLayout(urls, hosts, crls, svc, plat);
    var p := IndexOfFirst(r, all[i]);
    assert r[i].name == all[i];
    assert p == i;
    RetestAgreesWithFullRun(urls, hosts, crls, svc, plat, all[i]);
  }

  /** The monitored names are pairwise different. */
  lemma MonitoredNamesDistinct()
    ensures Distinct(MonitoredUrls + MonitoredHosts + MonitoredCrls)
  {
  }

  lemma WebPageClassified(name: string, hosts: seq<string>)
    requires |name| >= 8
    requires name[0] == 'h' && name[1] == 't' && name[2] == 't' && name[3] == 'p' && name[4] == 's'
    requires name[5] == ':' && name[6] == '/' && name[7] == '/'
    requires name[|name| - 4] == 'h'
    ensures Classify(name, hosts) == RetestUrl
  {
    assert name[..8] == "https://";
    var tail := name[|name| - 4..];
    assert LowerAscii(tail[0]) != LowerAscii(".crl"[0]);
  }

  lemma CrlAddressClassified(name: string, hosts: seq<string>)
    requires |name| >= 7
    requires name[0] == 'h' && name[1] == 't' && name[2] == 't' && name[3] == 'p'
    requires name[4] == ':' && name[5] == '/' && name[6] == '/'
    requires name[|name| - 4] == '.' && name[|name| - 3] == 'c' && name[|name| - 2] == 'r' && name[|name| - 1] == 'l'
    ensures Classify(name, hosts) == RetestCrl
  {
    assert name[..7] == "http://";
    var tail := name[|name| - 4..];
    assert tail == ".crl";
  }

  lemma HostClassified(name: string, hosts: seq<string>)
    requires name != [] && name[0] != 'h' && name in hosts
    ensures Classify(name, hosts) == RetestDns
  {
  }

  /** The retest's shape test files every monitored name under the kind of the list it
      is configured in: the URLs do not end in ".crl", the CRL addresses do, and no DNS
      host starts with a scheme. */
  lemma MonitoredNamesClassified(i: nat)
    requires i < |MonitoredUrls + MonitoredHosts + MonitoredCrls|
    ensures ItemTypeOf(Classify((MonitoredUrls + MonitoredHosts + MonitoredCrls)[i], MonitoredHosts))
         == Some(KindAt(i, |MonitoredUrls|, |MonitoredHosts|))
  {
    var all := MonitoredUrls + MonitoredHosts + MonitoredCrls;
    if i < |MonitoredUrls| {
      assert all[i] == MonitoredUrls[i];
      if i == 0 {
        WebPageClassified(MonitoredUrls[0], MonitoredHosts);
      } else {
        WebPageClassified(MonitoredUrls[1], MonitoredHosts);
      }
    } else if i < |MonitoredUrls| + |MonitoredHosts| {
      var j := i - |MonitoredUrls|;
      var name := MonitoredHosts[j];
      assert all[i] == name;
      assert name[0] != 'h' by {
        if j == 0 {} else if j == 1 {} else if j == 2 {} else if j == 3 {} else {}
      }
      HostClassified(name, MonitoredHosts);
    } else {
      var j := i - |MonitoredUrls| - |MonitoredHosts|;
      assert all[i] == MonitoredCrls[j];
      if j == 0 {
        CrlAddressClassified(MonitoredCrls[0], MonitoredHosts);
      } else if j == 1 {
        CrlAddressClassified(MonitoredCrls[1], MonitoredHosts);
      } else {
        CrlAddressClassified(MonitoredCrls[2], MonitoredHosts);
      }
    }
  }

  /** Right after `startMonitoring` on the monitored lists, retesting any monitored entry
      against the same answers changes nothing, as long as building that CRL's status
      (for a CRL) does not throw. */
  lemma RetestMonitoredAgreesWithFullRun(net: Network, plat: Platform, now: int, threshold: int, i: nat)
    requires i < |MonitoredUrls + MonitoredHosts + MonitoredCrls|
    requires net.crlFault((MonitoredUrls + MonitoredHosts + MonitoredCrls)[i]).None?
    ensures var svc := Wired(net, plat, now, threshold);
      var r := FullRun(MonitoredUrls, MonitoredHosts, MonitoredCrls, svc, plat);
      Retested(r, (MonitoredUrls + MonitoredHosts + MonitoredCrls)[i], MonitoredHosts, svc, plat) == Some(r)
  {
    var name := (MonitoredUrls + MonitoredHosts + MonitoredCrls)[i];
    MonitoredNamesDistinct();
    MonitoredNamesClassified(i);
    WiredExplains(net, plat, now, threshold, name);
    RetestAtAgreesWithFullRun(MonitoredUrls, MonitoredHosts, MonitoredCrls, Wired(net, plat, now, threshold), plat, i);
  }

  /** The status of a CRL whose verification passes its parse result through, with a
      parse inside the validity window: up, with a message that opens with "Warning: "
      exactly when less than `hours` hours remain. */
  lemma ThresholdWarningInStatus(url: string, svc: Services, plat: Platform, now: int, hours: int,
                                 f: CrlFields, retry: Attempt)
    requires svc.crlFault(url).None?
    requires svc.verify(url) == VerifyCrl(Response(HttpOk, Stream(Parsed(f))), retry, now, hours, plat)
    requires f.nextUpdate.Some? && f.thisUpdate < now < f.nextUpdate.value
    ensures var s := CrlRunStatus(url, svc, plat);
      && s.isUp && s.errorMessage.Some?
      && (StartsWith(s.errorMessage.value, "Warning: ") <==> f.nextUpdate.value - now < hours * MillisPerHour)
  {
    OkMeansDownloaded(Parsed(f), retry, now, hours, plat);
    WarningIffBelowThreshold(f, now, hours, plat);
    ParsedKeepsFields(f, now, hours, plat);
    var c := svc.verify(url);
    assert c.canDownload && c.isValid && c.thisUpdate.Some? && c.nextUpdate.Some?;
    var s := CrlRunStatus(url, svc, plat);
    assert s == CrlVerifiedStatus(url, svc, plat, true);
    var v := ValidityText(c.thisUpdate.value, c.nextUpdate.value, plat);
    if c.warningMessage.Some? {
      assert CrlPrefix(c) == "Warning: " + c.warningMessage.value;
      assert s.errorMessage == Some(CrlPrefix(c) + " | " + v);
    } else {
      assert CrlPrefix(c) == [];
      assert CrlPrefix(c) + v == v;
      assert s.errorMessage == Some(v);
      assert v[0] == 'V';
    }
  }

  /** A threshold set through the view model reaches the next run: once the verifier's
      store holds `hours`, the status of a CRL inside its validity window, downloaded in
      one attempt, is up and opens with "Warning: " exactly when less than `hours` hours
      remain. */
  lemma SetThresholdReachesNextRun(urls: seq<string>, hosts: seq<string>, crls: seq<string>,
                                   net: Network, plat: Platform, now: int, prefs: IntPrefs, hours: int,
                                   j: nat, f: CrlFields)
    requires prefs.Some? && j < |crls| && net.crlFault(crls[j]).None?
    requires net.crlFirst(crls[j]) == Response(HttpOk, Stream(Parsed(f)))
    requires f.nextUpdate.Some? && f.thisUpdate < now < f.nextUpdate.value
    ensures var r := FullRun(urls, hosts, crls, Wired(net, plat, now, ThresholdIn(WithThreshold(prefs, hours))), plat);
      && |r| == |urls| + |hosts| + |crls|
      && r[|urls| + |hosts| + j].isUp
      && r[|urls| + |hosts| + j].errorMessage.Some?
      && (StartsWith(r[|urls| + |hosts| + j].errorMessage.value, "Warning: ") <==>
            f.nextUpdate.value - now < hours * MillisPerHour)
  {
    ThresholdSetThenGet(prefs, hours);
    var svc := Wired(net, plat, now, hours);
    var url := crls[j];
    assert svc.crlFault(url).None?;
    assert svc.verify(url) == VerifyCrl(Response(HttpOk, Stream(Parsed(f))), net.crlRetry(url), now, hours, plat);
    ThresholdWarningInStatus(url, svc, plat, now, hours, f, net.crlRetry(url));
    FullRunCrlAt(urls, hosts, crls, svc, plat, j);
  }

  class MonitorViewModel {
    const urlsToMonitor: seq<string>
    const hostsToMonitor: seq<string>
    const crlUrlsToMonitor: seq<string>
    const crlVerifier: CrlVerifier
    /** The posted values of the three live data streams; None before the first post. */
    var statuses: Option<seq<MonitorStatus>>
    var items: Option<seq<MonitorItem>>
    var lastTestTime: Option<string>

    constructor (crlVerifier: CrlVerifier)
      ensures urlsToMonitor == MonitoredUrls && hostsToMonitor == MonitoredHosts && crlUrlsToMonitor == MonitoredCrls
      ensures this.crlVerifier == crlVerifier
      ensures statuses.None? && items.None? && lastTestTime.None?
    {
      urlsToMonitor, hostsToMonitor, crlUrlsToMonitor := MonitoredUrls, MonitoredHosts, MonitoredCrls;
      this.crlVerifier := crlVerifier;
      statuses, items, lastTestTime := None, None, None;
    }

    /** `startMonitoring`: check everything, post the time, the statuses and the
        grouped items. The CRLs are verified by this view model's `crlVerifier`, at the
        warning threshold it has stored. */
    method StartMonitoring(net: Network, plat: Platform, now: int)
      modifies this
      ensures statuses == Some(FullRun(urlsToMonitor, hostsToMonitor, crlUrlsToMonitor,
                                       Wired(net, plat, now, ThresholdIn(crlVerifier.prefs)), plat))
      ensures items == Some(Grouped(urlsToMonitor, hostsToMonitor, crlUrlsToMonitor, statuses.value))
      ensures lastTestTime == Some(plat.formatDate(now))
    {
      var svc := Wired(net, plat, now, crlVerifier.WarningThresholdHours());
      var results := RunAll(urlsToMonitor, hostsToMonitor, crlUrlsToMonitor, svc, plat);
      lastTestTime := Some(plat.formatDate(now));
      statuses := Some(results);
      var grouped := GroupItems(urlsToMonitor, hostsToMonitor, crlUrlsToMonitor, results);
      items := Some(grouped);
    }

    /** `retestItem(itemName)`: recompute the first status of that name, in place, a CRL
        again through `crlVerifier` at its stored threshold. */
    method RetestItem(itemName: string, net: Network, plat: Platform, now: int)
      modifies this
      ensures var r := Retested(old(statuses).GetOr([]), itemName, hostsToMonitor,
                                Wired(net, plat, now, ThresholdIn(crlVerifier.prefs)), plat);
        && (r.None? ==> statuses == old(statuses) && items == old(items) && lastTestTime == old(lastTestTime))
        && (r.Some? ==> && statuses == Some(r.value)
                        && items == Some(Grouped(urlsToMonitor, hostsToMonitor, crlUrlsToMonitor, r.value))
                        && lastTestTime == Some(plat.formatDate(now)))
    {
      RetestWith(itemName, Wired(net, plat, now, crlVerifier.WarningThresholdHours()), plat, now);
    }

    /** The body of `retestItem`, over whatever collaborators `svc` stands for. */
    method RetestWith(itemName: string, svc: Services, plat: Platform, now: int)
      modifies this
      ensures var r := Retested(old(statuses).GetOr([]), itemName, hostsToMonitor, svc, plat);
        && (r.None? ==> statuses == old(statuses) && items == old(items) && lastTestTime == old(lastTestTime))
        && (r.Some? ==> && statuses == Some(r.value)
                        && items == Some(Grouped(urlsToMonitor, hostsToMonitor, crlUrlsToMonitor, r.value))
                        && lastTestTime == Some(plat.formatDate(now)))
    {
      var currentStatuses := statuses.GetOr([]);
      var itemIndex := IndexOfFirst(currentStatuses, itemName);
      if itemIndex == -1 {
        return;
      }
      var updatedStatus: Option<MonitorStatus>;
      if IsWebAddress(itemName) {
        if EndsWithIgnoreCase(itemName, ".crl") {
          updatedStatus := Some(CrlVerifiedStatus(itemName, svc, plat, false));
        } else {
          updatedStatus := Some(UrlStatus(itemName, svc));
        }
      } else if itemName in hostsToMonitor {
        var (isUp, errorMessage) := svc.resolve(itemName);
        updatedStatus := Some(MonitorStatus(itemName, isUp, errorMessage, None, None));
      } else {
        updatedStatus := None;
      }
      if updatedStatus.Some? {
        currentStatuses := currentStatuses[itemIndex := updatedStatus.value];
        lastTestTime := Some(plat.formatDate(now));
        statuses := Some(currentStatuses);
        var grouped := GroupItems(urlsToMonitor, hostsToMonitor, crlUrlsToMonitor, currentStatuses);
        items := Some(grouped);
      }
    }

    method SetCrlWarningThresholdHours(hours: int)
      modifies crlVerifier
      ensures crlVerifier.prefs == WithThreshold(old(crlVerifier.prefs), hours)
    {
      crlVerifier.SetWarningThresholdHours(hours);
    }

    method GetCrlWarningThresholdHours() returns (hours: int)
      ensures hours == ThresholdIn(crlVerifier.prefs)
    {
      hours := crlVerifier.WarningThresholdHours();
    }
  }
}

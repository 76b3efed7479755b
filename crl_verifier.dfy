/** The CRL verifier: the configurable warning threshold, the classification of a
    parsed CRL's thisUpdate/nextUpdate window (section 5.1.2.4 and 5.1.2.5 of
    RFC 5280) against the current time, and the mapping of a download, with its
    one-shot retry after an SSL error, to a verification result. */
module CrlVerification {
  import opened Common

  const DefaultWarningThresholdHours: int := 3
  const WarningThresholdKey: string := "crl_warning_threshold_hours"
  const MillisPerHour: int := 3600000
  const HttpOk: int := 200

  /** The integer preferences ("MonitorPrefs") the verifier reads its threshold from;
      None when the verifier was built without a context. */
  type IntPrefs = Option<map<string, int>>

  function ThresholdIn(prefs: IntPrefs): int {
    match prefs
    case None => DefaultWarningThresholdHours
    case Some(m) => if WarningThresholdKey in m then m[WarningThresholdKey] else DefaultWarningThresholdHours
  }

  function WithThreshold(prefs: IntPrefs, hours: int): IntPrefs {
    match prefs
    case None => None
    case Some(m) => Some(m[WarningThresholdKey := hours])
  }

  /** Nothing stored (or no store at all) means the default of 3 hours. */
  lemma ThresholdDefault(prefs: IntPrefs)
    requires prefs.None? || WarningThresholdKey !in prefs.value
    ensures ThresholdIn(prefs) == 3
  {
  }

  /** A set is seen by the next get exactly when there is a store; without one, get stays 3. */
  lemma ThresholdSetThenGet(prefs: IntPrefs, hours: int)
    ensures ThresholdIn(WithThreshold(prefs, hours)) == if prefs.Some? then hours else 3
    ensures prefs.None? ==> WithThreshold(prefs, hours) == prefs
  {
  }

  // ---------------------------------------------------------------------------
  // Parsing and the validity window

  /** What the X.509 decoder yields: thisUpdate, the nullable nextUpdate and the size
      of the nullable set of revoked certificates. */
  datatype CrlFields = CrlFields(thisUpdate: int, nextUpdate: Option<int>, revokedCount: Option<nat>)

  datatype ParseOutcome = Parsed(fields: CrlFields) | ParseFailed(exc: Exc)

  datatype ParsingResult = ParsingResult(
    isValid: bool,
    warningMessage: Option<string>,
    thisUpdate: Option<int>,
    nextUpdate: Option<int>,
    revokedCount: Option<int>)

  function FailedToParse(e: Exc): ParsingResult {
    ParsingResult(false, Some("Failed to parse CRL: " + e.message.GetOr(e.simpleName)), None, None, None)
  }

  /** `Date.toString()` of a nullable date inside a string template. */
  function DateText(d: Option<int>, plat: Platform): string {
    match d
    case None => "null"
    case Some(t) => plat.dateString(t)
  }

  /** True when `currentTime.before(nextUpdate)` is evaluated on a null nextUpdate:
      the `&&` at the validity test only reaches it once now is after thisUpdate. */
  predicate ComparesNullNextUpdate(f: CrlFields, now: int) {
    now > f.thisUpdate && f.nextUpdate.None?
  }

  function ParseAndValidate(parse: ParseOutcome, now: int, threshold: int, plat: Platform): ParsingResult {
    match parse
    case ParseFailed(e) => FailedToParse(e)
    case Parsed(f) =>
      if ComparesNullNextUpdate(f, now) then FailedToParse(plat.nullDeref)
      else
        var currentlyValid := now > f.thisUpdate && f.nextUpdate.Some? && now < f.nextUpdate.value;
        var count := f.revokedCount.GetOr(0);
        if !currentlyValid then
          if now < f.thisUpdate then
            ParsingResult(false,
              Some("CRL not yet valid. thisUpdate: " + plat.dateString(f.thisUpdate) + ", Current: " + plat.dateString(now)),
              Some(f.thisUpdate), f.nextUpdate, Some(count))
          else
            ParsingResult(false,
              Some("CRL has expired. nextUpdate: " + DateText(f.nextUpdate, plat) + ", Current: " + plat.dateString(now)),
              Some(f.thisUpdate), f.nextUpdate, Some(count))
        else
          var next := f.nextUpdate.value;
          var hours := (next - now) / MillisPerHour;
          var warnings :=
            if hours < threshold then
              ["CRL nextUpdate is within " + IntToString(hours) + "h (threshold: " + IntToString(threshold)
               + "h). Next update: " + plat.dateString(next)]
            else [];
          ParsingResult(true, if |warnings| > 0 then Some(Join(warnings, "; ")) else None,
            Some(f.thisUpdate), f.nextUpdate, Some(count))
  }

  /** A parsed CRL is valid exactly when thisUpdate < now < nextUpdate, strict at both ends. */
  lemma ValidIffStrictlyInsideWindow(f: CrlFields, now: int, threshold: int, plat: Platform)
    ensures ParseAndValidate(Parsed(f), now, threshold, plat).isValid
        <==> f.nextUpdate.Some? && f.thisUpdate < now < f.nextUpdate.value
  {
  }

  /** Before thisUpdate: invalid, "CRL not yet valid". */
  lemma NotYetValid(f: CrlFields, now: int, threshold: int, plat: Platform)
    requires now < f.thisUpdate
    ensures var r := ParseAndValidate(Parsed(f), now, threshold, plat);
      !r.isValid && r.warningMessage.Some? && StartsWith(r.warningMessage.value, "CRL not yet valid")
  {
  }

  /** Every other invalid parsed CRL, now == thisUpdate and now >= nextUpdate included,
      is reported as expired (unless the null nextUpdate made the comparison throw). */
  lemma ExpiredOtherwise(f: CrlFields, now: int, threshold: int, plat: Platform)
    requires now >= f.thisUpdate && !ComparesNullNextUpdate(f, now)
    requires f.nextUpdate.Some? ==> now == f.thisUpdate || now >= f.nextUpdate.value
    ensures var r := ParseAndValidate(Parsed(f), now, threshold, plat);
      !r.isValid && r.warningMessage.Some? && StartsWith(r.warningMessage.value, "CRL has expired")
  {
  }

  lemma DivBelow(d: int, t: int)
    requires d > 0
    ensures d / MillisPerHour < t <==> d < t * MillisPerHour
  {
    var q := d / MillisPerHour;
    assert d == q * MillisPerHour + d % MillisPerHour;
    if q < t {
      assert q * MillisPerHour <= (t - 1) * MillisPerHour;
    } else {
      assert t * MillisPerHour <= q * MillisPerHour;
    }
  }

  /** In the valid case the warning is there exactly when the whole hours left are below
      the threshold, that is, when less than threshold hours remain. */
  lemma WarningIffBelowThreshold(f: CrlFields, now: int, threshold: int, plat: Platform)
    requires f.nextUpdate.Some? && f.thisUpdate < now < f.nextUpdate.value
    ensures var r := ParseAndValidate(Parsed(f), now, threshold, plat);
      && r.isValid
      && (r.warningMessage.Some? <==> (f.nextUpdate.value - now) / MillisPerHour < threshold)
      && (r.warningMessage.Some? <==> f.nextUpdate.value - now < threshold * MillisPerHour)
      && (r.warningMessage.Some? ==> StartsWith(r.warningMessage.value, "CRL nextUpdate is within "))
  {
    DivBelow(f.nextUpdate.value - now, threshold);
  }

  /** Whatever the validity, a successful parse reports both dates and the revoked count,
      a null revoked list counting as 0. */
  lemma ParsedKeepsFields(f: CrlFields, now: int, threshold: int, plat: Platform)
    requires !ComparesNullNextUpdate(f, now)
    ensures var r := ParseAndValidate(Parsed(f), now, threshold, plat);
      && r.thisUpdate == Some(f.thisUpdate)
      && r.nextUpdate == f.nextUpdate
      && r.revokedCount == Some(if f.revokedCount.Some? then f.revokedCount.value else 0)
  {
  }

  /** A decoder failure, and a null nextUpdate compared after thisUpdate, give an invalid
      result with the "Failed to parse CRL: " message and no dates or count. */
  lemma ParseFailureShape(parse: ParseOutcome, now: int, threshold: int, plat: Platform)
    requires parse.ParseFailed? || ComparesNullNextUpdate(parse.fields, now)
    ensures var r := ParseAndValidate(parse, now, threshold, plat);
      && !r.isValid
      && r.warningMessage.Some? && StartsWith(r.warningMessage.value, "Failed to parse CRL: ")
      && r.thisUpdate.None? && r.nextUpdate.None? && r.revokedCount.None?
  {
  }

  /** An invalid parse always explains itself with a non-empty message. */
  lemma InvalidParseHasMessage(parse: ParseOutcome, now: int, threshold: int, plat: Platform)
    ensures var r := ParseAndValidate(parse, now, threshold, plat);
      !r.isValid ==> r.warningMessage.Some? && |r.warningMessage.value| > 0
  {
  }

  /** A valid parse always carries both dates, and now lies strictly between them. */
  lemma ValidParseHasDates(parse: ParseOutcome, now: int, threshold: int, plat: Platform)
    ensures var r := ParseAndValidate(parse, now, threshold, plat);
      r.isValid ==> r.thisUpdate.Some? && r.nextUpdate.Some? && r.thisUpdate.value < now < r.nextUpdate.value
  {
  }

  // ---------------------------------------------------------------------------
  // Downloading

  /** What the 200 branch did with the response body: the stream reached the decoder and
      was closed, or opening or closing it threw (the parse result is then discarded). */
  datatype Body = Stream(parse: ParseOutcome) | StreamError(exc: Exc)

  /** One connection attempt: an HTTP status with its body, an SSLException, or any
      other exception (malformed URL, timeout, refused connection, ...). */
  datatype Attempt = Response(code: int, body: Body) | SslError(exc: Exc) | OtherError(exc: Exc)

  datatype CrlVerificationResult = CrlVerificationResult(
    canDownload: bool,
    isValid: bool,
    warningMessage: Option<string>,
    thisUpdate: Option<int>,
    nextUpdate: Option<int>,
    revokedCount: Option<int>)

  function Failed(message: string): CrlVerificationResult {
    CrlVerificationResult(false, false, Some(message), None, None, None)
  }

  /** `verifyCRL`: `first` is the first attempt; `retry` is consulted only after an
      SSLException, for the single retry. */
  function VerifyCrl(first: Attempt, retry: Attempt, now: int, threshold: int, plat: Platform): CrlVerificationResult {
    match first
    case Response(code, body) =>
      if code == HttpOk then
        match body
        case Stream(p) =>
          var c := ParseAndValidate(p, now, threshold, plat);
          CrlVerificationResult(true, c.isValid, c.warningMessage, c.thisUpdate, c.nextUpdate, c.revokedCount)
        case StreamError(e) =>
          CrlVerificationResult(true, false, Some("Parse error: " + Show(e.message)), None, None, None)
      else
        Failed("HTTP Error: " + IntToString(code))
    case SslError(e) =>
      (match retry
       case Response(code, body) =>
         if code == HttpOk then
           match body
           case Stream(p) =>
             var c := ParseAndValidate(p, now, threshold, plat);
             CrlVerificationResult(true, c.isValid, Some("SSL warning - " + c.warningMessage.GetOr(Show(e.message))),
               c.thisUpdate, c.nextUpdate, c.revokedCount)
           case StreamError(_) => Failed("SSL error: " + Show(e.message))
         else
           Failed("SSL error and retry failed: " + Show(e.message))
       case SslError(_) => Failed("SSL error: " + Show(e.message))
       case OtherError(_) => Failed("SSL error: " + Show(e.message)))
    case OtherError(e) =>
      Failed("Error: " + e.message.GetOr(e.simpleName))
  }

  /** A first answer of HTTP 200 always means the CRL could be downloaded, and the
      parse result is passed through unchanged once the body reaches the decoder. */
  lemma OkMeansDownloaded(p: ParseOutcome, retry: Attempt, now: int, threshold: int, plat: Platform)
    ensures var r := VerifyCrl(Response(HttpOk, Stream(p)), retry, now, threshold, plat);
      var c := ParseAndValidate(p, now, threshold, plat);
      && r.canDownload
      && r.isValid == c.isValid && r.warningMessage == c.warningMessage
      && r.thisUpdate == c.thisUpdate && r.nextUpdate == c.nextUpdate && r.revokedCount == c.revokedCount
  {
  }

  lemma OkWithUnreadableBody(e: Exc, retry: Attempt, now: int, threshold: int, plat: Platform)
    ensures VerifyCrl(Response(HttpOk, StreamError(e)), retry, now, threshold, plat)
         == CrlVerificationResult(true, false, Some("Parse error: " + Show(e.message)), None, None, None)
  {
  }

  /** Any other status is (false, false, "HTTP Error: <code>"). */
  lemma NonOkStatus(code: int, body: Body, retry: Attempt, now: int, threshold: int, plat: Platform)
    requires code != HttpOk
    ensures VerifyCrl(Response(code, body), retry, now, threshold, plat) == Failed("HTTP Error: " + IntToString(code))
  {
  }

  /** The retry is consulted after an SSLException only, and only once: any other first
      outcome makes the result independent of it. */
  lemma RetryOnlyAfterSslError(first: Attempt, retry1: Attempt, retry2: Attempt, now: int, threshold: int, plat: Platform)
    requires !first.SslError?
    ensures VerifyCrl(first, retry1, now, threshold, plat) == VerifyCrl(first, retry2, now, threshold, plat)
  {
  }

  /** The three outcomes of the retry after an SSLException. */
  lemma SslRetryOutcomes(e: Exc, retry: Attempt, now: int, threshold: int, plat: Platform)
    ensures var r := VerifyCrl(SslError(e), retry, now, threshold, plat);
      && (retry.Response? && retry.code == HttpOk && retry.body.Stream? ==>
            var c := ParseAndValidate(retry.body.parse, now, threshold, plat);
            && r.canDownload
            && r.isValid == c.isValid
            && r.warningMessage == Some("SSL warning - " + c.warningMessage.GetOr(Show(e.message)))
            && r.thisUpdate == c.thisUpdate && r.nextUpdate == c.nextUpdate && r.revokedCount == c.revokedCount)
      && (retry.Response? && retry.code != HttpOk ==>
            r == Failed("SSL error and retry failed: " + Show(e.message)))
      && (!retry.Response? || (retry.code == HttpOk && retry.body.StreamError?) ==>
            r == Failed("SSL error: " + Show(e.message)))
  {
  }

  lemma OtherErrorOutcome(e: Exc, retry: Attempt, now: int, threshold: int, plat: Platform)
    ensures VerifyCrl(OtherError(e), retry, now, threshold, plat) == Failed("Error: " + e.message.GetOr(e.simpleName))
  {
  }

  /** Every result that is not valid explains itself, and only a download inside the
      validity window marks it valid. */
  lemma InvalidResultHasMessage(first: Attempt, retry: Attempt, now: int, threshold: int, plat: Platform)
    ensures var r := VerifyCrl(first, retry, now, threshold, plat);
      && (!r.isValid ==> r.warningMessage.Some? && |r.warningMessage.value| > 0)
      && (r.isValid ==> r.canDownload && r.thisUpdate.Some? && r.nextUpdate.Some?
                        && r.thisUpdate.value < now < r.nextUpdate.value)
  {
    match first
    case Response(code, body) =>
      if code == HttpOk && body.Stream? {
        InvalidParseHasMessage(body.parse, now, threshold, plat);
        ValidParseHasDates(body.parse, now, threshold, plat);
      }
    case SslError(e) =>
      if retry.Response? && retry.code == HttpOk && retry.body.Stream? {
        ValidParseHasDates(retry.body.parse, now, threshold, plat);
      }
    case OtherError(_) =>
  }

  // ---------------------------------------------------------------------------
  // The verifier object

  /** The verifier object: its preference store, and the checks that read the threshold
      from it. */
  class CrlVerifier {
    var prefs: IntPrefs

    constructor (prefs: IntPrefs)
      ensures this.prefs == prefs
    {
      this.prefs := prefs;
    }

    function WarningThresholdHours(): int
      reads this
    {
      ThresholdIn(prefs)
    }

    method SetWarningThresholdHours(hours: int)
      modifies this
      ensures prefs == WithThreshold(old(prefs), hours)
      ensures WarningThresholdHours() == if old(prefs).Some? then hours else DefaultWarningThresholdHours
    {
      if prefs.Some? {
        prefs := Some(prefs.value[WarningThresholdKey := hours]);
      }
    }

    /** `parseAndValidateCRL`, step by step, with the threshold read from the store. */
    method ParseAndValidateCrl(parse: ParseOutcome, now: int, plat: Platform) returns (r: ParsingResult)
      ensures r == ParseAndValidate(parse, now, WarningThresholdHours(), plat)
    {
      match parse {
        case ParseFailed(e) =>
          return FailedToParse(e);
        case Parsed(f) =>
          if now > f.thisUpdate && f.nextUpdate.None? {
            // `currentTime.before(null)` throws, and the catch reports a parse failure
            return FailedToParse(plat.nullDeref);
          }
          var isCurrentlyValid := now > f.thisUpdate && now < f.nextUpdate.value;
          var revokedCertCount := f.revokedCount.GetOr(0);
          if !isCurrentlyValid {
            if now < f.thisUpdate {
              var warning := "CRL not yet valid. thisUpdate: " + plat.dateString(f.thisUpdate) + ", Current: " + plat.dateString(now);
              return ParsingResult(false, Some(warning), Some(f.thisUpdate), f.nextUpdate, Some(revokedCertCount));
            } else {
              var warning := "CRL has expired. nextUpdate: " + DateText(f.nextUpdate, plat) + ", Current: " + plat.dateString(now);
              return ParsingResult(false, Some(warning), Some(f.thisUpdate), f.nextUpdate, Some(revokedCertCount));
            }
          }
          var nextUpdate := f.nextUpdate.value;
          var hoursUntilNextUpdate := (nextUpdate - now) / MillisPerHour;
          var warningThreshold := WarningThresholdHours();
          var warnings: seq<string> := [];
          if hoursUntilNextUpdate < warningThreshold {
            warnings := warnings + ["CRL nextUpdate is within " + IntToString(hoursUntilNextUpdate) + "h (threshold: "
              + IntToString(warningThreshold) + "h). Next update: " + plat.dateString(nextUpdate)];
          }
          r := ParsingResult(true, if |warnings| > 0 then Some(Join(warnings, "; ")) else None,
            Some(f.thisUpdate), f.nextUpdate, Some(revokedCertCount));
      }
    }

    /** `verifyCRL`, step by step: `first` is the outcome of the first connection and
        `retry` that of the one retry after an SSLException. */
    method Verify(first: Attempt, retry: Attempt, now: int, plat: Platform) returns (r: CrlVerificationResult)
      ensures r == VerifyCrl(first, retry, now, WarningThresholdHours(), plat)
    {
      var canDownload := false;
      var isValid := false;
      var warningMessage: Option<string> := None;
      match first {
        case Response(responseCode, body) =>
          if responseCode != HttpOk {
            return Failed("HTTP Error: " + IntToString(responseCode));
          }
          canDownload := true;
          match body {
            case Stream(p) =>
              var crlResult := ParseAndValidateCrl(p, now, plat);
              isValid := crlResult.isValid;
              warningMessage := crlResult.warningMessage;
              return CrlVerificationResult(canDownload, isValid, warningMessage,
                crlResult.thisUpdate, crlResult.nextUpdate, crlResult.revokedCount);
            case StreamError(e) =>
              isValid := false;
              warningMessage := Some("Parse error: " + Show(e.message));
              return CrlVerificationResult(canDownload, isValid, warningMessage, None, None, None);
          }
        case SslError(e) =>
          match retry {
            case Response(code, body) =>
              if code != HttpOk {
                return Failed("SSL error and retry failed: " + Show(e.message));
              }
              match body {
                case Stream(p) =>
                  canDownload := true;
                  var crlResult := ParseAndValidateCrl(p, now, plat);
                  isValid := crlResult.isValid;
                  warningMessage := Some("SSL warning - " + crlResult.warningMessage.GetOr(Show(e.message)));
                  return CrlVerificationResult(canDownload, isValid, warningMessage,
                    crlResult.thisUpdate, crlResult.nextUpdate, crlResult.revokedCount);
                case StreamError(_) =>
                  return Failed("SSL error: " + Show(e.message));
              }
            case SslError(_) =>
              return Failed("SSL error: " + Show(e.message));
            case OtherError(_) =>
              return Failed("SSL error: " + Show(e.message));
          }
        case OtherError(e) =>
          return Failed("Error: " + e.message.GetOr(e.simpleName));
      }
    }
  }
}

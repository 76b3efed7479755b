/** The CRL detail screen: the texts it derives from a verification result, in
    particular the time left until nextUpdate. */
module CrlDetail {
  import opened Common
  import opened CrlVerification

  const MillisPerMinute: int := 60000

  /** What the time-remaining line shows. */
  datatype Remaining = RemainingUnknown | Expired | Left(hours: int, minutes: int)

  /** The time-remaining computation for a nextUpdate (if any) and the current time:
      `TimeUnit.MILLISECONDS.toHours` and `toMinutes(..) % 60` are applied only to a
      positive difference, where Java's truncating division is Dafny's. */
  function TimeRemaining(nextUpdate: Option<int>, now: int): (r: Remaining)
    ensures r.RemainingUnknown? <==> nextUpdate.None?
    ensures r.Expired? <==> nextUpdate.Some? && nextUpdate.value - now <= 0
    ensures r.Left? ==> 0 <= r.minutes < 60 && 0 <= r.hours
  {
    match nextUpdate
    case None => RemainingUnknown
    case Some(next) =>
      var timeRemaining := next - now;
      if timeRemaining > 0 then
        Left(timeRemaining / MillisPerHour, (timeRemaining / MillisPerMinute) % 60)
      else Expired
  }

  lemma DivOfDiv(t: nat)
    ensures t / MillisPerHour == (t / MillisPerMinute) / 60
  {
    var m := t / MillisPerMinute;
    var h := m / 60;
    assert t == m * MillisPerMinute + t % MillisPerMinute;
    assert m == h * 60 + m % 60;
    assert t == h * MillisPerHour + ((m % 60) * MillisPerMinute + t % MillisPerMinute);
    assert 0 <= (m % 60) * MillisPerMinute + t % MillisPerMinute < MillisPerHour;
  }

  /** The hours and minutes shown are the whole minutes left, split into hours and the
      minutes past the last whole hour. */
  lemma HoursAndMinutesSplitMinutes(next: int, now: int)
    requires next - now > 0
    ensures var r := TimeRemaining(Some(next), now);
      && r.Left?
      && r.hours * 60 + r.minutes == (next - now) / MillisPerMinute
      && r.hours * MillisPerHour <= next - now < (r.hours + 1) * MillisPerHour
  {
    var t := next - now;
    DivOfDiv(t);
    var m := t / MillisPerMinute;
    assert m == (m / 60) * 60 + m % 60;
    var h := t / MillisPerHour;
    assert t == h * MillisPerHour + t % MillisPerHour;
  }

  /** The verifier reads its clock at `tVerify`; the detail screen reads its own clock
      later, at `tShown`. A CRL the verifier reports valid has a nextUpdate after
      `tVerify`, and shows time left exactly while `tShown` is before that nextUpdate.
      One that already shows as expired at `tVerify` was never reported valid, and an
      expiry seen at `tVerify` is still shown at `tShown`. */
  lemma DetailAgreesWithVerifier(first: Attempt, retry: Attempt, tVerify: int, tShown: int, threshold: int,
                                 plat: Platform)
    requires tVerify <= tShown
    ensures var c := VerifyCrl(first, retry, tVerify, threshold, plat);
      && (c.isValid ==> c.nextUpdate.Some? && tVerify < c.nextUpdate.value)
      && (c.isValid ==> (TimeRemaining(c.nextUpdate, tShown).Left? <==> tShown < c.nextUpdate.value))
      && (TimeRemaining(c.nextUpdate, tVerify).Expired? ==> !c.isValid)
      && (TimeRemaining(c.nextUpdate, tVerify).Expired? ==> TimeRemaining(c.nextUpdate, tShown).Expired?)
  {
    InvalidResultHasMessage(first, retry, tVerify, threshold, plat);
  }

  function RevokedCountText(count: Option<int>): (s: string)
    ensures count.None? <==> s == "CRL revoked certificate count: unknown"
  {
    match count
    case Some(n) =>
      var text := "CRL contains " + IntToString(n) + " revoked certificates";
      assert text[4] == 'c';
      text
    case None => "CRL revoked certificate count: unknown"
  }

  function ThisUpdateText(thisUpdate: Option<int>, plat: Platform): (s: string)
    ensures StartsWith(s, "thisUpdate: ")
    ensures thisUpdate.None? ==> s == "thisUpdate: unknown"
  {
    match thisUpdate
    case Some(t) => "thisUpdate: " + plat.formatDate(t)
    case None => "thisUpdate: unknown"
  }

  function NextUpdateText(nextUpdate: Option<int>, plat: Platform): (s: string)
    ensures StartsWith(s, "nextUpdate: ")
    ensures nextUpdate.None? ==> s == "nextUpdate: unknown"
  {
    match nextUpdate
    case Some(t) => "nextUpdate: " + plat.formatDate(t)
    case None => "nextUpdate: unknown"
  }

  function TimeRemainingText(nextUpdate: Option<int>, now: int): (s: string)
    ensures nextUpdate.None? <==> s == "Time until nextUpdate: unknown"
    ensures TimeRemaining(nextUpdate, now).Expired? <==> s == "CRL has EXPIRED"
  {
    match TimeRemaining(nextUpdate, now)
    case RemainingUnknown => "Time until nextUpdate: unknown"
    case Expired => "CRL has EXPIRED"
    case Left(h, m) =>
      var text := "Time until nextUpdate: " + IntToString(h) + "h " + IntToString(m) + "m";
      assert text[|text| - 1] == 'm';
      text
  }
}

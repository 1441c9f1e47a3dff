/**
 * The scorers over the domain's registry record and the network probes:
 * features 9 (`Domain_registeration_length`), 18 (`Abnormal_URL`), 19
 * (`Redirect`), 24 (`age_of_domain`) and 25 (`DNSRecord`). Times are whole
 * seconds on one clock; a day is 86400 of them.
 */
module Records {
  import opened Scoring
  import opened Wrappers
  import opened Text

  const SecondsPerDay: int := 86400

  /** A value found in a WHOIS date field: a date-time, or anything else (a raw string, say). */
  datatype DateValue = At(seconds: int) | NotADate

  /** A WHOIS date field: missing (or empty), one value, or a list of values. */
  datatype DateField = Absent | One(value: DateValue) | Many(items: seq<DateValue>)

  /**
   * A WHOIS answer: `hasFields` is its truth value (an answer with no fields
   * is false), `text` is what `str()` renders of it.
   */
  datatype WhoisRecord = WhoisRecord(hasFields: bool, creation: DateField, expiration: DateField, text: string)

  /** The date a field stands for: a date-time, or the first element of a non-empty list when that is a date-time. */
  function FirstDate(f: DateField): (d: Option<int>)
    ensures d.Some? ==> f == One(At(d.value)) || (f.Many? && |f.items| > 0 && f.items[0] == At(d.value))
    ensures d.None? <==> f.Absent? || f == One(NotADate) || (f.Many? && (|f.items| == 0 || f.items[0] == NotADate))
  {
    match f
    case Absent => None
    case One(v) => if v.At? then Some(v.seconds) else None
    case Many(items) => if |items| > 0 && items[0].At? then Some(items[0].seconds) else None
  }

  /** `timedelta.days`: whole days, rounded down. */
  function Days(seconds: int): (d: int)
    ensures d * SecondsPerDay <= seconds < (d + 1) * SecondsPerDay
  {
    seconds / SecondsPerDay
  }

  /** Whole days reach `n` exactly when the seconds reach `n` days' worth. */
  lemma DaysAtLeast(seconds: int, n: int)
    ensures Days(seconds) >= n <==> seconds >= n * SecondsPerDay
  {
    var d := Days(seconds);
    if d >= n {
      assert d * SecondsPerDay >= n * SecondsPerDay;
    } else {
      assert (d + 1) * SecondsPerDay <= n * SecondsPerDay;
    }
  }

  /** The WHOIS answer is there and true. */
  predicate Usable(whois: Option<WhoisRecord>) {
    whois.Some? && whois.value.hasFields
  }

  /**
   * Feature 9: 1 exactly when both dates are known and the registration runs
   * at least 365 days; otherwise -1.
   */
  function RegistrationLength(whois: Option<WhoisRecord>): (r: Score)
    ensures r == 1 <==>
      (Usable(whois) && FirstDate(whois.value.creation).Some? && FirstDate(whois.value.expiration).Some?
       && FirstDate(whois.value.expiration).value - FirstDate(whois.value.creation).value >= 365 * SecondsPerDay)
    ensures r == 1 || r == -1
  {
    if !Usable(whois) then -1
    else
      var expDate := FirstDate(whois.value.expiration);
      var createDate := FirstDate(whois.value.creation);
      if expDate.Some? && createDate.Some? then
        var regLength := Days(expDate.value - createDate.value);
        DaysAtLeast(expDate.value - createDate.value, 365);
        if regLength >= 365 then 1 else -1
      else -1
  }

  /**
   * Feature 24: 1 for a domain created at least 180 days before `now`, 0 for
   * at least 30 days, -1 for a younger one or an unknown creation date.
   */
  function AgeOfDomain(whois: Option<WhoisRecord>, now: int): (r: Score)
    ensures r == 1 <==>
      (Usable(whois) && FirstDate(whois.value.creation).Some?
       && now - FirstDate(whois.value.creation).value >= 180 * SecondsPerDay)
    ensures r == 0 <==>
      (Usable(whois) && FirstDate(whois.value.creation).Some?
       && 30 * SecondsPerDay <= now - FirstDate(whois.value.creation).value < 180 * SecondsPerDay)
  {
    if !Usable(whois) then -1
    else
      match FirstDate(whois.value.creation)
      case None => -1
      case Some(createDate) =>
        var ageDays := Days(now - createDate);
        DaysAtLeast(now - createDate, 180);
        DaysAtLeast(now - createDate, 30);
        if ageDays >= 180 then 1
        else if ageDays >= 30 then 0
        else -1
  }

  /** The same record scored later never scores lower. */
  lemma AgeOfDomainMonotone(whois: Option<WhoisRecord>, now: int, later: int)
    requires now <= later
    ensures AgeOfDomain(whois, now) <= AgeOfDomain(whois, later)
  {
  }

  /** A date given as a list of date-times counts by its first element. */
  lemma ListDateUsesFirst(c: int, e: int, rest: seq<DateValue>)
    ensures RegistrationLength(Some(WhoisRecord(true, Many([At(c)] + rest), One(At(e)), "")))
         == RegistrationLength(Some(WhoisRecord(true, One(At(c)), One(At(e)), "")))
  {
    assert ([At(c)] + rest)[0] == At(c);
  }

  /** Feature 18: 1 exactly when the cleaned host occurs in the lower-cased WHOIS text. */
  function AbnormalUrl(whois: Option<WhoisRecord>, cleanDomain: string): (r: Score)
    ensures r == 1 <==> Usable(whois) && Contains(Lower(whois.value.text), Lower(cleanDomain))
    ensures r == 1 || r == -1
  {
    if !Usable(whois) then -1
    else if Contains(Lower(whois.value.text), Lower(cleanDomain)) then 1
    else -1
  }

  /** The host's letter case does not matter, since both sides are lower-cased. */
  lemma AbnormalUrlIgnoresCase(whois: Option<WhoisRecord>, cleanDomain: string)
    ensures AbnormalUrl(whois, Lower(cleanDomain)) == AbnormalUrl(whois, cleanDomain)
  {
    LowerFixesLower(cleanDomain);
  }

  /** Feature 25: 1 when the host resolves. */
  function DnsRecord(resolves: bool): (r: Score)
    ensures r == 1 <==> resolves
    ensures r == -1 <==> !resolves
  {
    if resolves then 1 else -1
  }

  /**
   * What the redirect probe saw: the status of a HEAD request that does not
   * follow redirects (`None` when it raised), and the number of hops of a
   * GET that follows them (`None` when it raised).
   */
  datatype RedirectProbe = RedirectProbe(head: Option<int>, hops: Option<nat>)

  const RedirectStatuses: set<int> := {301, 302, 303, 307, 308}

  /**
   * Feature 19: a failed HEAD scores -1; a non-redirect status 1; after a
   * redirect status, at most one hop 1, at most four 0, more (or a failed GET) -1.
   */
  function Redirect(probe: RedirectProbe): (r: Score)
    ensures probe.head.None? ==> r == -1
    ensures r == 1 <==> probe.head.Some? && (probe.head.value !in RedirectStatuses
                                             || (probe.hops.Some? && probe.hops.value <= 1))
    ensures r == 0 <==> probe.head.Some? && probe.head.value in RedirectStatuses
                        && probe.hops.Some? && 2 <= probe.hops.value <= 4
  {
    match probe.head
    case None => -1
    case Some(status) =>
      if status in RedirectStatuses then
        match probe.hops
        case None => -1
        case Some(redirectCount) =>
          if redirectCount <= 1 then 1
          else if redirectCount <= 4 then 0
          else -1
      else 1
  }

  /** For a redirecting URL, more hops never score higher. */
  lemma RedirectMonotone(status: int, n: nat, m: nat)
    requires status in RedirectStatuses && n <= m
    ensures Redirect(RedirectProbe(Some(status), Some(m))) <= Redirect(RedirectProbe(Some(status), Some(n)))
  {
  }
}

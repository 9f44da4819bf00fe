/**
 * A campaign ("sendout") and the rules of `Sendout.php` that do not touch the
 * database: the recurrence test, the validators, the default values, the
 * comma-list encoding of `week_days` and `sources`, the test-address list,
 * the "no filtering" test and the unsubscribe callback URL.
 */
module Sendout {
  import opened Wrappers
  import Clock
  import PhpStrings

  /** `active|paused|done|draft`. */
  datatype Status = Active | Paused | Done | Draft

  /** The `on` switches of the two filter groups kept in `filters`. */
  datatype Filters = Filters(notRegisteredOn: bool, registeredOn: bool)

  /** A row of the `sendout` table, with `week_days` and `sources` in their decoded (array) form. */
  datatype Record = Record(
    status: Status,
    priority: int,
    frequency: int,
    weekDays: seq<string>,
    hoursFrom: Option<int>,
    hoursTo: Option<int>,
    sendInvite: bool,
    inviteDelayHours: Option<int>,
    templateId: Option<nat>,
    templateInviteId: Option<nat>,
    domainIds: set<nat>,
    dateLastSendout: Option<int>,
    tested: bool,
    testedInvite: bool,
    testEmails: string,
    pauseReason: Option<string>,
    pingUrl: string,
    unsubscribePingUrl: string,
    sources: seq<string>,
    filters: Filters,
    fromMail: string)

  /** `date('N')`: the weekday as the one-digit string the `week_days` list holds. */
  function WeekdayToken(d: int): string
    requires 1 <= d <= 7
  {
    [PhpStrings.Digit(d)]
  }

  // ---- Recurrence ------------------------------------------------------------------------

  /**
   * `isTimeToSendout`: only an active campaign is due; a one-off (0) always,
   * an on-demand one (-1) never, a weekday one (-2) on a listed weekday when it
   * has not gone out that day yet, any other frequency when it never went out
   * or at least `frequency` whole days have passed.
   */
  function IsTimeToSendout(s: Record, now: int): (due: bool)
    ensures due ==> s.status == Active && s.frequency != -1
    ensures s.frequency == -2 && s.weekDays == [] ==> !due
  {
    if s.status != Active then false
    else if s.frequency == 0 then true
    else if s.frequency == -1 then false
    else if s.frequency == -2 then
      WeekdayToken(Clock.IsoWeekday(now)) in s.weekDays &&
      (s.dateLastSendout.None? || Clock.Day(s.dateLastSendout.value) != Clock.Day(now))
    else
      s.dateLastSendout.None? || Clock.DaysBetween(s.dateLastSendout.value, now) >= s.frequency
  }

  /**
   * What `scheduleMails` saves before it inserts the regular batch: the time of
   * this sendout, and `done` for a one-off campaign.
   */
  function MarkScheduled(s: Record, now: int): (r: Record)
    ensures r.dateLastSendout == Some(now)
    ensures r.status == (if s.frequency == 0 then Done else s.status)
    ensures r.(dateLastSendout := s.dateLastSendout, status := s.status) == s
  {
    s.(dateLastSendout := Some(now), status := if s.frequency == 0 then Done else s.status)
  }

  /** A one-off campaign, once scheduled, is never due again. */
  lemma OneOffSchedulesOnce(s: Record, now: int, later: int)
    requires s.frequency == 0
    ensures !IsTimeToSendout(MarkScheduled(s, now), later)
  {
  }

  /** A weekday campaign, once scheduled, is not due again on the same day ... */
  lemma WeekdayOncePerDay(s: Record, now: int, later: int)
    requires s.frequency == -2 && Clock.Day(later) == Clock.Day(now)
    ensures !IsTimeToSendout(MarkScheduled(s, now), later)
  {
  }

  /** ... and is due again on the same weekday of the next week. */
  lemma WeekdayDueNextWeek(s: Record, now: int, later: int)
    requires s.frequency == -2 && IsTimeToSendout(s, now)
    requires Clock.Day(later) == Clock.Day(now) + 7
    ensures IsTimeToSendout(MarkScheduled(s, now), later)
  {
    Clock.WeekdayRepeatsWeekly(now, later);
  }

  /** A periodic campaign, once scheduled, is due again exactly when `frequency` days have passed. */
  lemma PeriodicDueAfterFrequency(s: Record, now: int, later: int)
    requires s.frequency > 0 || s.frequency < -2
    ensures IsTimeToSendout(MarkScheduled(s, now), later) <==>
      s.status == Active && Clock.DaysBetween(now, later) >= s.frequency
  {
  }

  // ---- Validation ------------------------------------------------------------------------

  datatype ValidationError =
    | HoursFromOutOfRange
    | HoursToOutOfRange
    | HoursFromAfterHoursTo
    | InvalidTestEmail(email: string)
    | NotTested
    | InviteNotTested
    | StatusNotSavable

  /** The errors of the `test_emails` rule: one per address the e-mail validator refuses. */
  function InvalidEmails(emails: seq<string>, isEmail: string -> bool): (errs: seq<ValidationError>)
    ensures errs == [] <==> forall e :: e in emails ==> isEmail(e)
    ensures |errs| <= |emails|
  {
    if emails == [] then []
    else (if isEmail(emails[0]) then [] else [InvalidTestEmail(emails[0])]) + InvalidEmails(emails[1..], isEmail)
  }

  /**
   * The rules checked when a campaign is saved with validation: both hours
   * are integers in 0..24 (a null one is skipped), `hours_from <= hours_to`
   * (skipped when `hours_from` already failed; a null `hours_to` compares as 0),
   * every test address is an e-mail, and the status gate. The e-mail
   * validator is a parameter.
   */
  function Validate(s: Record, isEmail: string -> bool): (errs: seq<ValidationError>)
    ensures errs == [] <==>
      && HoursValid(s)
      && (forall e :: e in TestEmails(s.testEmails) ==> isEmail(e))
      && (s.status == Active || s.status == Draft)
      && (s.status == Active ==> s.tested && (s.sendInvite ==> s.testedInvite))
  {
    var fromInRange := s.hoursFrom.None? || 0 <= s.hoursFrom.value <= 24;
    (if fromInRange then [] else [HoursFromOutOfRange])
    + (if s.hoursTo.None? || 0 <= s.hoursTo.value <= 24 then [] else [HoursToOutOfRange])
    + (if fromInRange && s.hoursFrom.Some? && s.hoursFrom.value > s.hoursTo.GetOr(0) then [HoursFromAfterHoursTo] else [])
    + InvalidEmails(TestEmails(s.testEmails), isEmail)
    + (if s.status == Active && !s.tested then [NotTested] else [])
    + (if s.status == Active && s.sendInvite && !s.testedInvite then [InviteNotTested] else [])
    + (if s.status != Active && s.status != Draft then [StatusNotSavable] else [])
  }

  /**
   * The hour window rules; a campaign passes validation exactly when its
   * hours are valid, every test address is an e-mail, it is saved as active
   * or draft, and an active one has passed the test send (and the invite test
   * when invites are on).
   */
  predicate HoursValid(s: Record) {
    && (s.hoursFrom.None? || 0 <= s.hoursFrom.value <= 24)
    && (s.hoursTo.None? || 0 <= s.hoursTo.value <= 24)
    && (s.hoursFrom.None? || s.hoursFrom.value <= s.hoursTo.GetOr(0))
  }

  /** `loadDefaultValues`: on demand, sender `noreply`, hours 0..24, no sources, no weekdays, no invites. */
  function LoadDefaultValues(s: Record): (d: Record)
    ensures d.frequency == -1 && d.fromMail == "noreply"
    ensures d.hoursFrom == Some(0) && d.hoursTo == Some(24)
    ensures d.sources == [] && d.weekDays == [] && !d.sendInvite
    ensures d.(frequency := s.frequency, fromMail := s.fromMail, hoursFrom := s.hoursFrom, hoursTo := s.hoursTo,
               sources := s.sources, weekDays := s.weekDays, sendInvite := s.sendInvite) == s
  {
    s.(frequency := -1, fromMail := "noreply", hoursFrom := Some(0), hoursTo := Some(24),
       sources := [], weekDays := [], sendInvite := false)
  }

  /** A campaign with the default values is never scheduled on its own, and its hours are valid. */
  lemma DefaultsOnDemandAndValidHours(s: Record, now: int)
    ensures !IsTimeToSendout(LoadDefaultValues(s), now)
    ensures HoursValid(LoadDefaultValues(s))
  {
  }

  // ---- Comma lists -----------------------------------------------------------------------

  /** `implode(',', xs)`. */
  function Implode(xs: seq<string>): (r: string)
    ensures |xs| >= 2 ==> ',' in r
    ensures (forall i :: 0 <= i < |xs| ==> ',' !in xs[i]) && |xs| <= 1 ==> ',' !in r
  {
    if xs == [] then "" else if |xs| == 1 then xs[0] else xs[0] + "," + Implode(xs[1..])
  }

  /** `explode(',', s)`: always at least one piece. */
  function Explode(s: string): (r: seq<string>)
    ensures |r| >= 1
    decreases |s|
  {
    if s == [] then [""]
    else
      var rest := Explode(s[1..]);
      if s[0] == ',' then [""] + rest else [[s[0]] + rest[0]] + rest[1..]
  }

  /** `unSerializeValues` for `week_days`: an untruthy string gives the empty list. */
  function UnserializeWeekDays(s: string): (r: seq<string>)
    ensures r == [] <==> !PhpStrings.Truthy(s)
  {
    if PhpStrings.Truthy(s) then Explode(s) else []
  }

  /** `unSerializeValues` for `sources`: always exploded. */
  function UnserializeSources(s: string): (r: seq<string>)
    ensures |r| >= 1
    ensures s == "" ==> r == [""]
  {
    Explode(s)
  }

  lemma {:induction false} ExplodeSingle(x: string)
    requires ',' !in x
    ensures Explode(x) == [x]
    decreases |x|
  {
    if x != [] {
      assert ',' !in x[1..];
      ExplodeSingle(x[1..]);
      assert [x[0]] + x[1..] == x;
    }
  }

  lemma {:induction false} ExplodeSplits(x: string, y: string)
    requires ',' !in x
    ensures Explode(x + "," + y) == [x] + Explode(y)
    decreases |x|
  {
    if x == [] {
      assert x + "," + y == [','] + y;
      assert (x + "," + y)[1..] == y;
    } else {
      assert (x + "," + y)[1..] == x[1..] + "," + y;
      assert ',' !in x[1..];
      ExplodeSplits(x[1..], y);
      assert [x[0]] + x[1..] == x;
    }
  }

  /** Splitting a joined non-empty list whose elements hold no comma gives the list back. */
  lemma {:induction false} ExplodeImplode(xs: seq<string>)
    requires |xs| >= 1
    requires forall i :: 0 <= i < |xs| ==> ',' !in xs[i]
    ensures Explode(Implode(xs)) == xs
    decreases |xs|
  {
    if |xs| == 1 {
      ExplodeSingle(xs[0]);
    } else {
      ExplodeSplits(xs[0], Implode(xs[1..]));
      ExplodeImplode(xs[1..]);
      assert [xs[0]] + xs[1..] == xs;
    }
  }

  /**
   * `week_days` survive a save and reload when no element holds a comma,
   * except the two lists that join to an untruthy string: [""] and ["0"].
   * The empty list comes back empty.
   */
  lemma WeekDaysRoundTrip(xs: seq<string>)
    requires forall i :: 0 <= i < |xs| ==> ',' !in xs[i]
    requires xs != [""] && xs != ["0"]
    ensures UnserializeWeekDays(Implode(xs)) == xs
  {
    if |xs| >= 2 {
      assert Implode(xs)[|xs[0]|] == ',';
    }
    if xs != [] {
      ExplodeImplode(xs);
    }
  }

  /** A weekday list holding only "0" is lost on reload, PHP treating "0" as false. */
  lemma ZeroWeekDayLost()
    ensures UnserializeWeekDays(Implode(["0"])) == []
  {
  }

  /** An empty `sources` list comes back as [""], which the filter test still reads as "no sources". */
  lemma EmptySourcesReloadUnfiltered(s: Record)
    requires !s.filters.notRegisteredOn && !s.filters.registeredOn
    ensures UnserializeSources(Implode([])) == [""]
    ensures IfNoFiltering(s.(sources := UnserializeSources(Implode([]))))
  {
  }

  /** `getIfNoFiltering`: neither filter group is on and the first source is untruthy or absent. */
  function IfNoFiltering(s: Record): bool {
    !(s.filters.notRegisteredOn || s.filters.registeredOn || (|s.sources| > 0 && PhpStrings.Truthy(s.sources[0])))
  }

  // ---- Test addresses --------------------------------------------------------------------

  /** The separators of `preg_split('/[\s,;]+/', ...)`: PCRE's `\s`, comma and semicolon. */
  predicate IsSeparator(c: char) {
    c == ' ' || c == '\t' || c == '\n' || c == '\r' || c == '\U{000B}' || c == '\U{000C}' || c == ',' || c == ';'
  }

  predicate NoSeparator(t: string) {
    forall i :: 0 <= i < |t| ==> !IsSeparator(t[i])
  }

  /** The `if ($email)` filter on one piece. */
  function Keep(t: string): seq<string> {
    if PhpStrings.Truthy(t) then [t] else []
  }

  /**
   * Splits at every separator, carrying the current piece in `cur`, and keeps
   * the truthy pieces. Splitting at single separators rather than runs only
   * adds empty pieces, which the filter drops.
   */
  function TestEmailsFrom(s: string, cur: string): (r: seq<string>)
    requires NoSeparator(cur)
    ensures forall i :: 0 <= i < |r| ==> PhpStrings.Truthy(r[i]) && NoSeparator(r[i])
    decreases |s|
  {
    if s == [] then Keep(cur)
    else if IsSeparator(s[0]) then Keep(cur) + TestEmailsFrom(s[1..], "")
    else TestEmailsFrom(s[1..], cur + [s[0]])
  }

  /** `getTestEmails`: the addresses in `test_emails`, none empty, none "0", none holding a separator. */
  function TestEmails(s: string): (r: seq<string>)
    ensures forall i :: 0 <= i < |r| ==> PhpStrings.Truthy(r[i]) && NoSeparator(r[i])
  {
    TestEmailsFrom(s, "")
  }

  lemma {:induction false} TestEmailsFromToken(t: string, cur: string)
    requires NoSeparator(cur) && NoSeparator(t)
    ensures TestEmailsFrom(t, cur) == Keep(cur + t)
    decreases |t|
  {
    if t != [] {
      assert cur + t == (cur + [t[0]]) + t[1..];
      TestEmailsFromToken(t[1..], cur + [t[0]]);
    } else {
      assert cur + t == cur;
    }
  }

  lemma {:induction false} TestEmailsFromSplit(a: string, c: char, b: string, cur: string)
    requires NoSeparator(cur) && IsSeparator(c)
    ensures TestEmailsFrom(a + [c] + b, cur) == TestEmailsFrom(a, cur) + TestEmails(b)
    decreases |a|
  {
    if a == [] {
      assert a + [c] + b == [c] + b;
      assert ([c] + b)[1..] == b;
    } else {
      assert (a + [c] + b)[1..] == a[1..] + [c] + b;
      if IsSeparator(a[0]) {
        TestEmailsFromSplit(a[1..], c, b, "");
      } else {
        TestEmailsFromSplit(a[1..], c, b, cur + [a[0]]);
      }
    }
  }

  /** A separator splits the list: the addresses on either side, in order. */
  lemma TestEmailsSplit(a: string, c: char, b: string)
    requires IsSeparator(c)
    ensures TestEmails(a + [c] + b) == TestEmails(a) + TestEmails(b)
  {
    TestEmailsFromSplit(a, c, b, "");
  }

  /** A piece without separators is one address, unless it is "" or "0". */
  lemma TestEmailsToken(t: string)
    requires NoSeparator(t)
    ensures TestEmails(t) == Keep(t)
  {
    TestEmailsFromToken(t, "");
    assert "" + t == t;
  }

  // ---- Callback URL ----------------------------------------------------------------------

  /**
   * The URL `pingUnsubscribe` requests: `unsubscribe_ping_url` with `{mail_id}`
   * (empty when there is none), `{sendout_id}`, `{subscriber_id}` and `{email}`
   * substituted in that order. An untruthy result means no request.
   */
  function UnsubscribePingUrl(template: string, mailId: Option<nat>, sendoutId: nat, subscriberId: nat, email: string)
    : (r: Option<string>)
    ensures r.Some? ==> PhpStrings.Truthy(r.value)
    ensures '{' !in template ==> r == if PhpStrings.Truthy(template) then Some(template) else None
  {
    var pairs := [
      ("{mail_id}", if mailId.Some? then PhpStrings.DecimalString(mailId.value) else ""),
      ("{sendout_id}", PhpStrings.DecimalString(sendoutId)),
      ("{subscriber_id}", PhpStrings.DecimalString(subscriberId)),
      ("{email}", email)];
    var url := PhpStrings.StrReplace(template, pairs);
    assert '{' !in template ==> url == template by {
      if '{' !in template {
        PhpStrings.NoBraceUnchanged(template, pairs);
      }
    }
    if PhpStrings.Truthy(url) then Some(url) else None
  }

  /** A template that ends in `{email}` after plain text receives the subscriber's address there. */
  lemma UnsubscribeUrlCarriesEmail(prefix: string, mailId: Option<nat>, sendoutId: nat, subscriberId: nat, email: string)
    requires '{' !in prefix && PhpStrings.Truthy(prefix + email)
    ensures UnsubscribePingUrl(prefix + "{email}", mailId, sendoutId, subscriberId, email) == Some(prefix + email)
  {
    var t := prefix + "{email}";
    var m := if mailId.Some? then PhpStrings.DecimalString(mailId.value) else "";
    var pairs := [("{mail_id}", m),
      ("{sendout_id}", PhpStrings.DecimalString(sendoutId)),
      ("{subscriber_id}", PhpStrings.DecimalString(subscriberId)),
      ("{email}", email)];
    PhpStrings.ReplaceAfterPlainPrefix(prefix, "{email}", pairs[0].0, pairs[0].1);
    PhpStrings.ReplaceAfterPlainPrefix(prefix, "{email}", pairs[1].0, pairs[1].1);
    PhpStrings.ReplaceAfterPlainPrefix(prefix, "{email}", pairs[2].0, pairs[2].1);
    PhpStrings.ReplaceAfterPlainPrefix(prefix, "{email}", "{email}", email);
    assert PhpStrings.ReplaceAll("{email}", "{email}", email) == email;
    calc {
      PhpStrings.StrReplace(t, pairs);
      PhpStrings.StrReplace(PhpStrings.ReplaceAll(t, pairs[0].0, pairs[0].1), pairs[1..]);
      PhpStrings.StrReplace(t, pairs[1..]);
      PhpStrings.StrReplace(t, pairs[2..]);
      PhpStrings.StrReplace(t, pairs[3..]);
      PhpStrings.StrReplace(prefix + email, pairs[4..]);
      prefix + email;
    }
  }
}

/**
 * A queued message and the rules that `Mail.php` applies to it without
 * touching the database: the funnel ranking of statuses, the save hook that
 * stamps dates and emits statistics events, the claim filter, and the limit
 * of one portion.
 */
module Mail {
  import opened Wrappers
  import Clock
  import PhpStrings

  /** The status column of the `mail` table. */
  datatype Status =
    | Awaits | Sending | Delayed | Cancelled
    | Sended | Error | Delivered | Opened | Clicked
    | Subscribed | Unsubscribed | Registered | Paid

  /** `Mail::$events_stats_allowed`: the statuses that feed statistics, in increasing order. */
  const EventsStatsAllowed: seq<Status> :=
    [Error, Sended, Delivered, Opened, Clicked, Subscribed, Unsubscribed, Registered, Paid]

  /** The statuses the dispatcher and scheduler use to steer a message; they carry no rank. */
  predicate IsControl(s: Status) {
    s == Awaits || s == Sending || s == Delayed || s == Cancelled
  }

  /** Position of a status in the funnel, written out as a table (reference for `Search`). */
  function FunnelRank(s: Status): Option<nat> {
    match s
    case Error => Some(0)
    case Sended => Some(1)
    case Delivered => Some(2)
    case Opened => Some(3)
    case Clicked => Some(4)
    case Subscribed => Some(5)
    case Unsubscribed => Some(6)
    case Registered => Some(7)
    case Paid => Some(8)
    case _ => None
  }

  /** PHP's `array_search`: the first index of `x` in `xs`, or `false` (None). */
  function Search(x: Status, xs: seq<Status>): (r: Option<nat>)
    ensures r.None? <==> x !in xs
    ensures r.Some? ==> r.value < |xs| && xs[r.value] == x && forall j :: 0 <= j < r.value ==> xs[j] != x
  {
    SearchFrom(x, xs, 0)
  }

  /** The scan of `array_search` from index `i` on. */
  function SearchFrom(x: Status, xs: seq<Status>, i: nat): (r: Option<nat>)
    requires i <= |xs|
    ensures r.None? <==> forall j :: i <= j < |xs| ==> xs[j] != x
    ensures r.Some? ==> i <= r.value < |xs| && xs[r.value] == x && forall j :: i <= j < r.value ==> xs[j] != x
    decreases |xs| - i
  {
    if i == |xs| then None
    else if xs[i] == x then Some(i)
    else SearchFrom(x, xs, i + 1)
  }

  /** The funnel table agrees with the list position by position. */
  lemma FunnelRankAt(i: nat)
    requires i < |EventsStatsAllowed|
    ensures FunnelRank(EventsStatsAllowed[i]) == Some(i)
  {
    if i == 0 {
    } else if i == 1 {
    } else if i == 2 {
    } else if i == 3 {
    } else if i == 4 {
    } else if i == 5 {
    } else if i == 6 {
    } else if i == 7 {
    }
  }

  /** Every status with a funnel rank is listed. */
  lemma FunnelListed(s: Status)
    ensures FunnelRank(s).Some? ==> s in EventsStatsAllowed
  {
    var xs := EventsStatsAllowed;
    match s
    case Error => assert xs[0] == s;
    case Sended => assert xs[1] == s;
    case Delivered => assert xs[2] == s;
    case Opened => assert xs[3] == s;
    case Clicked => assert xs[4] == s;
    case Subscribed => assert xs[5] == s;
    case Unsubscribed => assert xs[6] == s;
    case Registered => assert xs[7] == s;
    case Paid => assert xs[8] == s;
    case _ =>
  }

  /** `array_search` over `$events_stats_allowed` is the funnel table. */
  lemma SearchIsFunnelRank(s: Status)
    ensures Search(s, EventsStatsAllowed) == FunnelRank(s)
  {
    var r := Search(s, EventsStatsAllowed);
    if r.Some? {
      FunnelRankAt(r.value);
    } else {
      FunnelListed(s);
    }
  }

  /**
   * PHP 8's `<` between two `array_search` results (an index or `false`): an
   * integer compared with `false` is compared as a boolean.
   */
  function LooseLess(a: Option<nat>, b: Option<nat>): bool {
    match (a, b)
    case (Some(i), Some(j)) => i < j
    case (None, Some(j)) => j != 0
    case (_, None) => false
  }

  /** `isStatusIncreased`, as written: `prev` is the stored status (None for a new record). */
  function IsStatusIncreased(prev: Option<Status>, next: Status): (up: bool)
    ensures up ==> next in EventsStatsAllowed
    ensures prev == Some(next) ==> !up
  {
    var o := if prev.Some? then Search(prev.value, EventsStatsAllowed) else None;
    var n := Search(next, EventsStatsAllowed);
    if n.Some? && o.None? then true else LooseLess(o, n)
  }

  /** The rank of a stored status, -1 when it is absent or not in the funnel. */
  function RankOf(s: Option<Status>): int {
    if s.Some? && FunnelRank(s.value).Some? then FunnelRank(s.value).value else -1
  }

  /**
   * A status increases exactly when the new one is in the funnel and the old
   * one is either outside it or ranked strictly lower.
   */
  lemma IncreasedMeaning(prev: Option<Status>, next: Status)
    ensures IsStatusIncreased(prev, next) <==> FunnelRank(next).Some? && RankOf(prev) < FunnelRank(next).value
  {
    SearchIsFunnelRank(next);
    if prev.Some? {
      SearchIsFunnelRank(prev.value);
    }
  }

  /** Setting `awaits`, `sending`, `delayed` or `cancelled` is never an increase. */
  lemma ControlNeverIncreases(prev: Option<Status>, next: Status)
    requires IsControl(next)
    ensures !IsStatusIncreased(prev, next)
  {
    IncreasedMeaning(prev, next);
  }

  /** A row of the `mail` table; `outcomeDates` holds `date_error`, `date_sended`, ..., `date_paid` by status. */
  datatype Record = Record(
    sendoutId: nat,
    subscriberId: nat,
    status: Status,
    isInvite: bool,
    priority: int,
    hourFrom: Option<int>,
    hourTo: Option<int>,
    dateScheduled: Option<int>,
    dateCreated: Option<int>,
    dateAltered: Option<int>,
    outcomeDates: map<Status, int>,
    error: Option<string>)

  /** An `EventSummary::add` call: campaign, status, time and the transient paid value. */
  datatype Event = Event(sendoutId: nat, status: Status, at: int, paidValue: Option<int>)

  /** What `beforeSave` leaves to be written, and the event it emitted, if any. */
  datatype Saved = Saved(record: Record, event: Option<Event>)

  /** A save emits a statistics event when the status increased, and on every `paid`. */
  predicate EmitsEvent(prev: Option<Status>, next: Status) {
    IsStatusIncreased(prev, next) || next == Paid
  }

  /**
   * `beforeSave`: a new record gets only `date_created`; an existing one gets
   * `date_altered` when its status changed and the outcome date of the new
   * status when the status increased. The status itself is never refused.
   */
  function BeforeSave(isNew: bool, prev: Option<Status>, m: Record, paidValue: Option<int>, now: int): (r: Saved)
    ensures r.record.status == m.status
    ensures r.record.(dateCreated := m.dateCreated, dateAltered := m.dateAltered, outcomeDates := m.outcomeDates) == m
    ensures isNew ==> r.record == m.(dateCreated := Some(now))
    ensures !isNew ==> r.record.dateCreated == m.dateCreated
    ensures !isNew ==> r.record.dateAltered == if prev != Some(m.status) then Some(now) else m.dateAltered
    ensures !isNew && IsStatusIncreased(prev, m.status) ==>
      FunnelRank(m.status).Some? && r.record.outcomeDates == m.outcomeDates[m.status := now]
    ensures !isNew && !IsStatusIncreased(prev, m.status) ==> r.record.outcomeDates == m.outcomeDates
    ensures r.event.Some? <==> EmitsEvent(prev, m.status)
    ensures r.event.Some? ==> r.event.value == Event(m.sendoutId, m.status, now, paidValue)
  {
    IncreasedMeaning(prev, m.status);
    var stamped :=
      if isNew then m.(dateCreated := Some(now))
      else
        var altered := if prev != Some(m.status) then Some(now) else m.dateAltered;
        var dates := if IsStatusIncreased(prev, m.status) then m.outcomeDates[m.status := now] else m.outcomeDates;
        m.(dateAltered := altered, outcomeDates := dates);
    Saved(stamped, if EmitsEvent(prev, m.status) then Some(Event(m.sendoutId, m.status, now, paidValue)) else None)
  }

  /** A repeated `paid` emits another event but does not restamp `date_paid`. */
  lemma RepeatedPaidNotRestamped(m: Record, paidValue: Option<int>, now: int)
    requires m.status == Paid
    ensures BeforeSave(false, Some(Paid), m, paidValue, now).record.outcomeDates == m.outcomeDates
    ensures BeforeSave(false, Some(Paid), m, paidValue, now).event == Some(Event(m.sendoutId, Paid, now, paidValue))
  {
    IncreasedMeaning(Some(Paid), Paid);
  }

  /** Writing a control status stores it, stamps no outcome date and emits nothing. */
  lemma ControlWriteEmitsNothing(prev: Option<Status>, m: Record, paidValue: Option<int>, now: int)
    requires IsControl(m.status)
    ensures BeforeSave(false, prev, m, paidValue, now).record.status == m.status
    ensures BeforeSave(false, prev, m, paidValue, now).record.outcomeDates == m.outcomeDates
    ensures BeforeSave(false, prev, m, paidValue, now).event == None
  {
    ControlNeverIncreases(prev, m.status);
  }

  lemma PaidRanksHighest(s: Status)
    ensures s != Paid ==> RankOf(Some(s)) < RankOf(Some(Paid))
  {
  }

  /** The statuses of the events emitted by a run of saves of one message whose stored status is `cur`. */
  function EmittedEvents(cur: Option<Status>, writes: seq<Status>): seq<Status>
    decreases |writes|
  {
    if writes == [] then []
    else (if EmitsEvent(cur, writes[0]) then [writes[0]] else []) + EmittedEvents(Some(writes[0]), writes[1..])
  }

  /** Every write is a funnel status ranked at least as high as the status before it. */
  predicate FunnelWritesNonDecreasing(cur: Option<Status>, writes: seq<Status>)
    decreases |writes|
  {
    writes == [] ||
    (FunnelRank(writes[0]).Some? && RankOf(cur) <= RankOf(Some(writes[0])) &&
     FunnelWritesNonDecreasing(Some(writes[0]), writes[1..]))
  }

  lemma {:induction false} EmittedAboveStart(cur: Option<Status>, writes: seq<Status>)
    requires FunnelWritesNonDecreasing(cur, writes)
    ensures forall e :: e in EmittedEvents(cur, writes) ==> RankOf(cur) < RankOf(Some(e)) || e == Paid
    decreases |writes|
  {
    if writes != [] {
      var w := writes[0];
      IncreasedMeaning(cur, w);
      EmittedAboveStart(Some(w), writes[1..]);
    }
  }

  /** `b` comes after `a` in a run of counted events: strictly higher, or both `paid`. */
  predicate Rises(a: Status, b: Status) {
    RankOf(Some(a)) < RankOf(Some(b)) || (a == Paid && b == Paid)
  }

  predicate AllRise(e: seq<Status>) {
    forall i, j :: 0 <= i < j < |e| ==> Rises(e[i], e[j])
  }

  lemma ConsRises(w: Status, rest: seq<Status>)
    requires AllRise(rest)
    requires forall x :: x in rest ==> RankOf(Some(w)) < RankOf(Some(x)) || x == Paid
    ensures AllRise([w] + rest)
  {
    var e := [w] + rest;
    forall i, j | 0 <= i < j < |e| ensures Rises(e[i], e[j]) {
      if i == 0 {
        assert e[j] == rest[j - 1] && rest[j - 1] in rest;
        PaidRanksHighest(w);
      } else {
        assert e[i] == rest[i - 1] && e[j] == rest[j - 1];
      }
    }
  }

  /**
   * While the funnel is only written upwards, the events emitted rise strictly
   * in rank, apart from repeated `paid`: no other outcome is counted twice.
   */
  lemma {:induction false} MonotoneWritesCountOnce(cur: Option<Status>, writes: seq<Status>)
    requires FunnelWritesNonDecreasing(cur, writes)
    ensures AllRise(EmittedEvents(cur, writes))
    decreases |writes|
  {
    if writes != [] {
      var w := writes[0];
      var rest := EmittedEvents(Some(w), writes[1..]);
      MonotoneWritesCountOnce(Some(w), writes[1..]);
      EmittedAboveStart(Some(w), writes[1..]);
      if EmitsEvent(cur, w) {
        ConsRises(w, rest);
      }
    }
  }

  /**
   * Since a lower status is stored rather than refused, a funnel that goes
   * down and up again counts the same outcome twice.
   */
  lemma RegressionCountsOpenedTwice()
    ensures EmittedEvents(Some(Sending), [Opened, Sended, Opened]) == [Opened, Opened]
  {
    IncreasedMeaning(Some(Sending), Opened);
    IncreasedMeaning(Some(Opened), Sended);
    IncreasedMeaning(Some(Sended), Opened);
    EmittedCons(Some(Sended), Opened, []);
    EmittedCons(Some(Opened), Sended, [Opened]);
    EmittedCons(Some(Sending), Opened, [Sended, Opened]);
  }

  /** `EmittedEvents` peeled by one write. */
  lemma EmittedCons(cur: Option<Status>, w: Status, ws: seq<Status>)
    ensures EmittedEvents(cur, [w] + ws) == (if EmitsEvent(cur, w) then [w] else []) + EmittedEvents(Some(w), ws)
  {
    assert ([w] + ws)[1..] == ws;
  }

  /** The claim filter of `sendPortion`: awaiting, due, and inside its hour window (a null bound is open). */
  predicate Claimable(m: Record, now: int)
    ensures m.hourFrom.Some? && m.hourTo.Some? && m.hourFrom.value > m.hourTo.value ==> !Claimable(m, now)
  {
    && m.status == Awaits
    && (m.dateScheduled.None? || m.dateScheduled.value <= now)
    && (m.hourFrom.None? || m.hourFrom.value <= Clock.Hour(now))
    && (m.hourTo.None? || m.hourTo.value >= Clock.Hour(now))
  }

  /** The portion size: an explicit non-zero limit, else the `sending_portion` setting, else 10. */
  function PortionLimit(limit: Option<nat>, sendingPortion: Option<nat>): (n: nat)
    ensures limit.Some? && limit.value != 0 ==> n == limit.value
    ensures (limit.None? || limit.value == 0) && sendingPortion.Some? ==> n == sendingPortion.value
    ensures (limit.None? || limit.value == 0) && sendingPortion.None? ==> n == 10
  {
    if limit.Some? && limit.value != 0 then limit.value else sendingPortion.GetOr(10)
  }

  /**
   * The URL `ping` requests after a message went out: the campaign's
   * `ping_url` with `{mail_id}`, `{sendout_id}` and `{subscriber_id}`
   * substituted in that order. An untruthy result means no request.
   */
  function PingUrl(template: string, mailId: nat, sendoutId: nat, subscriberId: nat): (r: Option<string>)
    ensures r.Some? ==> PhpStrings.Truthy(r.value)
    ensures '{' !in template ==> r == if PhpStrings.Truthy(template) then Some(template) else None
  {
    var pairs := [
      ("{mail_id}", PhpStrings.DecimalString(mailId)),
      ("{sendout_id}", PhpStrings.DecimalString(sendoutId)),
      ("{subscriber_id}", PhpStrings.DecimalString(subscriberId))];
    var url := PhpStrings.StrReplace(template, pairs);
    assert '{' !in template ==> url == template by {
      if '{' !in template {
        PhpStrings.NoBraceUnchanged(template, pairs);
      }
    }
    if PhpStrings.Truthy(url) then Some(url) else None
  }

  /** A template that ends in `{mail_id}` after plain text receives the message id there. */
  lemma PingUrlCarriesMailId(prefix: string, mailId: nat, sendoutId: nat, subscriberId: nat)
    requires '{' !in prefix && prefix != ""
    ensures PingUrl(prefix + "{mail_id}", mailId, sendoutId, subscriberId) == Some(prefix + PhpStrings.DecimalString(mailId))
  {
    var d := PhpStrings.DecimalString(mailId);
    var pairs := [("{mail_id}", d),
      ("{sendout_id}", PhpStrings.DecimalString(sendoutId)),
      ("{subscriber_id}", PhpStrings.DecimalString(subscriberId))];
    PhpStrings.ReplaceAfterPlainPrefix(prefix, "{mail_id}", "{mail_id}", d);
    assert PhpStrings.ReplaceAll("{mail_id}", "{mail_id}", d) == d;
    assert '{' !in prefix + d;
    PhpStrings.NoBraceUnchanged(prefix + d, pairs[1..]);
  }

  // ---- Template lookup and its static cache ------------------------------------------------

  /** `Template::findOne(id)`: the template with that id, if the table holds it. */
  function FindTemplate(table: set<nat>, id: Option<nat>): Option<nat> {
    if id.Some? && id.value in table then id else None
  }

  /**
   * `getTemplate()` as written: the cache is read under the template id but
   * written under the message's campaign id. Storing null clears the key,
   * since `isset` is false for null.
   */
  function TemplateLookupAsWritten(cache: map<nat, nat>, table: set<nat>, sendoutId: nat, templateId: Option<nat>)
    : (r: (Option<nat>, map<nat, nat>))
    ensures templateId.Some? && templateId.value in cache ==> r == (Some(cache[templateId.value]), cache)
  {
    if templateId.Some? && templateId.value in cache then (Some(cache[templateId.value]), cache)
    else
      var found := FindTemplate(table, templateId);
      (found, if found.Some? then cache[sendoutId := found.value] else cache - {sendoutId})
  }

  /** Campaign 5 with template 9, then campaign 7 with template 5: the second gets template 9. */
  lemma WrongTemplateServed()
    ensures var first := TemplateLookupAsWritten(map[], {5, 9}, 5, Some(9));
      first.0 == Some(9) &&
      TemplateLookupAsWritten(first.1, {5, 9}, 7, Some(5)).0 == Some(9) &&
      FindTemplate({5, 9}, Some(5)) == Some(5)
  {
  }

  /** Every cached entry is the template stored under its own id. */
  predicate CacheSound(cache: map<nat, nat>, table: set<nat>) {
    forall k :: k in cache ==> cache[k] == k && k in table
  }

  /** The lookup keyed by template id on both sides: a sound cache always gives what the table gives. */
  function TemplateLookup(cache: map<nat, nat>, table: set<nat>, templateId: Option<nat>): (r: (Option<nat>, map<nat, nat>))
    requires CacheSound(cache, table)
    ensures r.0 == FindTemplate(table, templateId)
    ensures CacheSound(r.1, table)
  {
    if templateId.Some? && templateId.value in cache then (Some(cache[templateId.value]), cache)
    else
      var found := FindTemplate(table, templateId);
      (found, if found.Some? then cache[found.value := found.value] else cache)
  }
}

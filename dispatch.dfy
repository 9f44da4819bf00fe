/**
 * Sending one message and draining one portion of the queue (`Mail::send`,
 * `Mail::sendPortion`, `saveStatus`, `decreasePriority`, `cancel`).
 *
 * A message is handled through an ActiveRecord instance: the attribute values
 * it holds and the values it last read from or wrote to its row. A save runs
 * the `beforeSave` hook against the latter and writes only the columns whose
 * value differs from it (Yii's dirty attributes); the row may meanwhile hold
 * something else.
 */
module Dispatch {
  import opened Wrappers
  import Mail
  import Sendout
  import Store
  import Router
  import Campaigns

  /** The pause reasons `send()` gives the campaign. */
  const TemplateMissingReason: string := "Шаблон рассылки не найден."
  const DomainMissingReason: string := "Подходящий домен не найден."
  /** The text `cancel(true)` returns. */
  const CancelNotice: string := "Mail will be cancelled."
  /** The prefix of the exception text when a save is refused. */
  const SaveRefusedPrefix: string := "Could not save: "

  /** What the transport does with a composed message. */
  datatype Transport = Accepted | Refused | Raised(message: string)

  /**
   * The collaborators `send()` consults for one message: the domains for which
   * `getProperIp` finds an IP under its limit, an exception thrown while
   * composing, whether rendering called `cancel()`, the transport, and the
   * validation errors (joined) if the first or the second save is refused.
   */
  datatype SendEnv = SendEnv(
    properIp: set<nat>,
    composeError: Option<string>,
    vetoed: bool,
    transport: Transport,
    saveRefused: Option<string>,
    errorSaveRefused: Option<string>)

  /** `send()` returns null, true or false, or throws. */
  datatype SendResult = Disabled | Returned(sent: bool) | Thrown(message: string)

  /**
   * Where one `send()` ends: the status the instance holds, the change to its
   * priority, its `error` text, whether a save went through, the reason the
   * campaign was paused with, and the result.
   */
  datatype Outcome = Outcome(
    status: Mail.Status,
    priorityDelta: int,
    error: Option<string>,
    saved: bool,
    pause: Option<string>,
    result: SendResult)

  /** The column a save leaves in the row: the instance's value if it changed it, the row's otherwise. */
  function Pick<T(==)>(row: T, before: T, after: T): T {
    if after != before then after else row
  }

  /** A stamped date column is dirty when the instance set it or gave it another value. */
  predicate DateDirty(before: map<Mail.Status, int>, after: map<Mail.Status, int>, k: Mail.Status) {
    k in after && (k !in before || before[k] != after[k])
  }

  function MergeDates(row: map<Mail.Status, int>, before: map<Mail.Status, int>, after: map<Mail.Status, int>)
    : map<Mail.Status, int>
  {
    map k | k in row.Keys + after.Keys && (k in row || DateDirty(before, after, k)) ::
      if DateDirty(before, after, k) then after[k] else row[k]
  }

  /**
   * The row after an update of the dirty attributes: each column the instance
   * changed since `before` gets the instance's value, every other column keeps
   * what the row holds. An instance in step with its row writes itself.
   */
  function WriteDirty(row: Mail.Record, before: Mail.Record, after: Mail.Record): (r: Mail.Record)
    ensures before == after ==> r == row
    ensures row == before && before.outcomeDates.Keys <= after.outcomeDates.Keys ==> r == after
    ensures r.status == if after.status != before.status then after.status else row.status
    ensures r.priority == if after.priority != before.priority then after.priority else row.priority
  {
    var dates := MergeDates(row.outcomeDates, before.outcomeDates, after.outcomeDates);
    assert before == after ==> dates == row.outcomeDates;
    assert row == before && before.outcomeDates.Keys <= after.outcomeDates.Keys ==> dates == after.outcomeDates;
    Mail.Record(
      Pick(row.sendoutId, before.sendoutId, after.sendoutId),
      Pick(row.subscriberId, before.subscriberId, after.subscriberId),
      Pick(row.status, before.status, after.status),
      Pick(row.isInvite, before.isInvite, after.isInvite),
      Pick(row.priority, before.priority, after.priority),
      Pick(row.hourFrom, before.hourFrom, after.hourFrom),
      Pick(row.hourTo, before.hourTo, after.hourTo),
      Pick(row.dateScheduled, before.dateScheduled, after.dateScheduled),
      Pick(row.dateCreated, before.dateCreated, after.dateCreated),
      Pick(row.dateAltered, before.dateAltered, after.dateAltered),
      dates,
      Pick(row.error, before.error, after.error))
  }

  function EventList(e: Option<Mail.Event>): seq<Mail.Event> {
    if e.Some? then [e.value] else []
  }

  function PingList(url: Option<string>): seq<string> {
    if url.Some? then [url.value] else []
  }

  /** Every verified domain of the campaign is over its IP limits. */
  predicate AllOverLimit(vl: seq<nat>, properIp: set<nat>) {
    forall i :: 0 <= i < |vl| ==> vl[i] !in properIp
  }

  /** The catch block of `send()`: status `error` with the exception text, saved unless that save is refused too. */
  function Failure(message: string, env: SendEnv): (o: Outcome)
    ensures o.status == Mail.Error && o.error == Some(message) && o.pause == None
    ensures o.saved <==> env.errorSaveRefused.None?
    ensures o.result == if o.saved then Returned(false) else Thrown(SaveRefusedPrefix + env.errorSaveRefused.value)
  {
    if env.errorSaveRefused.Some? then Outcome(Mail.Error, 0, Some(message), false, None, Thrown(SaveRefusedPrefix + env.errorSaveRefused.value))
    else Outcome(Mail.Error, 0, Some(message), true, None, Returned(false))
  }

  /**
   * The message can go out at all: its campaign and recipient exist, the
   * template exists, and some verified domain of the campaign has an IP under
   * its limit.
   */
  predicate Routable(sendouts: map<nat, Sendout.Record>, subscribers: map<nat, Store.Subscriber>, templates: set<nat>,
                     domains: seq<Store.Domain>, m: Mail.Record, env: SendEnv)
  {
    && m.sendoutId in sendouts && m.subscriberId in subscribers
    && var s := sendouts[m.sendoutId];
       && Mail.FindTemplate(templates, if m.isInvite then s.templateInviteId else s.templateId).Some?
       && !AllOverLimit(Router.VerifiedLinked(domains, s.domainIds), env.properIp)
  }

  /**
   * The try block of `send()` once a domain is found: an exception while
   * composing, the cancel flag, the transport, and the save of the outcome.
   */
  function Delivery(m: Mail.Record, toBeCanceled: bool, env: SendEnv): (o: Outcome)
    ensures o.result == Returned(true) <==>
      env.composeError.None? && !toBeCanceled && !env.vetoed && env.transport == Accepted && env.saveRefused.None?
    ensures o.pause == None && o.priorityDelta == 0
  {
    if env.composeError.Some? then
      Failure(env.composeError.value, env)
    else if toBeCanceled || env.vetoed then
      Outcome(Mail.Cancelled, 0, m.error, true, None, Returned(false))
    else if env.transport.Raised? then
      Outcome(Mail.Awaits, 0, m.error, true, None, Returned(false))
    else if env.saveRefused.Some? then
      Failure(SaveRefusedPrefix + env.saveRefused.value, env)
    else if env.transport == Accepted then
      Outcome(Mail.Sended, 0, m.error, true, None, Returned(true))
    else
      Outcome(Mail.Error, 0, m.error, true, None, Returned(false))
  }

  /**
   * The decision tree of `send()`, in its order: missing campaign or recipient
   * cancels; a missing template or no verified domain delays the message and
   * pauses the campaign; all domains over their limits requeue it one priority
   * lower; then composition, the cancel flag, the transport and the save.
   * The message is reported sent exactly when it could be routed, composed,
   * was not vetoed, the transport accepted it and the save went through; an
   * exception escapes only when saving the error is refused as well.
   */
  function Plan(sendouts: map<nat, Sendout.Record>, subscribers: map<nat, Store.Subscriber>, templates: set<nat>,
                domains: seq<Store.Domain>, m: Mail.Record, toBeCanceled: bool, env: SendEnv): (o: Outcome)
    ensures o.result == Returned(true) <==>
      Routable(sendouts, subscribers, templates, domains, m, env) && env.composeError.None? &&
      !toBeCanceled && !env.vetoed && env.transport == Accepted && env.saveRefused.None?
    ensures o.result.Thrown? <==> !o.saved
    ensures o.result.Thrown? ==> env.errorSaveRefused.Some? && Routable(sendouts, subscribers, templates, domains, m, env)
    ensures o.status in {Mail.Cancelled, Mail.Delayed, Mail.Awaits, Mail.Sended, Mail.Error}
    ensures o.pause.Some? <==> o.status == Mail.Delayed
    ensures o.priorityDelta != 0 ==> o.priorityDelta == -1 && o.status == Mail.Awaits
    ensures o.status == Mail.Sended <==> o.result == Returned(true)
    ensures o.error != m.error ==> o.status == Mail.Error
  {
    if m.sendoutId !in sendouts || m.subscriberId !in subscribers then
      Outcome(Mail.Cancelled, 0, m.error, true, None, Returned(false))
    else
      var s := sendouts[m.sendoutId];
      var vl := Router.VerifiedLinked(domains, s.domainIds);
      if Mail.FindTemplate(templates, if m.isInvite then s.templateInviteId else s.templateId).None? then
        Outcome(Mail.Delayed, 0, m.error, true, Some(TemplateMissingReason), Returned(false))
      else if vl == [] then
        Outcome(Mail.Delayed, 0, m.error, true, Some(DomainMissingReason), Returned(false))
      else if AllOverLimit(vl, env.properIp) then
        Outcome(Mail.Awaits, -1, m.error, true, None, Returned(false))
      else
        Delivery(m, toBeCanceled, env)
  }

  /** What of an outcome reaches the row: the status, the priority change, the `error` text and whether the save went through. */
  datatype Write = Write(status: Mail.Status, priorityDelta: int, error: Option<string>, saved: bool)

  function WriteOf(o: Outcome): Write {
    Write(o.status, o.priorityDelta, o.error, o.saved)
  }

  /**
   * The effect of one `send()` on the instance and on the rows it writes: when
   * a save went through, that single save wrote the planned status, priority
   * and error, stamped by the hook against the status the instance last read,
   * over the row; otherwise the row and the statistics are untouched and only
   * the instance holds the plan.
   */
  predicate Applied(w: Write, id: nat, loaded: Mail.Record, lastRead: Mail.Record, paidValue: Option<int>, now: int,
                    mails0: map<nat, Mail.Record>, events0: seq<Mail.Event>,
                    attrs: Mail.Record, oldAttrs: Mail.Record, mails: map<nat, Mail.Record>, events: seq<Mail.Event>)
    requires id in mails0
  {
    var target := loaded.(status := w.status, priority := loaded.priority + w.priorityDelta, error := w.error);
    var s := Mail.BeforeSave(false, Some(lastRead.status), target, paidValue, now);
    if w.saved then
      attrs == s.record && oldAttrs == s.record &&
      mails == mails0[id := WriteDirty(mails0[id], lastRead, s.record)] && events == events0 + EventList(s.event)
    else
      attrs == target && oldAttrs == lastRead && mails == mails0 && events == events0
  }

  /** The campaign table after `pause($reason)` on campaign `sid`, when there is a reason. */
  function Paused(sendouts: map<nat, Sendout.Record>, sid: nat, reason: Option<string>): map<nat, Sendout.Record> {
    if reason.Some? && sid in sendouts then sendouts[sid := sendouts[sid].(status := Sendout.Paused, pauseReason := reason)]
    else sendouts
  }

  /** The callback `ping()` requests for a sent message, if its campaign has a callback URL. */
  function PingFor(sendouts: map<nat, Sendout.Record>, id: nat, m: Mail.Record): Option<string> {
    if m.sendoutId in sendouts then Mail.PingUrl(sendouts[m.sendoutId].pingUrl, id, m.sendoutId, m.subscriberId) else None
  }

  /** What one `send()` can change: the instance's attributes, its paid value, and the tables it writes. */
  datatype Snapshot = Snapshot(
    attrs: Mail.Record,
    oldAttrs: Mail.Record,
    paidValue: Option<int>,
    mails: map<nat, Mail.Record>,
    events: seq<Mail.Event>,
    sendouts: map<nat, Sendout.Record>,
    pings: seq<string>)

  /** `Applied` from `pre` to `post`, the paid value, the campaigns and the callbacks left alone. */
  ghost predicate Stored(o: Outcome, id: nat, now: int, pre: Snapshot, post: Snapshot) {
    && id in pre.mails
    && Applied(WriteOf(o), id, pre.attrs, pre.oldAttrs, pre.paidValue, now, pre.mails, pre.events,
               post.attrs, post.oldAttrs, post.mails, post.events)
    && post.paidValue == pre.paidValue && post.sendouts == pre.sendouts && post.pings == pre.pings
  }

  /**
   * The whole effect of one `send()` with outcome `o`: `Applied`, the pause of
   * the message's campaign when `o` has a reason, and the callback of its
   * campaign when the message went out.
   */
  ghost predicate Ended(o: Outcome, id: nat, now: int, pre: Snapshot, post: Snapshot) {
    && id in pre.mails
    && Applied(WriteOf(o), id, pre.attrs, pre.oldAttrs, pre.paidValue, now, pre.mails, pre.events,
               post.attrs, post.oldAttrs, post.mails, post.events)
    && post.paidValue == pre.paidValue
    && post.sendouts == Paused(pre.sendouts, pre.attrs.sendoutId, o.pause)
    && post.pings == pre.pings + (if o.result == Returned(true) then PingList(PingFor(pre.sendouts, id, pre.attrs)) else [])
  }

  /** A save without a pause, followed by the callback when the message went out, ends `send()`. */
  lemma SavedEnds(o: Outcome, id: nat, now: int, pre: Snapshot, mid: Snapshot, post: Snapshot)
    requires Stored(o, id, now, pre, mid) && o.pause == None
    requires post == mid.(pings := mid.pings + (if o.result == Returned(true) then PingList(PingFor(pre.sendouts, id, pre.attrs)) else []))
    ensures Ended(o, id, now, pre, post)
  {
  }

  /** One save of the attributes `saving`, as `Save` does it over `pre`, applies `w` when `saving` is `pre` with `w` written in. */
  lemma SaveApplies(w: Write, id: nat, now: int, pre: Snapshot, saving: Mail.Record, post: Snapshot)
    requires id in pre.mails && w.saved
    requires saving == pre.attrs.(status := w.status, priority := pre.attrs.priority + w.priorityDelta, error := w.error)
    requires var s := Mail.BeforeSave(false, Some(pre.oldAttrs.status), saving, pre.paidValue, now);
      && post.attrs == s.record && post.oldAttrs == s.record
      && post.mails == pre.mails[id := WriteDirty(pre.mails[id], pre.oldAttrs, s.record)]
      && post.events == pre.events + EventList(s.event)
    ensures Applied(w, id, pre.attrs, pre.oldAttrs, pre.paidValue, now, pre.mails, pre.events,
                    post.attrs, post.oldAttrs, post.mails, post.events)
  {
  }

  /** The same save stores an outcome that writes `saving`, when nothing else changed. */
  lemma SaveStores(o: Outcome, id: nat, now: int, pre: Snapshot, saving: Mail.Record, post: Snapshot)
    requires id in pre.mails && o.saved
    requires saving == pre.attrs.(status := o.status, priority := pre.attrs.priority + o.priorityDelta, error := o.error)
    requires var s := Mail.BeforeSave(false, Some(pre.oldAttrs.status), saving, pre.paidValue, now);
      && post.attrs == s.record && post.oldAttrs == s.record
      && post.mails == pre.mails[id := WriteDirty(pre.mails[id], pre.oldAttrs, s.record)]
      && post.events == pre.events + EventList(s.event)
    requires post.paidValue == pre.paidValue && post.sendouts == pre.sendouts && post.pings == pre.pings
    ensures Stored(o, id, now, pre, post)
  {
    SaveApplies(WriteOf(o), id, now, pre, saving, post);
  }

  /** A save of the delayed status followed by the pause of the message's campaign ends `send()`. */
  lemma PausedEnds(o: Outcome, id: nat, now: int, pre: Snapshot, mid: Snapshot, post: Snapshot)
    requires o.pause.Some? && o.result == Returned(false) && pre.attrs.sendoutId in pre.sendouts
    requires Stored(o.(pause := None), id, now, pre, mid)
    requires post == mid.(sendouts := mid.sendouts[pre.attrs.sendoutId :=
      mid.sendouts[pre.attrs.sendoutId].(status := Sendout.Paused, pauseReason := o.pause)])
    ensures Ended(o, id, now, pre, post)
  {
  }

  /** An instance of `Mail`: its attribute values and those it last read or wrote. */
  class MailObject {
    const id: nat
    var attrs: Mail.Record
    var oldAttrs: Mail.Record
    var toBeCanceled: bool
    var paidValue: Option<int>

    /** An instance as a query populates it from a row. */
    constructor Load(id: nat, row: Mail.Record)
      ensures this.id == id && attrs == row && oldAttrs == row
      ensures !toBeCanceled && paidValue == None
    {
      this.id := id;
      attrs, oldAttrs := row, row;
      toBeCanceled, paidValue := false, None;
    }

    /** The instance and the tables `send()` writes, as one value. */
    ghost function State(db: Store.Db): Snapshot
      reads this, db
    {
      Snapshot(attrs, oldAttrs, paidValue, db.mails, db.events, db.sendouts, db.pings)
    }

    /**
     * `save(false)`: the hook stamps the instance against the status it last
     * read, the dirty columns are written over the row, and the instance is in
     * step with what it wrote.
     */
    method Save(db: Store.Db, now: int)
      requires id in db.mails
      modifies this`attrs, this`oldAttrs, db`mails, db`events
      ensures var s := Mail.BeforeSave(false, Some(old(oldAttrs.status)), old(attrs), paidValue, now);
        && attrs == s.record && oldAttrs == s.record
        && db.mails == old(db.mails)[id := WriteDirty(old(db.mails[id]), old(oldAttrs), s.record)]
        && db.events == old(db.events) + EventList(s.event)
    {
      var s := Mail.BeforeSave(false, Some(oldAttrs.status), attrs, paidValue, now);
      db.mails := db.mails[id := WriteDirty(db.mails[id], oldAttrs, s.record)];
      db.events := db.events + EventList(s.event);
      attrs, oldAttrs := s.record, s.record;
    }

    /** `saveStatus($status, $data)`: takes the paid value if one is given, sets exactly that status and saves. */
    method SaveStatus(db: Store.Db, status: Mail.Status, paid: Option<int>, now: int)
      requires id in db.mails
      modifies this`attrs, this`oldAttrs, this`paidValue, db`mails, db`events
      ensures paidValue == if paid.Some? then paid else old(paidValue)
      ensures var s := Mail.BeforeSave(false, Some(old(oldAttrs.status)), old(attrs).(status := status), paidValue, now);
        && attrs == s.record && oldAttrs == s.record && attrs.status == status
        && db.mails == old(db.mails)[id := WriteDirty(old(db.mails[id]), old(oldAttrs), s.record)]
        && db.events == old(db.events) + EventList(s.event)
    {
      if paid.Some? {
        paidValue := paid;
      }
      attrs := attrs.(status := status);
      Save(db, now);
    }

    /** `decreasePriority($status, $score)`: adds `score` to the priority, sets the status only when one is given, and saves. */
    method DecreasePriority(db: Store.Db, status: Option<Mail.Status>, score: int, now: int)
      requires id in db.mails
      modifies this`attrs, this`oldAttrs, db`mails, db`events
      ensures var target := old(attrs).(status := status.GetOr(old(attrs.status)), priority := old(attrs.priority) + score);
        var s := Mail.BeforeSave(false, Some(old(oldAttrs.status)), target, paidValue, now);
        && attrs == s.record && oldAttrs == s.record
        && attrs.priority == old(attrs.priority) + score
        && attrs.status == (if status.Some? then status.value else old(attrs.status))
        && db.mails == old(db.mails)[id := WriteDirty(old(db.mails[id]), old(oldAttrs), s.record)]
        && db.events == old(db.events) + EventList(s.event)
    {
      if status.Some? {
        attrs := attrs.(status := status.value);
      }
      attrs := attrs.(priority := attrs.priority + score);
      Save(db, now);
    }

    /** `cancel($cancel)`: only sets the cancel flag; the notice comes back when cancelling. */
    method Cancel(cancel: bool) returns (notice: Option<string>)
      modifies this`toBeCanceled
      ensures toBeCanceled == cancel
      ensures notice == if cancel then Some(CancelNotice) else None
    {
      toBeCanceled := cancel;
      notice := if cancel then Some(CancelNotice) else None;
    }

    /** `saveStatus($status)` read as an outcome of `send()`: only the status changes. */
    method Hold(db: Store.Db, status: Mail.Status, now: int)
      requires id in db.mails
      modifies this`attrs, this`oldAttrs, this`paidValue, db`mails, db`events
      ensures Stored(Outcome(status, 0, old(attrs.error), true, None, Returned(false)), id, now, old(State(db)), State(db))
    {
      ghost var m := attrs;
      assert m.(status := status, priority := m.priority + 0, error := m.error) == m.(status := status);
      SaveStatus(db, status, None, now);
    }

    /** The soft routing failure: back to `awaits`, one priority lower. */
    method Requeue(db: Store.Db, now: int)
      requires id in db.mails
      modifies this`attrs, this`oldAttrs, db`mails, db`events
      ensures Stored(Outcome(Mail.Awaits, -1, old(attrs.error), true, None, Returned(false)), id, now, old(State(db)), State(db))
    {
      DecreasePriority(db, Some(Mail.Awaits), -1, now);
    }

    /** The try block of `send()`: composing, the cancel flag, handing over and saving the outcome. */
    method Deliver(db: Store.Db, env: SendEnv, now: int) returns (r: SendResult)
      requires id in db.mails
      modifies this, db`mails, db`events
      ensures var o := Delivery(old(attrs), old(toBeCanceled), env);
        r == o.result && Stored(o, id, now, old(State(db)), State(db))
    {
      ghost var pre := State(db);
      ghost var o := Delivery(attrs, toBeCanceled, env);
      var failure: Option<string> := None;
      if env.composeError.Some? {
        failure := env.composeError;
      } else {
        if env.vetoed {
          var _ := Cancel(true);
        }
        if toBeCanceled {
          assert o == Outcome(Mail.Cancelled, 0, pre.attrs.error, true, None, Returned(false));
          Hold(db, Mail.Cancelled, now);
          return Returned(false);
        }
        if env.transport.Raised? {
          assert o == Outcome(Mail.Awaits, 0, pre.attrs.error, true, None, Returned(false));
          Hold(db, Mail.Awaits, now);
          return Returned(false);
        }
        attrs := attrs.(status := if env.transport == Accepted then Mail.Sended else Mail.Error);
        if env.saveRefused.Some? {
          failure := Some(SaveRefusedPrefix + env.saveRefused.value);
        } else {
          ghost var saving := attrs;
          Save(db, now);
          SaveStores(o, id, now, pre, saving, State(db));
          return Returned(env.transport == Accepted);
        }
      }
      assert o == Failure(failure.value, env);
      attrs := attrs.(status := Mail.Error, error := failure);
      if env.errorSaveRefused.Some? {
        return Thrown(SaveRefusedPrefix + env.errorSaveRefused.value);
      }
      ghost var saving := attrs;
      Save(db, now);
      SaveStores(o, id, now, pre, saving, State(db));
      return Returned(false);
    }

    /** `send()` from the router on, for a message whose campaign, recipient and template exist. */
    method SendRouted(db: Store.Db, env: SendEnv, now: int) returns (r: SendResult)
      requires id in db.mails && attrs.sendoutId in db.sendouts && attrs.subscriberId in db.subscribers
      requires var s := db.sendouts[attrs.sendoutId];
        Mail.FindTemplate(db.templates, if attrs.isInvite then s.templateInviteId else s.templateId).Some?
      modifies this, db`mails, db`events, db`sendouts, db`pings
      ensures var o := Plan(old(db.sendouts), old(db.subscribers), old(db.templates), old(db.domains), old(attrs), old(toBeCanceled), env);
        r == o.result && Ended(o, id, now, old(State(db)), State(db))
    {
      var m := attrs;
      ghost var pre := State(db);
      ghost var plan := Plan(db.sendouts, db.subscribers, db.templates, db.domains, m, toBeCanceled, env);
      var campaign := db.sendouts[m.sendoutId];
      var domain, ipError := Router.GetProperDomain(db.domains, campaign.domainIds, env.properIp, None);
      if domain.None? {
        if ipError.Some? {
          assert plan == Outcome(Mail.Awaits, -1, m.error, true, None, Returned(false));
          Requeue(db, now);
          SavedEnds(plan, id, now, pre, State(db), State(db));
          return Returned(false);
        }
        assert plan == Outcome(Mail.Delayed, 0, m.error, true, Some(DomainMissingReason), Returned(false));
        Hold(db, Mail.Delayed, now);
        ghost var mid := State(db);
        Campaigns.Pause(db, m.sendoutId, DomainMissingReason);
        PausedEnds(plan, id, now, pre, mid, State(db));
        return Returned(false);
      }
      assert plan == Delivery(m, toBeCanceled, env);
      r := Deliver(db, env, now);
      ghost var mid := State(db);
      if r == Returned(true) {
        var url := Mail.PingUrl(campaign.pingUrl, id, m.sendoutId, m.subscriberId);
        if url.Some? {
          db.pings := db.pings + [url.value];
        }
      }
      SavedEnds(plan, id, now, pre, mid, State(db));
    }

    /**
     * `send()`: with the mailer on, the instance and its row end as `Plan`
     * says (see `Applied`). A delayed message pauses its campaign; a sent one
     * requests the campaign's callback URL.
     */
    method Send(db: Store.Db, settings: Store.Settings, env: SendEnv, now: int) returns (r: SendResult)
      requires id in db.mails
      modifies this, db`mails, db`events, db`sendouts, db`pings
      ensures settings.mailerDisabled ==>
        r == Disabled && State(db) == old(State(db))
      ensures !settings.mailerDisabled ==>
        var o := Plan(old(db.sendouts), old(db.subscribers), old(db.templates), old(db.domains), old(attrs), old(toBeCanceled), env);
        r == o.result && Ended(o, id, now, old(State(db)), State(db))
    {
      if settings.mailerDisabled {
        return Disabled;
      }
      var m := attrs;
      ghost var pre := State(db);
      ghost var plan := Plan(db.sendouts, db.subscribers, db.templates, db.domains, m, toBeCanceled, env);
      if m.sendoutId !in db.sendouts || m.subscriberId !in db.subscribers {
        assert plan == Outcome(Mail.Cancelled, 0, m.error, true, None, Returned(false));
        Hold(db, Mail.Cancelled, now);
        SavedEnds(plan, id, now, pre, State(db), State(db));
        return Returned(false);
      }
      var campaign := db.sendouts[m.sendoutId];
      var templateId := if m.isInvite then campaign.templateInviteId else campaign.templateId;
      if Mail.FindTemplate(db.templates, templateId).None? {
        assert plan == Outcome(Mail.Delayed, 0, m.error, true, Some(TemplateMissingReason), Returned(false));
        Hold(db, Mail.Delayed, now);
        ghost var mid := State(db);
        Campaigns.Pause(db, m.sendoutId, TemplateMissingReason);
        PausedEnds(plan, id, now, pre, mid, State(db));
        return Returned(false);
      }
      r := SendRouted(db, env, now);
    }
  }
}

/** The claim and the portion loop of `Mail::sendPortion`. */
module Portion {
  import opened Wrappers
  import Mail
  import Store
  import Campaigns
  import Router
  import Sendout
  import opened Dispatch

  /** `sendPortion` returns null when the mailer is off, the number sent, or lets an exception through. */
  datatype PortionOutcome = Off | Sent(count: nat) | Failed(message: string)

  /** The row after the claim's `UPDATE`: `sending`, altered now. */
  function ClaimedRow(m: Mail.Record, now: int): Mail.Record {
    m.(status := Mail.Sending, dateAltered := Some(now))
  }

  /** The table after the claim's `UPDATE` over the ids `claimed`. */
  function AfterClaim(rows: map<nat, Mail.Record>, claimed: seq<nat>, now: int): (r: map<nat, Mail.Record>)
    ensures r.Keys == rows.Keys
  {
    map id | id in rows :: if id in claimed then ClaimedRow(rows[id], now) else rows[id]
  }

  /** No id twice. */
  predicate Distinct(ids: seq<nat>) {
    forall i, j :: 0 <= i < j < |ids| ==> ids[i] != ids[j]
  }

  /**
   * The claim (`ClaimedBy`): up to `limit` messages that are `awaits`, due and inside their
   * hour window, none ranking below an eligible one left behind, and fewer
   * than `limit` only when no eligible one is left; exactly those become
   * `sending`, every other row stays as it was.
   */
  predicate ClaimedBy(rows: map<nat, Mail.Record>, claimed: seq<nat>, limit: nat, now: int) {
    && |claimed| <= limit && Distinct(claimed)
    && (forall i :: 0 <= i < |claimed| ==> claimed[i] in rows && Mail.Claimable(rows[claimed[i]], now))
    && (forall i, id :: 0 <= i < |claimed| && id in rows && Mail.Claimable(rows[id], now) && id !in claimed ==>
          rows[claimed[i]].priority >= rows[id].priority)
    && (|claimed| < limit ==> forall id :: id in rows && Mail.Claimable(rows[id], now) ==> id in claimed)
  }

  method Claim(db: Store.Db, limit: nat, now: int) returns (claimed: seq<nat>)
    modifies db`mails
    ensures ClaimedBy(old(db.mails), claimed, limit, now)
    ensures db.mails == AfterClaim(old(db.mails), claimed, now)
  {
    var pool := map id | id in db.mails && Mail.Claimable(db.mails[id], now) :: db.mails[id].priority;
    claimed := Store.TopByPriority(pool, limit);
    db.mails := AfterClaim(db.mails, claimed, now);
  }

  /** What `send()` plans for each claimed message, its instance loaded from `rows`. */
  function Plans(sendouts: map<nat, Sendout.Record>, subscribers: map<nat, Store.Subscriber>, templates: set<nat>,
                 domains: seq<Store.Domain>, rows: map<nat, Mail.Record>, claimed: seq<nat>, envOf: nat -> SendEnv)
    : (ps: seq<Outcome>)
    requires forall i :: 0 <= i < |claimed| ==> claimed[i] in rows
    ensures |ps| == |claimed|
    ensures forall i :: 0 <= i < |claimed| ==>
      ps[i] == Plan(sendouts, subscribers, templates, domains, rows[claimed[i]], false, envOf(claimed[i]))
  {
    seq(|claimed|, i requires 0 <= i < |claimed| =>
      Plan(sendouts, subscribers, templates, domains, rows[claimed[i]], false, envOf(claimed[i])))
  }

  /** How many of the first `k` planned sends report success. */
  function CountSent(ps: seq<Outcome>, k: nat): (n: nat)
    requires k <= |ps|
    ensures n <= k
  {
    if k == 0 then 0 else CountSent(ps, k - 1) + (if ps[k - 1].result == Returned(true) then 1 else 0)
  }

  /**
   * The status column of a claimed message (its row `sending`) after `send()`
   * on an instance that last read `lastRead`: the planned status when the save
   * went through and saw it as a change, `sending` otherwise.
   */
  function Landed(o: Outcome, lastRead: Mail.Status): Mail.Status {
    if o.saved && o.status != lastRead then o.status else Mail.Sending
  }

  /** A pause leaves the fields `send()` routes by as they were. */
  lemma PausedKeepsRouting(sendouts: map<nat, Sendout.Record>, sid: nat, reason: Option<string>)
    ensures Campaigns.SameRouting(sendouts, Paused(sendouts, sid, reason))
  {
  }

  /** `send()` plans the same against any campaign table with the same routing fields. */
  lemma PlanIgnoresPauses(a: map<nat, Sendout.Record>, b: map<nat, Sendout.Record>, subscribers: map<nat, Store.Subscriber>,
                          templates: set<nat>, domains: seq<Store.Domain>, m: Mail.Record, toBeCanceled: bool, env: SendEnv)
    requires Campaigns.SameRouting(a, b)
    ensures Plan(a, subscribers, templates, domains, m, toBeCanceled, env) == Plan(b, subscribers, templates, domains, m, toBeCanceled, env)
  {
    if m.sendoutId in a {
      assert a[m.sendoutId].domainIds == b[m.sendoutId].domainIds;
    }
  }

  /** The claim changes only status and `date_altered`, which `send()` does not decide by. */
  lemma PlanIgnoresClaim(sendouts: map<nat, Sendout.Record>, subscribers: map<nat, Store.Subscriber>, templates: set<nat>,
                         domains: seq<Store.Domain>, m: Mail.Record, now: int, env: SendEnv)
    ensures Plan(sendouts, subscribers, templates, domains, ClaimedRow(m, now), false, env) ==
            Plan(sendouts, subscribers, templates, domains, m, false, env)
  {
  }

  /** A save over a `sending` row leaves the status `Landed` says, and touches no other row. */
  lemma AppliedLands(o: Outcome, id: nat, loaded: Mail.Record, lastRead: Mail.Record, paidValue: Option<int>, now: int,
                     mails0: map<nat, Mail.Record>, events0: seq<Mail.Event>,
                     attrs: Mail.Record, oldAttrs: Mail.Record, mails: map<nat, Mail.Record>, events: seq<Mail.Event>)
    requires id in mails0 && mails0[id].status == Mail.Sending
    requires Applied(WriteOf(o), id, loaded, lastRead, paidValue, now, mails0, events0, attrs, oldAttrs, mails, events)
    ensures mails.Keys == mails0.Keys && id in mails
    ensures mails[id].status == Landed(o, lastRead.status)
    ensures forall k :: k in mails && k != id ==> mails[k] == mails0[k]
  {
  }

  /** One `send()` of the loop: a fresh instance loaded from `row` sends the message `id`, whose row is `sending`. */
  method SendOne(db: Store.Db, settings: Store.Settings, id: nat, row: Mail.Record, env: SendEnv, now: int)
    returns (res: SendResult)
    requires !settings.mailerDisabled
    requires id in db.mails && db.mails[id].status == Mail.Sending
    modifies db`mails, db`events, db`sendouts, db`pings
    ensures var o := Plan(old(db.sendouts), db.subscribers, db.templates, db.domains, row, false, env);
      && res == o.result
      && db.mails.Keys == old(db.mails).Keys
      && db.mails[id].status == Landed(o, row.status)
      && (forall k :: k in db.mails && k != id ==> db.mails[k] == old(db.mails[k]))
      && (!o.saved ==> db.mails == old(db.mails))
      && Campaigns.SameRouting(old(db.sendouts), db.sendouts)
  {
    var obj := new MailObject.Load(id, row);
    ghost var mails0, events0, sendouts0 := db.mails, db.events, db.sendouts;
    ghost var pre := obj.State(db);
    res := obj.Send(db, settings, env, now);
    ghost var o := Plan(sendouts0, db.subscribers, db.templates, db.domains, row, false, env);
    PausedKeepsRouting(sendouts0, row.sendoutId, o.pause);
    AppliedLands(o, id, row, row, None, now, mails0, events0, obj.attrs, obj.oldAttrs, db.mails, db.events);
  }

  /**
   * The rows after the loop went through the first `done` claimed messages:
   * those have the status `Landed` gives and none of them threw; the rest,
   * and every unclaimed row, are as they were in `orig`.
   */
  predicate Progress(orig: map<nat, Mail.Record>, cur: map<nat, Mail.Record>, claimed: seq<nat>,
                     loaded: map<nat, Mail.Record>, ps: seq<Outcome>, done: nat)
  {
    && |ps| == |claimed| && done <= |claimed|
    && cur.Keys == orig.Keys
    && (forall id :: id in cur && id !in claimed ==> cur[id] == orig[id])
    && (forall i :: 0 <= i < done ==>
          claimed[i] in cur && claimed[i] in loaded && cur[claimed[i]].status == Landed(ps[i], loaded[claimed[i]].status))
    && (forall i :: done <= i < |claimed| ==> claimed[i] in orig && cur[claimed[i]] == orig[claimed[i]])
    && (forall i :: 0 <= i < done ==> !ps[i].result.Thrown?)
  }

  lemma ProgressStep(orig: map<nat, Mail.Record>, cur: map<nat, Mail.Record>, next: map<nat, Mail.Record>, claimed: seq<nat>,
                     loaded: map<nat, Mail.Record>, ps: seq<Outcome>, done: nat)
    requires Progress(orig, cur, claimed, loaded, ps, done) && Distinct(claimed) && done < |claimed|
    requires claimed[done] in loaded && !ps[done].result.Thrown?
    requires next.Keys == cur.Keys && claimed[done] in next
    requires next[claimed[done]].status == Landed(ps[done], loaded[claimed[done]].status)
    requires forall k :: k in next && k != claimed[done] ==> next[k] == cur[k]
    ensures Progress(orig, next, claimed, loaded, ps, done + 1)
  {
    forall i | 0 <= i < |claimed| && i != done
      ensures claimed[i] != claimed[done]
    {
      if i < done {
        assert claimed[i] != claimed[done];
      } else {
        assert claimed[done] != claimed[i];
      }
    }
  }

  /**
   * The state the loop of `sendPortion` keeps between iterations, over the
   * tables it reads and writes: `Progress` over the plans of the claimed
   * messages, a campaign table that routes as it did, and `sent` counting the
   * successes so far.
   */
  predicate LoopingOn(orig: map<nat, Mail.Record>, sendouts0: map<nat, Sendout.Record>,
                      subscribers: map<nat, Store.Subscriber>, templates: set<nat>, domains: seq<Store.Domain>,
                      mails: map<nat, Mail.Record>, sendouts: map<nat, Sendout.Record>,
                      claimed: seq<nat>, loaded: map<nat, Mail.Record>, envOf: nat -> SendEnv,
                      ps: seq<Outcome>, done: nat, sent: nat)
  {
    && (forall i :: 0 <= i < |claimed| ==> claimed[i] in loaded && claimed[i] in orig && orig[claimed[i]].status == Mail.Sending)
    && ps == Plans(sendouts0, subscribers, templates, domains, loaded, claimed, envOf)
    && Progress(orig, mails, claimed, loaded, ps, done)
    && Campaigns.SameRouting(sendouts0, sendouts)
    && sent == CountSent(ps, done)
  }

  /** `LoopingOn` over the tables of `db`. */
  ghost predicate Looping(orig: map<nat, Mail.Record>, sendouts0: map<nat, Sendout.Record>, db: Store.Db,
                          claimed: seq<nat>, loaded: map<nat, Mail.Record>, envOf: nat -> SendEnv,
                          ps: seq<Outcome>, done: nat, sent: nat)
    reads db
  {
    LoopingOn(orig, sendouts0, db.subscribers, db.templates, db.domains, db.mails, db.sendouts,
              claimed, loaded, envOf, ps, done, sent)
  }

  /**
   * One turn of the loop on values: after the `send()` of the next claimed
   * message, as `SendOne` leaves the tables, the loop state moves on by one
   * message, or, on an exception, the progress so far still holds.
   */
  lemma LoopingStep(orig: map<nat, Mail.Record>, sendouts0: map<nat, Sendout.Record>,
                    subscribers: map<nat, Store.Subscriber>, templates: set<nat>, domains: seq<Store.Domain>,
                    claimed: seq<nat>, loaded: map<nat, Mail.Record>, envOf: nat -> SendEnv,
                    ps: seq<Outcome>, done: nat, sent: nat,
                    mails0: map<nat, Mail.Record>, sendouts1: map<nat, Sendout.Record>,
                    mails: map<nat, Mail.Record>, sendouts: map<nat, Sendout.Record>, res: SendResult)
    requires Distinct(claimed) && done < |claimed|
    requires LoopingOn(orig, sendouts0, subscribers, templates, domains, mails0, sendouts1, claimed, loaded, envOf, ps, done, sent)
    requires var id := claimed[done];
      var o := Plan(sendouts1, subscribers, templates, domains, loaded[id], false, envOf(id));
      && res == o.result
      && mails.Keys == mails0.Keys && id in mails && mails[id].status == Landed(o, loaded[id].status)
      && (forall k :: k in mails && k != id ==> mails[k] == mails0[k])
      && (!o.saved ==> mails == mails0)
      && Campaigns.SameRouting(sendouts1, sendouts)
    ensures res == ps[done].result
    ensures !res.Thrown? ==>
      LoopingOn(orig, sendouts0, subscribers, templates, domains, mails, sendouts, claimed, loaded, envOf, ps, done + 1,
                if res == Returned(true) then sent + 1 else sent)
    ensures res.Thrown? ==> Progress(orig, mails, claimed, loaded, ps, done)
  {
    var id := claimed[done];
    PlanIgnoresPauses(sendouts0, sendouts1, subscribers, templates, domains, loaded[id], false, envOf(id));
    assert ps[done] == Plan(sendouts1, subscribers, templates, domains, loaded[id], false, envOf(id));
    Campaigns.SameRoutingTransitive(sendouts0, sendouts1, sendouts);
    if !res.Thrown? {
      ProgressStep(orig, mails0, mails, claimed, loaded, ps, done);
      assert CountSent(ps, done + 1) == CountSent(ps, done) + (if ps[done].result == Returned(true) then 1 else 0);
    }
  }

  /** Before the first iteration the loop state holds trivially. */
  lemma LoopingStarts(db: Store.Db, claimed: seq<nat>, loaded: map<nat, Mail.Record>, envOf: nat -> SendEnv)
    requires forall i :: 0 <= i < |claimed| ==>
      claimed[i] in db.mails && claimed[i] in loaded && db.mails[claimed[i]].status == Mail.Sending
    ensures Looping(db.mails, db.sendouts, db, claimed, loaded, envOf,
                    Plans(db.sendouts, db.subscribers, db.templates, db.domains, loaded, claimed, envOf), 0, 0)
  {
  }

  /** One iteration of the loop: send the next claimed message and count it. */
  method Step(db: Store.Db, settings: Store.Settings, claimed: seq<nat>, loaded: map<nat, Mail.Record>,
              envOf: nat -> SendEnv, now: int, done: nat, sent: nat, ghost ps: seq<Outcome>,
              ghost orig: map<nat, Mail.Record>, ghost sendouts0: map<nat, Sendout.Record>)
    returns (res: SendResult, sent': nat)
    requires !settings.mailerDisabled && Distinct(claimed) && done < |claimed|
    requires Looping(orig, sendouts0, db, claimed, loaded, envOf, ps, done, sent)
    modifies db`mails, db`events, db`sendouts, db`pings
    ensures res == ps[done].result
    ensures !res.Thrown? ==> Looping(orig, sendouts0, db, claimed, loaded, envOf, ps, done + 1, sent')
    ensures res.Thrown? ==> Progress(orig, db.mails, claimed, loaded, ps, done)
  {
    var id := claimed[done];
    ghost var sendouts1, mails0 := db.sendouts, db.mails;
    res := SendOne(db, settings, id, loaded[id], envOf(id), now);
    LoopingStep(orig, sendouts0, db.subscribers, db.templates, db.domains, claimed, loaded, envOf, ps, done, sent,
                mails0, sendouts1, db.mails, db.sendouts, res);
    sent' := if res == Returned(true) then sent + 1 else sent;
  }

  /**
   * The loop of `sendPortion` over the claimed messages, each sent through an
   * instance loaded from `loaded`; it stops at the first exception. Every
   * message it went through has the status `Landed` gives; those after an
   * exception, and all unclaimed ones, are untouched.
   */
  method SendClaimed(db: Store.Db, settings: Store.Settings, claimed: seq<nat>, loaded: map<nat, Mail.Record>,
                     envOf: nat -> SendEnv, now: int)
    returns (outcome: PortionOutcome, done: nat)
    requires !settings.mailerDisabled && Distinct(claimed)
    requires forall i :: 0 <= i < |claimed| ==>
      claimed[i] in db.mails && claimed[i] in loaded && db.mails[claimed[i]].status == Mail.Sending
    modifies db`mails, db`events, db`sendouts, db`pings
    ensures var ps := Plans(old(db.sendouts), db.subscribers, db.templates, db.domains, loaded, claimed, envOf);
      && Progress(old(db.mails), db.mails, claimed, loaded, ps, done)
      && (outcome.Sent? ==> done == |claimed| && outcome.count == CountSent(ps, |ps|))
      && (outcome.Failed? ==> done < |claimed| && ps[done].result == Thrown(outcome.message))
      && !outcome.Off?
  {
    ghost var ps := Plans(db.sendouts, db.subscribers, db.templates, db.domains, loaded, claimed, envOf);
    var sent := 0;
    done := 0;
    LoopingStarts(db, claimed, loaded, envOf);
    while done < |claimed|
      invariant done <= |claimed|
      invariant Looping(old(db.mails), old(db.sendouts), db, claimed, loaded, envOf, ps, done, sent)
    {
      var res, sent' := Step(db, settings, claimed, loaded, envOf, now, done, sent, ps, old(db.mails), old(db.sendouts));
      if res.Thrown? {
        return Failed(res.message), done;
      }
      sent, done := sent', done + 1;
    }
    return Sent(sent), done;
  }

  /** Re-reading the claimed rows changes nothing `send()` decides by. */
  lemma {:induction false} PlansIgnoreClaim(sendouts: map<nat, Sendout.Record>, subscribers: map<nat, Store.Subscriber>,
                                            templates: set<nat>, domains: seq<Store.Domain>, rows: map<nat, Mail.Record>,
                                            claimed: seq<nat>, envOf: nat -> SendEnv, now: int)
    requires forall i :: 0 <= i < |claimed| ==> claimed[i] in rows
    ensures Plans(sendouts, subscribers, templates, domains, AfterClaim(rows, claimed, now), claimed, envOf)
         == Plans(sendouts, subscribers, templates, domains, rows, claimed, envOf)
  {
    var after := AfterClaim(rows, claimed, now);
    forall i | 0 <= i < |claimed|
      ensures Plan(sendouts, subscribers, templates, domains, after[claimed[i]], false, envOf(claimed[i]))
           == Plan(sendouts, subscribers, templates, domains, rows[claimed[i]], false, envOf(claimed[i]))
    {
      assert after[claimed[i]] == ClaimedRow(rows[claimed[i]], now);
      PlanIgnoresClaim(sendouts, subscribers, templates, domains, rows[claimed[i]], now, envOf(claimed[i]));
    }
  }

  /**
   * When every verified domain of a routable message is over its limit,
   * `send()` puts it back to `awaits` one priority lower. An instance that
   * read `awaits` sees no status change, so its row stays `sending`; one that
   * read `sending` writes `awaits` back.
   */
  lemma RequeueLost(sendouts: map<nat, Sendout.Record>, subscribers: map<nat, Store.Subscriber>, templates: set<nat>,
                    domains: seq<Store.Domain>, m: Mail.Record, env: SendEnv)
    requires m.sendoutId in sendouts && m.subscriberId in subscribers
    requires var s := sendouts[m.sendoutId];
      && Mail.FindTemplate(templates, if m.isInvite then s.templateInviteId else s.templateId).Some?
      && Router.VerifiedLinked(domains, s.domainIds) != []
      && AllOverLimit(Router.VerifiedLinked(domains, s.domainIds), env.properIp)
    ensures var o := Plan(sendouts, subscribers, templates, domains, m, false, env);
      && o.status == Mail.Awaits && o.priorityDelta == -1 && o.saved
      && Landed(o, Mail.Awaits) == Mail.Sending
      && Landed(o, Mail.Sending) == Mail.Awaits
  {
  }

  /** A row left `sending` is never claimed again. */
  lemma SendingNeverClaimed(rows: map<nat, Mail.Record>, claimed: seq<nat>, limit: nat, now: int, id: nat)
    requires id in rows && rows[id].status == Mail.Sending
    requires ClaimedBy(rows, claimed, limit, now)
    ensures id !in claimed
  {
  }

  /**
   * `sendPortion` as written: when the mailer is on, claim a portion of the
   * size `PortionLimit` gives, then send each claimed message through the
   * instance the `SELECT` loaded before the claim, whose status therefore
   * still reads `awaits`; `reached` is how far the loop got. A message whose
   * `send()` puts it back to `awaits` (no domain under its limit) keeps the
   * row `sending`, which no later claim picks up.
   */
  method SendPortion(db: Store.Db, settings: Store.Settings, limit: Option<nat>, envOf: nat -> SendEnv, now: int)
    returns (outcome: PortionOutcome, ghost claimed: seq<nat>, ghost reached: nat)
    modifies db`mails, db`events, db`sendouts, db`pings
    ensures settings.mailerDisabled ==> outcome == Off && db.mails == old(db.mails) && db.sendouts == old(db.sendouts)
    ensures !settings.mailerDisabled ==> ClaimedBy(old(db.mails), claimed, Mail.PortionLimit(limit, settings.sendingPortion), now)
    ensures !settings.mailerDisabled ==>
      var ps := Plans(old(db.sendouts), db.subscribers, db.templates, db.domains, old(db.mails), claimed, envOf);
      && Progress(AfterClaim(old(db.mails), claimed, now), db.mails, claimed, old(db.mails), ps, reached)
      && (outcome.Sent? ==> reached == |claimed| && outcome.count == CountSent(ps, |ps|))
      && (outcome.Failed? ==> reached < |claimed| && ps[reached].result == Thrown(outcome.message))
      && !outcome.Off?
    ensures !settings.mailerDisabled && outcome.Sent? ==>
      var ps := Plans(old(db.sendouts), db.subscribers, db.templates, db.domains, old(db.mails), claimed, envOf);
      forall i :: 0 <= i < |claimed| && ps[i].status == Mail.Awaits ==> db.mails[claimed[i]].status == Mail.Sending
  {
    if settings.mailerDisabled {
      return Off, [], 0;
    }
    var n := Mail.PortionLimit(limit, settings.sendingPortion);
    var rows := db.mails;
    var ids := Claim(db, n, now);
    claimed := ids;
    ghost var ps := Plans(db.sendouts, db.subscribers, db.templates, db.domains, rows, claimed, envOf);
    var done;
    outcome, done := SendClaimed(db, settings, ids, rows, envOf, now);
    reached := done;
    if outcome.Sent? {
      forall i | 0 <= i < |claimed| && ps[i].status == Mail.Awaits
        ensures db.mails[claimed[i]].status == Mail.Sending
      {
        assert rows[claimed[i]].status == Mail.Awaits;
      }
    }
  }

  /** Instances that read `sending` see every planned status as a change, so each one lands. */
  lemma RefreshedLands(sendouts: map<nat, Sendout.Record>, subscribers: map<nat, Store.Subscriber>, templates: set<nat>,
                       domains: seq<Store.Domain>, rows: map<nat, Mail.Record>, cur: map<nat, Mail.Record>,
                       claimed: seq<nat>, envOf: nat -> SendEnv, done: nat, now: int)
    requires forall i :: 0 <= i < |claimed| ==> claimed[i] in rows
    requires Progress(AfterClaim(rows, claimed, now), cur, claimed, AfterClaim(rows, claimed, now),
                      Plans(sendouts, subscribers, templates, domains, AfterClaim(rows, claimed, now), claimed, envOf), done)
    ensures var ps := Plans(sendouts, subscribers, templates, domains, rows, claimed, envOf);
      && cur.Keys == rows.Keys && done <= |claimed| && |ps| == |claimed|
      && (forall id :: id in cur && id !in claimed ==> cur[id] == rows[id])
      && (forall i :: 0 <= i < done ==> cur[claimed[i]].status == ps[i].status)
      && (forall i :: done <= i < |claimed| ==> cur[claimed[i]] == ClaimedRow(rows[claimed[i]], now))
  {
    PlansIgnoreClaim(sendouts, subscribers, templates, domains, rows, claimed, envOf, now);
  }

  /**
   * `sendPortion` with the instances read after the claim, so that each one
   * sees its row as `sending`: every message the loop went through ends with
   * the status its `send()` planned, `awaits` included.
   */
  method SendPortionRefreshed(db: Store.Db, settings: Store.Settings, limit: Option<nat>, envOf: nat -> SendEnv, now: int)
    returns (outcome: PortionOutcome, ghost claimed: seq<nat>, ghost reached: nat)
    modifies db`mails, db`events, db`sendouts, db`pings
    ensures settings.mailerDisabled ==> outcome == Off && db.mails == old(db.mails) && db.sendouts == old(db.sendouts)
    ensures !settings.mailerDisabled ==> ClaimedBy(old(db.mails), claimed, Mail.PortionLimit(limit, settings.sendingPortion), now)
    ensures !settings.mailerDisabled ==>
      var ps := Plans(old(db.sendouts), db.subscribers, db.templates, db.domains, old(db.mails), claimed, envOf);
      && reached <= |claimed| && |ps| == |claimed|
      && db.mails.Keys == old(db.mails).Keys
      && (forall id :: id in db.mails && id !in claimed ==> db.mails[id] == old(db.mails[id]))
      && (forall i :: 0 <= i < reached ==> db.mails[claimed[i]].status == ps[i].status)
      && (forall i :: reached <= i < |claimed| ==> db.mails[claimed[i]] == ClaimedRow(old(db.mails[claimed[i]]), now))
      && (outcome.Sent? ==> reached == |claimed| && outcome.count == CountSent(ps, |ps|))
      && (outcome.Failed? ==> reached < |claimed| && ps[reached].result == Thrown(outcome.message))
      && !outcome.Off?
  {
    if settings.mailerDisabled {
      return Off, [], 0;
    }
    var n := Mail.PortionLimit(limit, settings.sendingPortion);
    ghost var rows := db.mails;
    var ids := Claim(db, n, now);
    claimed := ids;
    var loaded := db.mails;
    ghost var sendouts := db.sendouts;
    var done;
    outcome, done := SendClaimed(db, settings, ids, loaded, envOf, now);
    reached := done;
    PlansIgnoreClaim(sendouts, db.subscribers, db.templates, db.domains, rows, claimed, envOf, now);
    RefreshedLands(sendouts, db.subscribers, db.templates, db.domains, rows, db.mails, claimed, envOf, reached, now);
  }
}

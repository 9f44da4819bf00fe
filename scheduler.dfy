/**
 * The campaign operations of `Sendout.php` that write to the database:
 * pausing, saving (with the `afterSave` rewrite of delayed messages), invite
 * and regular scheduling, and the scheduling pass over all campaigns.
 */
module Campaigns {
  import opened Wrappers
  import Clock
  import Mail
  import Sendout
  import Store

  /** The fields of a campaign that decide where and with which template its messages go. */
  predicate SameRouting(a: map<nat, Sendout.Record>, b: map<nat, Sendout.Record>) {
    && a.Keys == b.Keys
    && forall k :: k in a ==>
         a[k].templateId == b[k].templateId && a[k].templateInviteId == b[k].templateInviteId &&
         a[k].domainIds == b[k].domainIds && a[k].pingUrl == b[k].pingUrl
  }

  lemma SameRoutingTransitive(a: map<nat, Sendout.Record>, b: map<nat, Sendout.Record>, c: map<nat, Sendout.Record>)
    requires SameRouting(a, b) && SameRouting(b, c)
    ensures SameRouting(a, c)
  {
  }

  /** `pause($reason)`: the campaign becomes paused with that reason; nothing else about it changes. */
  method Pause(db: Store.Db, id: nat, reason: string)
    requires id in db.sendouts
    modifies db`sendouts
    ensures db.sendouts == old(db.sendouts)[id := old(db.sendouts[id]).(status := Sendout.Paused, pauseReason := Some(reason))]
    ensures SameRouting(old(db.sendouts), db.sendouts)
  {
    db.sendouts := db.sendouts[id := db.sendouts[id].(status := Sendout.Paused, pauseReason := Some(reason))];
  }

  // ---- Saving a campaign: afterSave ------------------------------------------------------

  /** The unfiltered `Mail::updateAll` of `afterSave`: every `delayed` row of the table takes `to`. */
  function RewriteDelayed(mails: map<nat, Mail.Record>, to: Mail.Status): (r: map<nat, Mail.Record>)
    ensures r.Keys == mails.Keys
    ensures forall id :: id in r ==> r[id].status != Mail.Delayed || to == Mail.Delayed
  {
    map id | id in mails :: if mails[id].status == Mail.Delayed then mails[id].(status := to) else mails[id]
  }

  /** The same rewrite restricted to the rows of campaign `sid`. */
  function RewriteDelayedOf(mails: map<nat, Mail.Record>, sid: nat, to: Mail.Status): (r: map<nat, Mail.Record>)
    ensures r.Keys == mails.Keys
  {
    map id | id in mails :: if mails[id].status == Mail.Delayed && mails[id].sendoutId == sid then mails[id].(status := to) else mails[id]
  }

  /** The status `afterSave` gives delayed messages when a campaign goes from `before` to `after`, if any. */
  function ResumeTarget(before: Sendout.Status, after: Sendout.Status): Option<Mail.Status> {
    if before == Sendout.Paused && after == Sendout.Active then Some(Mail.Awaits)
    else if before == Sendout.Paused && after == Sendout.Draft then Some(Mail.Cancelled)
    else None
  }

  /**
   * `save()` of a campaign with validation, as written: nothing is written
   * when a rule fails; otherwise the row is replaced and, when the status
   * left `paused` for `active` (or `draft`), every delayed message in the
   * table becomes `awaits` (or `cancelled`), whichever campaign it belongs to.
   */
  method Save(db: Store.Db, sid: nat, s: Sendout.Record, isEmail: string -> bool) returns (errors: seq<Sendout.ValidationError>)
    requires sid in db.sendouts
    modifies db`sendouts, db`mails
    ensures errors == Sendout.Validate(s, isEmail)
    ensures errors != [] ==> db.sendouts == old(db.sendouts) && db.mails == old(db.mails)
    ensures errors == [] ==> db.sendouts == old(db.sendouts)[sid := s]
    ensures errors == [] ==>
      var to := ResumeTarget(old(db.sendouts[sid].status), s.status);
      db.mails == if to.Some? then RewriteDelayed(old(db.mails), to.value) else old(db.mails)
  {
    errors := Sendout.Validate(s, isEmail);
    if errors != [] {
      return;
    }
    var before := db.sendouts[sid].status;
    db.sendouts := db.sendouts[sid := s];
    var to := ResumeTarget(before, s.status);
    if to.Some? {
      db.mails := RewriteDelayed(db.mails, to.value);
    }
  }

  /** `save()` with the `afterSave` rewrite restricted to the campaign's own delayed messages. */
  method SaveScoped(db: Store.Db, sid: nat, s: Sendout.Record, isEmail: string -> bool) returns (errors: seq<Sendout.ValidationError>)
    requires sid in db.sendouts
    modifies db`sendouts, db`mails
    ensures errors == Sendout.Validate(s, isEmail)
    ensures errors != [] ==> db.sendouts == old(db.sendouts) && db.mails == old(db.mails)
    ensures errors == [] ==> db.sendouts == old(db.sendouts)[sid := s]
    ensures errors == [] ==>
      var to := ResumeTarget(old(db.sendouts[sid].status), s.status);
      db.mails == if to.Some? then RewriteDelayedOf(old(db.mails), sid, to.value) else old(db.mails)
  {
    errors := Sendout.Validate(s, isEmail);
    if errors != [] {
      return;
    }
    var before := db.sendouts[sid].status;
    db.sendouts := db.sendouts[sid := s];
    var to := ResumeTarget(before, s.status);
    if to.Some? {
      db.mails := RewriteDelayedOf(db.mails, sid, to.value);
    }
  }

  /**
   * The rewrite only moves `delayed` rows, and only their status: every
   * delayed row takes `to`, every other row and every other column stays.
   */
  lemma RewriteDelayedMeaning(mails: map<nat, Mail.Record>, to: Mail.Status, id: nat)
    requires id in mails
    ensures RewriteDelayed(mails, to)[id].status == (if mails[id].status == Mail.Delayed then to else mails[id].status)
    ensures RewriteDelayed(mails, to)[id].(status := mails[id].status) == mails[id]
  {
  }

  /**
   * Resuming (or drafting) a paused campaign also releases (or cancels) the
   * delayed messages of every other campaign.
   */
  lemma ResumeReachesOtherCampaigns(mails: map<nat, Mail.Record>, before: Sendout.Status, after: Sendout.Status,
                                    sid: nat, id: nat)
    requires ResumeTarget(before, after).Some?
    requires id in mails && mails[id].status == Mail.Delayed && mails[id].sendoutId != sid
    ensures RewriteDelayed(mails, ResumeTarget(before, after).value)[id].status != Mail.Delayed
  {
  }

  /**
   * The scoped rewrite leaves other campaigns' messages alone and agrees
   * with the unfiltered one on the campaign's own.
   */
  lemma RewriteDelayedOfScoped(mails: map<nat, Mail.Record>, sid: nat, to: Mail.Status, id: nat)
    requires id in mails
    ensures mails[id].sendoutId != sid ==> RewriteDelayedOf(mails, sid, to)[id] == mails[id]
    ensures mails[id].sendoutId == sid ==> RewriteDelayedOf(mails, sid, to)[id] == RewriteDelayed(mails, to)[id]
  {
  }

  // ---- Scheduling ------------------------------------------------------------------------

  /**
   * A subscriber campaign `sid` may mail: selected by its filters (`audience`,
   * decided by SQL outside this model), not stopped and not on the
   * campaign's stop list.
   */
  predicate Reachable(subscribers: map<nat, Store.Subscriber>, stopList: set<(nat, nat)>, sid: nat, audience: set<nat>, k: nat) {
    k in audience && k in subscribers && !subscribers[k].isStopped && (k, sid) !in stopList
  }

  /** Who `sendInvites` invites: reachable, e-mail not confirmed, not invited yet. */
  function InviteRecipients(subscribers: map<nat, Store.Subscriber>, stopList: set<(nat, nat)>, sid: nat, audience: set<nat>): set<nat> {
    set k | k in subscribers && Reachable(subscribers, stopList, sid, audience, k)
                              && !subscribers[k].emailConfirmed && !subscribers[k].inviteSent
  }

  /** Who the regular batch goes to: reachable, and confirmed when the campaign sends invites. */
  function RegularRecipients(subscribers: map<nat, Store.Subscriber>, stopList: set<(nat, nat)>, sid: nat, s: Sendout.Record,
                             audience: set<nat>): set<nat> {
    set k | k in subscribers && Reachable(subscribers, stopList, sid, audience, k)
                              && (s.sendInvite ==> subscribers[k].emailConfirmed)
  }

  /** `date_scheduled` of an invite: none for a missing or non-positive delay, else sign-up plus the delay in hours. */
  function InviteSchedule(delayHours: Option<int>, signedUpAt: int): Option<int> {
    if delayHours.None? || delayHours.value <= 0 then None else Some(Clock.AddHours(signedUpAt, delayHours.value))
  }

  /** The row `sendInvites` inserts for subscriber `k`. */
  function InviteRow(sid: nat, s: Sendout.Record, k: nat, sub: Store.Subscriber, now: int): Mail.Record {
    Mail.Record(sid, k, Mail.Awaits, true, s.priority, None, None, InviteSchedule(s.inviteDelayHours, sub.signedUpAt),
                Some(now), None, map[], None)
  }

  /** The row the regular batch inserts for subscriber `k`. */
  function RegularRow(sid: nat, s: Sendout.Record, k: nat, now: int): Mail.Record {
    Mail.Record(sid, k, Mail.Awaits, false, s.priority, s.hoursFrom, s.hoursTo, None, Some(now), None, map[], None)
  }

  /** The invitations `sendInvites` inserts, by subscriber. */
  function InviteRows(subscribers: map<nat, Store.Subscriber>, stopList: set<(nat, nat)>, sid: nat, s: Sendout.Record,
                      audience: set<nat>, now: int): map<nat, Mail.Record> {
    map k | k in InviteRecipients(subscribers, stopList, sid, audience) :: InviteRow(sid, s, k, subscribers[k], now)
  }

  /** The regular batch, by subscriber. */
  function RegularRows(subscribers: map<nat, Store.Subscriber>, stopList: set<(nat, nat)>, sid: nat, s: Sendout.Record,
                       audience: set<nat>, now: int): map<nat, Mail.Record> {
    map k | k in RegularRecipients(subscribers, stopList, sid, s, audience) :: RegularRow(sid, s, k, now)
  }

  /** The subscriber table after `is_invite_sended = 1` for `ks`. */
  function MarkInvited(subscribers: map<nat, Store.Subscriber>, ks: set<nat>): (r: map<nat, Store.Subscriber>)
    ensures r.Keys == subscribers.Keys
  {
    map k | k in subscribers :: if k in ks then subscribers[k].(inviteSent := true) else subscribers[k]
  }

  /**
   * Everything `scheduleMails` inserts for campaign `sid` in state `s`, by
   * subscriber: the invitations when invites are on and the campaign is
   * active, then the regular batch when it is due.
   */
  function Batch(subscribers: map<nat, Store.Subscriber>, stopList: set<(nat, nat)>, sid: nat, s: Sendout.Record,
                 audience: set<nat>, now: int): map<nat, Mail.Record>
  {
    var invites := if s.sendInvite && s.status == Sendout.Active then InviteRows(subscribers, stopList, sid, s, audience, now) else map[];
    var regular := if Sendout.IsTimeToSendout(s, now) then RegularRows(subscribers, stopList, sid, s, audience, now) else map[];
    invites + regular
  }

  /**
   * What `scheduleMails` inserts for subscriber `k`: a row only when `k` is
   * reachable; an invitation exactly when invites are on, the campaign is
   * active and `k` has neither confirmed nor been invited; otherwise a
   * regular row exactly when the campaign is due and `k` has confirmed (if
   * the campaign sends invites). Every row is `awaits`, at the campaign's
   * priority, created now.
   */
  lemma BatchMeaning(subscribers: map<nat, Store.Subscriber>, stopList: set<(nat, nat)>, sid: nat, s: Sendout.Record,
                     audience: set<nat>, now: int, k: nat)
    ensures var rows := Batch(subscribers, stopList, sid, s, audience, now);
      && (k in rows <==>
            && Reachable(subscribers, stopList, sid, audience, k)
            && ((s.sendInvite && s.status == Sendout.Active && !subscribers[k].emailConfirmed && !subscribers[k].inviteSent)
                || (Sendout.IsTimeToSendout(s, now) && (s.sendInvite ==> subscribers[k].emailConfirmed))))
      && (k in rows ==>
            && rows[k].sendoutId == sid && rows[k].subscriberId == k && rows[k].status == Mail.Awaits
            && rows[k].priority == s.priority && rows[k].dateCreated == Some(now) && rows[k].dateAltered.None?
            && (rows[k].isInvite <==>
                  s.sendInvite && s.status == Sendout.Active && !subscribers[k].emailConfirmed && !subscribers[k].inviteSent)
            && (rows[k].isInvite ==>
                  rows[k].hourFrom.None? && rows[k].hourTo.None?
                  && rows[k].dateScheduled == InviteSchedule(s.inviteDelayHours, subscribers[k].signedUpAt))
            && (!rows[k].isInvite ==>
                  rows[k].hourFrom == s.hoursFrom && rows[k].hourTo == s.hoursTo && rows[k].dateScheduled.None?))
  {
  }

  // ---- Inserting -------------------------------------------------------------------------

  /** No element twice: each element is absent from everything before it. */
  predicate NoDuplicates(xs: seq<nat>)
    decreases |xs|
  {
    xs == [] || (xs[|xs| - 1] !in xs[..|xs| - 1] && NoDuplicates(xs[..|xs| - 1]))
  }

  lemma NoDuplicatesSnoc(xs: seq<nat>, k: nat)
    requires NoDuplicates(xs) && k !in xs
    ensures NoDuplicates(xs + [k])
  {
    assert (xs + [k])[..|xs|] == xs;
  }

  /**
   * The table `mails` after the rows of the subscribers `order` went in, in
   * that order, under the ids `next`, `next + 1`, ...
   */
  function Placed(mails: map<nat, Mail.Record>, next: nat, rows: map<nat, Mail.Record>, order: seq<nat>): map<nat, Mail.Record>
    requires forall k :: k in order ==> k in rows
    decreases |order|
  {
    if order == [] then mails
    else Placed(mails, next, rows, order[..|order| - 1])[next + |order| - 1 := rows[order[|order| - 1]]]
  }

  /**
   * What `Placed` holds: the old rows below `next` unchanged, and the i-th
   * subscriber's row under `next + i`; nothing else.
   */
  lemma {:induction false} PlacedMeaning(mails: map<nat, Mail.Record>, next: nat, rows: map<nat, Mail.Record>, order: seq<nat>, id: nat)
    requires forall k :: k in order ==> k in rows
    requires forall j :: j in mails ==> j < next
    ensures id in Placed(mails, next, rows, order) <==> id in mails || next <= id < next + |order|
    ensures id in mails ==> Placed(mails, next, rows, order)[id] == mails[id]
    ensures next <= id < next + |order| ==> Placed(mails, next, rows, order)[id] == rows[order[id - next]]
    decreases |order|
  {
    if order != [] {
      var prefix := order[..|order| - 1];
      assert forall k :: k in prefix ==> k in order;
      PlacedMeaning(mails, next, rows, prefix, id);
      if next <= id < next + |prefix| {
        assert order[id - next] == prefix[id - next];
      }
    }
  }

  /**
   * `mails`/`next` is `mails0`/`next0` after an `INSERT ... SELECT` of
   * `rows` (one row per subscriber), the subscribers coming in the order
   * `order`, each of them once.
   */
  ghost predicate AddsRows(mails0: map<nat, Mail.Record>, next0: nat, mails: map<nat, Mail.Record>, next: nat,
                           rows: map<nat, Mail.Record>, order: seq<nat>) {
    && |order| == |rows| && next == next0 + |order|
    && NoDuplicates(order)
    && (forall k :: k in rows <==> k in order)
    && mails == Placed(mails0, next0, rows, order)
  }

  /** The state of the insert loop: the subscribers `order` are in, those in `todo` are still to come. */
  ghost predicate Inserting(mails0: map<nat, Mail.Record>, next0: nat, rows: map<nat, Mail.Record>,
                            order: seq<nat>, todo: set<nat>, mails: map<nat, Mail.Record>, next: nat) {
    && (forall id :: id in mails0 ==> id < next0)
    && todo <= rows.Keys && next == next0 + |order|
    && (forall k :: k in rows ==> (k in todo <==> k !in order))
    && (forall k :: k in order ==> k in rows)
    && |order| + |todo| == |rows|
    && NoDuplicates(order)
    && mails == Placed(mails0, next0, rows, order)
    && (forall id :: id in mails ==> id < next)
  }

  lemma InsertStep(mails0: map<nat, Mail.Record>, next0: nat, rows: map<nat, Mail.Record>,
                   order: seq<nat>, todo: set<nat>, mails: map<nat, Mail.Record>, next: nat, k: nat)
    requires Inserting(mails0, next0, rows, order, todo, mails, next) && k in todo
    ensures Inserting(mails0, next0, rows, order + [k], todo - {k}, mails[next := rows[k]], next + 1)
  {
    assert |todo - {k}| == |todo| - 1;
    assert (order + [k])[..|order|] == order;
    NoDuplicatesSnoc(order, k);
  }

  /** `INSERT INTO mail ... SELECT`: the rows `rows` under fresh ids, in an order the database picks. */
  method InsertRows(db: Store.Db, rows: map<nat, Mail.Record>) returns (n: nat, ghost order: seq<nat>)
    requires db.Valid()
    modifies db`mails, db`nextMailId
    ensures db.Valid() && n == |rows|
    ensures AddsRows(old(db.mails), old(db.nextMailId), db.mails, db.nextMailId, rows, order)
  {
    var todo := rows.Keys;
    order := [];
    n := 0;
    while todo != {}
      invariant n == |order|
      invariant Inserting(old(db.mails), old(db.nextMailId), rows, order, todo, db.mails, db.nextMailId)
      decreases |todo|
    {
      var k :| k in todo;
      InsertStep(old(db.mails), old(db.nextMailId), rows, order, todo, db.mails, db.nextMailId, k);
      db.mails, db.nextMailId := db.mails[db.nextMailId := rows[k]], db.nextMailId + 1;
      todo, order, n := todo - {k}, order + [k], n + 1;
    }
  }

  /** `Placed` only looks at the rows of the subscribers it places. */
  lemma {:induction false} PlacedLocal(mails: map<nat, Mail.Record>, next: nat, rows: map<nat, Mail.Record>,
                                       rows': map<nat, Mail.Record>, order: seq<nat>)
    requires forall k :: k in order ==> k in rows && k in rows' && rows[k] == rows'[k]
    ensures Placed(mails, next, rows, order) == Placed(mails, next, rows', order)
    decreases |order|
  {
    if order != [] {
      var prefix := order[..|order| - 1];
      assert forall k :: k in prefix ==> k in order;
      PlacedLocal(mails, next, rows, rows', prefix);
    }
  }

  /** Placing one more subscriber puts its row under the next free id. */
  lemma PlacedSnoc(mails: map<nat, Mail.Record>, next: nat, rows: map<nat, Mail.Record>, order: seq<nat>, k: nat)
    requires forall j :: j in order ==> j in rows
    requires k in rows
    ensures forall j :: j in order + [k] ==> j in rows
    ensures Placed(mails, next, rows, order + [k]) == Placed(mails, next, rows, order)[next + |order| := rows[k]]
  {
    assert (order + [k])[..|order|] == order;
  }

  /** The step of `PlacedAppend`: one more subscriber of the second insert. */
  lemma PlacedAppendSnoc(mails: map<nat, Mail.Record>, next: nat, rows1: map<nat, Mail.Record>,
                         rows2: map<nat, Mail.Record>, order1: seq<nat>, prefix: seq<nat>, last: nat)
    requires forall k :: k in order1 ==> k in rows1
    requires forall k :: k in prefix ==> k in rows2
    requires forall k :: k in order1 + prefix ==> k in rows1 + rows2
    requires last in rows2
    requires Placed(Placed(mails, next, rows1, order1), next + |order1|, rows2, prefix)
          == Placed(mails, next, rows1 + rows2, order1 + prefix)
    ensures forall k :: k in prefix + [last] ==> k in rows2
    ensures forall k :: k in (order1 + prefix) + [last] ==> k in rows1 + rows2
    ensures Placed(Placed(mails, next, rows1, order1), next + |order1|, rows2, prefix + [last])
         == Placed(mails, next, rows1 + rows2, (order1 + prefix) + [last])
  {
    var placed1, next1, both := Placed(mails, next, rows1, order1), next + |order1|, rows1 + rows2;
    PlacedSnoc(placed1, next1, rows2, prefix, last);
    PlacedSnoc(mails, next, both, order1 + prefix, last);
    assert both[last] == rows2[last];
    assert next1 + |prefix| == next + |order1 + prefix|;
  }

  /** Two inserts in a row place the union of their rows, in the two orders one after the other. */
  lemma {:induction false} PlacedAppend(mails: map<nat, Mail.Record>, next: nat, rows1: map<nat, Mail.Record>,
                                        rows2: map<nat, Mail.Record>, order1: seq<nat>, order2: seq<nat>)
    requires forall k :: k in order1 ==> k in rows1 && k !in rows2
    requires forall k :: k in order2 ==> k in rows2
    ensures forall k :: k in order1 + order2 ==> k in rows1 + rows2
    ensures Placed(Placed(mails, next, rows1, order1), next + |order1|, rows2, order2)
         == Placed(mails, next, rows1 + rows2, order1 + order2)
    decreases |order2|
  {
    if order2 == [] {
      assert order1 + order2 == order1;
      PlacedLocal(mails, next, rows1, rows1 + rows2, order1);
    } else {
      var prefix, last := order2[..|order2| - 1], order2[|order2| - 1];
      assert order2 == prefix + [last];
      assert forall k :: k in prefix ==> k in order2;
      PlacedAppend(mails, next, rows1, rows2, order1, prefix);
      PlacedAppendSnoc(mails, next, rows1, rows2, order1, prefix, last);
      assert order1 + order2 == (order1 + prefix) + [last];
    }
  }

  lemma {:induction false} NoDuplicatesAppend(xs: seq<nat>, ys: seq<nat>)
    requires NoDuplicates(xs) && NoDuplicates(ys)
    requires forall k :: k in xs ==> k !in ys
    ensures NoDuplicates(xs + ys)
    decreases |ys|
  {
    if ys == [] {
      assert xs + ys == xs;
    } else {
      var prefix, last := ys[..|ys| - 1], ys[|ys| - 1];
      assert forall k :: k in prefix ==> k in ys;
      NoDuplicatesAppend(xs, prefix);
      assert xs + ys == (xs + prefix) + [last];
      assert last !in xs + prefix;
      NoDuplicatesSnoc(xs + prefix, last);
    }
  }

  lemma DisjointSize(rows1: map<nat, Mail.Record>, rows2: map<nat, Mail.Record>)
    requires rows1.Keys !! rows2.Keys
    ensures |rows1 + rows2| == |rows1| + |rows2|
  {
    assert (rows1 + rows2).Keys == rows1.Keys + rows2.Keys;
  }

  lemma PlacedThen(mails0: map<nat, Mail.Record>, next0: nat, mails1: map<nat, Mail.Record>, next1: nat,
                   mails2: map<nat, Mail.Record>, rows1: map<nat, Mail.Record>, rows2: map<nat, Mail.Record>,
                   order1: seq<nat>, order2: seq<nat>)
    requires forall k :: k in order1 ==> k in rows1
    requires forall k :: k in order2 ==> k in rows2
    requires mails1 == Placed(mails0, next0, rows1, order1) && next1 == next0 + |order1|
    requires mails2 == Placed(mails1, next1, rows2, order2)
    ensures mails2 == Placed(Placed(mails0, next0, rows1, order1), next0 + |order1|, rows2, order2)
  {
  }

  /** An insert of `rows1` followed by one of `rows2`, for other subscribers, is one insert of both. */
  lemma AddsRowsCompose(mails0: map<nat, Mail.Record>, next0: nat, mails1: map<nat, Mail.Record>, next1: nat,
                        mails2: map<nat, Mail.Record>, next2: nat, rows1: map<nat, Mail.Record>, rows2: map<nat, Mail.Record>,
                        order1: seq<nat>, order2: seq<nat>)
    requires AddsRows(mails0, next0, mails1, next1, rows1, order1)
    requires AddsRows(mails1, next1, mails2, next2, rows2, order2)
    requires rows1.Keys !! rows2.Keys
    ensures AddsRows(mails0, next0, mails2, next2, rows1 + rows2, order1 + order2)
  {
    var rows, order := rows1 + rows2, order1 + order2;
    assert forall k :: k in order <==> k in order1 || k in order2;
    assert forall k :: k in rows <==> k in order;
    PlacedAppend(mails0, next0, rows1, rows2, order1, order2);
    PlacedThen(mails0, next0, mails1, next1, mails2, rows1, rows2, order1, order2);
    DisjointSize(rows1, rows2);
    assert |order| == |rows| && next2 == next0 + |order|;
    NoDuplicatesAppend(order1, order2);
  }

  // ---- sendInvites, scheduleMails, scheduleAll ---------------------------------------------

  /** Nobody is both invited and in the regular batch of a campaign that sends invites. */
  lemma InvitesApartFromRegular(subscribers: map<nat, Store.Subscriber>, stopList: set<(nat, nat)>, sid: nat,
                                s: Sendout.Record, audience: set<nat>, now: int)
    requires s.sendInvite
    ensures InviteRows(subscribers, stopList, sid, s, audience, now).Keys
         !! RegularRows(subscribers, stopList, sid, s, audience, now).Keys
  {
    var invites := InviteRows(subscribers, stopList, sid, s, audience, now);
    var regular := RegularRows(subscribers, stopList, sid, s, audience, now);
    forall k | k in invites.Keys ensures k !in regular.Keys {
      assert k in InviteRecipients(subscribers, stopList, sid, audience);
    }
  }

  /** Flagging invitations does not change who the regular batch goes to. */
  lemma {:induction false} RegularIgnoresInviteFlags(subscribers: map<nat, Store.Subscriber>, stopList: set<(nat, nat)>, sid: nat,
                                  s: Sendout.Record, audience: set<nat>, now: int, ks: set<nat>)
    ensures RegularRows(MarkInvited(subscribers, ks), stopList, sid, s, audience, now)
         == RegularRows(subscribers, stopList, sid, s, audience, now)
  {
    var marked := MarkInvited(subscribers, ks);
    assert RegularRecipients(marked, stopList, sid, s, audience) == RegularRecipients(subscribers, stopList, sid, s, audience) by {
      forall k ensures Reachable(marked, stopList, sid, audience, k) == Reachable(subscribers, stopList, sid, audience, k) {
        if k in subscribers {
          assert marked[k].isStopped == subscribers[k].isStopped;
        }
      }
    }
  }

  /** Once `sendInvites` has run, running it again invites nobody. */
  lemma {:induction false} InvitesOnce(subscribers: map<nat, Store.Subscriber>, stopList: set<(nat, nat)>, sid: nat, audience: set<nat>)
    ensures InviteRecipients(MarkInvited(subscribers, InviteRecipients(subscribers, stopList, sid, audience)), stopList, sid, audience) == {}
  {
    var invited := InviteRecipients(subscribers, stopList, sid, audience);
    var marked := MarkInvited(subscribers, invited);
    forall k ensures k !in InviteRecipients(marked, stopList, sid, audience) {
      if k in subscribers && k !in invited {
        assert marked[k].isStopped == subscribers[k].isStopped && marked[k].emailConfirmed == subscribers[k].emailConfirmed;
      }
    }
  }

  /**
   * `sendInvites`: inserts an invitation for every reachable subscriber with
   * an unconfirmed address who was not invited yet, then flags them as
   * invited; the number of rows inserted.
   */
  method SendInvites(db: Store.Db, sid: nat, s: Sendout.Record, audience: set<nat>, now: int) returns (n: nat, ghost order: seq<nat>)
    requires db.Valid()
    modifies db`mails, db`nextMailId, db`subscribers
    ensures db.Valid()
    ensures n == |InviteRecipients(old(db.subscribers), db.stopList, sid, audience)|
         == |InviteRows(old(db.subscribers), db.stopList, sid, s, audience, now)|
    ensures AddsRows(old(db.mails), old(db.nextMailId), db.mails, db.nextMailId,
                     InviteRows(old(db.subscribers), db.stopList, sid, s, audience, now), order)
    ensures db.subscribers == MarkInvited(old(db.subscribers), InviteRecipients(old(db.subscribers), db.stopList, sid, audience))
  {
    var invited := InviteRecipients(db.subscribers, db.stopList, sid, audience);
    var rows := InviteRows(db.subscribers, db.stopList, sid, s, audience, now);
    assert rows.Keys == invited;
    n, order := InsertRows(db, rows);
    db.subscribers := MarkInvited(db.subscribers, invited);
  }

  /** Inserting nothing leaves the table as it is. */
  lemma AddsNothing(mails: map<nat, Mail.Record>, next: nat)
    ensures AddsRows(mails, next, mails, next, map[], [])
  {
  }

  /** `Batch` is the invitations and the regular batch, for different subscribers. */
  lemma BatchParts(subscribers: map<nat, Store.Subscriber>, stopList: set<(nat, nat)>, sid: nat, s: Sendout.Record,
                   audience: set<nat>, now: int, invites: map<nat, Mail.Record>, regular: map<nat, Mail.Record>)
    requires invites == if s.sendInvite && s.status == Sendout.Active then InviteRows(subscribers, stopList, sid, s, audience, now) else map[]
    requires regular == if Sendout.IsTimeToSendout(s, now) then RegularRows(subscribers, stopList, sid, s, audience, now) else map[]
    ensures Batch(subscribers, stopList, sid, s, audience, now) == invites + regular
    ensures invites.Keys !! regular.Keys
    ensures |Batch(subscribers, stopList, sid, s, audience, now)| == |invites| + |regular|
  {
    if s.sendInvite {
      InvitesApartFromRegular(subscribers, stopList, sid, s, audience, now);
    }
    DisjointSize(invites, regular);
  }

  /**
   * `save(false, ['date_last_sendout', 'status'])` of the instance `s` over
   * the stored row: only those two columns are written, with the values
   * `MarkScheduled` gives the instance; when the row is the instance as
   * loaded, the result is the instance marked scheduled.
   */
  function Stamped(stored: Sendout.Record, s: Sendout.Record, now: int): (r: Sendout.Record)
    ensures r.dateLastSendout == Some(now)
    ensures r.status == (if s.frequency == 0 then Sendout.Done else s.status)
    ensures r.(dateLastSendout := stored.dateLastSendout, status := stored.status) == stored
    ensures stored == s ==> r == Sendout.MarkScheduled(s, now)
  {
    var marked := Sendout.MarkScheduled(s, now);
    stored.(dateLastSendout := marked.dateLastSendout, status := marked.status)
  }

  /**
   * The second half of `scheduleMails`, for a campaign that is due: saves
   * its new `date_last_sendout` and status, then inserts the regular batch.
   */
  method ScheduleRegular(db: Store.Db, sid: nat, s: Sendout.Record, audience: set<nat>, now: int) returns (n: nat, ghost order: seq<nat>)
    requires sid in db.sendouts && db.Valid()
    modifies db`mails, db`nextMailId, db`sendouts
    ensures db.Valid()
    ensures n == |RegularRows(db.subscribers, db.stopList, sid, s, audience, now)|
    ensures AddsRows(old(db.mails), old(db.nextMailId), db.mails, db.nextMailId,
                     RegularRows(db.subscribers, db.stopList, sid, s, audience, now), order)
    ensures db.sendouts == old(db.sendouts)[sid := Stamped(old(db.sendouts[sid]), s, now)]
  {
    db.sendouts := db.sendouts[sid := Stamped(db.sendouts[sid], s, now)];
    var regular := RegularRows(db.subscribers, db.stopList, sid, s, audience, now);
    n, order := InsertRows(db, regular);
  }

  /** `mails`/`next` is `mails0`/`next0` after `count` rows, the whole `Batch`, went in in the order `order`. */
  ghost predicate InsertedBatch(subscribers: map<nat, Store.Subscriber>, stopList: set<(nat, nat)>, sid: nat, s: Sendout.Record,
                                audience: set<nat>, now: int, mails0: map<nat, Mail.Record>, next0: nat,
                                mails: map<nat, Mail.Record>, next: nat, order: seq<nat>, count: nat) {
    var batch := Batch(subscribers, stopList, sid, s, audience, now);
    count == |batch| && AddsRows(mails0, next0, mails, next, batch, order)
  }

  /**
   * The two inserts of `scheduleMails` together insert `Batch`: the
   * invitations (when on) into `mails0`, giving `mails1`, then the regular
   * batch (when due), chosen after the invitations were flagged, giving
   * `mails2`.
   */
  lemma ScheduledSteps(subscribers: map<nat, Store.Subscriber>, stopList: set<(nat, nat)>, sid: nat, s: Sendout.Record,
                       audience: set<nat>, now: int, mails0: map<nat, Mail.Record>, next0: nat,
                       mails1: map<nat, Mail.Record>, next1: nat, mails2: map<nat, Mail.Record>, next2: nat,
                       order1: seq<nat>, order2: seq<nat>, n1: nat, n2: nat)
    requires var invites := s.sendInvite && s.status == Sendout.Active;
      && (invites ==> n1 == |InviteRows(subscribers, stopList, sid, s, audience, now)|
                      && AddsRows(mails0, next0, mails1, next1, InviteRows(subscribers, stopList, sid, s, audience, now), order1))
      && (!invites ==> n1 == 0 && mails1 == mails0 && next1 == next0 && order1 == [])
    requires var flagged := if s.sendInvite && s.status == Sendout.Active
                            then MarkInvited(subscribers, InviteRecipients(subscribers, stopList, sid, audience)) else subscribers;
      && (Sendout.IsTimeToSendout(s, now) ==>
            n2 == |RegularRows(flagged, stopList, sid, s, audience, now)|
            && AddsRows(mails1, next1, mails2, next2, RegularRows(flagged, stopList, sid, s, audience, now), order2))
      && (!Sendout.IsTimeToSendout(s, now) ==> n2 == 0 && mails2 == mails1 && next2 == next1 && order2 == [])
    ensures InsertedBatch(subscribers, stopList, sid, s, audience, now, mails0, next0, mails2, next2, order1 + order2, n1 + n2)
  {
    var invites := if s.sendInvite && s.status == Sendout.Active then InviteRows(subscribers, stopList, sid, s, audience, now) else map[];
    var regular := if Sendout.IsTimeToSendout(s, now) then RegularRows(subscribers, stopList, sid, s, audience, now) else map[];
    if s.sendInvite && s.status == Sendout.Active {
      RegularIgnoresInviteFlags(subscribers, stopList, sid, s, audience, now, InviteRecipients(subscribers, stopList, sid, audience));
    }
    BatchParts(subscribers, stopList, sid, s, audience, now, invites, regular);
    if !(s.sendInvite && s.status == Sendout.Active) {
      AddsNothing(mails0, next0);
    }
    if !Sendout.IsTimeToSendout(s, now) {
      AddsNothing(mails1, next1);
    }
    AddsRowsCompose(mails0, next0, mails1, next1, mails2, next2, invites, regular, order1, order2);
  }

  /**
   * `scheduleMails` on the campaign `sid` as loaded (`s`): nothing when the
   * mailer is disabled; otherwise the invitations first (when invites are on
   * and the campaign is active), then, when the campaign is due, its new
   * `date_last_sendout` and status saved before the regular batch goes in.
   * The number of rows inserted, which is the size of `Batch`.
   */
  method ScheduleMails(db: Store.Db, settings: Store.Settings, sid: nat, s: Sendout.Record, audience: set<nat>, now: int)
    returns (r: Option<nat>, ghost order: seq<nat>)
    requires sid in db.sendouts && db.Valid()
    modifies db`mails, db`nextMailId, db`subscribers, db`sendouts
    ensures db.Valid()
    ensures settings.mailerDisabled ==> r.None? && db.mails == old(db.mails) && db.nextMailId == old(db.nextMailId)
    ensures !settings.mailerDisabled ==>
      && r.Some?
      && InsertedBatch(old(db.subscribers), db.stopList, sid, s, audience, now,
                       old(db.mails), old(db.nextMailId), db.mails, db.nextMailId, order, r.value)
    ensures !settings.mailerDisabled && s.sendInvite && s.status == Sendout.Active ==>
      db.subscribers == MarkInvited(old(db.subscribers), InviteRecipients(old(db.subscribers), db.stopList, sid, audience))
    ensures settings.mailerDisabled || !s.sendInvite || s.status != Sendout.Active ==> db.subscribers == old(db.subscribers)
    ensures !settings.mailerDisabled && Sendout.IsTimeToSendout(s, now) ==>
      db.sendouts == old(db.sendouts)[sid := Stamped(old(db.sendouts[sid]), s, now)]
    ensures settings.mailerDisabled || !Sendout.IsTimeToSendout(s, now) ==> db.sendouts == old(db.sendouts)
  {
    order := [];
    if settings.mailerDisabled {
      return None, order;
    }
    var scheduled: nat := 0;
    if s.sendInvite && s.status == Sendout.Active {
      scheduled, order := SendInvites(db, sid, s, audience, now);
    }
    ghost var mails1, next1 := db.mails, db.nextMailId;
    var added: nat := 0;
    ghost var order2: seq<nat> := [];
    if Sendout.IsTimeToSendout(s, now) {
      added, order2 := ScheduleRegular(db, sid, s, audience, now);
    }
    ScheduledSteps(old(db.subscribers), db.stopList, sid, s, audience, now, old(db.mails), old(db.nextMailId),
                   mails1, next1, db.mails, db.nextMailId, order, order2, scheduled, added);
    order := order + order2;
    r := Some(scheduled + added);
  }

  /** A one-off campaign, once scheduled, schedules nothing more: neither invitations nor a second batch. */
  lemma OneOffBatchOnce(subscribers: map<nat, Store.Subscriber>, stopList: set<(nat, nat)>, sid: nat, s: Sendout.Record,
                            audience: set<nat>, now: int, later: int)
    requires s.frequency == 0
    ensures Batch(subscribers, stopList, sid, Sendout.MarkScheduled(s, now), audience, later) == map[]
  {
    Sendout.OneOffSchedulesOnce(s, now, later);
  }

  /**
   * A subscriber `scheduleMails` invited is never invited again, by this
   * campaign or any other, since the invitation flag is global.
   */
  lemma InvitedOnce(subscribers: map<nat, Store.Subscriber>, stopList: set<(nat, nat)>, sid: nat, s: Sendout.Record,
                    audience: set<nat>, now: int, sid': nat, s': Sendout.Record, audience': set<nat>, later: int, k: nat)
    requires k in Batch(subscribers, stopList, sid, s, audience, now)
    requires Batch(subscribers, stopList, sid, s, audience, now)[k].isInvite
    ensures var flagged := MarkInvited(subscribers, InviteRecipients(subscribers, stopList, sid, audience));
      var again := Batch(flagged, stopList, sid', s', audience', later);
      k in again ==> !again[k].isInvite
  {
    var flagged := MarkInvited(subscribers, InviteRecipients(subscribers, stopList, sid, audience));
    BatchMeaning(subscribers, stopList, sid, s, audience, now, k);
    BatchMeaning(flagged, stopList, sid', s', audience', later, k);
    assert k in InviteRecipients(subscribers, stopList, sid, audience);
  }

  // ---- scheduleAll -------------------------------------------------------------------------

  /** The campaign table after every due campaign was marked scheduled at `now`. */
  function AfterScheduling(sendouts: map<nat, Sendout.Record>, now: int): (r: map<nat, Sendout.Record>)
    ensures r.Keys == sendouts.Keys
  {
    map sid | sid in sendouts :: if Sendout.IsTimeToSendout(sendouts[sid], now) then Sendout.MarkScheduled(sendouts[sid], now) else sendouts[sid]
  }

  /**
   * `mails`/`next` grew from `mails0`/`next0` by inserts only: the old rows
   * are still there unchanged, every new row sits at or above `next0`, is
   * `awaits` and belongs to one of the campaigns `sids`.
   */
  ghost predicate Grown(mails0: map<nat, Mail.Record>, next0: nat, mails: map<nat, Mail.Record>, next: nat, sids: seq<nat>) {
    && next0 <= next
    && (forall id :: id in mails0 ==> id in mails && mails[id] == mails0[id])
    && (forall id :: id in mails ==> id < next)
    && (forall id :: id in mails && id !in mails0 ==> next0 <= id && mails[id].status == Mail.Awaits && mails[id].sendoutId in sids)
  }

  /** The rows `InsertedBatch` adds are new, `awaits` and of the campaign scheduled. */
  lemma {:induction false} GrownStep(mails0: map<nat, Mail.Record>, next0: nat, mails1: map<nat, Mail.Record>, next1: nat,
                                     sids: seq<nat>, subscribers: map<nat, Store.Subscriber>, stopList: set<(nat, nat)>,
                                     sid: nat, s: Sendout.Record, audience: set<nat>, now: int,
                                     mails2: map<nat, Mail.Record>, next2: nat, order: seq<nat>, count: nat)
    requires Grown(mails0, next0, mails1, next1, sids) && sid in sids
    requires InsertedBatch(subscribers, stopList, sid, s, audience, now, mails1, next1, mails2, next2, order, count)
    ensures Grown(mails0, next0, mails2, next2, sids) && next2 == next1 + count
  {
    var batch := Batch(subscribers, stopList, sid, s, audience, now);
    assert forall k :: k in order ==> k in batch;
    forall id | id in mails2
      ensures id < next2
      ensures id !in mails1 ==> next1 <= id && mails2[id].status == Mail.Awaits && mails2[id].sendoutId == sid
    {
      PlacedMeaning(mails1, next1, batch, order, id);
      if id !in mails1 {
        BatchMeaning(subscribers, stopList, sid, s, audience, now, order[id - next1]);
      }
    }
    forall id | id in mails1 ensures id in mails2 && mails2[id] == mails1[id] {
      PlacedMeaning(mails1, next1, batch, order, id);
    }
  }

  /** `scheduleAll` so far: the first `i` campaigns of `queue` are scheduled, the others are still as loaded. */
  ghost predicate Scheduling(loaded: map<nat, Sendout.Record>, sendouts: map<nat, Sendout.Record>,
                             subscribers0: map<nat, Store.Subscriber>, subscribers: map<nat, Store.Subscriber>,
                             queue: seq<nat>, i: nat, now: int) {
    && i <= |queue|
    && (forall j :: 0 <= j < |queue| ==> queue[j] in loaded)
    && (forall j, j' :: 0 <= j < j' < |queue| ==> queue[j] != queue[j'])
    && sendouts.Keys == loaded.Keys
    && (forall j :: 0 <= j < i ==> sendouts[queue[j]] == AfterScheduling(loaded, now)[queue[j]])
    && (forall j :: i <= j < |queue| ==> sendouts[queue[j]] == loaded[queue[j]])
    && (forall sid :: sid in loaded && sid !in queue ==> sendouts[sid] == loaded[sid])
    && subscribers.Keys == subscribers0.Keys
    && (forall k :: k in subscribers ==> subscribers[k] == subscribers0[k] || subscribers[k] == subscribers0[k].(inviteSent := true))
  }

  lemma SchedulingStarts(loaded: map<nat, Sendout.Record>, subscribers: map<nat, Store.Subscriber>, queue: seq<nat>, now: int)
    requires forall j :: 0 <= j < |queue| ==> queue[j] in loaded
    requires forall j, j' :: 0 <= j < j' < |queue| ==> queue[j] != queue[j']
    ensures Scheduling(loaded, loaded, subscribers, subscribers, queue, 0, now)
  {
  }

  lemma SchedulingStep(loaded: map<nat, Sendout.Record>, sendouts: map<nat, Sendout.Record>,
                       subscribers0: map<nat, Store.Subscriber>, subscribers: map<nat, Store.Subscriber>,
                       queue: seq<nat>, i: nat, now: int,
                       sendouts': map<nat, Sendout.Record>, subscribers': map<nat, Store.Subscriber>, flagged: bool, ks: set<nat>)
    requires Scheduling(loaded, sendouts, subscribers0, subscribers, queue, i, now) && i < |queue|
    requires sendouts' == if Sendout.IsTimeToSendout(loaded[queue[i]], now)
                          then sendouts[queue[i] := Stamped(sendouts[queue[i]], loaded[queue[i]], now)] else sendouts
    requires subscribers' == if flagged then MarkInvited(subscribers, ks) else subscribers
    ensures Scheduling(loaded, sendouts', subscribers0, subscribers', queue, i + 1, now)
  {
    var sid := queue[i];
    assert sendouts[sid] == loaded[sid];
    forall j | 0 <= j < |queue| && j != i ensures sendouts'[queue[j]] == sendouts[queue[j]] {
      assert queue[j] != sid;
    }
  }

  /**
   * At the end of `scheduleAll`, once every active campaign was scheduled,
   * the campaign table is `AfterScheduling` of the loaded one.
   */
  lemma SchedulingEnds(loaded: map<nat, Sendout.Record>, sendouts: map<nat, Sendout.Record>,
                       subscribers0: map<nat, Store.Subscriber>, subscribers: map<nat, Store.Subscriber>,
                       queue: seq<nat>, now: int)
    requires Scheduling(loaded, sendouts, subscribers0, subscribers, queue, |queue|, now)
    requires forall sid :: sid in loaded && loaded[sid].status == Sendout.Active ==> sid in queue
    ensures sendouts == AfterScheduling(loaded, now)
  {
    var after := AfterScheduling(loaded, now);
    forall sid | sid in loaded ensures sendouts[sid] == after[sid] {
      if sid in queue {
        var j :| 0 <= j < |queue| && queue[j] == sid;
      }
    }
  }
  /** Whether `scheduleMails` sends invitations for the campaign in state `s`. */
  predicate InvitesOn(s: Sendout.Record) {
    s.sendInvite && s.status == Sendout.Active
  }

  /**
   * The subscriber table after `scheduleMails` ran on the campaigns `queue`
   * in turn, each as `loaded` holds it: each campaign that sends invitations
   * flags its invitees, chosen against the flags the earlier ones left.
   */
  ghost function FlaggedAfter(subscribers0: map<nat, Store.Subscriber>, stopList: set<(nat, nat)>,
                              loaded: map<nat, Sendout.Record>, audienceOf: nat -> set<nat>, queue: seq<nat>)
    : map<nat, Store.Subscriber>
    decreases |queue|
  {
    if queue == [] then subscribers0
    else
      var subscribers := FlaggedAfter(subscribers0, stopList, loaded, audienceOf, queue[..|queue| - 1]);
      var sid := queue[|queue| - 1];
      if sid in loaded && InvitesOn(loaded[sid])
      then MarkInvited(subscribers, InviteRecipients(subscribers, stopList, sid, audienceOf(sid)))
      else subscribers
  }

  /**
   * `scheduleMails` ran on the campaigns `queue` in turn: between `tables[j]`
   * (with next id `nexts[j]`) and `tables[j + 1]`, the j-th campaign's whole
   * `Batch` went in, in the order `orders[j]`, its recipients chosen against
   * the subscriber table the campaigns before it left.
   */
  ghost predicate ScheduledAll(stopList: set<(nat, nat)>, loaded: map<nat, Sendout.Record>, audienceOf: nat -> set<nat>,
                               now: int, queue: seq<nat>, subscribers0: map<nat, Store.Subscriber>,
                               tables: seq<map<nat, Mail.Record>>, nexts: seq<nat>, orders: seq<seq<nat>>) {
    && |tables| == |queue| + 1 && |nexts| == |queue| + 1 && |orders| == |queue|
    && (forall j :: 0 <= j < |queue| ==> queue[j] in loaded)
    && (forall j :: 0 <= j < |queue| ==>
          AddsRows(tables[j], nexts[j], tables[j + 1], nexts[j + 1],
                   Batch(FlaggedAfter(subscribers0, stopList, loaded, audienceOf, queue[..j]), stopList,
                         queue[j], loaded[queue[j]], audienceOf(queue[j]), now),
                   orders[j]))
  }

  /** One more campaign scheduled extends `ScheduledAll` by its step. */
  lemma ScheduledAllStep(stopList: set<(nat, nat)>, loaded: map<nat, Sendout.Record>, audienceOf: nat -> set<nat>,
                         now: int, queue: seq<nat>, subscribers0: map<nat, Store.Subscriber>,
                         tables: seq<map<nat, Mail.Record>>, nexts: seq<nat>, orders: seq<seq<nat>>,
                         sid: nat, mails: map<nat, Mail.Record>, next: nat, order: seq<nat>)
    requires ScheduledAll(stopList, loaded, audienceOf, now, queue, subscribers0, tables, nexts, orders)
    requires sid in loaded
    requires AddsRows(tables[|queue|], nexts[|queue|], mails, next,
                      Batch(FlaggedAfter(subscribers0, stopList, loaded, audienceOf, queue), stopList,
                            sid, loaded[sid], audienceOf(sid), now),
                      order)
    ensures ScheduledAll(stopList, loaded, audienceOf, now, queue + [sid], subscribers0,
                         tables + [mails], nexts + [next], orders + [order])
  {
    var queue', tables', nexts', orders' := queue + [sid], tables + [mails], nexts + [next], orders + [order];
    forall j | 0 <= j < |queue'|
      ensures AddsRows(tables'[j], nexts'[j], tables'[j + 1], nexts'[j + 1],
                       Batch(FlaggedAfter(subscribers0, stopList, loaded, audienceOf, queue'[..j]), stopList,
                             queue'[j], loaded[queue'[j]], audienceOf(queue'[j]), now),
                       orders'[j])
    {
      if j < |queue| {
        assert queue'[..j] == queue[..j] && queue'[j] == queue[j];
        assert tables'[j] == tables[j] && tables'[j + 1] == tables[j + 1];
        assert nexts'[j] == nexts[j] && nexts'[j + 1] == nexts[j + 1] && orders'[j] == orders[j];
      } else {
        assert queue'[..j] == queue;
      }
    }
  }

  /** `FlaggedAfter` of one more campaign. */
  lemma FlaggedAfterStep(subscribers0: map<nat, Store.Subscriber>, stopList: set<(nat, nat)>,
                         loaded: map<nat, Sendout.Record>, audienceOf: nat -> set<nat>, queue: seq<nat>, sid: nat)
    requires sid in loaded
    ensures var subscribers := FlaggedAfter(subscribers0, stopList, loaded, audienceOf, queue);
      FlaggedAfter(subscribers0, stopList, loaded, audienceOf, queue + [sid])
        == if InvitesOn(loaded[sid]) then MarkInvited(subscribers, InviteRecipients(subscribers, stopList, sid, audienceOf(sid)))
           else subscribers
  {
    assert (queue + [sid])[..|queue|] == queue;
  }

  /**
   * The state of `scheduleAll` after the first `i` campaigns of `ids`: the
   * message table grew by their batches, step by step, their rows stamped,
   * their invitees flagged.
   */
  ghost predicate ScheduledSoFar(loaded: map<nat, Sendout.Record>, stopList: set<(nat, nat)>, audienceOf: nat -> set<nat>,
                                 now: int, ids: seq<nat>, i: nat,
                                 mails0: map<nat, Mail.Record>, next0: nat, subscribers0: map<nat, Store.Subscriber>,
                                 mails: map<nat, Mail.Record>, next: nat, subscribers: map<nat, Store.Subscriber>,
                                 sendouts: map<nat, Sendout.Record>,
                                 tables: seq<map<nat, Mail.Record>>, nexts: seq<nat>, orders: seq<seq<nat>>) {
    && i <= |ids|
    && Grown(mails0, next0, mails, next, ids)
    && Scheduling(loaded, sendouts, subscribers0, subscribers, ids, i, now)
    && ScheduledAll(stopList, loaded, audienceOf, now, ids[..i], subscribers0, tables, nexts, orders)
    && tables[0] == mails0 && nexts[0] == next0 && tables[i] == mails && nexts[i] == next
    && subscribers == FlaggedAfter(subscribers0, stopList, loaded, audienceOf, ids[..i])
  }

  /** Before the first campaign, `ScheduledSoFar` holds of the tables as they are. */
  lemma ScheduledSoFarStarts(loaded: map<nat, Sendout.Record>, stopList: set<(nat, nat)>, audienceOf: nat -> set<nat>,
                             now: int, ids: seq<nat>,
                             mails: map<nat, Mail.Record>, next: nat, subscribers: map<nat, Store.Subscriber>)
    requires forall j :: 0 <= j < |ids| ==> ids[j] in loaded
    requires forall j, j' :: 0 <= j < j' < |ids| ==> ids[j] != ids[j']
    requires forall id :: id in mails ==> id < next
    ensures ScheduledSoFar(loaded, stopList, audienceOf, now, ids, 0, mails, next, subscribers,
                           mails, next, subscribers, loaded, [mails], [next], [])
  {
    SchedulingStarts(loaded, subscribers, ids, now);
    assert ids[..0] == [];
  }

  /** `scheduleMails` on the next campaign of `ids` moves `ScheduledSoFar` on by one. */
  lemma ScheduledSoFarStep(loaded: map<nat, Sendout.Record>, stopList: set<(nat, nat)>, audienceOf: nat -> set<nat>,
                           now: int, ids: seq<nat>, i: nat,
                           mails0: map<nat, Mail.Record>, next0: nat, subscribers0: map<nat, Store.Subscriber>,
                           mails: map<nat, Mail.Record>, next: nat, subscribers: map<nat, Store.Subscriber>,
                           sendouts: map<nat, Sendout.Record>,
                           tables: seq<map<nat, Mail.Record>>, nexts: seq<nat>, orders: seq<seq<nat>>,
                           mails': map<nat, Mail.Record>, next': nat, subscribers': map<nat, Store.Subscriber>,
                           sendouts': map<nat, Sendout.Record>, order: seq<nat>, count: nat)
    requires ScheduledSoFar(loaded, stopList, audienceOf, now, ids, i, mails0, next0, subscribers0,
                            mails, next, subscribers, sendouts, tables, nexts, orders)
    requires i < |ids|
    requires InsertedBatch(subscribers, stopList, ids[i], loaded[ids[i]], audienceOf(ids[i]), now, mails, next, mails', next', order, count)
    requires subscribers' == if InvitesOn(loaded[ids[i]])
                             then MarkInvited(subscribers, InviteRecipients(subscribers, stopList, ids[i], audienceOf(ids[i])))
                             else subscribers
    requires sendouts' == if Sendout.IsTimeToSendout(loaded[ids[i]], now)
                          then sendouts[ids[i] := Stamped(sendouts[ids[i]], loaded[ids[i]], now)] else sendouts
    ensures ScheduledSoFar(loaded, stopList, audienceOf, now, ids, i + 1, mails0, next0, subscribers0,
                           mails', next', subscribers', sendouts', tables + [mails'], nexts + [next'], orders + [order])
    ensures next' == next + count
  {
    var sid := ids[i];
    GrownStep(mails0, next0, mails, next, ids, subscribers, stopList, sid, loaded[sid], audienceOf(sid), now,
              mails', next', order, count);
    SchedulingStep(loaded, sendouts, subscribers0, subscribers, ids, i, now, sendouts', subscribers',
                   InvitesOn(loaded[sid]), InviteRecipients(subscribers, stopList, sid, audienceOf(sid)));
    ScheduledAllStep(stopList, loaded, audienceOf, now, ids[..i], subscribers0, tables, nexts, orders,
                     sid, mails', next', order);
    FlaggedAfterStep(subscribers0, stopList, loaded, audienceOf, ids[..i], sid);
    assert ids[..i] + [sid] == ids[..i + 1];
  }

  /** The body of `scheduleAll`'s loop: `scheduleMails` on the `i`-th campaign of `ids`, as loaded. */
  method ScheduleNext(db: Store.Db, settings: Store.Settings, loaded: map<nat, Sendout.Record>, audienceOf: nat -> set<nat>,
                      now: int, ids: seq<nat>, i: nat,
                      ghost mails0: map<nat, Mail.Record>, ghost next0: nat, ghost subscribers0: map<nat, Store.Subscriber>,
                      ghost tables: seq<map<nat, Mail.Record>>, ghost nexts: seq<nat>, ghost orders: seq<seq<nat>>)
    returns (n: nat, ghost tables': seq<map<nat, Mail.Record>>, ghost nexts': seq<nat>, ghost orders': seq<seq<nat>>)
    requires !settings.mailerDisabled && db.Valid() && i < |ids|
    requires ScheduledSoFar(loaded, db.stopList, audienceOf, now, ids, i, mails0, next0, subscribers0,
                            db.mails, db.nextMailId, db.subscribers, db.sendouts, tables, nexts, orders)
    modifies db`mails, db`nextMailId, db`subscribers, db`sendouts
    ensures db.Valid() && db.nextMailId == old(db.nextMailId) + n
    ensures ScheduledSoFar(loaded, db.stopList, audienceOf, now, ids, i + 1, mails0, next0, subscribers0,
                           db.mails, db.nextMailId, db.subscribers, db.sendouts, tables', nexts', orders')
  {
    var sid := ids[i];
    assert sid in loaded && sid in db.sendouts;
    var r;
    ghost var order;
    r, order := ScheduleMails(db, settings, sid, loaded[sid], audienceOf(sid), now);
    n := r.value;
    ScheduledSoFarStep(loaded, db.stopList, audienceOf, now, ids, i, mails0, next0, subscribers0,
                       old(db.mails), old(db.nextMailId), old(db.subscribers), old(db.sendouts), tables, nexts, orders,
                       db.mails, db.nextMailId, db.subscribers, db.sendouts, order, n);
    tables', nexts', orders' := tables + [db.mails], nexts + [db.nextMailId], orders + [order];
  }

  /** What `ScheduledSoFar` says once every campaign of `ids` was scheduled. */
  lemma ScheduledSoFarEnds(loaded: map<nat, Sendout.Record>, stopList: set<(nat, nat)>, audienceOf: nat -> set<nat>,
                           now: int, ids: seq<nat>,
                           mails0: map<nat, Mail.Record>, next0: nat, subscribers0: map<nat, Store.Subscriber>,
                           mails: map<nat, Mail.Record>, next: nat, subscribers: map<nat, Store.Subscriber>,
                           sendouts: map<nat, Sendout.Record>,
                           tables: seq<map<nat, Mail.Record>>, nexts: seq<nat>, orders: seq<seq<nat>>)
    requires ScheduledSoFar(loaded, stopList, audienceOf, now, ids, |ids|, mails0, next0, subscribers0,
                            mails, next, subscribers, sendouts, tables, nexts, orders)
    requires forall sid :: sid in loaded && loaded[sid].status == Sendout.Active ==> sid in ids
    ensures ScheduledAll(stopList, loaded, audienceOf, now, ids, subscribers0, tables, nexts, orders)
    ensures tables[0] == mails0 && nexts[0] == next0 && tables[|ids|] == mails && nexts[|ids|] == next
    ensures subscribers == FlaggedAfter(subscribers0, stopList, loaded, audienceOf, ids)
    ensures Grown(mails0, next0, mails, next, ids)
    ensures sendouts == AfterScheduling(loaded, now)
  {
    assert ids[..|ids|] == ids;
    SchedulingEnds(loaded, sendouts, subscribers0, subscribers, ids, now);
  }

  /**
   * `scheduleAll`: nothing when the mailer is disabled; otherwise
   * `scheduleMails` on every active campaign, as loaded at the start, in
   * descending priority; the total number of rows inserted. The recipient
   * filter of each campaign is `audienceOf`. The message table goes through
   * `tables`, one step per campaign of `queue`, each step inserting that
   * campaign's `Batch`; the subscriber table ends as `FlaggedAfter` says.
   */
  method ScheduleAll(db: Store.Db, settings: Store.Settings, audienceOf: nat -> set<nat>, now: int)
    returns (r: Option<nat>, ghost queue: seq<nat>,
             ghost tables: seq<map<nat, Mail.Record>>, ghost nexts: seq<nat>, ghost orders: seq<seq<nat>>)
    requires db.Valid()
    modifies db`mails, db`nextMailId, db`subscribers, db`sendouts
    ensures db.Valid()
    ensures settings.mailerDisabled ==>
      && r.None? && db.mails == old(db.mails) && db.nextMailId == old(db.nextMailId)
      && db.sendouts == old(db.sendouts) && db.subscribers == old(db.subscribers)
    ensures !settings.mailerDisabled ==>
      && r.Some? && db.nextMailId == old(db.nextMailId) + r.value
      && (forall sid :: sid in queue <==> sid in old(db.sendouts) && old(db.sendouts)[sid].status == Sendout.Active)
      && (forall j, j' :: 0 <= j < j' < |queue| ==> queue[j] != queue[j'])
      && (forall j, j' :: 0 <= j < j' < |queue| ==> old(db.sendouts)[queue[j]].priority >= old(db.sendouts)[queue[j']].priority)
      && ScheduledAll(db.stopList, old(db.sendouts), audienceOf, now, queue, old(db.subscribers), tables, nexts, orders)
      && tables[0] == old(db.mails) && nexts[0] == old(db.nextMailId)
      && tables[|queue|] == db.mails && nexts[|queue|] == db.nextMailId
      && db.subscribers == FlaggedAfter(old(db.subscribers), db.stopList, old(db.sendouts), audienceOf, queue)
      && Grown(old(db.mails), old(db.nextMailId), db.mails, db.nextMailId, queue)
      && db.sendouts == AfterScheduling(old(db.sendouts), now)
  {
    queue, tables, nexts, orders := [], [db.mails], [db.nextMailId], [];
    if settings.mailerDisabled {
      return None, queue, tables, nexts, orders;
    }
    var loaded := db.sendouts;
    var pool := map sid | sid in loaded && loaded[sid].status == Sendout.Active :: loaded[sid].priority;
    var ids := Store.TopByPriority(pool, |pool| + 1);
    queue := ids;
    ScheduledSoFarStarts(loaded, db.stopList, audienceOf, now, ids, db.mails, db.nextMailId, db.subscribers);
    var total: nat := 0;
    var i := 0;
    while i < |ids|
      invariant db.Valid() && db.nextMailId == old(db.nextMailId) + total
      invariant ScheduledSoFar(loaded, db.stopList, audienceOf, now, ids, i, old(db.mails), old(db.nextMailId), old(db.subscribers),
                               db.mails, db.nextMailId, db.subscribers, db.sendouts, tables, nexts, orders)
    {
      var n;
      n, tables, nexts, orders := ScheduleNext(db, settings, loaded, audienceOf, now, ids, i,
                                               old(db.mails), old(db.nextMailId), old(db.subscribers), tables, nexts, orders);
      total := total + n;
      i := i + 1;
    }
    ScheduledSoFarEnds(loaded, db.stopList, audienceOf, now, ids, old(db.mails), old(db.nextMailId), old(db.subscribers),
                       db.mails, db.nextMailId, db.subscribers, db.sendouts, tables, nexts, orders);
    return Some(total), queue, tables, nexts, orders;
  }
}

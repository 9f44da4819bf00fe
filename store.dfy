/**
 * The database the mailer works against: the `mail`, `sendout`,
 * `subscriber`, `template`, `domain` and `stop_mail` tables, plus the two
 * outlets the core writes to and never reads back (the statistics events and
 * the callback requests). The SQL `ORDER BY priority DESC LIMIT n` both the
 * claim and the scheduler use is here too.
 */
module Store {
  import opened Wrappers
  import Mail
  import Sendout

  /** The columns of `subscriber` the core reads or writes; `date` is `signedUpAt`. */
  datatype Subscriber = Subscriber(
    emailConfirmed: bool,
    inviteSent: bool,
    isStopped: bool,
    signedUpAt: int,
    email: string)

  /** A row of `domain`: its id and whether it is verified. */
  datatype Domain = Domain(id: nat, verified: bool)

  /** `Yii::$app->params`: `mailer_disabled` and `sending_portion`. */
  datatype Settings = Settings(mailerDisabled: bool, sendingPortion: Option<nat>)

  class Db {
    var mails: map<nat, Mail.Record>
    var nextMailId: nat
    var sendouts: map<nat, Sendout.Record>
    var subscribers: map<nat, Subscriber>
    var templates: set<nat>
    /** The domain table in primary-key order, the order queries return it in. */
    var domains: seq<Domain>
    /** `stop_mail`: (subscriber id, sendout id) pairs that must not be mailed. */
    var stopList: set<(nat, nat)>
    /** The statistics sink (`EventSummary::add`), append-only. */
    var events: seq<Mail.Event>
    /** The callback URLs requested, in order. */
    var pings: seq<string>

    /** The auto-increment counter of `mail` is above every id in use. */
    ghost predicate Valid()
      reads this
    {
      forall id :: id in mails ==> id < nextMailId
    }

    constructor ()
      ensures Valid()
      ensures mails == map[] && nextMailId == 0 && sendouts == map[] && subscribers == map[]
      ensures templates == {} && domains == [] && stopList == {} && events == [] && pings == []
    {
      mails, nextMailId, sendouts, subscribers := map[], 0, map[], map[];
      templates, domains, stopList, events, pings := {}, [], {}, [], [];
    }
  }

  /** The highest priority among `candidates`. */
  method MaxPriority(pool: map<nat, int>, candidates: set<nat>) returns (best: nat)
    requires candidates != {} && candidates <= pool.Keys
    ensures best in candidates
    ensures forall k :: k in candidates ==> pool[k] <= pool[best]
  {
    best :| best in candidates;
    var todo := candidates - {best};
    while todo != {}
      invariant todo <= candidates && best in candidates
      invariant forall k :: k in candidates - todo ==> pool[k] <= pool[best]
      decreases |todo|
    {
      var k :| k in todo;
      if pool[k] > pool[best] {
        best := k;
      }
      todo := todo - {k};
    }
  }

  /**
   * `ORDER BY priority DESC LIMIT limit` over the rows in `pool` (id to
   * priority): as many rows as the limit allows, no row twice, in descending
   * priority, and none left out that ranks above one taken. Ties are broken
   * in no particular order, as in SQL.
   */
  method TopByPriority(pool: map<nat, int>, limit: nat) returns (picked: seq<nat>)
    ensures |picked| == if limit < |pool| then limit else |pool|
    ensures forall i :: 0 <= i < |picked| ==> picked[i] in pool
    ensures forall i, j :: 0 <= i < j < |picked| ==> picked[i] != picked[j]
    ensures forall i, j :: 0 <= i < j < |picked| ==> pool[picked[i]] >= pool[picked[j]]
    ensures forall i, k :: 0 <= i < |picked| && k in pool && k !in picked ==> pool[picked[i]] >= pool[k]
    ensures |picked| < limit ==> forall k :: k in pool ==> k in picked
  {
    picked := [];
    var rest := pool.Keys;
    while |picked| < limit && rest != {}
      invariant rest <= pool.Keys
      invariant forall k :: k in pool ==> (k in rest <==> k !in picked)
      invariant |rest| + |picked| == |pool|
      invariant |picked| <= limit
      invariant forall i :: 0 <= i < |picked| ==> picked[i] in pool
      invariant forall i, j :: 0 <= i < j < |picked| ==> picked[i] != picked[j]
      invariant forall i, j :: 0 <= i < j < |picked| ==> pool[picked[i]] >= pool[picked[j]]
      invariant forall i, k :: 0 <= i < |picked| && k in rest ==> pool[picked[i]] >= pool[k]
      decreases |rest|
    {
      var best := MaxPriority(pool, rest);
      picked := picked + [best];
      rest := rest - {best};
    }
  }
}

/**
 * The recipient condition of a campaign: the WHERE clause `applyFilters`
 * builds through Yii's query builder, which `sendInvites` and `scheduleMails`
 * take as text and put behind their own conditions with a plain `AND`.
 *
 * The conditions of the two filter groups themselves (country, gender, last
 * visit, ...) are decided outside the model: a subscriber either matches a
 * group or does not.
 */
module Audience {
  import Sendout
  import Store
  import Campaigns
  import PhpStrings

  /** What the recipient query reads about one subscriber of campaign `sid`. */
  datatype Candidate = Candidate(
    isStopped: bool,
    stopListed: bool,
    notRegisteredMatch: bool,
    registeredMatch: bool,
    sourceMatch: bool,
    emailConfirmed: bool,
    inviteSent: bool)

  /** An SQL condition as the query builder nests it. */
  datatype Cond =
    | Always                 // `1=1`
    | NotStopped             // `is_stopped = 0 AND stop.sendout_id IS NULL`
    | NotRegisteredGroup     // the `not_registered` group's conditions
    | RegisteredGroup        // the `registered` group's conditions
    | SourceIn               // `source IN (...)`
    | Confirmed(value: bool) // `email_confirmed = "1"` or `"0"`
    | NotInvited             // `is_invite_sended = 0`
    | And(l: Cond, r: Cond)
    | Or(l: Cond, r: Cond)

  predicate Holds(c: Cond, k: Candidate) {
    match c
    case Always => true
    case NotStopped => !k.isStopped && !k.stopListed
    case NotRegisteredGroup => k.notRegisteredMatch
    case RegisteredGroup => k.registeredMatch
    case SourceIn => k.sourceMatch
    case Confirmed(v) => k.emailConfirmed == v
    case NotInvited => !k.inviteSent
    case And(l, r) => Holds(l, k) && Holds(r, k)
    case Or(l, r) => Holds(l, k) || Holds(r, k)
  }

  /** The `sources` filter is on: the list is non-empty and its first entry truthy. */
  predicate SourcesOn(s: Sendout.Record) {
    |s.sources| > 0 && PhpStrings.Truthy(s.sources[0])
  }

  /**
   * `applyFilters` as written: the stop conditions, `andWhere` the
   * `not_registered` group when on, `orWhere` the `registered` group when on,
   * `andWhere` the sources when on. Each step wraps what came before.
   */
  function FiltersAsWritten(f: Sendout.Filters, sourcesOn: bool): Cond {
    var base := if f.notRegisteredOn then And(NotStopped, NotRegisteredGroup) else NotStopped;
    var groups := if f.registeredOn then Or(base, RegisteredGroup) else base;
    if sourcesOn then And(groups, SourceIn) else groups
  }

  /**
   * `"<p> AND " . $where`: the rendered clause has no parentheses around it
   * as a whole, and AND binds tighter than OR, so a clause whose top level is
   * an OR takes `p` into its first operand only.
   */
  function Prefixed(p: Cond, w: Cond): (r: Cond)
    ensures !w.Or? ==> r == And(p, w)
  {
    if w.Or? then Or(And(p, w.l), w.r) else And(p, w)
  }

  /** The prefix of the invitation query. */
  const InvitePrefix: Cond := And(Confirmed(false), NotInvited)

  /** The subscriber matches the groups that are on; with neither on, everyone does. */
  predicate InGroups(f: Sendout.Filters, k: Candidate) {
    || (!f.notRegisteredOn && !f.registeredOn)
    || (f.notRegisteredOn && k.notRegisteredMatch)
    || (f.registeredOn && k.registeredMatch)
  }

  /** Who a campaign is meant to reach: not stopped, not on its stop list, in a group that is on, from a listed source. */
  predicate Selected(f: Sendout.Filters, sourcesOn: bool, k: Candidate) {
    !k.isStopped && !k.stopListed && InGroups(f, k) && (sourcesOn ==> k.sourceMatch)
  }

  /** The groups that are on, joined by OR; `1=1` when neither is. */
  function Groups(f: Sendout.Filters): (c: Cond)
    ensures !c.And?
  {
    if f.notRegisteredOn && f.registeredOn then Or(NotRegisteredGroup, RegisteredGroup)
    else if f.notRegisteredOn then NotRegisteredGroup
    else if f.registeredOn then RegisteredGroup
    else Always
  }

  /** The clause with the stop conditions over everything: the groups, then the sources. */
  function Filters(f: Sendout.Filters, sourcesOn: bool): (c: Cond)
    ensures !c.Or?
  {
    var base := And(NotStopped, Groups(f));
    if sourcesOn then And(base, SourceIn) else base
  }

  lemma GroupsMeaning(f: Sendout.Filters, k: Candidate)
    ensures Holds(Groups(f), k) <==> InGroups(f, k)
  {
  }

  /** The corrected clause selects exactly the subscribers the campaign is meant to reach. */
  lemma FiltersMeaning(f: Sendout.Filters, sourcesOn: bool, k: Candidate)
    ensures Holds(Filters(f, sourcesOn), k) <==> Selected(f, sourcesOn, k)
  {
    GroupsMeaning(f, k);
    assert Holds(And(NotStopped, Groups(f)), k) <==> !k.isStopped && !k.stopListed && InGroups(f, k);
  }

  /** Behind the invitation prefix, the corrected clause invites exactly the reachable, unconfirmed, uninvited subscribers. */
  lemma InviteQueryMeaning(f: Sendout.Filters, sourcesOn: bool, k: Candidate)
    ensures Holds(Prefixed(InvitePrefix, Filters(f, sourcesOn)), k) <==>
      Selected(f, sourcesOn, k) && !k.emailConfirmed && !k.inviteSent
  {
    FiltersMeaning(f, sourcesOn, k);
    assert Holds(InvitePrefix, k) <==> !k.emailConfirmed && !k.inviteSent;
  }

  /** Without the `registered` group, the clause as written selects the same subscribers, prefixed or not. */
  lemma AsWrittenAgreesWithoutRegisteredGroup(f: Sendout.Filters, sourcesOn: bool, p: Cond, k: Candidate)
    requires !f.registeredOn
    ensures Holds(FiltersAsWritten(f, sourcesOn), k) <==> Holds(Filters(f, sourcesOn), k)
    ensures Holds(Prefixed(p, FiltersAsWritten(f, sourcesOn)), k) <==> Holds(Prefixed(p, Filters(f, sourcesOn)), k)
  {
    var base := if f.notRegisteredOn then And(NotStopped, NotRegisteredGroup) else NotStopped;
    assert Holds(base, k) <==> Holds(And(NotStopped, Groups(f)), k);
  }

  /**
   * With only the `registered` group on and no sources, the clause as written
   * selects a stopped subscriber who matches the group, and every subscriber
   * who is not stopped, matching or not.
   */
  lemma RegisteredGroupBypassesStops()
    ensures var f := Sendout.Filters(false, true);
      && Holds(FiltersAsWritten(f, false), Candidate(true, true, false, true, false, true, false))
      && !Selected(f, false, Candidate(true, true, false, true, false, true, false))
      && Holds(FiltersAsWritten(f, false), Candidate(false, false, false, false, false, true, false))
      && !Selected(f, false, Candidate(false, false, false, false, false, true, false))
  {
  }

  /** The invitation query as written re-invites a confirmed, already invited subscriber of the `registered` group. */
  lemma InvitedAgainAsWritten()
    ensures var k := Candidate(false, false, false, true, false, true, true);
      && Holds(Prefixed(InvitePrefix, FiltersAsWritten(Sendout.Filters(false, true), false)), k)
      && !Holds(Prefixed(InvitePrefix, Filters(Sendout.Filters(false, true), false)), k)
  {
  }

  /**
   * `getIfNoFiltering` holds exactly when the campaign's clause lets through
   * every subscriber that is neither stopped nor on its stop list.
   */
  lemma NoFilteringMeansEveryone(s: Sendout.Record)
    ensures Sendout.IfNoFiltering(s) <==>
      forall k: Candidate :: !k.isStopped && !k.stopListed ==> Holds(Filters(s.filters, SourcesOn(s)), k)
  {
    var c := Filters(s.filters, SourcesOn(s));
    if Sendout.IfNoFiltering(s) {
      forall k: Candidate | !k.isStopped && !k.stopListed ensures Holds(c, k) {
        FiltersMeaning(s.filters, SourcesOn(s), k);
      }
    } else {
      var nobody := Candidate(false, false, false, false, false, false, false);
      FiltersMeaning(s.filters, SourcesOn(s), nobody);
    }
  }

  /** Subscriber `k` of campaign `sid` as the query sees it, the group and source matches given as sets. */
  function CandidateOf(subscribers: map<nat, Store.Subscriber>, stopList: set<(nat, nat)>, sid: nat, k: nat,
                       notRegistered: set<nat>, registered: set<nat>, fromSources: set<nat>): Candidate
    requires k in subscribers
  {
    var sub := subscribers[k];
    Candidate(sub.isStopped, (k, sid) in stopList, k in notRegistered, k in registered, k in fromSources,
              sub.emailConfirmed, sub.inviteSent)
  }

  /** The `audience` the campaign operations take: those in a group that is on and from a listed source. */
  function AudienceOf(s: Sendout.Record, notRegistered: set<nat>, registered: set<nat>, fromSources: set<nat>,
                      everyone: set<nat>): (a: set<nat>)
    ensures a <= everyone
  {
    set k | k in everyone
      && ((!s.filters.notRegisteredOn && !s.filters.registeredOn)
          || (s.filters.notRegisteredOn && k in notRegistered)
          || (s.filters.registeredOn && k in registered))
      && (SourcesOn(s) ==> k in fromSources)
  }

  /**
   * The recipients `sendInvites` is modelled with are those the corrected
   * invitation query selects, when `audience` is `AudienceOf` the matches.
   */
  lemma InviteRecipientsAreQuery(subscribers: map<nat, Store.Subscriber>, stopList: set<(nat, nat)>, sid: nat, s: Sendout.Record,
                                 notRegistered: set<nat>, registered: set<nat>, fromSources: set<nat>, k: nat)
    requires k in subscribers
    ensures var audience := AudienceOf(s, notRegistered, registered, fromSources, subscribers.Keys);
      k in Campaigns.InviteRecipients(subscribers, stopList, sid, audience) <==>
      Holds(Prefixed(InvitePrefix, Filters(s.filters, SourcesOn(s))),
            CandidateOf(subscribers, stopList, sid, k, notRegistered, registered, fromSources))
  {
    var c := CandidateOf(subscribers, stopList, sid, k, notRegistered, registered, fromSources);
    InviteQueryMeaning(s.filters, SourcesOn(s), c);
  }

  /**
   * Likewise for the regular batch: `email_confirmed = "1"` in front when the
   * campaign sends invites, the bare clause otherwise.
   */
  lemma RegularRecipientsAreQuery(subscribers: map<nat, Store.Subscriber>, stopList: set<(nat, nat)>, sid: nat, s: Sendout.Record,
                                  notRegistered: set<nat>, registered: set<nat>, fromSources: set<nat>, k: nat)
    requires k in subscribers
    ensures var audience := AudienceOf(s, notRegistered, registered, fromSources, subscribers.Keys);
      var w := Filters(s.filters, SourcesOn(s));
      k in Campaigns.RegularRecipients(subscribers, stopList, sid, s, audience) <==>
      Holds(if s.sendInvite then Prefixed(Confirmed(true), w) else w,
            CandidateOf(subscribers, stopList, sid, k, notRegistered, registered, fromSources))
  {
    var c := CandidateOf(subscribers, stopList, sid, k, notRegistered, registered, fromSources);
    FiltersMeaning(s.filters, SourcesOn(s), c);
  }
}

# Bulk-mail queue: a verified model

This project models the core of a Yii-based bulk mailer. It covers:

- Campaigns ("sendouts") schedule messages into the `mail` table.
  Invitations go to subscribers who have not confirmed their address yet, and
  a regular batch goes out when the campaign is due.
- A console command drains the queue round by round.
- Each round claims portions of due messages and sends them one by one.
- Sending a message routes it through a verified domain with an IP under its
  limit.
- A save hook stamps the funnel dates (`sended`, `delivered`, `opened`, ...)
  and feeds the statistics.

The modules:

| module | file | what it holds |
|---|---|---|
| `Clock` | clock.dfy | time as whole seconds; day, hour, ISO weekday, whole days between two instants |
| `PhpStrings` | phpstrings.dfy | PHP truthiness of strings, `str_replace`, integers printed as strings |
| `Mail` | mail.dfy | the message record, the status funnel and `isStatusIncreased`, `beforeSave`, the claim filter, the portion size, the callback URL, the template cache |
| `Sendout` | sendout.dfy | the campaign record, the recurrence test, validation, default values, the comma-list encoding, the test addresses, the unsubscribe callback URL |
| `Store` | store.dfy | the database as a class (`Db`) whose tables are maps; `ORDER BY priority DESC LIMIT n` |
| `Router` | router.dfy | `getProperDomain` |
| `Campaigns` | scheduler.dfy | pausing, saving with `afterSave`, `sendInvites`, `scheduleMails`, `scheduleAll` |
| `Audience` | filters.dfy | the recipient WHERE clause of `applyFilters` and the prefixes the two inserts put in front of it |
| `Dispatch` | dispatch.dfy | a `Mail` instance (`MailObject`) and `send()`, `saveStatus`, `decreasePriority`, `cancel` |
| `Portion` | dispatch.dfy | `sendPortion`: the claim and the send loop |
| `SendCommand` | drain.dfy | the `mailer/send` console action |

The database is one `Store.Db` object whose fields the operations update in
place. Each operation declares the tables it writes in its `modifies` clause.

A `Mail` instance is modelled as Yii's ActiveRecord works:
- it holds its attribute values, and the values it last read from or wrote to
  its row;
- a save runs `beforeSave` against the latter;
- the save updates only the columns the instance changed (its dirty
  attributes), so the row may have been changed by someone else in between.

Several things are parameters, decided outside the model:
- the transport;
- the IP limits;
- the filter groups' own conditions;
- the memory guard;
- the results of the portions the console action runs.

## Model

| member | source | states |
|---|---|---|
| `Clock.DaysBetween` | mailer/Sendout.php:555-560 | the whole days between two instants, in either order: the largest `n` with `n` days fitting in the gap |
| `Clock.WeekdayRepeatsWeekly` | mailer/Sendout.php:536-542 | an instant seven days later falls on the same ISO weekday |
| `PhpStrings.ReplaceAfterPlainPrefix` | mailer/Mail.php:444-452 | replacing a `{...}` placeholder leaves text without `{` in front of it untouched |
| `PhpStrings.NoBraceUnchanged` | mailer/Mail.php:444-452 | a template without `{` comes out of every placeholder replacement unchanged |
| `PhpStrings.DecimalString` | mailer/Mail.php:449-451 | an id printed into a URL is a non-empty string of digits |
| `Mail.Search` | mailer/Mail.php:195-204 | `array_search`: `false` exactly when the status is absent; otherwise the first index holding it |
| `Mail.IsStatusIncreased` | mailer/Mail.php:195-204 | an increase is always to a status of the statistics funnel, and writing the stored status again is never one |
| `Mail.FunnelRankAt` | mailer/Mail.php:71-81 | the funnel table gives each status of `$events_stats_allowed` its position in the list |
| `Mail.SearchIsFunnelRank` | mailer/Mail.php:195-204 | the `array_search` position of every status is its funnel rank, and `false` outside the funnel |
| `Mail.IncreasedMeaning` | mailer/Mail.php:195-204 | `isStatusIncreased` holds exactly when the new status is in the funnel and the stored one is outside it or ranked strictly lower (PHP 8 comparison of `false` with an index included) |
| `Mail.ControlNeverIncreases` | mailer/Mail.php:195-204 | `awaits`, `sending`, `delayed` and `cancelled` are never an increase |
| `Mail.BeforeSave` | mailer/Mail.php:151-191 | a new message gets only `date_created`; an existing one gets `date_altered` when its status changed, and the date column of the new status when it increased; no other column changes; an event is emitted exactly on an increase or on `paid`, carrying the campaign, status, time and paid value |
| `Mail.RepeatedPaidNotRestamped` | mailer/Mail.php:184-188 | a second `paid` emits another event but leaves `date_paid` alone |
| `Mail.ControlWriteEmitsNothing` | mailer/Mail.php:151-191 | writing a steering status stamps no outcome date and emits no event |
| `Mail.EmittedAboveStart` | mailer/Mail.php:184-188 | while the funnel is only written upwards, each event's status ranks above the starting status, or is `paid` |
| `Mail.MonotoneWritesCountOnce` | mailer/Mail.php:184-188 | while the funnel is only written upwards, the emitted statuses rise strictly in rank, apart from repeated `paid` |
| `Mail.RegressionCountsOpenedTwice` | mailer/Mail.php:195-204 | writing `opened`, `sended`, `opened` counts `opened` twice, since a lower status is stored rather than refused |
| `Mail.PortionLimit` | mailer/Mail.php:217-218 | the portion size is the explicit limit when non-zero, else the `sending_portion` setting, else 10 |
| `Mail.Claimable` | mailer/Mail.php:222-226 | a message whose hour window starts after it ends is never claimed |
| `Mail.PingUrl` | mailer/Mail.php:442-461 | a callback is requested only with a truthy URL; a `ping_url` without placeholders is requested as it stands, and only when truthy |
| `Mail.PingUrlCarriesMailId` | mailer/Mail.php:442-461 | a `ping_url` ending in `{mail_id}` after plain text is requested with the message id there |
| `Mail.TemplateLookupAsWritten` | mailer/Mail.php:405-416 | a hit under the template id returns the cached template and keeps the cache |
| `Mail.WrongTemplateServed` | mailer/Mail.php:412-415 | campaign 5 with template 9, then campaign 7 with template 5: the second message is given template 9 |
| `Mail.TemplateLookup` | mailer/Mail.php:405-416 | with the cache keyed by template id, every lookup gives what `Template::findOne` gives, and the cache stays sound |
| `Sendout.MarkScheduled` | mailer/Sendout.php:582-585 | scheduling stamps `date_last_sendout`, turns a one-off campaign `done` and changes nothing else |
| `Sendout.IsTimeToSendout` | mailer/Sendout.php:524-550 | only an active campaign that is not on demand is ever due; a weekday campaign with no weekdays never is |
| `Sendout.OneOffSchedulesOnce` | mailer/Sendout.php:525-550 | a one-off campaign, once scheduled, is never due again |
| `Sendout.WeekdayOncePerDay` | mailer/Sendout.php:536-542 | a weekday campaign, once scheduled, is not due again on the same day |
| `Sendout.WeekdayDueNextWeek` | mailer/Sendout.php:536-542 | a weekday campaign that was due is due again on the same weekday of the next week |
| `Sendout.PeriodicDueAfterFrequency` | mailer/Sendout.php:525-550 | a periodic campaign, once scheduled, is due again exactly when it is active and `frequency` whole days have passed |
| `Sendout.InvalidEmails` | mailer/Sendout.php:132-136 | no error exactly when every test address is accepted by the e-mail validator; at most one error per address |
| `Sendout.Validate` | mailer/Sendout.php:94-148 | a campaign passes exactly when its hours are in 0..24 with `hours_from <= hours_to`, every test address is an e-mail, it is saved as active or draft, and an active one has passed its test send (and its invite test when invites are on) |
| `Sendout.LoadDefaultValues` | mailer/Sendout.php:199-210 | defaults: on demand, sender `noreply`, hours 0..24, no sources, no weekdays, no invites; the columns these rules do not name keep the values the instance had |
| `Sendout.DefaultsOnDemandAndValidHours` | mailer/Sendout.php:199-210 | a campaign with the defaults is never scheduled on its own, and its hours pass validation |
| `Sendout.Implode` | mailer/Sendout.php:257-259 | a list of two or more entries is joined with a comma; a list of at most one entry without commas gives a string without one |
| `Sendout.UnserializeWeekDays` | mailer/Sendout.php:264 | the stored weekdays come back as the empty list exactly when the column is falsy in PHP |
| `Sendout.UnserializeSources` | mailer/Sendout.php:263 | the stored sources always come back as at least one entry, an empty column as `[""]` |
| `Sendout.Explode` | mailer/Sendout.php:263-267 | `explode` always gives at least one piece |
| `Sendout.ExplodeImplode` | mailer/Sendout.php:257-267 | splitting a joined non-empty list whose elements hold no comma gives the list back |
| `Sendout.WeekDaysRoundTrip` | mailer/Sendout.php:257-267 | `week_days` survive a save and reload, except the lists `[""]` and `["0"]`; the empty list comes back empty |
| `Sendout.ZeroWeekDayLost` | mailer/Sendout.php:263-267 | a weekday list holding only `"0"` comes back empty |
| `Sendout.EmptySourcesReloadUnfiltered` | mailer/Sendout.php:473-477 | an empty `sources` list comes back as `[""]`, which still reads as no source filter |
| `Sendout.TestEmails` | mailer/Sendout.php:731-738 | every test address is non-empty, not `"0"`, and holds no whitespace, comma or semicolon |
| `Sendout.TestEmailsSplit` | mailer/Sendout.php:731-738 | a separator splits the list: the addresses on its left, then those on its right |
| `Sendout.TestEmailsToken` | mailer/Sendout.php:731-738 | a piece without separators is one address unless it is `""` or `"0"` |
| `Sendout.UnsubscribeUrlCarriesEmail` | mailer/Sendout.php:754-774 | an `unsubscribe_ping_url` ending in `{email}` after plain text is requested with the subscriber's address there |
| `Sendout.UnsubscribePingUrl` | mailer/Sendout.php:754-774 | an unsubscribe callback is requested only with a truthy URL; an `unsubscribe_ping_url` without placeholders is requested as it stands, and only when truthy |
| `Store.TopByPriority` | mailer/Mail.php:222-227 | `ORDER BY priority DESC LIMIT n`: as many rows as the limit allows, each once, in descending priority, none left out that ranks above one taken, and all rows when fewer than the limit |
| `Router.VerifiedLinked` | mailer/Sendout.php:698-699 | the campaign's domains that are verified, and all of them |
| `Router.GetProperDomain` | mailer/Sendout.php:696-726 | the first verified domain with an IP under its limit; with no verified domain, null and the message untouched; with all of them over their limits, null and the "no domain with an IP under its limit" message |
| `Campaigns.Pause` | mailer/Sendout.php:744-748 | the campaign becomes paused with the reason; nothing else changes, its routing fields included |
| `Campaigns.RewriteDelayed` | mailer/Sendout.php:231-239 | the `afterSave` update keeps the message ids and leaves no message `delayed` unless the target status is `delayed` |
| `Campaigns.RewriteDelayedMeaning` | mailer/Sendout.php:231-239 | the `afterSave` update moves every delayed row, and only its status |
| `Campaigns.Save` | mailer/Sendout.php:224-241 | a failing rule writes nothing; otherwise the row is replaced and, when the campaign left `paused` for `active` (or `draft`), every delayed message in the table becomes `awaits` (or `cancelled`) |
| `Campaigns.ResumeReachesOtherCampaigns` | mailer/Sendout.php:231-239 | resuming or drafting a paused campaign also moves the delayed messages of other campaigns |
| `Campaigns.SaveScoped` | mailer/Sendout.php:224-241 | the same save with the update limited to the campaign's own delayed messages |
| `Campaigns.RewriteDelayedOfScoped` | mailer/Sendout.php:231-239 | the limited update leaves other campaigns' messages alone and agrees with the unlimited one on the campaign's own |
| `Campaigns.MarkInvited` | mailer/Sendout.php:664-673 | flagging invitations keeps the subscriber table's keys |
| `Campaigns.BatchMeaning` | mailer/Sendout.php:570-612 | a subscriber gets a row only when reachable; an invitation exactly when invites are on, the campaign is active and they have neither confirmed nor been invited; otherwise a regular row exactly when the campaign is due and they have confirmed (when invites are on); every row is `awaits`, at the campaign's priority, created now, with the invite delay or the hour window |
| `Campaigns.PlacedMeaning` | mailer/Sendout.php:593-607 | after an insert the old rows are unchanged and the i-th new row sits under the i-th fresh id; nothing else is added |
| `Campaigns.AddsRowsCompose` | mailer/Sendout.php:570-612 | two inserts for different subscribers amount to one insert of both |
| `Campaigns.InsertRows` | mailer/Sendout.php:593-607 | `INSERT ... SELECT`: every row once, under fresh ids, the counter past every id |
| `Campaigns.InvitesApartFromRegular` | mailer/Sendout.php:576-590 | nobody is both invited and in the regular batch |
| `Campaigns.RegularIgnoresInviteFlags` | mailer/Sendout.php:576-590 | flagging invitations does not change who gets the regular batch |
| `Campaigns.InvitesOnce` | mailer/Sendout.php:646-677 | once `sendInvites` has run, running it again invites nobody |
| `Campaigns.SendInvites` | mailer/Sendout.php:646-677 | inserts one invitation per reachable, unconfirmed, uninvited subscriber, flags exactly those, and returns how many went in |
| `Campaigns.Stamped` | mailer/Sendout.php:582-586 | the stored row after `save(false, ['date_last_sendout','status'])`: `date_last_sendout` is now, the status is `done` for a one-off campaign and the instance's otherwise, every other column keeps the stored value; over a row equal to the instance this is `MarkScheduled` |
| `Campaigns.ScheduleRegular` | mailer/Sendout.php:579-609 | writes only `date_last_sendout` and status over the stored row (`Stamped`), then inserts the regular batch; returns how many went in |
| `Campaigns.ScheduledSteps` | mailer/Sendout.php:570-612 | the two inserts of `scheduleMails` together insert the whole batch |
| `Campaigns.ScheduleMails` | mailer/Sendout.php:570-612 | nothing with the mailer off; otherwise the whole `Batch` goes in under fresh ids, the invited subscribers are flagged exactly when invitations were sent, the stored row gets only its new `date_last_sendout` and status (`Stamped`) and only when due, and the count is the batch size |
| `Campaigns.OneOffBatchOnce` | mailer/Sendout.php:579-585 | a one-off campaign, once scheduled, schedules nothing more |
| `Campaigns.InvitedOnce` | mailer/Sendout.php:646-677 | a subscriber once invited is never invited again, by any campaign |
| `Campaigns.ScheduleAll` | mailer/Sendout.php:619-637 | nothing with the mailer off; otherwise every active campaign is scheduled once, in descending priority, each inserting its whole `Batch` chosen against the invitation flags the earlier campaigns left (`ScheduledAll`); the subscriber table ends as `FlaggedAfter` those campaigns; rows are only added, all `awaits` and of those campaigns; every due campaign is stamped; the count is the rows added |
| `Campaigns.ScheduledAllStep` | mailer/Sendout.php:630-632 | scheduling one more campaign extends the record of what the run inserted by that campaign's batch |
| `Audience.Prefixed` | mailer/Sendout.php:590 | text put in front of a clause whose top level is not OR binds to the whole clause |
| `Audience.FiltersMeaning` | mailer/Sendout.php:413-456 | the corrected clause selects exactly the subscribers who are not stopped, not on the campaign's stop list, in a filter group that is on, and from a listed source |
| `Audience.InviteQueryMeaning` | mailer/Sendout.php:648 | behind the invitation prefix the corrected clause selects exactly the reachable subscribers who have not confirmed and were not invited |
| `Audience.AsWrittenAgreesWithoutRegisteredGroup` | mailer/Sendout.php:413-456 | without the `registered` group the clause as written selects the same subscribers as the corrected one, with or without a prefix |
| `Audience.RegisteredGroupBypassesStops` | mailer/Sendout.php:434-449 | with only the `registered` group on, the clause as written selects a stopped subscriber of the group, and any subscriber who is not stopped |
| `Audience.InvitedAgainAsWritten` | mailer/Sendout.php:648 | the invitation query as written re-invites a confirmed, already invited subscriber of the `registered` group |
| `Audience.NoFilteringMeansEveryone` | mailer/Sendout.php:473-475 | `getIfNoFiltering` holds exactly when the campaign's clause lets through every subscriber who is neither stopped nor on its stop list |
| `Audience.AudienceOf` | mailer/Sendout.php:413-456 | the audience the campaign operations take is a subset of the subscribers |
| `Audience.InviteRecipientsAreQuery` | mailer/Sendout.php:646-677 | the invitation recipients of `Campaigns` are exactly those the corrected invitation query selects |
| `Audience.RegularRecipientsAreQuery` | mailer/Sendout.php:588-592 | the regular recipients of `Campaigns` are exactly those the corrected regular query selects |
| `Dispatch.WriteDirty` | mailer/Mail.php:469-474 | a save writes the columns the instance changed and keeps the row's value elsewhere: an unchanged instance writes nothing, one in step with its row writes itself |
| `Dispatch.Failure` | mailer/Mail.php:365-373 | the catch block: status `error` with the exception text; saved unless that save is refused too, which throws "Could not save: ..." |
| `Dispatch.Delivery` | mailer/Mail.php:313-373 | the message is sent exactly when it composes, is not cancelled, the transport accepts it and the save goes through; the priority is unchanged and nothing is paused |
| `Dispatch.Plan` | mailer/Mail.php:266-377 | sent exactly when routable, composed, not cancelled, accepted and saved; an exception escapes exactly when no save went through, and only after routing; the status is one of cancelled, delayed, awaits, sended or error; a pause exactly with `delayed`; a priority change only by -1 with `awaits`; `sended` exactly when sent; the error text changes only with `error` |
| `Dispatch.MailObject.Save` | mailer/Mail.php:151-191 | the hook stamps the instance against the status it last read, the changed columns go to the row, the event is recorded, and the instance is in step with its row |
| `Dispatch.MailObject.SaveStatus` | mailer/Mail.php:469-474 | takes the paid value when one is given, sets exactly that status and saves |
| `Dispatch.MailObject.DecreasePriority` | mailer/Mail.php:476-484 | adds the score to the priority, sets the status only when one is given, and saves |
| `Dispatch.MailObject.Cancel` | mailer/Mail.php:612-617 | sets the cancel flag; returns the notice only when cancelling |
| `Dispatch.MailObject.Hold` | mailer/Mail.php:277-279 | the cancel and delay branches of `send()`: only the status changes, and it is stored |
| `Dispatch.MailObject.Requeue` | mailer/Mail.php:297-303 | the soft routing failure: back to `awaits` one priority lower, stored |
| `Dispatch.MailObject.Deliver` | mailer/Mail.php:313-373 | the try block ends as `Delivery` plans, and its outcome is stored |
| `Dispatch.MailObject.SendRouted` | mailer/Mail.php:296-377 | from the router on, the message and its campaign end as `Plan` says, and the callback is requested when it went out |
| `Dispatch.MailObject.Send` | mailer/Mail.php:266-377 | null and no change with the mailer off; otherwise the instance, its row, the statistics, its campaign and the callbacks end as `Plan` says |
| `Portion.Claim` | mailer/Mail.php:221-237 | claims up to the limit of the awaiting, due messages inside their hour window, none ranking below one left behind, fewer only when none is left; exactly those become `sending` |
| `Portion.CountSent` | mailer/Mail.php:244-251 | the count of successes is at most the number of sends |
| `Portion.PlanIgnoresPauses` | mailer/Mail.php:274-309 | `send()` decides the same against any campaign table with the same routing fields, so a pause by an earlier message changes no later plan |
| `Portion.PlanIgnoresClaim` | mailer/Mail.php:234-237 | the claim changes nothing `send()` decides by |
| `Portion.AppliedLands` | mailer/Mail.php:469-484 | a save over a `sending` row leaves the status the instance changed, else `sending`, and touches no other row |
| `Portion.SendOne` | mailer/Mail.php:246-249 | one `send()` of the loop: its result is the plan's, its row lands as `Landed` says, no other row changes, and campaigns keep their routing |
| `Portion.Step` | mailer/Mail.php:246-249 | one loop iteration keeps the loop state, counting a success, or stops at an exception |
| `Portion.SendClaimed` | mailer/Mail.php:244-251 | the send loop runs the claimed messages in order, stops at the first exception, and returns the number sent |
| `Portion.PlansIgnoreClaim` | mailer/Mail.php:221-237 | re-reading the claimed rows gives the same plans |
| `Portion.RequeueLost` | mailer/Mail.php:296-303 | a message with every domain over its limit is planned back to `awaits` one lower; an instance that read `awaits` leaves the row `sending`, one that read `sending` writes `awaits` |
| `Portion.SendingNeverClaimed` | mailer/Mail.php:222-227 | a row left `sending` is never claimed again |
| `Portion.SendPortion` | mailer/Mail.php:212-257 | null with the mailer off; otherwise a claim of the portion size; every message the loop reached, up to the first exception, ends with the status `Landed` gives for its plan and the status its instance loaded, the others stay `sending`; the count of successes; a message planned back to `awaits` is left `sending` |
| `Portion.RefreshedLands` | mailer/Mail.php:221-249 | instances read after the claim see every planned status as a change |
| `Portion.SendPortionRefreshed` | mailer/Mail.php:212-257 | the same with the instances read after the claim: every message the loop went through ends with its planned status, `awaits` included |
| `SendCommand.RoundShape` | mailer/MailerController.php:66-76 | a round takes consecutive portions; every one but the last returned, sent something, left memory fine and stayed under the cap; the last either threw or stopped the round; its total is the sum of exactly those portions |
| `SendCommand.CapExceededByOnePortionAtMost` | mailer/MailerController.php:52-53 | with a cap, what a round had sent before its last portion is below the cap |
| `SendCommand.RoundEndsAtFirstStop` | mailer/MailerController.php:68-76 | a portion that throws, sends nothing, or after which memory is short ends the round |
| `SendCommand.NothingToSendPrintsZero` | mailer/MailerController.php:55-56 | when the first portion sends nothing, the round prints 0 without `!`, takes only that portion and does not throw |
| `SendCommand.BangMeansCutShort` | mailer/MailerController.php:55 | a round prints `!` exactly when its last portion sent something and memory ran short or the cap was reached |
| `SendCommand.DrainShape` | mailer/MailerController.php:64-81 | one line per round that finished, a sleep after each but the last of the `rounds`; `rounds` lines when nothing threw, fewer when a portion did; the first line is the first round's total and `!` |
| `SendCommand.DrainUses` | mailer/MailerController.php:62-84 | the command runs consecutive portions, at least one when it runs a round; it ends on an exception exactly when the last portion it ran threw, and no earlier one did |
| `SendCommand.RunRound` | mailer/MailerController.php:66-76 | one round's loop computes what `RoundFrom` specifies |
| `SendCommand.ActionSend` | mailer/MailerController.php:62-84 | prints and sleeps exactly what `Drain` gives for the portions in order, runs the portions `Drain` uses, and throws exactly when `Drain` ends on an exception |

## Left out

- The filter groups' own conditions (country, region, gender, last visit and so on) are left out. A subscriber either matches a group or does not. `applyFilters`' structure is modelled in `Audience`; the campaign operations take the corrected audience as a set.
- Validation rules other than the hours, test addresses and status gate are left out: required fields, string lengths, URLs, language, site, template existence. They concern form input, not the queue.
- Transactions, `FOR UPDATE` locks and concurrent workers are left out. Each operation runs alone.
- Logging (`Yii::trace`, `Yii::error`, `Yii::warning`) and the `affected` comparison that only logs are left out.
- Composing and rendering a message, and the transport, are left out. `SendEnv` supplies their results: an exception, a cancel from the template, accepted, refused, or thrown.
- IP accounting (`Domain::getProperIp`) is left out. Each send gets the set of domains that have an IP under their limit.
- The HTTP requests of `ping` and `pingUnsubscribe` are left out. The model records the URL requested.
- The statistics store (`EventSummary::add`) is an append-only list of events. `getStatistic`, `getStatisticTable` and `countByStatus` are not part of this model.
- The static campaign cache of `getSendout` is left out: the model reads the table. `Portion.PlanIgnoresPauses` shows that the only change to campaigns during a run does not alter any later decision.
- The campaign's `beforeSave` (serialising, `date_altered`, domain links) is left out. Filters are kept decoded, and only the `week_days`/`sources` comma lists are modelled, as a round trip.
- Time zones, daylight saving and PHP date strings are left out. Time is whole seconds in UTC.
- `SendCommand.ActionSend`: a negative `rounds` makes the source loop forever; `rounds` is a `nat`.
- `SendCommand.ActionSend`: `$maxSend` null is treated as 0, as PHP's `!$maxSend` does.
- `SendCommand.ActionSend`: `sleep` is recorded, not performed.
- `SendCommand.ActionSend`: past the end of the given portions the queue is taken to be empty.
- The memory measurement of `actionSend` is part of each step, not computed.
- `mailer_disabled` and `sending_portion` are read from `Store.Settings`. `redirect_to_test_subscriber` and `log_all_outgoing_mails` only change composition and logging.
- Other controller actions (`actionSchedule` and the domain, log and answer actions), the table migration, the label and list helpers, `canSendTo`, `countSubscribers` and `getPageTemplate` are not part of this model.
- `Dispatch.MailObject.Send`: templates are looked up with the corrected, uncached `Mail.FindTemplate`, not the static `getTemplate` cache that lasts the whole console run; the cache as written is modelled apart (see the first row of "## Findings").
- `Sendout.LoadDefaultValues`: `parent::loadDefaultValues` first fills null columns with the table's schema defaults; the sendout table's schema is not part of this model, so those columns keep the instance's values.
- `Sendout.IsTimeToSendout`: PHP's loose `in_array` compares numeric strings as numbers, so a stored weekday `"01"`, `" 1"` or `"1.0"` matches Monday; the model matches the weekday token exactly.
- `Dispatch.MailObject.Save`: a refused `save(false)` (a database error) is not modelled. The only refused saves are the validated ones of `send()`, given by `SendEnv`.

## Findings

| source | as written | input that shows it | evidently intended | confidence | as-written member | corrected member |
|---|---|---|---|---|---|---|
| mailer/Mail.php:412-415 | the template cache is read under the template id but written under the message's campaign id | a message of campaign 5 with template 9, then one of campaign 7 with template 5 | cache under the template id on both sides | high, not executed | `Mail.WrongTemplateServed` | `Mail.TemplateLookup` |
| mailer/Mail.php:221-249 | `sendPortion` sends through the instances loaded before the claim's raw `UPDATE`, so they still read `awaits`; a message put back to `awaits` (every domain over its limit) saves no status change and its row stays `sending` | a claimed message whose campaign's verified domains all lack an IP under their limits | the requeued message is claimable again | high, not executed | `Portion.RequeueLost`, `Portion.SendingNeverClaimed`, `Portion.SendPortion` | `Portion.SendPortionRefreshed` |
| mailer/Sendout.php:231-239 | `afterSave`'s `Mail::updateAll` is not filtered by campaign, so resuming or drafting one paused campaign releases or cancels the delayed messages of every campaign | two paused campaigns with delayed messages; one is set active | only the campaign's own delayed messages move | high, not executed | `Campaigns.ResumeReachesOtherCampaigns`, `Campaigns.Save` | `Campaigns.SaveScoped`, `Campaigns.RewriteDelayedOfScoped` |
| mailer/Sendout.php:434-449 | `applyFilters` adds the `registered` group with `orWhere`, so it becomes an alternative to the stop conditions. The inserts then put their own conditions in front with a plain `AND`, which binds only to the first operand | only the `registered` group on, no sources: a stopped subscriber of the group is selected, and so is every subscriber not stopped; an already invited subscriber of the group is invited again | stop conditions and prefixes over all the groups | high, not executed | `Audience.RegisteredGroupBypassesStops`, `Audience.InvitedAgainAsWritten` | `Audience.FiltersMeaning`, `Audience.InviteQueryMeaning` |

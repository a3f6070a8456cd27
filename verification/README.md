# Uppity, modelled in Dafny

Uppity is an uptime monitor: workers check customers' monitors, alert them, keep status pages and
incidents up to date, and bill for capacity. This project models the parts of it whose promises span
many calls and proves those promises for every run. `dafny verify dfyconfig.toml` checks all of it.

Each module follows one part of the program:

- `Flap.dfy`, `ResultProcessor.dfy`, `AlertHistory.dfy`, `AutoIncidents.dfy`: how a stored check result
  becomes a recorded status, alerts, a hold on a flapping monitor and automatic incidents. `Interpret`
  is the step as a function, the class `Processor` performs it by queries and updates, and the other two
  modules prove what whole runs of it promise to customers.
- `Delivery.dfy`, `Outbox.dfy`, `Subscribers.dfy`: the notification outbox. How the rounds of one event
  add up, how workers claim and retry events while others may take a stale claim over, and the claim
  table that keeps a subscriber from being mailed twice.
- `Capacity.dfy`, `Grace.dfy`, `DailyGrace.dfy`, `Blocks.dfy`: the monitor ceiling. Which monitors a pause
  takes and a raise returns, the 14 days of grace before a pause, and the purchased blocks that customers,
  billing webhooks and a sweep all write.
- `SendLimits.dfy`, `Consent.dfy`: email to people who never asked for it. Sliding-window limits, and
  opting out with a single chance to be asked again.
- `DomainClaims.dfy`: custom domains of status pages, proven by DNS records that are looked up between
  a read and a write.
- `Schedule.dfy`: leases on monitors, backoff and dead letter.
- `Paging.dfy`, `Retention.dfy`: two fast forms that must equal simple ones, keyset pages and retention
  deletes grouped by window.

## How to read the models

Where several workers, webhooks or customers act at once, a module has a `State`, a `Step` for each
statement or transaction that is atomic in the database, a total `Next` (a step that is not enabled, or
whose guard matches no row, changes nothing) and `Run`, the state after any list of steps. `Inv` is kept
by every step, so it holds in every reachable state, and the main theorems follow from it for all `steps`.
A read and a write that are separate statements are separate steps, with anything in between.
The classes hold the rows as fields and update them in place, and each method's contract says that the new
rows are what the step function makes of the old ones. What the step functions decide is pinned again by
lemmas that name none of their helpers and write every limit out as a number ("told by the rows alone").
Parameters marked `ghost` stand for the rest of the state, such as other requests under way. Times are whole
milliseconds. The results of sends, probes and DNS lookups are arbitrary inputs.

Assumptions, each stated where it is used:

- Status events of one monitor get strictly increasing creation times, each at least the time of the check
  behind it, and checks of one monitor come with a definite result (`AlertHistory.Plausible`).
- Alert rate and outage alerts are stated for a failure threshold that is at least 1 and stays fixed.
  `OutagesAlertAndRecover` needs neither.
- Database transactions are atomic and take place at one instant, except where a clock reading before a
  lock or before another query is a parameter of its own (`SendLimits`, `DomainClaims`).
- A check's result is recorded before its lease ends (`Schedule.Enabled`); what a worker that overstays
  could do is not part of this model.
- Passes of the grace job begin at strictly rising times. They may overlap: the job's slot is free again
  after 15 minutes while a handler that waits for mail runs on (`src/worker/monitor/maintenance.ts:39`).
- One clock that never runs back serves all workers of `Outbox`, although each reads `claimedAt` from its own.
- The token of a new domain claim is one that was never drawn before (`DomainClaims.Enabled`).

Some promises hold only under a condition that the code does not check. A theorem says exactly which, and
a lemma beside it constructs a run on which the promise fails:

| promise | holds exactly when | fails on |
|---|---|---|
| a pause was warned of and the organization was over all along | `Grace.PausesAreJustifiedExactlyWhen` | `Grace.OverlapPausesWithinTheCeiling`, `Grace.OverlapPausesWithoutAWarning` |
| a pass that starts a clock warns of it | `Grace.WarnsInTime` | `Grace.LeftoverNoticeDelaysTheFirst` |
| notices under one clock escalate | `Grace.NoticesEscalateExactlyWhen` | `Grace.OverlapRepeatsANotice` |
| a pause leaves the ceiling active | `Grace.PauseLeavesTheCeilingExactlyWhen` | `Grace.ChangeMissesTheCeiling`, `Grace.RaiseMissesTheCeiling` |
| a raise undoes a pause | `Capacity.RaiseUndoesPauseExactlyWhen` | `Capacity.RaiseResumesAnEarlierPause` |
| a reduction is written without the table's constraints | `Blocks.ConstraintsStopStaleReductionsOnly` | `Blocks.StaleReductionMeetsTheConstraints` |
| an opt-out stands | `Consent.OptOutIsLostExactlyWhenLifting` | `Consent.ConfirmationForgetsAnOptOut` |
| one re-ask at most | `Consent.AtMostOneReaskExactlyWhen` | `Consent.UndoneTwiceAsksTwice` |
| the daily ceiling | `SendLimits.DaysStayUnderTheCeiling` | `SendLimits.LongerWindowsDoNot` |
| sweeps' answers come an hour after every other answer | `DomainClaims.SweepAnswersAreHoursApart`, one way | `DomainClaims.LateVerificationHastensTheSweep` |
| automatic incidents follow outages | `AutoIncidents.ReopeningsBreakItExactlyWhen` | `AutoIncidents.ReopeningOutlivesTheOutage` |
| an event's status tells its history | `Delivery.ExitTellsTheHistoryExactlyWhen` | `Outbox.ExitMisreports` |

Of the conditions on the grace period, an operator can enforce one from outside: that no pass begins while
another is under way, which is all that `Grace.LonePassesKeepTheirPromises` asks. The code could test another as
it pauses, whether the clock that it loaded still runs. `Grace.ClockRunsOnExactlyWhen` says what that test tells,
and `Grace.TestedPauses` what a pause that made it would keep.

## Model

| member | source | states |
|---|---|---|
| Flap.OutageMeansUnanswered | src/lib/server/flap.ts:28-49 | an outage counts as alerted exactly when some down or flapping message has no recovery alert after it, whatever degraded alerts came between |
| ResultProcessor.ActiveIncident | src/worker/monitor/processor.ts:80-89 | finds an open incident if there is one, and the automatic one if that is open |
| ResultProcessor.Processor.FlapLimitReached | src/worker/monitor/processor.ts:48-61 | whether the down and up alerts of the window, with one more, number the threshold, which below 2 never does |
| ResultProcessor.Processor.DownCheckSince | src/worker/monitor/processor.ts:64-77 | whether any stored check of the settle time up to the given moment was down |
| ResultProcessor.Processor.Announce | src/worker/monitor/processor.ts:259-275 | opens an automatic incident when none is open, and posts to an open one only if it is automatic |
| ResultProcessor.Processor.ResolveAutoIncident | src/worker/monitor/processor.ts:277-288 | resolves the open automatic incident and leaves manual ones to people |
| ResultProcessor.Processor.AssessFlapping | src/worker/monitor/processor.ts:239-246 | whether a result ends a hold or starts one |
| ResultProcessor.Processor.Act | src/worker/monitor/processor.ts:219-340 | the alert, hold and incident changes of a recorded result are the specification's |
| ResultProcessor.Processor.InterpretRow | src/worker/monitor/processor.ts:97-341 | one result is interpreted just as the specification says, late results and maintenance included |
| ResultProcessor.Processor.ProcessResults | src/worker/monitor/processor.ts:344-373 | a batch is the fold of the step over the unprocessed rows in order, and marks every row processed |
| ResultProcessor.DownChecksAlertOrHold | src/worker/monitor/processor.ts:219-302 | with no hold on, a down check raises one event exactly when it crosses the threshold, and that is a flapping message exactly when the monitor bounced the flap limit of times in the window and was not yet down for the settle time, else a down alert |
| ResultProcessor.AnswersAlertOnce | src/worker/monitor/processor.ts:219-256 | with no hold on, an up check raises a recovery alert exactly when an outage alert or hold has none yet, and a degraded check an alert exactly when it follows up or down |
| ResultProcessor.HoldsEndExactlyWhen | src/worker/monitor/processor.ts:229-302 | during a hold, exactly when a result ends it with an alert of its status, when it reminds instead, and that it does nothing else |
| ResultProcessor.IncidentsFollowAlerts | src/worker/monitor/processor.ts:259-340 | which incident a result opens, posts to or resolves follows from the event it raised, and no other result touches one |
| ResultProcessor.UnprocessedIsSortedSelection | src/worker/monitor/processor.ts:344-373 | a processor takes each unprocessed row exactly once, oldest check first |
| ResultProcessor.NothingLeftToProcess | src/worker/monitor/processor.ts:344-373 | of two processors of one monitor the second finds nothing left |
| AlertHistory.AlertRateBound | src/worker/monitor/processor.ts:222-251 | however a monitor bounces, any closed flapping window holds at most the flap limit of down alerts plus one for each settle time in it |
| AlertHistory.OneAlertPerOutage | src/worker/monitor/processor.ts:219-251 | an uninterrupted run of down checks that begins an outage raises one down alert or none, and exactly which follows from its length and whether its alert was held back |
| AlertHistory.AtMostOneAlertPerRun | src/worker/monitor/processor.ts:219-251 | from any state, in an outage, a hold or after a change of threshold, an uninterrupted run of down checks under one threshold raises at most one down alert |
| AlertHistory.AlertDeadline | src/worker/monitor/processor.ts:229-251 | with checks at most an interval apart, the alert comes with the threshold's check or within the settle time plus one interval of the first failure |
| AlertHistory.OutagesAlertAndRecover | src/worker/monitor/processor.ts:219-251 | over every run, each recovery alert follows an outage alert, an outage past the threshold has been alerted, and a monitor that is up and not held has none left open |
| AlertHistory.HoldsOnlyRemind | src/worker/monitor/processor.ts:298-302 | while a hold lasts only reminders go out, at least a window apart, and it never ends silently |
| AlertHistory.HoldEndsQuietly | src/worker/monitor/processor.ts:234-251 | a monitor that stops going down ends its hold, with an alert of its status, by its last down check plus the settle time plus one interval, or with its first checks |
| AutoIncidents.AutoIncidentsFollowOutages | src/worker/monitor/processor.ts:259-340 | across processor steps, manual incidents, posts and deletes without a reopening, a monitor has at most one open automatic incident, and only while its alerted outage is open |
| AutoIncidents.ReopeningBreaksItExactlyWhen | src/lib/server/services/incident.service.ts:187-254 | a human reopening an automatic incident keeps that promise exactly when the outage is open and no other automatic incident is |
| AutoIncidents.ReopeningsBreakItExactlyWhen | src/lib/server/services/incident.service.ts:187-254 | over any run with reopenings, the promise holds throughout exactly when each of them came during the outage and with no other automatic incident open |
| AutoIncidents.ReopeningOutlivesTheOutage | src/lib/server/services/incident.service.ts:218-254 | a run of an outage, its recovery and a reopening after which an automatic incident is open without an outage |
| AutoIncidents.AlertsLeaveAnOpenIncident | src/worker/monitor/processor.ts:290-317 | an outage alert or a hold never goes out without an open incident to point at |
| AutoIncidents.ResolvedOnce | src/lib/server/services/incident.service.ts:218-254 | however many resolves and postmortems are posted to one incident, it is resolved and announced once, and every post is on its timeline |
| AutoIncidents.IncidentService.AddUpdate | src/lib/server/services/incident.service.ts:218-266 | a post joins the timeline, changes the incident only when it applies, and enqueues one event just then |
| AutoIncidents.IncidentService.Delete | src/lib/server/services/incident.service.ts:304-312 | takes exactly that incident away, as the step of the run theorems does, and keeps the promise about automatic incidents |
| Delivery.FoldEqualsWhole | src/lib/server/notifications/service.ts:139-159 | settling round after round, each knowing only what was carried over, gives the outcome of the whole delivery history at once |
| Delivery.ExitTellsTheHistoryExactlyWhen | src/lib/server/notifications/service.ts:259-400 | a retry that exits before any round reports its event suppressed, which is what the history says exactly when no earlier round reached anyone or was rejected for good |
| Delivery.FanOut | src/lib/server/notifications/service.ts:482-524 | one round contacts the channels still owed that events did not overtake, calls a failure final or passing by its own result, owes just those that may pass, and reached someone exactly when some send succeeded |
| Delivery.RoundTells | src/lib/server/notifications/service.ts:121-137 | with subscribers counted in, who was reached, whether anything was rejected for good or may pass, and who is owed follow from the single sends |
| Delivery.SummariesCountChannels | src/lib/server/notifications/service.ts:114-119 | the numbers in a round's messages are those of the channels that failed so and of all contacted |
| Delivery.OwedShrinks | src/lib/server/notifications/service.ts:482-524 | the channels owed another attempt only get fewer |
| Delivery.SettledChannelsAreLeftAlone | src/lib/server/notifications/service.ts:482-524 | a channel that took the message or rejected it for good is contacted in no later round |
| Outbox.ClaimTimesRise | src/worker/notifier/processor.ts:82-148 | each claim of an event is later than every claim of it before, so the claim time names the claim |
| Outbox.OvertakenWorkerNeverWrites | src/worker/notifier/processor.ts:184-224 | once another worker took the claim over, the first one's result changes nothing |
| Outbox.LandingEndsTheClaim | src/worker/notifier/processor.ts:184-224 | a result lands only on an event in flight under that very claim, and takes it out of flight, so no claim lands two |
| Outbox.DoneIsForever | src/worker/notifier/processor.ts:122-224 | an event in a final status never changes again |
| Outbox.FinalStatusTellsTheHistory | src/worker/notifier/processor.ts:184-217 | across workers, hangs and takeovers, at most seven rounds land, and the final status and errors are those of the whole history |
| Outbox.SettledChannelsStaySettled | src/worker/notifier/processor.ts:184-217 | across workers, hangs and takeovers, a channel that took the message or rejected it for good in a landed round is contacted by no later attempt that lands |
| Outbox.SweepsLeaveLiveClaims | src/worker/notifier/processor.ts:82-111 | over every run, a sweep may take an event in flight over exactly when it is of its lane and was claimed more than five minutes before |
| Outbox.SweepsTakeQueuedWhen | src/worker/notifier/processor.ts:63-75 | over every run, a queued event goes to its own lane, and a retry from its time on while fewer than five of its organization are under way |
| Outbox.RetriesFollowExactlyWhen | src/worker/notifier/processor.ts:184-217 | over every run, an attempt that lands queues another exactly when fewer than six went before it as retries and some send of it may yet pass, due after 1, 2, 5, 10, 20 and then 30 minutes |
| Outbox.ExitMisreports | src/worker/notifier/processor.ts:184-217 | a run on which a retry that finds no channel left reports an event suppressed that had reached someone |
| Outbox.Table.ClaimOne | src/worker/notifier/processor.ts:82-111 | a notified event is claimed at most once, for the lane its status belongs to |
| Outbox.Table.ClaimPending | src/worker/notifier/processor.ts:82-111 | a sweep claims the oldest unlocked event that is queued for its lane, a retry only in its time and with fewer than five of its organization under way, or claimed over five minutes ago |
| Outbox.Table.LandResult | src/worker/notifier/processor.ts:184-224 | the result is written only under the claim it came from, with the retry or final status it calls for |
| Subscribers.NobodyIsMailedTwice | src/lib/server/notifications/subscribers.ts:166-222 | however dispatches of an event overlap and repeat, each subscriber has at most one accepted email |
| Subscribers.FinishedRoundsAccountForAll | src/lib/server/notifications/subscribers.ts:166-222 | a finished dispatch sent to, finally failed or released each subscriber it claimed, exactly one of the three |
| Subscribers.ReleasesOwnClaimsOnly | src/lib/server/notifications/subscribers.ts:206-222 | giving claims back never deletes another dispatch's claim |
| Subscribers.ClaimedMeansOwned | src/lib/server/notifications/subscribers.ts:166-222 | the claim table holds exactly what some dispatch claimed and did not give back, so whoever was given back can be claimed again |
| Subscribers.DispatchesGoOn | src/lib/server/notifications/subscribers.ts:166-222 | until it is finished a dispatch always has a next thing to do, a thousand rows or one send that brings it further |
| Subscribers.ReleasedClaimsAreRetried | src/lib/server/notifications/service.ts:121-157 | if a dispatch gave any claim back, its event owes another attempt |
| Subscribers.ClaimTable.ClaimAll | src/lib/server/notifications/subscribers.ts:166-185 | claims, chunk by chunk, exactly the recipients that had no claim |
| Subscribers.ClaimTable.ReleaseAll | src/lib/server/notifications/subscribers.ts:206-222 | removes, chunk by chunk, exactly the released claims |
| Subscribers.ClaimTable.Notify | src/lib/server/notifications/subscribers.ts:104-222 | a dispatch claims everyone unclaimed, tries them in turn up to the first that finds the mail server down or all of them, files each send under its result, and keeps the claims of all but those it gives back |
| Capacity.RaiseUndoesPauseExactlyWhen | src/lib/server/services/capacity.service.ts:106-151 | pausing at one ceiling and raising it later leaves active what pausing at the higher one would have, exactly when nothing was capacity-paused before, or no more were to be active than were, or the ceiling did not rise |
| Capacity.RaiseResumesAnEarlierPause | src/lib/server/services/capacity.service.ts:106-151 | a run of pauses on which the raise resumes monitors of an earlier pause |
| Capacity.PausesAndRaisesKeepTheOldest | src/lib/server/services/capacity.service.ts:56-151 | under any pauses and raises every active monitor stays older than every capacity-paused one, and together they are the original set |
| Capacity.CountDecidesWhich | src/lib/server/services/capacity.service.ts:56-151 | of one pool of monitors, how many are active decides which |
| Capacity.RaiseStaysWithinTheCeiling | src/lib/server/services/capacity.service.ts:106-151 | a raise resumes no more than the rise, never past the new ceiling, and no fewer than both allow |
| Capacity.PauseLeavesTheCeiling | src/lib/server/services/capacity.service.ts:272-291 | a pause of the excess leaves exactly the ceiling active |
| Capacity.PausingNamedTakesNewest | src/lib/server/services/capacity.service.ts:56-67 | naming the newest monitors before the notice and pausing them after it takes just those, if nothing changed between |
| Capacity.Monitors.Pause | src/lib/server/services/capacity.service.ts:272-291 | pauses active monitors from the newest on, as many as asked or as there are, and none older than one it leaves active |
| Capacity.Monitors.ResumeAfterRaise | src/lib/server/services/capacity.service.ts:106-151 | resumes capacity-paused monitors from the oldest on, exactly as many as the rise and the new ceiling leave room for |
| Capacity.Monitors.TakeSlot | src/lib/server/services/subscription.service.ts:436-458 | adding or resuming a monitor succeeds exactly when the ceiling has room, and then adds one |
| Grace.PausesAreEarned | src/lib/server/services/capacity.service.ts:163-294 | however passes overlap, a pause comes 14 days or more into its clock and a day or more after a last warning recorded under it, and up to its load only passes that had loaded before the clock started found the organization within its ceiling |
| Grace.NoticesComeInTime | src/lib/server/services/capacity.service.ts:163-168 | however passes overlap, the first warning goes out and is recorded in its clock's first week, the week's in the days from the 7th to the 13th, the last from the 13th on, and the pause's from the 14th |
| DailyGrace.WarningsPrecedeThePause | src/lib/server/services/capacity.service.ts:193-294 | with passes at most a day apart that find the organization above its ceiling and reach somebody, all three warnings are recorded, each on its day, before the pause in the 15th or 16th |
| Grace.PausesAreJustifiedExactlyWhen | src/lib/server/services/capacity.service.ts:220-294 | every pass since the clock started found the organization above its ceiling and the last warning was about that clock, 13 days in, exactly when no overlapping pass recorded a warning about another clock under it or found the organization within its ceiling |
| Grace.ClockRunsOnExactlyWhen | src/lib/server/services/capacity.service.ts:69-98 | the clock a pass loaded is still the row's exactly when nothing that the pass could not see ended it or started another since, and then only passes that had loaded before it started found the organization within its ceiling |
| Grace.TestedPauses | src/lib/server/services/capacity.service.ts:272-291 | a pause whose row still has the clock it loaded comes after findings above the ceiling only, but for passes that had loaded before the clock started |
| Grace.NoticesEscalateExactlyWhen | src/lib/server/services/capacity.service.ts:245-264 | under one clock each recorded notice outranks the ones before it, over any run, exactly when each write found a newest notice of lower rank, which the code does not check |
| Grace.LonePassesKeepTheirPromises | src/lib/server/services/capacity.service.ts:193-294 | if no pass begins while another is under way, notices escalate and every pause keeps all that was promised |
| Grace.OverlapRepeatsANotice | src/worker/monitor/maintenance.ts:204-216 | a run of two overlapping passes that record the same warning twice |
| Grace.OverlapPausesWithinTheCeiling | src/worker/monitor/maintenance.ts:204-216 | a run on which a later pass finds the organization back at its ceiling of one, and the earlier pass then pauses the last active monitor |
| Grace.OverlapPausesWithoutAWarning | src/worker/monitor/maintenance.ts:204-216 | a run on which a slow pass records its warning under a newer clock, started after the ceiling was raised and lowered again, and a pause follows without a warning about that clock |
| Grace.PauseLeavesTheCeilingExactlyWhen | src/lib/server/services/capacity.service.ts:272-291 | whatever changes between the load, the naming, the email and the pause, it leaves the ceiling of that moment active exactly when the gain in active monitors since the count, with the named ones given up, equals the gain in the ceiling |
| Grace.ChangeMissesTheCeiling | src/lib/server/services/capacity.service.ts:272-291 | a run on which the customer pauses a monitor while the email is sent and ends below the ceiling |
| Grace.RaiseMissesTheCeiling | src/lib/server/services/capacity.service.ts:272-291 | a run on which the customer buys room while the email is sent and ends below what they pay for |
| Grace.PassIsARun | src/lib/server/services/capacity.service.ts:193-294 | an undisturbed pass is one of the interleavings, so all of the above holds of it |
| Grace.LeftoverNoticeDelaysTheFirst | src/lib/server/services/capacity.service.ts:220-257 | a run on which a warning is recorded after its clock was cleared, and the next pass starts a clock without a warning |
| Grace.GraceJob.PassOver | src/lib/server/services/capacity.service.ts:220-294 | a pass announces the one notice whose time has come, if any, records it and pauses down to the ceiling only if it was delivered, and reports what it did |
| Grace.GraceJob.RunPass | src/lib/server/services/capacity.service.ts:193-294 | every organization is passed over once, failures of one not stopping the others, and the report counts organizations and paused monitors |
| Blocks.ConstraintsStopStaleReductionsOnly | src/lib/server/services/subscription.service.ts:212-248 | the block count stays at least 0 and above any scheduled one, and only a reduction decided on an outdated count ever relies on the table's constraints for that |
| Blocks.StaleReductionMeetsTheConstraints | src/lib/server/services/subscription.service.ts:212-248 | a run on which a webhook clears the count before a reduction read at five blocks is written, and the constraints turn it down |
| Blocks.OnlyRequestsRaise | src/lib/server/services/subscription.service.ts:212-248 | no webhook and no sweep raises the count, whatever they read before |
| Blocks.LandedRequestSurvivesSyncs | src/lib/server/services/subscription.service.ts:543-598 | a raise or cancellation that has landed stands over any webhooks and sweeps that follow, whatever they read before, until one of a plan without blocks clears the count |
| Blocks.ReductionLandsOnce | src/lib/server/services/subscription.service.ts:302-319 | however webhooks and sweeps interleave and repeat, a due reduction lands once, at the scheduled count |
| Blocks.WebhookAndSweepAgree | src/lib/server/services/subscription.service.ts:76-86 | a renewal webhook delivered however often and a sweep run however often, in any order and with reads and writes apart, land the reduction as soon as one acts, with the same count |
| Blocks.SweepsLandExactlyWhen | src/lib/server/services/subscription.service.ts:302-319 | the sweep lands a reduction exactly when the period on record is over |
| Blocks.SubscriptionService.SetBlocks | src/lib/server/services/subscription.service.ts:212-248 | the refusals in their order, and otherwise a raise at once and a reduction at the period's end |
| Blocks.SubscriptionService.ApplyScheduledReductions | src/lib/server/services/subscription.service.ts:302-319 | applies exactly the due reductions and counts them |
| Blocks.SubscriptionService.ApplySync | src/lib/server/services/subscription.service.ts:543-598 | writes a webhook's data only for the billing subscription on record, clearing or reducing blocks as its plan and period say |
| SendLimits.SendsAreAnHourApart | src/lib/server/services/email-channel.service.ts:593-619 | in every reachable log, an organization's sends to one address are at least an hour apart |
| SendLimits.UnansweredAddressesAreCapped | src/lib/server/services/email-channel.service.ts:681-694 | at no moment are more distinct addresses than the cap waiting to answer an organization |
| SendLimits.DaysStayUnderTheCeiling | src/lib/server/services/mail-reputation.service.ts:74-101 | no 24 hours, less the longest wait for a lock, hold more claimed sends than the instance's ceiling, nor more for visitors than half of it rounded up |
| SendLimits.LongerWindowsDoNot | src/lib/server/services/mail-reputation.service.ts:74-101 | with any wait, a run on which a window one millisecond longer holds twice the ceiling |
| SendLimits.RefusalsHaveTheirCause | src/lib/server/services/email-channel.service.ts:593-619 | a confirmation is refused for the hour, the cap on waiting addresses, a block, the day's ceiling or a suppressed address, in that order, exactly when that applies, and may be tried again an hour after the newest send |
| SendLimits.InvitationsAreRefusedWhen | src/lib/server/services/email-channel.service.ts:522-535 | an invitation is refused besides exactly when its address opted out or leaves three emails of a week unanswered |
| SendLimits.VisitorsAreRefusedWhen | src/lib/server/services/mail-reputation.service.ts:42-93 | a visitor's email is refused exactly for a block, a full day or half a day of visitors', or a suppressed address |
| SendLimits.AnswersFreeTheSlot | src/lib/server/services/email-channel.service.ts:713-721 | an answer takes its address, and only that, off those that wait for one |
| SendLimits.SendLog.IsOverCeiling | src/lib/server/services/mail-reputation.service.ts:74-93 | counts the last day's sends against the ceiling, and visitors' against half |
| SendLimits.SendLog.Refuses | src/lib/server/services/mail-reputation.service.ts:42-51 | blocked organization, ceiling, suppressed address, in that order |
| SendLimits.SendLog.CountUnconfirmed | src/lib/server/services/email-channel.service.ts:681-694 | counts distinct addresses, not sends |
| SendLimits.SendLog.ClaimSlot | src/lib/server/services/email-channel.service.ts:593-619 | logs a send exactly when interval, cap and guard all allow it, and says which one does not |
| SendLimits.SendLog.ClaimInvitation | src/lib/server/services/email-channel.service.ts:522-535 | refuses an address that opted out, then one that left three emails unanswered, and otherwise claims as a confirmation does |
| SendLimits.NoInvitationsWhileOptedOut | src/lib/server/services/email-channel.service.ts:517-535 | over any continuation during which an address stays opted out, no invitation to it is logged |
| SendLimits.SendLog.ReleaseSend | src/lib/server/services/email-channel.service.ts:538-543 | gives the slot and the counted send back |
| Consent.OptedOutIsNotVerified | src/lib/server/services/email-channel.service.ts:636-671 | while an address is opted out no channel at it is verified, whatever saves, confirmations and unsubscribes do, but between the two statements of a confirmation |
| Consent.AtMostOneReaskExactlyWhen | src/lib/server/services/email-channel.service.ts:217-340 | over an address's lifetime at most one confirmation claimed while it was opted out stands and its row says so throughout, exactly as long as no claim is undone a second time over a newer re-ask |
| Consent.UndoneTwiceAsksTwice | src/lib/server/services/email-channel.service.ts:323-340 | a run on which a claim undone twice lets a second re-ask go out |
| Consent.SecondOptOutIsFinal | src/lib/server/services/email-channel.service.ts:217-301 | once a re-ask went out, and no claim was undone again over it, no request asks an address that opted out again |
| Consent.OnlyTheirLinkEndsAnOptOut | src/lib/server/services/email-channel.service.ts:373-431 | over any continuation, an address stays opted out until a link mailed to it is used |
| Consent.OptOutIsLostExactlyWhenLifting | src/lib/server/services/email-channel.service.ts:373-431 | over any continuation without a new confirmation or opt-out, an opt-out is forgotten exactly when a confirmation was between its two statements and reaches the second |
| Consent.ConfirmationForgetsAnOptOut | src/lib/server/services/email-channel.service.ts:373-390 | a run of save, request, confirmation, opt-out and lift after which the address is not opted out |
| Consent.FindToken | src/lib/server/services/email-channel.service.ts:373-396 | finds a channel with the link's token whenever there is one |
| Consent.DecisionsHaveTheirCause | src/lib/server/services/email-channel.service.ts:217-301 | an email goes out exactly to an unconfirmed channel whose address did not use up its re-ask, is no member's unless opted out, for a verified requester with a slot, and each refusal has its own cause |
| Consent.UndoPutsBack | src/lib/server/services/email-channel.service.ts:323-340 | an undo right after its claim puts channels and opt-outs back as they were, but for the token of a re-ask |
| Consent.LinksConfirmExactlyWhen | src/lib/server/services/email-channel.service.ts:373-396 | a link verifies its channel exactly when that is neither confirmed nor stopped and was asked less than two days ago |
| Consent.EmailChannels.ClaimConfirmation | src/lib/server/services/email-channel.service.ts:217-301 | the decisions in their order, and what the claim writes and can undo |
| Consent.EmailChannels.ConfirmLink | src/lib/server/services/email-channel.service.ts:373-393 | a valid link verifies its channel and lifts the opt-out, and the answer is whether the channel receives alerts afterwards, as it does when confirmed twice |
| Consent.EmailChannels.VerifyMember | src/lib/server/services/email-channel.service.ts:399-431 | verifies exactly the pending channels at a member's address that nobody opted out |
| Consent.EmailChannels.OptOutAddress | src/lib/server/services/email-channel.service.ts:636-671 | stops every channel at the address, keeps a used re-ask, and says whether this opt-out is final |
| DomainClaims.ServedDomainsAreProven | src/lib/server/services/status-page-domain.service.ts:70-188 | a page that serves a domain has a current claim on it, some lookup of that domain found a CNAME to the claim's target and a TXT record joining to its own token, and no other page serves it |
| DomainClaims.TakedownsTakeThreeMisses | src/lib/server/services/status-page-domain.service.ts:190-247 | a takedown follows three or more misses with no verified answer between them, each more than an hour after the one before and each from a sweep's lookup that both resolvers answered, or of a name that is no public one |
| DomainClaims.OnlyThirdMissesTakeDown | src/lib/server/services/status-page-domain.service.ts:190-247 | an answer takes a page down exactly when it is a sweep's third counted miss of the page's own claim, by two resolvers that answered, and the last answer's check time is an hour old |
| DomainClaims.SweepAnswersAreHoursApart | src/lib/server/services/status-page-domain.service.ts:189-216 | however sweeps overlap, a sweep's answer lands more than an hour after the check time on the row, and so after that of any earlier answer about the claim that no verification with an older clock reading has since put back |
| DomainClaims.LateVerificationHastensTheSweep | src/lib/server/services/status-page-domain.service.ts:156-175 | a run on which a verification reads the clock before a sweep's answer and is written after it, and the next sweep's answer lands within an hour of both |
| DomainClaims.ReplacedClaimsIgnoreOldAnswers | src/lib/server/services/status-page-domain.service.ts:147-188 | once a claim was replaced or released, no answer for it changes anything again, however late it comes |
| DomainClaims.VerdictsHaveTheirCause | src/lib/server/services/status-page-domain.service.ts:70-87 | a lookup verifies exactly with both records, and misses one exactly when both resolvers answered without or the name is no public one |
| DomainClaims.CanonicalIgnoresCaseAndRoot | src/lib/server/services/status-page-domain.service.ts:47 | names are compared in any case and with or without the root's dot |
| DomainClaims.DomainService.StartClaim | src/lib/server/services/status-page-domain.service.ts:104-128 | refuses a domain that another page serves, and otherwise gives the page a claim with the new token and no domain |
| DomainClaims.DomainService.ReleaseDomain | src/lib/server/services/status-page-domain.service.ts:130-137 | ends the claim and the serving together |
| DomainClaims.DomainService.VerifyClaim | src/lib/server/services/status-page-domain.service.ts:147-188 | activates the claim only on a verified answer for the current token that no other page holds, and never changes what is served otherwise |
| DomainClaims.DomainService.RecheckOne | src/lib/server/services/status-page-domain.service.ts:197-247 | counts a sweep's answer once, and lets the domain go at the third miss |
| DomainClaims.DomainService.RecheckDomains | src/lib/server/services/status-page-domain.service.ts:267-301 | a sweep applies its answers one by one, and its count is that of the pages that lost their domain |
| Schedule.OneWorkerAtATime | src/worker/monitor/schedule.ts:49-78 | no two workers hold one monitor while their leases run |
| Schedule.AbandonedChecksWaitOutTheLease | src/worker/monitor/schedule.ts:49-78 | a dead worker's monitor can be claimed from the end of its lease on, and not before |
| Schedule.NoMonitorIsForgotten | src/worker/monitor/schedule.ts:115-165 | whatever happened, an active monitor is due again within its interval, its lease or the backoff cap |
| Schedule.StopsAndResumesAlternate | src/worker/monitor/schedule.ts:115-165 | the customer is told stopped and resumed in turn, starting with stopped, and the row is in dead letter exactly while the last word is stopped |
| Schedule.DeadLetterCountsFailures | src/worker/monitor/schedule.ts:141-165 | a monitor is in dead letter exactly when that many checks in a row failed |
| Schedule.SweepLeavesOwnSchedules | src/worker/monitor/schedule.ts:80-101 | the sweep for overlong schedules touches none that this scheduler made |
| Schedule.SweepHealsSchedules | src/worker/monitor/schedule.ts:80-101 | whatever another version wrote into the rows, after one sweep and any steps from there every active monitor is due within its interval or the cap, and a lease |
| Schedule.SweepReleasesExactlyWhen | src/worker/monitor/schedule.ts:80-101 | the sweep makes exactly those active monitors due whose check or wait is further off than their interval or the cap, and their lease |
| Schedule.ClaimsHoldTheMonitor | src/worker/monitor/schedule.ts:49-78 | a claim needs an active monitor whose check and wait are past, and holds it for every attempt's timeout and pause and half a minute |
| Schedule.WaitsDouble | src/worker/monitor/schedule.ts:141-147 | the wait after a failure is the initial one, doubled with each failure more, up to the cap |
| Schedule.BackoffRisesToTheCap | src/worker/monitor/schedule.ts:141-147 | the wait never shrinks while failures go on and never passes the cap |
| Schedule.DefaultCapIsReached | src/lib/constants/worker.ts:13-19 | by default the first wait is five seconds and the cap of five minutes is the wait exactly from the seventh failure in a row on |
| Schedule.Scheduler.ClaimDue | src/worker/monitor/schedule.ts:49-78 | claims as many due, unlocked monitors as asked or as there are, those due longest first |
| Schedule.Scheduler.RecordCheckSuccess | src/worker/monitor/schedule.ts:115-134 | the next check is an interval away, the failures are forgotten, and a dead letter that the claim saw ends with a notice |
| Schedule.Scheduler.RecordCheckFailure | src/worker/monitor/schedule.ts:141-165 | backs off by the failures the claim saw, and enters dead letter with a notice at the limit |
| Schedule.Scheduler.ReleaseOverlongSchedules | src/worker/monitor/schedule.ts:86-101 | releases exactly the overlong schedules |
| Paging.PagesAreTheWholeList | src/lib/server/services/api-read.service.ts:198-216 | following the cursor lists every row of the owner's once, newest first, in the fewest pages the limit allows |
| Paging.ChangesBetweenPagesDoNoHarm | src/lib/server/services/api-read.service.ts:162-183 | rows inserted or deleted between pages, other than a cursor's row, neither repeat nor drop a row that was there throughout |
| Paging.PageShowsTheNextRows | src/lib/server/api/pagination.ts:38-42 | a page holds the owner's next rows after the cursor in order, with a next cursor just when a row is left, and exactly the cursors that name none of the owner's rows are refused |
| Retention.EveryOrganizationHasOneGroup | src/lib/constants/plans.ts:229-238 | whatever plan an organization is on, a retired one or none included, exactly one group's delete covers it, the one with its own plan's window |
| Retention.ByDaysHolds | src/lib/constants/plans.ts:229-232 | a plan is in a window's group exactly when the table gives it that window |
| Retention.DeletesKeepOwnWindow | src/worker/monitor/stats.ts:242-270 | all the deletes together keep just the checks the organization's own window keeps |
| Retention.KeptByOwnPlan | src/lib/constants/plans.ts:229-238 | a check stays exactly while it is younger than the days of its organization's plan, the default plan's for a plan out of the table, or the operator's where a plan sets none |
| Retention.StatsService.DeleteChecksBefore | src/worker/monitor/stats.ts:280-288 | deletes exactly the older checks of the given monitors, and counts them |
| Retention.StatsService.CleanupOldChecks | src/worker/monitor/stats.ts:236-271 | the loop of deletes leaves each organization the checks its own window keeps, and its sum is the number of checks gone |
| Retention.StatsService.CleanupSelfHosted | src/worker/monitor/stats.ts:236-240 | a self-hosted instance makes one sweep over all checks with the operator's window |

## Left out

- Network calls, DNS and SMTP clients, the billing provider, login, bot checks, telemetry, logging, translations, the web interface and form schemas.
- The certificate expiry warning of the result processor, which depends on the wall clock and touches no other state.
- Payloads and texts of events and incidents beyond the messages that incidents get, and events of other kinds than the four status kinds.
- `processBacklog`, the loop that paces sweeps of the outbox. Its claims are steps of `Outbox`.
- Mail sent twice because a worker died after the mail server accepted it. The program accepts that, and `Subscribers` counts accepted sends of dispatches that lived to note them.
- Which exit a dispatch takes before any round, such as a missing monitor or an invalid payload. `Outbox` takes the exit's status as an input.
- Which channels and subscribers an event goes to, late-delivery rules and message rendering. `Delivery.FanOut` takes the eligible channels as given.
- AlertHistory.AlertRateBound: states the bound for a fixed failure threshold; lowering the threshold during an outage raises an extra alert, as the program intends.
- Customers' own changes in `Capacity.PausesAndRaisesKeepTheOldest`; `Grace` lets customers change monitors between any two steps, but not two monitors share an id.
- The resume that follows a raise of blocks is in `Capacity`, not in the interleavings of `Blocks`. Effective limits, usage and member counts are not part of this model.
- Deleting a channel, the uniqueness of link tokens and more than one organization in `Consent`.
- Pruning, provider feedback and opt-outs in `SendLimits` are arbitrary steps: any send may be removed from either table, any organization or address blocked, and any address opted out or in.
- DomainClaims.DomainService.RecheckDomains: the choice and order of a sweep's batch, the notices and the audit log are left out.
- Domain name normalization: whether a stored domain is a normalized public name is part of a lookup's input (`Dns.proper`).
- DomainClaims.SweepAnswersAreHoursApart: takes the check time of every answer but a customer's verified one to be read as it is written, since its single statement does both.
- Interval edits, resumes and the administrator's reset of a schedule, which clear the lease on purpose, and deleted monitors.
- Schedule.OneWorkerAtATime: assumes each result is recorded before its lease ends, which is what the lease is sized for.
- Page limits and cursors as request text (`parsePage`), and the fields of the rows listed. Ids are compared as numbers, standing for the database's text order. A row's sort key is assumed not to change between pages.
- Retention.StatsService.CleanupOldChecks: the self-hosted branch is a method of its own, and plan ids are assumed unique as the keys of the plan table.
- Cron parsing, the in-memory rate limiter, status badges, slugs, CSV export and maintenance-window transitions, which would add only easy members.

# Homelitics: the visit calendar and the lead funnel, verified

Homelitics is a CRM for property agents. Clients become leads, leads move along a funnel, and visits
are booked on agents' calendars by people and by an AI agent. The database has no exclusion
constraint against double-booking: it relies on a per-agent lock, an overlap check, a slot engine and
one partial unique index. This project models that machinery and proves what it keeps.

`dafny verify dfyconfig.toml` checks everything.

| file | what it holds |
|---|---|
| `Domain.dfy` | instants (microseconds), the agents' clock (fixed five hours behind UTC), rows, events |
| `SlotEngine.dfy` | rules to 30-minute cells to offered starts: the loops, the declarative set, window independence |
| `Funnel.dfy` | the stage graph, the guarded trigger, what a legal log looks like |
| `CalendarImport.dfy` | reading a feed's events, reconciling imported busy time |
| `Store.dfy` | the tables as a value, and every request as a function on them |
| `Invariants.dfy`, `Requests.dfy` | what every reachable state keeps; each request keeps it; listing agrees with booking |
| `Sweep.dfy` | the at-risk list and the hourly sweep |
| `Runs.dfy`, `History.dfy` | whole runs of atomic requests; what no run undoes; consent and the stage log |
| `Effects.dfy` | what one request may do: where visits land or move, how the funnel follows, who may touch time off |
| `Service.dfy` | the service as an object that changes its tables in place, method by method equal to `Store.dfy` |
| `Booking.dfy`, `BookingSafety.dfy` | bookings as interleaved steps, with locks; no double-booking in any interleaving with every other request, PATCH included, as one step |
| `BookingLimits.dfy`, `Interleavings.dfy` | what needs a discipline, with the run that breaks it otherwise; retries; steps refine the request |
| `StalePatch.dfy`, `StaleRuns.dfy` | PATCH as a read and a later write: when that is atomic, and exactly when a run double-books |
| `PlainTerms.dfy`, `BookingOutcomes.dfy`, `LeadOutcomes.dfy`, `CalendarOutcomes.dfy`, `FollowUpOutcomes.dfy`, `InviteOutcomes.dfy`, `ReportOutcomes.dfy` | what each operation answers and every row it writes, in statuses, instants and numbers, without the operations' own helpers |
| `Analytics.dfy` | the funnel report against the `lag()`-based view |
| `Relay.dfy` | the outbox relay under any number of concurrent runners, beside the service and its bookings in progress |
| `Invites.dfy`, `InviteDesk.dfy` | single-use invites: a saga with an external user store, interleaved and in place |

How the pieces fit. `Store.dfy` gives each request as a function from tables to tables and outcome.
`Service.Crm` is the imperative form, and each of its methods is proved to compute that function.
`Booking.Next` cuts `request_visit` into its database steps, and `Interleavings` proves that the steps
with nobody in between are the function again. The outcome files say of every operation what it answers and
all it writes, in statuses, instants and numbers. Theorems about runs quantify over every sequence of
requests, steps, actors, clocks and configurations.

## Where the code and its words differ

The theorems follow the code. Four statements in comments or documentation hold only under a
condition; each condition is proved exact, with a run or an input that breaks the statement without it:

- `GET /agents/{id}/slots` lists "exactly what an AI agent may book": for an open lead with no open
  visit, true exactly when the list is empty, or the duration is a multiple of 30 and the first start
  listed keeps the notice (`Requests.ListIsExactlyBookableIff`). What a bot books is always listed; what
  is listed may be refused for either reason (`SlotEngine.ListedButNotBookable`,
  `Requests.ListedInsideTheNotice`).
- "A closed lead keeps no visits": true when requests run one at a time. When they interleave it is
  true at every point of a run exactly when no booking inserts on a lead that was closed after the
  booking read it (`BookingLimits.ClosedLeadKeepsNoVisitIff`), since the stage is not read again under
  the lock (`Interleavings.ClosingMidBookingLeavesAVisit`). Never closing that lead while a booking for
  it is in progress is enough (`BookingLimits.ClosedLeadsKeepNoVisit`).
- No visit over time off: true at every point of a run exactly when every insert and every move lands
  clear of it (`BookingLimits.VisitsAvoidTimeOffIff`). What a bot books or moves always does, whatever
  people do meanwhile (`BookingLimits.HeldLandingsAreClear`); people's does for certain only under
  ENFORCE_AVAILABILITY (`BookingLimits.EnforcedVisitsAvoidTimeOff`, `Interleavings.PeopleBookOverTimeOff`).
- "Already CANCELLED and cannot be changed": the status cannot, but re-sending the same status with
  another time moves the row (`History.FinalVisitsMoveOnlyByRepeatingTheirStatus`,
  `Interleavings.CancelledVisitMoves`).

Three further expectations a reader may bring, which the code does not promise:

- A sync's `imported - removed` is the change in the number of rows meeting the window, and a second
  sync of the same feed reports 0/0, exactly when every parsed block meets the window
  (`CalendarImport.SyncCountsBalance`, `CalendarImport.SyncIsIdempotent`). Events that carry an offset
  always do. Bare dates and floating times do for every feed exactly when the library that expands the
  feed reads them on the agents' clock (`CalendarImport.FeedsBalanceIff`); that library is not part of
  this model. `CalendarImport.StrayBlockUnbalances` is the feed that would fail if it read them as UTC.
- An invite that reads EXPIRED stays unredeemed unless a signup holds it: the holder's commit redeems it
  however late (`Invites.RedeemedByItsHolder`, `Invites.ExpiredCanBeRedeemed`). REDEEMED and REVOKED are
  final.
- A PATCH is not atomic: it reads its visit without a lock and later writes back only the columns it
  changed. With that split, nothing is double-booked at any point of a run exactly when every insert and
  every write lands where no other visit of the agent is (`StaleRuns.NoDoubleBookingIff`). It is enough
  that each write finds the visit's status, and for a move its time and length, as it read them
  (`StaleRuns.NoDoubleBookingUnlessStale`). Otherwise a write can land on a visit
  (`StalePatch.StaleConfirmDoubleBooks`), or on a free slot under a booking that has checked it and not
  yet inserted (`StaleRuns.StaleConfirmUnderABooking`). A run in which no row changed between read and
  write is a run with every PATCH atomic (`StalePatch.NeverStaleIsAtomic`), so what is proved below with
  atomic PATCHes holds of it.

## Model

| member | source | states |
|---|---|---|
| SlotEngine.ExpandRules | app/services/availability.py:219-243 | the loops over local days and rules end, and give one block per rule and day it is valid on, in that order |
| SlotEngine.BlocksMembers | app/services/availability.py:219-243 | an interval is among the blocks exactly when some rule, valid on some day of the range, publishes it on that day |
| SlotEngine.ExpandedCells | app/services/availability.py:219-243 | expanding only the days the window touches loses no cell inside the window and invents none |
| SlotEngine.FreeCells | app/services/availability.py:308-318 | the cursor loop collects exactly the window's grid cells that meet no busy interval |
| SlotEngine.CuttingBusyTime | app/services/availability.py:280-306 | reading only the busy rows that meet the window changes no cell inside it |
| SlotEngine.ComputeSlots | app/services/availability.py:246-325 | None exactly for a backwards window; otherwise a strictly increasing list of exactly the offered starts of the uncut calendar |
| SlotEngine.ListingIsUnique | app/services/availability.py:321-325 | only one strictly increasing list has those members, so the result is determined |
| SlotEngine.OfferedIsCovered | app/services/availability.py:257-265 | every instant of an offered visit lies in a published block and in the window and in no busy interval, even where its run stitches two blocks |
| SlotEngine.OfferedIsFree | app/services/availability.py:215-216 | an offered visit overlaps no busy interval, in the sense the booking check uses |
| SlotEngine.WindowIndependence | app/services/availability.py:280-325 | on a smaller window exactly those starts of the larger are offered whose whole run of ceil(d/30) cells lies inside it |
| SlotEngine.AvailableIffListed | app/services/availability.py:348-363 | slot_is_available holds iff the duration is a multiple of 30 and any window containing the visit lists the start |
| SlotEngine.ListedButNotBookable | app/routers/availability.py:103-110 | a concrete calendar whose 45-minute listing offers a start the booking check refuses |
| Funnel.CacheIsNewestRow | schema-2.sql:206-229 | after any sequence of inserts, backdated ones included, current_stage is the to_stage of the last-inserted row among those with the latest changed_at |
| Funnel.CacheHasANewestRow | schema-2.sql:206-229 | such a row exists as soon as the lead has any row, and until then the cache keeps its initial value |
| Funnel.LegalPathIsShort | app/schemas.py:44-51 | a log that follows the funnel's edges has at most five rows, and its length tells its last stage unless that is LOST |
| Funnel.PathReachesInOrder | app/schemas.py:44-51 | the i-th row of a legal log arrives at the i-th funnel stage, or at LOST as the last row |
| CalendarImport.ParseBusy | app/services/calendar_import.py:124-166 | the loop returns the blocks as a uid-to-interval map and the number of skipped events |
| CalendarImport.ParseKeepsTheLast | app/services/calendar_import.py:137-166 | a key maps to the span of the last counting event with it, spans run forwards, and ignored events leave nothing |
| CalendarImport.AllDayBlocksItsDays | app/services/calendar_import.py:130-162 | an all-day event, with an end date or bare, blocks exactly its own local days |
| CalendarImport.ReconciledRow | app/services/calendar_import.py:210-243 | what any key holds after the upsert and the delete |
| CalendarImport.SyncIsExact | app/services/calendar_import.py:210-243 | after a good sync the agent's imported rows meeting the window are exactly the parsed blocks that meet it |
| CalendarImport.SyncTouchesNothingElse | app/services/calendar_import.py:175-181 | manual rows, other agents' rows and out-of-window rows under other uids are untouched |
| CalendarImport.SyncCountsBalance | app/services/calendar_import.py:216-248 | imported minus removed is the change in the in-window count, iff every parsed block meets the window |
| CalendarImport.SyncIsIdempotent | app/services/calendar_import.py:210-248 | a second sync of the same feed at the same time changes no row and removes none; it reports none imported iff every block meets the window |
| CalendarImport.ExpandedFeedsBalance | app/services/calendar_import.py:124-166 | for events with an offset, or any if the expansion reads dates on the agents' clock: every block overlaps the window, the counts balance and a second sync reports 0/0 |
| CalendarImport.FeedsBalanceIff | app/services/calendar_import.py:115-138 | every feed the expansion can hand over leaves only blocks that meet the window iff it reads dates and floating times on the agents' clock |
| CalendarImport.StrayOnlyNearTheEdges | app/services/calendar_import.py:115-138 | otherwise a block lies outside the window by no more than the two clocks differ |
| CalendarImport.StrayBlockUnbalances | app/services/calendar_import.py:216-248 | a bare date expanded as UTC near the window's end: one import reported, no change in the in-window count, and the same again at the second sync |
| Invariants.AdvanceKeeps | app/services/lead.py:240-269 | a legal newest transition keeps every log and calendar invariant and sets the cached stage |
| Invariants.SyncKeeps | app/services/appointment.py:181-196 | the calendar's push along the funnel keeps the invariants, closes no lead, and leaves no confirmed visit's lead at INTERESTED |
| Invariants.BookingReplays | app/services/appointment.py:308-333 | after an insert and its booked event the outbox still folds to the visit table |
| Invariants.ChangeReplays | app/services/appointment.py:443-465 | after a truthfully described change the outbox still folds to the visit table, previous status and start included |
| Invariants.ChangeVisitKeeps | app/services/appointment.py:440-466 | replacing a visit's row, with its funnel push, note and event, keeps every invariant |
| Invariants.BookKeeps | app/services/appointment.py:302-342 | inserting a visit after the checks keeps every invariant, and adds exactly that visit |
| Requests.OpenSlotsDoNotClash | app/services/appointment.py:293-300 | passing the slot check implies the overlap check cannot fail, excluded visit or not |
| Requests.OpenSlotsAvoidTimeOff | app/services/availability.py:280-318 | passing the slot check implies the visit overlaps no time off, typed in or imported |
| Requests.ListingThenBooking | app/services/appointment.py:262-344 | a listed start is booked for a bot iff the lead is open and visible with no open visit, the notice is kept and the duration is a multiple of 30; inside the notice it is refused for the notice |
| Requests.BookingThenListing | app/services/appointment.py:293-300 | whatever a bot books is listed in every window that contains the visit |
| Requests.ListIsExactlyBookableIff | app/routers/availability.py:103-110 | the list is exactly what a bot may book iff it is empty, or the duration is a multiple of 30 and its first start keeps the notice |
| Requests.ListedInsideTheNotice | app/services/appointment.py:137-146 | a concrete calendar whose 30-minute listing offers a start a bot is refused for short notice |
| Requests.RequestVisitKeeps | app/services/appointment.py:244-344 | booking keeps every invariant |
| Requests.PatchedIsLegal | app/services/appointment.py:387-441 | an accepted patch keeps the visit's lead and agent, never leaves a terminal status, never brings a visit back onto the calendar, and confirms only with consent |
| Requests.MovedStaysClear | app/services/appointment.py:409-438 | replacing a visit's row where it stands, or by one that passed the overlap check without it, leaves no two visits of one agent overlapping |
| Requests.PatchVisitKeeps | app/services/appointment.py:378-468 | patching keeps every invariant |
| Requests.CancelOpenShape | app/services/appointment.py:471-494 | cancelling a lead's open visits changes exactly those rows, only their status, and no lead |
| Requests.CancelOpenKeeps | app/services/appointment.py:471-494 | cancelling a lead's open visits keeps every invariant |
| Requests.AddTransitionKeeps | app/services/lead.py:272-341 | a validated transition, its lost detail, note and cancellations keep every invariant |
| Requests.CreateLeadKeeps | app/services/lead.py:48-145 | creating or finding a lead keeps every invariant, one thread per client and listing included |
| Requests.ReassignKeeps | app/services/lead.py:359-406 | reassigning keeps every invariant, the audit trail being the reassignment events |
| Sweep.SelectStale | schema-2.sql:657-675 | the candidates picked are the oldest, oldest first, without repeats, all of them or 500 |
| Sweep.SweepIsTheAtRiskList | app/services/lead.py:462-499 | the sweep's candidates are the union of the agencies' at-risk sets minus leads with a pending task |
| Sweep.SweepRun | schema-2.sql:676-699 | a run raises equal numbers of tasks, notes and events, moves no at-risk list, gives each chosen lead its one pending task, and shortens the candidates by the batch |
| Sweep.SweepsDrain | schema-2.sql:657-699 | after k runs at one time exactly max(0, n - 500k) candidates are left |
| Sweep.SweepKeeps | schema-2.sql:676-697 | a sweep keeps every log and calendar invariant |
| Runs.HandleKeepsOffRows | schema-2.sql:538-557 | every request keeps time off forward, manual ids unused before, and imported rows with the agent of their key |
| Runs.ReachableStatesAreSafe | app/services/appointment.py:244-494 | in every state reachable by atomic requests: no overlap, one open visit per lead, a confirmed visit's lead past INTERESTED, a closed lead off the calendar, an outbox that replays to the tables, consent |
| History.RunsOnlyAdd | app/services/appointment.py:387-391 | over any run terminal statuses and closed stages are never left, rows keep who they belong to, logs only grow |
| History.FinalVisitsMoveOnlyByRepeatingTheirStatus | app/services/appointment.py:387-445 | a patch changes a final visit's row iff it repeats the status, asks for another time or length, and passes the checks of a move |
| History.ConfirmedWasAgreed | app/services/appointment.py:302-315 | a confirmed visit's current time and length were set or accepted by a person or by a bot holding visits:manage |
| History.TrailIsALegalPath | app/services/lead.py:240-269 | an outbox that replays makes the lead's rows in the stage log one legal path to its stage |
| History.EveryLeadsLogIsLegal | app/services/lead.py:272-318 | with both stage writers at work every lead's log opens at INTERESTED, chains, follows the funnel's edges, has at most five rows, ends at the cached stage, and ends in LOST iff a lost detail exists |
| History.EveryLeadIsCreatedOnce | app/services/lead.py:127-137 | exactly one lead.created event names each lead |
| Effects.NewPlacesAreEarned | app/services/appointment.py:262-315 | across all requests, a visit is new or moved only by a booking on an open lead or by its own patch, to a place that was free, in the future, with a bot's notice, inside the slots for who is held to them, and stays confirmed only as consent allows |
| Effects.PatchMovesTheFunnel | app/services/appointment.py:447-451 | a patch moves at most its own lead, by the push of the changed status, and the trigger's cache does show it |
| Effects.BookingMovesTheFunnel | app/services/appointment.py:325-326 | a booking moves at most its own lead, and only when born confirmed |
| Effects.TransitionLands | app/services/lead.py:288-337 | a transition is accepted iff the lead is the caller's, the edge is in the funnel and LOST has a reason; it then moves that lead only, keeps the reason, and cancels visits of a closed lead only |
| Effects.TimeOffIsNobodyElses | app/services/availability.py:189-210 | across all requests a manual row goes only by its deletion, an imported row changes only by its agent's sync or disconnection, and a new row comes only from adding time off over no visit |
| BookingOutcomes.SlotOpenIsInHours | app/services/availability.py:348-363 | the booking check passes iff the visit is whole half hours that some rule of the agent publishes on its weekday, dates and grid and that no other visit and no time off touches |
| BookingOutcomes.ListedOnTheClock | app/services/availability.py:308-325 | the starts listed, written out on the agents' clock |
| BookingOutcomes.EarlyAnswers | app/services/appointment.py:260-272 | the refusals before the lock, in order: out of sight, closed, past, too short notice |
| BookingOutcomes.OpenVisitAnswers | app/services/appointment.py:282-291 | a lead with an open visit: the same start and length gets that visit back, any other is refused |
| BookingOutcomes.FreeLeadAnswers | app/services/appointment.py:293-300 | otherwise refused iff the place is taken, or outside the hours of a bot or anybody under enforcement; else created |
| BookingOutcomes.BookingWrites | app/services/appointment.py:302-342 | all a booking writes: CONFIRMED iff by the owner or a bot holding visits:manage, and then INTERESTED goes to VISIT_SCHEDULED; a refusal writes nothing |
| BookingOutcomes.InsertWrites | app/services/appointment.py:308-342 | the same for the insert of a booking in progress, with the owner it read and its own start time |
| BookingOutcomes.PatchAnswers | app/services/appointment.py:383-430 | accepted or refused, with the reason, in order |
| BookingOutcomes.PatchWrites | app/services/appointment.py:431-466 | all a patch writes: the place and status asked for, RESCHEDULED iff a confirmed visit really moves and no status is given, the stage moved by a yes or an outcome, one line and one event; nothing if nothing differs |
| LeadOutcomes.CreateLeadAnswers | app/services/lead.py:69-105 | refused, or answered with the lead of that very client and listing, or new |
| LeadOutcomes.NewLeadWrites | app/services/lead.py:82-137 | all a new lead writes |
| LeadOutcomes.AllowedEdges | app/schemas.py:44-51 | the funnel's eight edges |
| LeadOutcomes.TransitionAnswers | app/services/lead.py:288-315 | accepted or refused, with the reason, in order |
| LeadOutcomes.TransitionWrites | app/services/lead.py:304-337 | all a transition writes, the one open visit of a closed lead cancelled with its line and event included |
| LeadOutcomes.ReassignAnswers | app/services/lead.py:368-385 | accepted or refused, with the reason, in order |
| LeadOutcomes.ReassignWrites | app/services/lead.py:387-406 | the owner, the audit row and the event, and nothing else |
| CalendarOutcomes.AddTimeOffOutcome | app/services/availability.py:151-186 | refused for an unknown agent, a backwards span or a visit in it; else stored under a new id |
| CalendarOutcomes.DeleteTimeOffOutcome | app/services/availability.py:192-210 | takes away that row and no other, and only one typed in |
| CalendarOutcomes.BlocksTimeCounts | app/services/calendar_import.py:139-164 | which events block time, from when to when, and under which key |
| CalendarOutcomes.SyncAnswers | app/services/calendar_import.py:210-248 | removed, imported and skipped are the numbers of rows gone, of keys named that were not in the window, and of events that block nothing |
| CalendarOutcomes.SyncWrites | app/services/calendar_import.py:187-245 | what every key holds after a good sync with the window [now, now + window), and what the calendar row says |
| CalendarOutcomes.SyncRefusals | app/services/calendar_import.py:183-208 | no calendar, an unreadable feed, another sync at work: no busy row changes |
| CalendarOutcomes.DisconnectWrites | app/services/calendar_import.py:309-318 | the connection and all imported rows of the agent go, and nothing else |
| FollowUpOutcomes.AtRiskMeans | app/services/lead.py:467-495 | at risk iff open, of the agency, older than the hours, and with no message or call by anybody but an AI agent in them |
| FollowUpOutcomes.BotsAreNoContact | app/services/lead.py:470-482 | whatever an AI agent writes leaves the at-risk list as it was |
| FollowUpOutcomes.PeopleAreContact | app/services/lead.py:470-482 | a person's message or call takes the lead off it |
| FollowUpOutcomes.StaleMeans | schema-2.sql:657-672 | the sweep's candidates, written out |
| FollowUpOutcomes.BatchMeans | schema-2.sql:673-674 | all of them, or the 500 oldest |
| FollowUpOutcomes.SweepWrites | schema-2.sql:676-697 | per lead chosen one task due in a day for its agent, one line and one event, in order, and nothing else |
| FollowUpOutcomes.StartSees | schema-2.sql:711-718 | a run's snapshot is the leads and tasks of its start |
| FollowUpOutcomes.QueueIsOldestFirst | schema-2.sql:715 | the order is by occurred_at, then id |
| FollowUpOutcomes.CommitRaises | schema-2.sql:719-729 | a commit adds to the task table exactly one waiting task, due in a day, for the agent of each lead its batch creates that no task was waiting for at its start |
| FollowUpOutcomes.AloneRaises | schema-2.sql:711-736 | the same end to end, for a run with nobody else about |
| InviteOutcomes.StatusMeans | app/services/invite.py:36-44 | when an invite reads REDEEMED, REVOKED, EXPIRED and PENDING |
| InviteOutcomes.LowerMeans | app/services/invite.py:64 | emails are compared letter by letter without regard to case |
| InviteOutcomes.IssueWrites | app/services/invite.py:58-70 | a new invite, good until it expires |
| InviteOutcomes.RevokeWrites | app/services/invite.py:95-109 | 404 outside the agency, 409 once redeemed, otherwise revoked from the first time asked, nothing else changed |
| InviteOutcomes.RevokedReadsRevoked | app/services/invite.py:36-44 | after a revoke that is not refused the invite reads REVOKED at every later time |
| InviteOutcomes.RevokedTokenNeverJoins | app/services/invite.py:106-130 | in every interleaving nobody has joined or ever joins by an invite once it is revoked |
| InviteOutcomes.AcceptAnswers | app/services/invite.py:163-207 | what an accept answers, in order |
| InviteOutcomes.JoinWrites | app/services/invite.py:170-199 | all a signup that joins writes |
| InviteOutcomes.DenialWrites | app/services/invite.py:174-207 | all a denied one leaves behind |
| ReportOutcomes.CohortMeans | app/services/analytics.py:126-139 | which leads a filtered report counts |
| ReportOutcomes.PercentIsShare | app/services/analytics.py:157-161 | a share to the nearest hundredth of a percent, halves up, none of none |
| ReportOutcomes.ReportMeans | app/services/analytics.py:141-174 | every count and share of the report |
| Service.Crm.FreeSlots | app/services/availability.py:328-345 | the 404 exactly for an agent outside the agency, the 422 exactly for a backwards window of a visible agent; otherwise exactly the offered future starts |
| Service.Crm.SlotIsAvailable | app/services/availability.py:348-363 | answers whether the slot is open under the declarative definition |
| Service.Crm.LogStage | schema-2.sql:206-229 | appends the row and refreshes the cache as the guarded trigger does |
| Service.Crm.Record | app/services/appointment.py:199-239 | one timeline line and one event carrying the visit as it stands |
| Service.Crm.RequestVisit | app/services/appointment.py:244-344 | the tables and the answer are those of the request's specification, whose content is BookingOutcomes.EarlyAnswers, OpenVisitAnswers, FreeLeadAnswers and BookingWrites |
| Service.Crm.CheckMove | app/services/appointment.py:409-430 | the reason a move is refused, in the code's order |
| Service.Crm.PatchAppointment | app/services/appointment.py:378-468 | the tables and the answer are those of the patch's specification, whose content is BookingOutcomes.PatchAnswers and PatchWrites |
| Service.Crm.CancelOpenVisits | app/services/appointment.py:471-494 | the loop cancels each open visit of the lead in order and records it with its previous status and no previous start |
| Service.Crm.CreateOrGetLead | app/services/lead.py:48-145 | a new lead with its log, message and event, or the known one, or a refusal |
| Service.Crm.AddTransition | app/services/lead.py:272-341 | the tables and the answer are those of the transition's specification |
| Service.Crm.Reassign | app/services/lead.py:359-406 | the lead, its audit row and its event together, or a refusal |
| Service.Crm.AddTimeOff | app/services/availability.py:142-186 | a new manual row, unless the span is backwards or meets a blocking visit |
| Service.Crm.DeleteTimeOff | app/services/availability.py:189-210 | removes a manual row of that agent; an imported one is refused |
| Service.Crm.SyncExternalCalendar | app/services/calendar_import.py:175-248 | the tables and the answer are those of the sync's specification, whose content is CalendarOutcomes.SyncRefusals, SyncAnswers and SyncWrites |
| Service.Crm.RemoveExternalCalendar | app/services/calendar_import.py:309-318 | drops the connection and every row it imported, and nothing else |
| Service.Crm.SweepInactiveLeads | schema-2.sql:647-700 | one task, note and event for each lead of a legal batch |
| Booking.OthersEase | app/services/appointment.py:68-83 | while an agent's lock is held no other request adds or moves a visit on that calendar, and none ever adds an open visit to a lead |
| Booking.InterestedLogStands | app/services/appointment.py:184-196 | a lead still at INTERESTED has had no transition since a booking began, so the booking's own is the newest |
| BookingSafety.BookAmongOthers | app/services/appointment.py:280-345 | a booking that commits leaves every other booking's checked facts true |
| BookingSafety.StepKeeps | app/services/appointment.py:280-345 | every step of every booking and every other request keeps the invariant and all checked facts |
| BookingSafety.RunKeepsSys | app/services/appointment.py:244-494 | every interleaving also keeps the outbox folding to the tables, the logs legal, consent, one thread per pair, and a confirmed visit's lead past INTERESTED |
| BookingSafety.NoDoubleBooking | app/services/appointment.py:68-127 | in every interleaving of stepwise bookings with the other requests (moves and other PATCHes, closes, reassigns, time off, syncs, sweeps), each of those as one step, no two blocking visits of one agent overlap and no lead has two |
| BookingLimits.InsertNeverFails | app/services/appointment.py:316-323 | the IntegrityError branch is unreachable for a booking whose own lead is not reassigned while a booking for it is in flight, whatever happens to other leads |
| BookingLimits.ClosedStaysFreeIff | app/services/appointment.py:260-283 | any one step of any request keeps a closed lead off the calendar, unless it is the insert of a booking whose lead was closed since, and exactly then |
| BookingLimits.ClosedLeadKeepsNoVisitIff | app/services/appointment.py:471-475 | per lead, in every interleaving: closed means off the calendar at every point of the run iff no booking inserts on it after it was closed |
| BookingLimits.NoClosedLeadKeepsAVisitIff | app/services/appointment.py:471-475 | the same for all leads at once |
| BookingLimits.ClosedLeadsKeepNoVisit | app/services/appointment.py:471-475 | in particular a lead that is never closed while a booking for it is in flight keeps no visit once closed, whatever happens to other leads |
| BookingLimits.PatchStaysClearIff | app/services/appointment.py:409-441 | an accepted patch keeps visits off manual time off iff the visit it leaves is clear of it or no longer blocks |
| BookingLimits.StepStaysClearIff | app/services/appointment.py:293-300 | any one step of any request keeps visits off manual time off iff the insert or move it makes, if any, lands clear of it |
| BookingLimits.VisitsAvoidTimeOffIff | app/services/availability.py:145-186 | in every interleaving no blocking visit overlaps manual time off at any point of the run iff every insert and every move lands clear of it |
| BookingLimits.HeldLandingsAreClear | app/services/appointment.py:274-300 | in every interleaving, whoever else books or moves, a visit booked or moved by a bot, or by anybody under enforcement, lands clear of manual time off |
| BookingLimits.VisitsAvoidManualTimeOff | app/services/availability.py:145-186 | so no visit ever overlaps it when everyone who puts one on the calendar is held to slots |
| BookingLimits.EnforcedVisitsAvoidTimeOff | app/services/appointment.py:274-300 | and so in every interleaving with ENFORCE_AVAILABILITY on, whoever acts |
| Interleavings.UninterruptedIsRequestVisit | app/services/appointment.py:244-344 | the steps of a booking with nobody in between reach the request's tables and answer |
| Interleavings.IdenticalPostsMakeOneVisit | app/services/appointment.py:252-286 | any number of posts of one visit, from any reachable state and amid any other requests and bookings but those that book the lead another visit, move or end its visits, or close it: the lead gains at most one visit, none if it had one open, and all that succeed answer with the same open visit at that place |
| Interleavings.HandoverReachesTheIndex | app/services/appointment.py:319-323 | a run with a mid-booking reassign that does reach the IntegrityError branch |
| Interleavings.ClosingMidBookingLeavesAVisit | app/services/appointment.py:260-283 | a run with a mid-booking close that leaves a blocking visit on a LOST lead |
| Interleavings.PeopleBookOverTimeOff | app/services/appointment.py:274-300 | a run in which a person books over manual time off without enforcement |
| Interleavings.CancelledVisitMoves | app/services/appointment.py:387-433 | a run whose cancelled visit moves when CANCELLED is sent again with another time |
| StalePatch.FreshWriteIsPatch | app/services/appointment.py:383-466 | writing back over the row as it was read is the atomic PATCH |
| StalePatch.WriteOverlapsIff | app/services/appointment.py:431-441 | right after a write two visits of an agent overlap iff the row it leaves blocks and overlaps another that does; a booking in flight may still insert over that row |
| StalePatch.WritesOnlyWhatChanged | app/services/appointment.py:431-441 | column by column what a write over a changed row leaves: the patch's value only where it differs from what was read |
| StalePatch.MovesByWhatItRead | app/services/appointment.py:403-430 | a stale move is judged by the start, length and agent it read, against the other visits as they are |
| StalePatch.WriteBackWrites | app/services/appointment.py:447-466 | all rows a write leaves: the visit, its lead's stage, one timeline line, one event by what was read |
| StalePatch.OnlyStaleWritesOverlap | app/services/appointment.py:383-441 | right after a write that found the row's status, and for a move its time and length, as read there is no overlap |
| StalePatch.NeverStaleIsAtomic | app/services/appointment.py:378-468 | a run whose writes all find their row as read is a run with every PATCH atomic |
| StalePatch.StaleConfirmDoubleBooks | app/services/appointment.py:383-441 | a run that double-books: CONFIRMED reads a pending visit, the visit is cancelled and its slot rebooked, CONFIRMED is written |
| StaleRuns.StepOverlapsIff | app/services/appointment.py:293-320 | any one step, with patches split, double-books iff the insert or the write it makes lands where another visit of the agent is |
| StaleRuns.NoDoubleBookingIff | app/services/appointment.py:68-127 | with patches split and anything interleaved, no two visits of an agent overlap at any point of a run iff every insert and every write lands free |
| StaleRuns.NoDoubleBookingUnlessStale | app/services/appointment.py:378-441 | in particular when each write finds the visit's status, and for a move its time and length, as it read them |
| StaleRuns.OneOpenAlways | schema-2.sql:270-273 | with patches split and no discipline at all no lead ever has two open visits |
| StaleRuns.StaleConfirmUnderABooking | app/services/appointment.py:293-320 | a run in which the stale CONFIRMED leaves no overlap and the insert of a booking that had checked the slot then makes one |
| Analytics.CohortDaysAreInclusive | app/services/analytics.py:126-132 | a lead is in the window exactly when its local day is between the two days, both included |
| Analytics.RoundingAgrees | app/services/analytics.py:157-161 | half-up on the remainder equals the floor-plus-half form of the view, and no part of a whole passes 100.00 |
| Analytics.ReachedInOrder | app/services/analytics.py:121-124 | a lead that reached a stage reached the one before, every lead reached INTERESTED, none is both won and lost |
| Analytics.FunnelNarrows | app/services/analytics.py:141-174 | under any filters counts never grow along the funnel, percentages never pass 100, and won plus lost is at most interested |
| Analytics.PresentHasNoGap | schema-2.sql:495-519 | the view's rows are the first stages of the funnel without a gap, then LOST if anyone was lost |
| Analytics.ViewRowsAreTheReached | schema-2.sql:495-519 | the view has a row for a stage exactly when the unfiltered report counts someone there |
| Analytics.LagIsTheStageBefore | schema-2.sql:511-518 | lag() over the present rows is the true previous stage |
| Analytics.ViewIsTheReport | app/services/analytics.py:121-174 | on every row of the view the unfiltered report has the same count and the same rounded percentage |
| Relay.CommitTouches | schema-2.sql:719-729 | a commit adds to the list of touched leads exactly those whose creation it stamps and whose snapshot showed no pending task; the task rows themselves are FollowUpOutcomes.CommitRaises |
| Relay.CommitTouchesOnce | schema-2.sql:719-729 | a commit gives no lead a second first-touch task |
| Relay.StepKeeps | schema-2.sql:702-739 | every runner's start, row lock, commit and rollback, and every step of the service in between, a booking's own included, keep the relay's invariant |
| Relay.NothingIsRelayedTwice | schema-2.sql:711-737 | however many runners, rollbacks, bookings in progress and requests interleave, no event is stamped twice, no row is held twice, no lead gets two first-touch tasks |
| Relay.StampsStay | schema-2.sql:730-736 | stamps and first-touch tasks, once written, stay, in order |
| Relay.QueueOf | schema-2.sql:711-716 | the unpublished events can always be listed in (occurred_at, id) order |
| Relay.AloneDelivers | schema-2.sql:711-738 | an undisturbed run stamps exactly the oldest unpublished events, in order, up to its limit |
| Relay.DrainsInCeil | schema-2.sql:711-738 | from every reachable state with no run in progress, k undisturbed runs leave nothing unpublished iff k is at least ceil(n / batch) |
| Invites.AcceptIsAllOrNothing | app/services/invite.py:150-208 | a failed accept changes nothing, here or in the user store, when nothing goes wrong unnoticed; a successful one adds one member with the invite's agency, role and email bound to the one new user |
| Invites.UncleanLeavesTraces | app/services/invite.py:174-207 | with the user store or without it, exactly which denials of a usable token leave no trace: nothing was made, or the commit failed outright and what was made was deleted |
| Invites.StepKeeps | app/services/invite.py:140-208 | every step of every accept, every revoke, crash and lost reply keeps the saga's invariant |
| Invites.OneTokenOneAgent | app/services/invite.py:155-197 | in every interleaving one token yields at most one agent, with its agency, role and email and one agent.joined event, and no invite is both redeemed and revoked |
| Invites.LostUsersAreLeaks | app/services/invite.py:199-207 | a user nobody owns is exactly one behind a lost reply, a crash or a failed delete |
| Invites.DeniedSignupsLeaveNothing | app/services/invite.py:153-162 | in every interleaving without such faults no denied signup leaves a user or a member behind |
| Invites.StatusStaysForGood | app/services/invite.py:36-44 | REDEEMED and REVOKED are absorbing, and an expired invite that nobody holds is never redeemed |
| Invites.RedeemedByItsHolder | app/services/invite.py:155-195 | an invite becomes REDEEMED in one step iff the signup holding it commits and the commit is applied, however long ago it expired |
| Invites.ExpiredCanBeRedeemed | app/services/invite.py:112-130 | a run from the opening in which an invite expires while held and is then redeemed |
| Invites.UninterruptedIsAccept | app/services/invite.py:140-208 | the interleaved steps with nobody in between give the request's tables and answer |
| InviteDesk.Desk.CreateInvite | app/services/invite.py:47-70 | a pending invite of that agency and role with its email lower-cased |
| InviteDesk.Desk.RevokeInvite | app/services/invite.py:91-109 | the tables and the answer are those of the revocation's specification, whose content is InviteOutcomes.RevokeWrites |
| InviteDesk.Desk.UsableInvite | app/services/invite.py:112-130 | the reason an invite cannot be used, status before email |
| InviteDesk.Desk.AcceptInvite | app/services/invite.py:140-208 | the tables, the agent.joined event among them, and the answer are those of the accept's specification |

## Left out

- HTTP routing, JWT decoding, settings and engine setup: libraries and I/O. The routers' scope checks, `leads:close` among them, happen before the modelled calls.
- ICS text parsing, recurrence expansion, feed fetching and URL checks: the model starts from the list of expanded events, or a failed fetch.
- Time-zone databases and daylight saving: America/Bogota has none, so the agents' clock is a fixed offset.
- Interleavings inside `add_transition`, which reads its row without a lock: it is one step. So is `patch_appointment` except in `StalePatch.dfy` and `StaleRuns.dfy`, which split it into its read and its write. The insert of a booking, its funnel push and its commit are one step too.
- A clock reading per request: the code reads the clock more than once within one request.
- Stale imports: `maybe_refresh` is a sync request of its own before the booking; its TTL test is not modelled.
- Agents, listings and clients are given for a run: the run theorems take them as they are, although the service adds agents by invite and clients by request. Members joining by invite are in `Invites.dfy`, apart from the calendar.
- Setting availability rules: any replacement of an agent's rules is allowed as a request.
- The text of notes and messages, the free text of a lost detail, and the inbox rows that `notify` writes.
- The bot's hourly write budget, client dedup, inbox, listings, tasks CRUD beside the relay's view of them, calendar feed tokens, visit feedback, health checks, seeding.
- The limit of `leads_at_risk` and the paging of lists.
- Service.Crm.RequestVisit: the agent lookup inside the slot check cannot fail there, because the lead's owner is in the caller's agency, so its 404 is not among the refusals.
- Service.Crm.AddTransition: the request schema's refusal of a lost reason on another stage happens before the call; a reason given with another stage is ignored here.
- Analytics.RoundingAgrees: the digits Postgres and Python keep in the quotient before rounding are not modelled; counts are far below where they would show.
- Relay.StepKeeps: a run's commit is one step, and a runner that waits for nothing never blocks, as SKIP LOCKED promises.
- Invites.AcceptIsAllOrNothing: hashing of tokens is the identity on invite numbers; emails lower-case as ASCII. Listing, previewing and linking to invites are not part of the model.

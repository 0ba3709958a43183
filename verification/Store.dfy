/** The tables and what each request does to them (services/appointment.py, lead.py,
  * availability.py, calendar_import.py), one request at a time. Every function takes the tables
  * before and gives the tables after; `now` is the request's clock. */
module Store {
  import opened Domain
  import opened Funnel
  import opened SlotEngine
  import CalendarImport

  datatype ExternalCalendar = ExternalCalendar(lastSynced: Option<Time>, failed: bool)

  /** ENFORCE_AVAILABILITY, the notice a bot must give, and how far ahead imports look. */
  datatype Config = Config(enforce: bool, notice: Time, window: Time)

  datatype Db = Db(
    agents: map<AgentId, AgentRow>,
    listings: map<nat, Listing>,
    clients: set<nat>,
    rules: seq<Rule>,
    leads: seq<Lead>,
    visits: seq<Visit>,
    transitions: seq<Transition>,
    lost: map<LeadId, LostReason>,
    interactions: seq<Interaction>,
    tasks: seq<Task>,
    audits: seq<Audit>,
    events: seq<Event>,
    timeOff: map<OffKey, TimeOff>,
    nextOff: nat,
    calendars: map<AgentId, ExternalCalendar>)

  datatype Refusal =
    | LeadNotFound | VisitNotFound | AgentNotFound | ListingNotFound | ClientNotFound
    | TimeOffNotFound | NoCalendar
    | LeadClosed | InThePast | ShortNotice | OtherOpenVisit | Overlap | OutsideSlots
    | DuplicateOpenVisit | AlreadyFinal | BotRecordsNoOutcome | BotMayNotConfirm
    | IllegalTransition | UnknownReason
    | AgentDeactivated | AgentIsBot | SameAgent
    | BackwardsSpan | BackwardsWindow | OverlapsVisits | ImportedBlock

  // ------------------------------------------------------------ queries

  predicate InAgency(db: Db, agent: AgentId, agency: nat) {
    agent in db.agents && db.agents[agent].agency == agency
  }

  /** get_lead: the tenancy boundary. */
  predicate LeadVisible(db: Db, lead: LeadId, agency: nat) {
    lead < |db.leads| && InAgency(db, db.leads[lead].agent, agency)
  }

  predicate VisitVisible(db: Db, visit: VisitId, agency: nat) {
    visit < |db.visits| && LeadVisible(db, db.visits[visit].lead, agency)
  }

  predicate Occupies(v: Visit, agent: AgentId) {
    v.agent == agent && Blocking(v.status)
  }

  predicate OpenFor(v: Visit, lead: LeadId) {
    v.lead == lead && Blocking(v.status)
  }

  /** Whether a blocking visit of the agent, other than the excluded one, overlaps `span`. */
  predicate Clash(visits: seq<Visit>, agent: AgentId, span: Interval, exclude: Option<VisitId>) {
    exists i :: 0 <= i < |visits| && Occupies(visits[i], agent) && exclude != Some(i) && Overlaps(Span(visits[i]), span)
  }

  /** The lead's open visit, if any. */
  function FirstOpen(visits: seq<Visit>, lead: LeadId, i: nat := 0): (r: Option<VisitId>)
    requires i <= |visits|
    ensures r.Some? ==> i <= r.value < |visits| && OpenFor(visits[r.value], lead)
    ensures r.None? ==> forall j :: i <= j < |visits| ==> !OpenFor(visits[j], lead)
    decreases |visits| - i
  {
    if i == |visits| then None
    else if OpenFor(visits[i], lead) then Some(i)
    else FirstOpen(visits, lead, i + 1)
  }

  function RulesOf(rules: seq<Rule>, agent: AgentId): seq<Rule> {
    if rules == [] then []
    else (if rules[0].agent == agent then [rules[0]] else []) + RulesOf(rules[1..], agent)
  }

  function BusyVisits(visits: seq<Visit>, agent: AgentId, exclude: Option<VisitId>): set<Interval> {
    set i | 0 <= i < |visits| && Occupies(visits[i], agent) && exclude != Some(i) :: Span(visits[i])
  }

  function BusyOff(timeOff: map<OffKey, TimeOff>, agent: AgentId): set<Interval> {
    set k | k in timeOff && timeOff[k].agent == agent :: timeOff[k].span
  }

  function BusyTime(db: Db, agent: AgentId, exclude: Option<VisitId>): set<Interval> {
    BusyVisits(db.visits, agent, exclude) + BusyOff(db.timeOff, agent)
  }

  ghost predicate SlotOpen(db: Db, agent: AgentId, start: Time, minutes: Minutes, exclude: Option<VisitId>) {
    Available(RulesOf(db.rules, agent), BusyTime(db, agent, exclude), start, minutes)
  }

  // ------------------------------------------------------------ writing

  /** The tables no request about a visit or a lead writes. */
  predicate SameSetup(a: Db, b: Db) {
    && a.agents == b.agents && a.listings == b.listings && a.clients == b.clients && a.rules == b.rules
    && a.timeOff == b.timeOff && a.nextOff == b.nextOff && a.calendars == b.calendars
  }

  function Emit(db: Db, e: Event): Db {
    db.(events := db.events + [e])
  }

  function Note(db: Db, lead: LeadId, author: Option<AgentId>, at: Time): Db {
    db.(interactions := db.interactions + [Interaction(lead, Outbound, StatusChange, author, at)])
  }

  /** _record: a visit never changes without a line on its lead's timeline and an event that carries
    * the visit as it now stands. */
  function Record(db: Db, visit: VisitId, actor: Actor, kind: EventKind, previous: Option<Previous>, at: Time): Db
    requires visit < |db.visits|
  {
    var v := db.visits[visit];
    Emit(Note(db, v.lead, Some(actor.id), at),
         VisitEvent(kind, visit, v.lead, v.start, v.minutes, v.status, actor, previous))
  }

  /** One row of the stage log; the trigger refreshes the lead's cached stage. */
  function LogStage(db: Db, row: Transition): Db
    requires row.lead < |db.leads|
  {
    var lead := db.leads[row.lead];
    db.(transitions := db.transitions + [row],
        leads := db.leads[row.lead := lead.(stage := Trigger(lead.stage, db.transitions, row.lead, row))])
  }

  /** insert_transition. */
  function Advance(db: Db, lead: LeadId, from: Stage, to: Stage, actor: Actor, at: Time): Db
    requires lead < |db.leads|
  {
    Emit(LogStage(db, Transition(lead, Some(from), to, Some(actor.id), at)), StageChanged(lead, from, to))
  }

  /** Where a visit's new status pushes its lead. */
  function Pushed(stage: Stage, status: VisitStatus): Stage {
    match (status, stage)
    case (Confirmed, Interested) => VisitScheduled
    case (Completed, VisitScheduled) => Visited
    case _ => stage
  }

  /** _sync_funnel: the calendar moves the lead forward, along edges the funnel has. */
  function SyncFunnel(db: Db, lead: LeadId, status: VisitStatus, actor: Actor, at: Time): (r: Db)
    requires lead < |db.leads|
    ensures SameSetup(db, r) && r.visits == db.visits && |r.leads| == |db.leads|
  {
    var stage := db.leads[lead].stage;
    var target := Pushed(stage, status);
    if target == stage then db else Advance(db, lead, stage, target, actor, at)
  }

  // ------------------------------------------------------------ booking

  datatype Outcome = Created(visit: VisitId) | Existing(visit: VisitId) | Refused(why: Refusal)

  predicate TooSoon(cfg: Config, actor: Actor, start: Time, now: Time) {
    actor.isBot && start < now + cfg.notice
  }

  predicate MustFit(cfg: Config, actor: Actor) {
    actor.isBot || cfg.enforce
  }

  /** What request_visit decides before it takes the agent's lock. */
  function EarlyRefusal(db: Db, cfg: Config, lead: LeadId, start: Time, actor: Actor, now: Time): Option<Refusal> {
    if !LeadVisible(db, lead, actor.agency) then Some(LeadNotFound)
    else if Terminal(db.leads[lead].stage) then Some(LeadClosed)
    else if start <= now then Some(InThePast)
    else if TooSoon(cfg, actor, start, now) then Some(ShortNotice)
    else None
  }

  /** Whether the booking itself is the owner's yes: it comes from the owner, or from a bot that may
    * say yes in the owner's name. */
  predicate BornConfirmed(actor: Actor, owner: AgentId) {
    if actor.isBot then actor.manages else actor.id == owner
  }

  /** The insert and everything committed with it. */
  function Book(db: Db, lead: LeadId, owner: AgentId, start: Time, minutes: Minutes, actor: Actor, at: Time): (r: Db)
    requires lead < |db.leads|
    ensures SameSetup(db, r) && |r.leads| == |db.leads|
  {
    var confirmed := BornConfirmed(actor, owner);
    var status := if confirmed then Confirmed else PendingConfirmation;
    var inserted := db.(visits := db.visits + [Visit(lead, owner, start, minutes, status, actor.id)]);
    var synced := if confirmed then SyncFunnel(inserted, lead, Confirmed, actor, at) else inserted;
    Record(synced, |db.visits|, actor, BookedEvent, None, at)
  }

  /** What a lead's open visit means for a new request. */
  function AgainstOpen(visits: seq<Visit>, lead: LeadId, start: Time, minutes: Minutes): Option<Outcome> {
    var open := FirstOpen(visits, lead);
    if open.None? then None
    else if visits[open.value].start == start && visits[open.value].minutes == minutes then
      Some(Existing(open.value))
    else Some(Refused(OtherOpenVisit))
  }

  /** request_visit, uninterrupted. */
  ghost function RequestVisit(
    db: Db, cfg: Config, lead: LeadId, start: Time, minutes: Minutes, actor: Actor, now: Time): (r: (Db, Outcome))
    ensures SameSetup(db, r.0)
  {
    var early := EarlyRefusal(db, cfg, lead, start, actor, now);
    if early.Some? then (db, Refused(early.value))
    else
      var owner := db.leads[lead].agent;
      var settled := AgainstOpen(db.visits, lead, start, minutes);
      if settled.Some? then (db, settled.value)
      else if Clash(db.visits, owner, Interval(start, VisitEnd(start, minutes)), None) then (db, Refused(Overlap))
      else if MustFit(cfg, actor) && !SlotOpen(db, owner, start, minutes, None) then (db, Refused(OutsideSlots))
      else (Book(db, lead, owner, start, minutes, actor, now), Created(|db.visits|))
  }

  // ------------------------------------------------------------ changing a visit

  datatype Patch = Patch(status: Option<VisitStatus>, start: Option<Time>, minutes: Option<Minutes>)

  datatype PatchOutcome = Done | PatchRefused(why: Refusal)

  /** None of the three terminal statuses can be left again. */
  predicate Final(s: VisitStatus) {
    s.Cancelled? || s.Completed? || s.NoShow?
  }

  predicate Moving(p: Patch) {
    p.start.Some? || p.minutes.Some?
  }

  /** The visit as the patch leaves it: a confirmed visit that moves is reopened, unless the
    * caller says otherwise. */
  function Patched(v: Visit, p: Patch): Visit {
    var start := if p.start.Some? then p.start.value else v.start;
    var minutes := if p.minutes.Some? then p.minutes.value else v.minutes;
    var timeChanged := start != v.start || minutes != v.minutes;
    var status :=
      if p.status.Some? then p.status.value
      else if v.status.Confirmed? && timeChanged then Rescheduled
      else v.status;
    v.(start := start, minutes := minutes, status := status)
  }

  function EventFor(s: VisitStatus): EventKind {
    match s
    case Confirmed => ConfirmedEvent
    case Cancelled => CancelledEvent
    case Completed => CompletedEvent
    case NoShow => NoShowEvent
    case Rescheduled => RescheduledEvent
    case PendingConfirmation => ReopenedEvent
  }

  /** Why a move may be refused; decided under the agent's lock. */
  ghost function MoveRefusal(db: Db, cfg: Config, visit: VisitId, p: Patch, actor: Actor, now: Time): Option<Refusal>
    requires visit < |db.visits|
  {
    var v := db.visits[visit];
    var moved := Patched(v, p);
    if moved.start <= now then Some(InThePast)
    else if TooSoon(cfg, actor, moved.start, now) then Some(ShortNotice)
    else if Clash(db.visits, v.agent, Span(moved), Some(visit)) then Some(Overlap)
    else if MustFit(cfg, actor) && !InAgency(db, v.agent, actor.agency) then Some(AgentNotFound)
    else if MustFit(cfg, actor) && !SlotOpen(db, v.agent, moved.start, moved.minutes, Some(visit)) then
      Some(OutsideSlots)
    else None
  }

  /** What patch_appointment checks whether or not the visit moves. */
  function StatusRefusal(db: Db, visit: VisitId, p: Patch, actor: Actor): Option<Refusal> {
    if !VisitVisible(db, visit, actor.agency) then Some(VisitNotFound)
    else if Final(db.visits[visit].status) && p.status != Some(db.visits[visit].status) then Some(AlreadyFinal)
    else if actor.isBot && (p.status == Some(Completed) || p.status == Some(NoShow)) then Some(BotRecordsNoOutcome)
    else if actor.isBot && p.status == Some(Confirmed) && !actor.manages then Some(BotMayNotConfirm)
    else None
  }

  ghost function PatchRefusal(db: Db, cfg: Config, visit: VisitId, p: Patch, actor: Actor, now: Time): Option<Refusal> {
    var refusal := StatusRefusal(db, visit, p, actor);
    if refusal.Some? then refusal
    else if Moving(p) then MoveRefusal(db, cfg, visit, p, actor, now)
    else None
  }

  /** A visit's row replaced and the change recorded; the funnel follows where it should. */
  function ChangeVisit(db: Db, visit: VisitId, after: Visit, kind: EventKind, actor: Actor, at: Time): (r: Db)
    requires visit < |db.visits| && db.visits[visit].lead < |db.leads|
    ensures SameSetup(db, r) && |r.leads| == |db.leads|
  {
    var v := db.visits[visit];
    var updated := db.(visits := db.visits[visit := after]);
    var synced := if after.status != v.status then SyncFunnel(updated, v.lead, after.status, actor, at) else updated;
    Record(synced, visit, actor, kind, Some(Previous(v.status, Some(v.start))), at)
  }

  function ChangeKind(v: Visit, after: Visit): EventKind {
    if after.start != v.start || after.minutes != v.minutes then RescheduledEvent else EventFor(after.status)
  }

  /** patch_appointment. */
  ghost function PatchVisit(
    db: Db, cfg: Config, visit: VisitId, p: Patch, actor: Actor, now: Time): (r: (Db, PatchOutcome))
    ensures SameSetup(db, r.0)
  {
    var refusal := PatchRefusal(db, cfg, visit, p, actor, now);
    if refusal.Some? then (db, PatchRefused(refusal.value))
    else
      var v := db.visits[visit];
      var after := Patched(v, p);
      if after == v then (db, Done)
      else (ChangeVisit(db, visit, after, ChangeKind(v, after), actor, now), Done)
  }

  function Cancel(v: Visit): Visit {
    v.(status := Cancelled)
  }

  /** One visit of a closed lead cancelled; the funnel is not asked. */
  function CancelVisit(db: Db, visit: VisitId, actor: Actor, at: Time): Db
    requires visit < |db.visits|
  {
    var v := db.visits[visit];
    var cancelled := db.(visits := db.visits[visit := Cancel(v)]);
    Record(cancelled, visit, actor, CancelledEvent, Some(Previous(v.status, None)), at)
  }

  /** cancel_open_visits, from row `i` on. */
  function CancelOpen(db: Db, lead: LeadId, actor: Actor, at: Time, i: nat := 0): (r: Db)
    requires lead < |db.leads| && i <= |db.visits|
    ensures SameSetup(db, r) && |r.visits| == |db.visits| && |r.leads| == |db.leads|
    decreases |db.visits| - i
  {
    if i == |db.visits| then db
    else if OpenFor(db.visits[i], lead) then
      CancelOpen(CancelVisit(db, i, actor, at), lead, actor, at, i + 1)
    else CancelOpen(db, lead, actor, at, i + 1)
  }

  // ------------------------------------------------------------ the lead

  datatype LeadOutcome = NewLead(lead: LeadId) | KnownLead(lead: LeadId) | Moved | LeadRefused(why: Refusal)

  function FirstPair(leads: seq<Lead>, client: nat, listing: nat, i: nat := 0): (r: Option<LeadId>)
    requires i <= |leads|
    ensures r.Some? ==> i <= r.value < |leads| && leads[r.value].client == client && leads[r.value].listing == listing
    ensures r.None? ==> forall j :: i <= j < |leads| ==> leads[j].client != client || leads[j].listing != listing
    decreases |leads| - i
  {
    if i == |leads| then None
    else if leads[i].client == client && leads[i].listing == listing then Some(i)
    else FirstPair(leads, client, listing, i + 1)
  }

  /** create_or_get_lead. */
  function CreateLead(
    db: Db, client: nat, listing: nat, message: bool, actor: Option<Actor>, agency: nat, now: Time)
    : (r: (Db, LeadOutcome))
    ensures SameSetup(db, r.0)
  {
    if listing !in db.listings || !InAgency(db, db.listings[listing].agent, agency) then
      (db, LeadRefused(ListingNotFound))
    else if client !in db.clients then (db, LeadRefused(ClientNotFound))
    else
      var known := FirstPair(db.leads, client, listing);
      if known.Some? then (db, KnownLead(known.value))
      else
        var lead, owner := |db.leads|, db.listings[listing].agent;
        var inserted := db.(leads := db.leads + [Lead(client, listing, owner, Interested, now)]);
        var logged := LogStage(inserted, Transition(
          lead, None, Interested, if actor.Some? then Some(actor.value.id) else None, now));
        var author := if actor.Some? && actor.value.isBot then Some(actor.value.id) else None;
        var greeted :=
          if message then
            logged.(interactions := logged.interactions + [Interaction(lead, Inbound, Message, author, now)])
          else logged;
        (Emit(greeted, LeadCreated(lead, owner)), NewLead(lead))
  }

  function TransitionRefusal(
    db: Db, lead: LeadId, to: Stage, reason: Option<LostReason>, actor: Actor): Option<Refusal>
  {
    if !LeadVisible(db, lead, actor.agency) then Some(LeadNotFound)
    else if Terminal(db.leads[lead].stage) then Some(LeadClosed)
    else if !Allowed(db.leads[lead].stage, to) then Some(IllegalTransition)
    else if to.Lost? && reason.None? then Some(UnknownReason)
    else None
  }

  /** The row in the stage log and, for a lost lead, its detail. */
  function Detailed(db: Db, lead: LeadId, to: Stage, reason: Option<LostReason>, actor: Actor, now: Time): Db
    requires lead < |db.leads| && (to.Lost? ==> reason.Some?)
  {
    var moved := Advance(db, lead, db.leads[lead].stage, to, actor, now);
    if to.Lost? then moved.(lost := moved.lost[lead := reason.value]) else moved
  }

  /** And the line on the timeline: always for a lost lead, else when there is a note. */
  function Transitioned(
    db: Db, lead: LeadId, to: Stage, reason: Option<LostReason>, note: bool, actor: Actor, now: Time): (r: Db)
    requires lead < |db.leads| && (to.Lost? ==> reason.Some?)
    ensures SameSetup(db, r) && r.visits == db.visits && |r.leads| == |db.leads|
  {
    var detailed := Detailed(db, lead, to, reason, actor, now);
    if to.Lost? || note then Note(detailed, lead, Some(actor.id), now) else detailed
  }

  /** add_transition. */
  function AddTransition(
    db: Db, lead: LeadId, to: Stage, reason: Option<LostReason>, note: bool, actor: Actor, now: Time)
    : (r: (Db, LeadOutcome))
    ensures SameSetup(db, r.0)
  {
    var refusal := TransitionRefusal(db, lead, to, reason, actor);
    if refusal.Some? then (db, LeadRefused(refusal.value))
    else
      var moved := Transitioned(db, lead, to, reason, note, actor, now);
      (if Terminal(to) then CancelOpen(moved, lead, actor, now) else moved, Moved)
  }

  function ReassignRefusal(db: Db, lead: LeadId, target: AgentId, actor: Actor): Option<Refusal> {
    if !LeadVisible(db, lead, actor.agency) then Some(LeadNotFound)
    else if !InAgency(db, target, actor.agency) then Some(AgentNotFound)
    else if !db.agents[target].active then Some(AgentDeactivated)
    else if db.agents[target].role.AiAgent? then Some(AgentIsBot)
    else if target == db.leads[lead].agent then Some(SameAgent)
    else None
  }

  /** reassign: the lead and its audit row together. */
  function Reassign(db: Db, lead: LeadId, target: AgentId, actor: Actor): (r: (Db, LeadOutcome))
    ensures SameSetup(db, r.0)
  {
    var refusal := ReassignRefusal(db, lead, target, actor);
    if refusal.Some? then (db, LeadRefused(refusal.value))
    else
      var owner := db.leads[lead].agent;
      var moved := db.(
        leads := db.leads[lead := db.leads[lead].(agent := target)],
        audits := db.audits + [Audit(lead, owner, target, actor.id)]);
      (Emit(moved, LeadReassigned(lead, owner, target, actor.id)), Moved)
  }

  // ------------------------------------------------------------ time off and imports

  datatype OffOutcome = Stored(id: nat) | Deleted | OffRefused(why: Refusal)

  /** add_time_off: never over a visit still on the calendar. */
  function AddTimeOff(db: Db, agent: AgentId, agency: nat, span: Interval): (Db, OffOutcome) {
    if !InAgency(db, agent, agency) then (db, OffRefused(AgentNotFound))
    else if span.start >= span.end then (db, OffRefused(BackwardsSpan))
    else if Clash(db.visits, agent, span, None) then (db, OffRefused(OverlapsVisits))
    else
      (db.(timeOff := db.timeOff[Manual(db.nextOff) := TimeOff(agent, span)], nextOff := db.nextOff + 1),
       Stored(db.nextOff))
  }

  /** delete_time_off: manual rows only. */
  function DeleteTimeOff(db: Db, agent: AgentId, agency: nat, key: OffKey): (Db, OffOutcome) {
    if !InAgency(db, agent, agency) then (db, OffRefused(AgentNotFound))
    else if key !in db.timeOff || db.timeOff[key].agent != agent then (db, OffRefused(TimeOffNotFound))
    else if key.Imported? then (db, OffRefused(ImportedBlock))
    else (db.(timeOff := db.timeOff - {key}), Deleted)
  }

  datatype Fetch = FetchFailed | Feed(events: seq<CalendarImport.FeedEvent>)

  datatype SyncOutcome =
    | SyncRefused(why: Refusal)
    | SyncError
    | Synced(imported: nat, removed: nat, skipped: nat)

  /** sync_external_calendar; `lockFree` says whether no other sync of this agent is running. */
  function SyncCalendar(
    db: Db, cfg: Config, agent: AgentId, fetch: Fetch, lockFree: bool, now: Time): (Db, SyncOutcome)
  {
    if agent !in db.calendars then (db, SyncRefused(NoCalendar))
    else if fetch.FetchFailed? then
      (db.(calendars := db.calendars[agent := ExternalCalendar(Some(now), true)]), SyncError)
    else SyncFeed(db, cfg, agent, fetch.events, lockFree, now)
  }

  function WindowEnd(cfg: Config, now: Time): Time {
    now + cfg.window
  }

  /** A sync that could read its feed; another one already running makes it stand down. */
  function SyncFeed(
    db: Db, cfg: Config, agent: AgentId, events: seq<CalendarImport.FeedEvent>, lockFree: bool, now: Time)
    : (Db, SyncOutcome)
  {
    if !lockFree then (db, Synced(0, 0, CalendarImport.Skipped(events)))
    else Reconciled(db, agent, now, WindowEnd(cfg, now), CalendarImport.Parse(events), CalendarImport.Skipped(events))
  }

  function Reconciled(
    db: Db, agent: AgentId, now: Time, windowEnd: Time, blocks: CalendarImport.Blocks, skipped: nat): (Db, SyncOutcome)
  {
    (db.(timeOff := CalendarImport.Reconcile(db.timeOff, agent, now, windowEnd, blocks),
         calendars := db.calendars[agent := ExternalCalendar(Some(now), false)]),
     Synced(CalendarImport.Imports(db.timeOff, agent, now, windowEnd, blocks),
            CalendarImport.Removals(db.timeOff, agent, now, windowEnd, blocks), skipped))
  }

  /** set_external_calendar up to its own sync. */
  function ConnectCalendar(db: Db, agent: AgentId): Db {
    db.(calendars := db.calendars[agent := ExternalCalendar(None, false)])
  }

  function ImportedKeys(timeOff: map<OffKey, TimeOff>, agent: AgentId): set<OffKey> {
    set k | k in timeOff && k.Imported? && k.agent == agent
  }

  /** remove_external_calendar: the connection goes, and with it all imported rows of the agent. */
  function RemoveCalendar(db: Db, agent: AgentId): Db {
    if agent !in db.calendars then db
    else db.(timeOff := db.timeOff - ImportedKeys(db.timeOff, agent), calendars := db.calendars - {agent})
  }
}

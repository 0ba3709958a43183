/** Whole runs of the CRM with each request atomic: what every reachable state keeps, and what no
  * later request can undo. */
module Runs {
  import opened Domain
  import opened Store
  import opened Invariants
  import opened Requests
  import opened Sweep
  import CalendarImport

  datatype Request =
    | CreateLeadReq(client: nat, listing: nat, message: bool, author: Option<Actor>, agency: nat)
    | RequestVisitReq(lead: LeadId, start: Time, minutes: Minutes, actor: Actor)
    | PatchVisitReq(visit: VisitId, patch: Patch, actor: Actor)
    | AddTransitionReq(lead: LeadId, to: Stage, reason: Option<LostReason>, note: bool, actor: Actor)
    | ReassignReq(lead: LeadId, target: AgentId, actor: Actor)
    | AddTimeOffReq(agent: AgentId, agency: nat, span: Interval)
    | DeleteTimeOffReq(agent: AgentId, agency: nat, key: OffKey)
    | SyncCalendarReq(agent: AgentId, fetch: Fetch, lockFree: bool)
    | ConnectCalendarReq(agent: AgentId)
    | RemoveCalendarReq(agent: AgentId)
    | PublishRulesReq(rules: seq<Rule>)
    | AddInteractionReq(interaction: Interaction)
    | SweepReq(hours: int, batch: seq<LeadId>)

  ghost function Handle(db: Db, cfg: Config, req: Request, now: Time): Db {
    match req
    case CreateLeadReq(client, listing, message, author, agency) =>
      CreateLead(db, client, listing, message, author, agency, now).0
    case RequestVisitReq(lead, start, minutes, actor) => RequestVisit(db, cfg, lead, start, minutes, actor, now).0
    case PatchVisitReq(visit, patch, actor) => PatchVisit(db, cfg, visit, patch, actor, now).0
    case AddTransitionReq(lead, to, reason, note, actor) => AddTransition(db, lead, to, reason, note, actor, now).0
    case ReassignReq(lead, target, actor) => Reassign(db, lead, target, actor).0
    case AddTimeOffReq(agent, agency, span) => AddTimeOff(db, agent, agency, span).0
    case DeleteTimeOffReq(agent, agency, key) => DeleteTimeOff(db, agent, agency, key).0
    case SyncCalendarReq(agent, fetch, lockFree) => SyncCalendar(db, cfg, agent, fetch, lockFree, now).0
    case ConnectCalendarReq(agent) => ConnectCalendar(db, agent)
    case RemoveCalendarReq(agent) => RemoveCalendar(db, agent)
    case PublishRulesReq(rules) => db.(rules := rules)
    case AddInteractionReq(interaction) => db.(interactions := db.interactions + [interaction])
    case SweepReq(hours, batch) => if IsBatch(db, hours, now, batch) then SweepOver(db, batch, now) else db
  }

  // ------------------------------------------------------------ time-off rows

  /** Time off runs forwards, a manual id is never handed out twice, and an imported row belongs to
    * the agent its key names. */
  ghost predicate OffRows(db: Db) {
    && ForwardOff(db.timeOff)
    && (forall k :: k in db.timeOff && k.Manual? ==> k.id < db.nextOff)
    && (forall k :: k in db.timeOff && k.Imported? ==> db.timeOff[k].agent == k.agent)
  }

  lemma ReconciledOffRow(
      table: map<OffKey, TimeOff>, agent: AgentId, now: Time, windowEnd: Time,
      events: seq<CalendarImport.FeedEvent>, k: OffKey, nextOff: nat)
    requires k in CalendarImport.Reconcile(table, agent, now, windowEnd, CalendarImport.Parse(events))
    requires k in table ==> table[k].span.start < table[k].span.end
    requires k in table && k.Manual? ==> k.id < nextOff
    requires k in table && k.Imported? ==> table[k].agent == k.agent
    ensures var after := CalendarImport.Reconcile(table, agent, now, windowEnd, CalendarImport.Parse(events));
      && after[k].span.start < after[k].span.end
      && (k.Manual? ==> k.id < nextOff)
      && (k.Imported? ==> after[k].agent == k.agent)
  {
    CalendarImport.ReconciledRow(table, agent, now, windowEnd, CalendarImport.Parse(events), k);
    if k.Imported? {
      CalendarImport.ParseKeepsTheLast(events, k.uid);
    }
  }

  lemma SyncKeepsOffRows(db: Db, cfg: Config, agent: AgentId, fetch: Fetch, lockFree: bool, now: Time)
    requires OffRows(db)
    ensures OffRows(SyncCalendar(db, cfg, agent, fetch, lockFree, now).0)
  {
    if agent in db.calendars && fetch.Feed? && lockFree {
      var windowEnd := WindowEnd(cfg, now);
      var after := CalendarImport.Reconcile(db.timeOff, agent, now, windowEnd, CalendarImport.Parse(fetch.events));
      forall k | k in after
        ensures after[k].span.start < after[k].span.end
        ensures k.Manual? ==> k.id < db.nextOff
        ensures k.Imported? ==> after[k].agent == k.agent
      {
        ReconciledOffRow(db.timeOff, agent, now, windowEnd, fetch.events, k, db.nextOff);
      }
    }
  }

  lemma ManualOffKeeps(db: Db, agent: AgentId, agency: nat, span: Interval, key: OffKey)
    requires OffRows(db)
    ensures OffRows(AddTimeOff(db, agent, agency, span).0)
    ensures OffRows(DeleteTimeOff(db, agent, agency, key).0)
    ensures OffRows(RemoveCalendar(db, agent))
  {
  }

  lemma HandleKeepsOffRows(db: Db, cfg: Config, req: Request, now: Time)
    requires OffRows(db)
    ensures OffRows(Handle(db, cfg, req, now))
  {
    match req
    case AddTimeOffReq(agent, agency, span) => ManualOffKeeps(db, agent, agency, span, Manual(0));
    case DeleteTimeOffReq(agent, agency, key) => ManualOffKeeps(db, agent, agency, Interval(0, 0), key);
    case SyncCalendarReq(agent, fetch, lockFree) => SyncKeepsOffRows(db, cfg, agent, fetch, lockFree, now);
    case RemoveCalendarReq(agent) => ManualOffKeeps(db, agent, 0, Interval(0, 0), Manual(0));
    case _ =>
  }

  // ------------------------------------------------------------ one request

  predicate SameRows(a: Db, b: Db) {
    && a.visits == b.visits && a.leads == b.leads && a.events == b.events && a.lost == b.lost
    && a.transitions == b.transitions && a.audits == b.audits
    && a.agents == b.agents && a.listings == b.listings
  }

  predicate Quiet(req: Request) {
    || req.AddTimeOffReq? || req.DeleteTimeOffReq? || req.SyncCalendarReq? || req.ConnectCalendarReq?
    || req.RemoveCalendarReq? || req.PublishRulesReq? || req.AddInteractionReq?
  }

  /** Time off, imports, hours and messages touch neither visits, leads nor their logs. */
  lemma QuietRequestsTouchNothing(db: Db, cfg: Config, req: Request, now: Time)
    requires Quiet(req)
    ensures SameRows(db, Handle(db, cfg, req, now))
  {
    if req.SyncCalendarReq? {
      SyncTouchesNoRow(db, cfg, req.agent, req.fetch, req.lockFree, now);
    }
  }

  lemma SyncTouchesNoRow(db: Db, cfg: Config, agent: AgentId, fetch: Fetch, lockFree: bool, now: Time)
    ensures var r := SyncCalendar(db, cfg, agent, fetch, lockFree, now).0;
      SameRows(db, r) && r.interactions == db.interactions
  {
  }

  lemma SameRowsKeep(a: Db, b: Db, now: Time)
    requires Core(a, now) && SameRows(a, b)
    ensures Core(b, now)
  {
  }

  lemma SweepKeepsCore(db: Db, hours: int, batch: seq<LeadId>, now: Time)
    requires Core(db, now)
    ensures var r := if IsBatch(db, hours, now, batch) then SweepOver(db, batch, now) else db;
      Core(r, now) && r.visits == db.visits && r.leads == db.leads
  {
    if IsBatch(db, hours, now, batch) {
      SweepKeeps(db, batch, now);
    }
  }

  /** Everything but booking keeps the core, and keeps closed leads off the calendar. */
  lemma HandleKeepsCore(db: Db, cfg: Config, req: Request, now: Time)
    requires Core(db, now) && !req.RequestVisitReq?
    ensures var r := Handle(db, cfg, req, now);
      Core(r, now) && (ClosedFree(db.visits, db.leads) ==> ClosedFree(r.visits, r.leads))
  {
    match req
    case CreateLeadReq(client, listing, message, author, agency) =>
      CreateLeadKeeps(db, client, listing, message, author, agency, now);
    case PatchVisitReq(visit, patch, actor) => PatchVisitKeeps(db, cfg, visit, patch, actor, now);
    case AddTransitionReq(lead, to, reason, note, actor) => AddTransitionKeeps(db, lead, to, reason, note, actor, now);
    case ReassignReq(lead, target, actor) => ReassignKeeps(db, lead, target, actor, now);
    case SweepReq(hours, batch) => SweepKeepsCore(db, hours, batch, now);
    case _ =>
      QuietRequestsTouchNothing(db, cfg, req, now);
      SameRowsKeep(db, Handle(db, cfg, req, now), now);
  }

  lemma HandleKeeps(db: Db, cfg: Config, req: Request, now: Time)
    requires Inv(db, now)
    ensures Inv(Handle(db, cfg, req, now), now)
  {
    if req.RequestVisitReq? {
      RequestVisitKeeps(db, cfg, req.lead, req.start, req.minutes, req.actor, now);
    } else {
      HandleKeepsCore(db, cfg, req, now);
    }
  }

  // ------------------------------------------------------------ whole runs

  datatype Step = Step(now: Time, req: Request)

  /** The tables before the first request: nothing but agents, listings, clients and hours. */
  ghost predicate Opening(db: Db) {
    && db.leads == [] && db.visits == [] && db.transitions == [] && db.lost == map[] && db.audits == []
    && db.events == [] && db.timeOff == map[]
    && forall k :: k in db.listings ==> db.listings[k].agent in db.agents
  }

  ghost predicate Timed(steps: seq<Step>, from: Time)
    decreases |steps|
  {
    steps == [] || (from <= steps[0].now && Timed(steps[1..], steps[0].now))
  }

  ghost function Exec(db: Db, cfg: Config, steps: seq<Step>): Db
    decreases |steps|
  {
    if steps == [] then db else Exec(Handle(db, cfg, steps[0].req, steps[0].now), cfg, steps[1..])
  }

  function Clock(steps: seq<Step>, from: Time): Time {
    if steps == [] then from else steps[|steps| - 1].now
  }

  lemma LaterIsDated(db: Db, now: Time, later: Time)
    requires Inv(db, now) && now <= later
    ensures Inv(db, later)
  {
  }

  lemma RequestKeeps(db: Db, cfg: Config, step: Step, from: Time)
    requires Inv(db, from) && OffRows(db) && from <= step.now
    ensures Inv(Handle(db, cfg, step.req, step.now), step.now) && OffRows(Handle(db, cfg, step.req, step.now))
  {
    LaterIsDated(db, from, step.now);
    HandleKeeps(db, cfg, step.req, step.now);
    HandleKeepsOffRows(db, cfg, step.req, step.now);
  }

  lemma {:induction false} RunKeeps(db: Db, cfg: Config, steps: seq<Step>, from: Time)
    requires Inv(db, from) && OffRows(db) && Timed(steps, from)
    ensures Inv(Exec(db, cfg, steps), Clock(steps, from)) && OffRows(Exec(db, cfg, steps))
    decreases |steps|
  {
    if steps != [] {
      var next, now, rest := Handle(db, cfg, steps[0].req, steps[0].now), steps[0].now, steps[1..];
      RequestKeeps(db, cfg, steps[0], from);
      RunKeeps(next, cfg, rest, now);
      assert Exec(db, cfg, steps) == Exec(next, cfg, rest) && Clock(steps, from) == Clock(rest, now);
    }
  }

  /** Every reachable state: no double-booking, one open visit per lead, a confirmed visit's lead
    * past INTERESTED, a closed lead off the calendar, and an outbox that replays to the tables. */
  lemma ReachableStatesAreSafe(db: Db, cfg: Config, steps: seq<Step>, from: Time)
    requires Opening(db) && Timed(steps, from)
    ensures Inv(Exec(db, cfg, steps), Clock(steps, from)) && OffRows(Exec(db, cfg, steps))
  {
    assert Inv(db, from);
    RunKeeps(db, cfg, steps, from);
  }
}

/** Bookings under concurrency. A booking is several database steps with other requests in
  * between: read the lead, take the agent's lock, look for an open visit, check overlap, check the
  * slots, then insert and commit. Every other request is one atomic step; a move and manual time
  * off need the agent's lock to be free. */
module Booking {
  import opened Domain
  import opened Funnel
  import opened Store
  import opened Invariants
  import opened Requests
  import opened Runs
  import opened History

  type Tx = nat

  datatype Pc = Waiting | Locked | NoOpenVisit | NoClash | Fitting | Finished(outcome: Outcome) | Aborted

  /** One request_visit in progress; `owner` is the lead's agent as read at the start. */
  datatype Booking = Booking(
    lead: LeadId, start: Time, minutes: Minutes, actor: Actor, startedAt: Time, owner: AgentId, pc: Pc)

  datatype Sys = Sys(db: Db, clock: Time, bookings: map<Tx, Booking>, locks: map<AgentId, Tx>)

  datatype Act =
    | Begin(tx: Tx, lead: LeadId, start: Time, minutes: Minutes, actor: Actor)
    | Acquire(tx: Tx)
    | LookForOpen(tx: Tx)
    | CheckOverlap(tx: Tx)
    | CheckSlots(tx: Tx)
    | Insert(tx: Tx)
    | Abort(tx: Tx)
    | Atomic(req: Request)

  datatype Action = Action(now: Time, act: Act)

  predicate InFlight(b: Booking) {
    !b.pc.Finished? && !b.pc.Aborted?
  }

  predicate Holding(b: Booking) {
    InFlight(b) && !b.pc.Waiting?
  }

  function Slot(b: Booking): Interval {
    Interval(b.start, VisitEnd(b.start, b.minutes))
  }

  predicate At(s: Sys, tx: Tx, pc: Pc) {
    tx in s.bookings && s.bookings[tx].pc == pc
  }

  /** The requests that take an agent's lock need it free. */
  predicate LockFree(s: Sys, req: Request) {
    match req
    case PatchVisitReq(visit, patch, _) =>
      Moving(patch) && visit < |s.db.visits| ==> s.db.visits[visit].agent !in s.locks
    case AddTimeOffReq(agent, _, _) => agent !in s.locks
    case _ => true
  }

  predicate Enabled(s: Sys, a: Action) {
    && s.clock <= a.now
    && match a.act
       case Begin(tx, _, _, _, _) => tx !in s.bookings
       case Acquire(tx) => At(s, tx, Waiting) && s.bookings[tx].owner !in s.locks
       case LookForOpen(tx) => At(s, tx, Locked)
       case CheckOverlap(tx) => At(s, tx, NoOpenVisit)
       case CheckSlots(tx) => At(s, tx, NoClash)
       case Insert(tx) => At(s, tx, Fitting)
       case Abort(tx) => tx in s.bookings && InFlight(s.bookings[tx])
       case Atomic(req) => !req.RequestVisitReq? && LockFree(s, req)
  }

  /** The booking moves on. */
  function Advanced(s: Sys, tx: Tx, pc: Pc): Sys
    requires tx in s.bookings
  {
    s.(bookings := s.bookings[tx := s.bookings[tx].(pc := pc)])
  }

  /** The booking's transaction ends and its lock, if it held one, is released. */
  function Ended(s: Sys, tx: Tx, pc: Pc): Sys
    requires tx in s.bookings
  {
    var b := s.bookings[tx];
    Advanced(s, tx, pc).(locks := if Holding(b) then s.locks - {b.owner} else s.locks)
  }

  ghost function Next(s0: Sys, cfg: Config, a: Action): Sys
    requires Enabled(s0, a)
  {
    var s := s0.(clock := a.now);
    match a.act
    case Begin(tx, lead, start, minutes, actor) =>
      var early := EarlyRefusal(s.db, cfg, lead, start, actor, a.now);
      var owner := if lead < |s.db.leads| then s.db.leads[lead].agent else 0;
      s.(bookings := s.bookings[tx := Booking(lead, start, minutes, actor, a.now, owner,
        if early.Some? then Finished(Refused(early.value)) else Waiting)])
    case Acquire(tx) => Advanced(s, tx, Locked).(locks := s.locks[s.bookings[tx].owner := tx])
    case LookForOpen(tx) =>
      var b := s.bookings[tx];
      var settled := AgainstOpen(s.db.visits, b.lead, b.start, b.minutes);
      if settled.Some? then Ended(s, tx, Finished(settled.value)) else Advanced(s, tx, NoOpenVisit)
    case CheckOverlap(tx) =>
      var b := s.bookings[tx];
      if Clash(s.db.visits, b.owner, Slot(b), None) then Ended(s, tx, Finished(Refused(Overlap)))
      else Advanced(s, tx, NoClash)
    case CheckSlots(tx) =>
      var b := s.bookings[tx];
      if MustFit(cfg, b.actor) && !SlotOpen(s.db, b.owner, b.start, b.minutes, None) then
        Ended(s, tx, Finished(Refused(OutsideSlots)))
      else Advanced(s, tx, Fitting)
    case Insert(tx) =>
      var b := s.bookings[tx];
      if b.lead >= |s.db.leads| || FirstOpen(s.db.visits, b.lead).Some? then
        Ended(s, tx, Finished(Refused(DuplicateOpenVisit)))
      else
        Ended(s, tx, Finished(Created(|s.db.visits|))).(
          db := Book(s.db, b.lead, b.owner, b.start, b.minutes, b.actor, b.startedAt))
    case Abort(tx) => Ended(s, tx, Aborted)
    case Atomic(req) => s.(db := Handle(s.db, cfg, req, a.now))
  }

  // ------------------------------------------------------------ runs

  ghost predicate Valid(s: Sys, cfg: Config, acts: seq<Action>)
    decreases |acts|
  {
    acts == [] || (Enabled(s, acts[0]) && Valid(Next(s, cfg, acts[0]), cfg, acts[1..]))
  }

  ghost function After(s: Sys, cfg: Config, acts: seq<Action>): Sys
    requires Valid(s, cfg, acts)
    decreases |acts|
  {
    if acts == [] then s else After(Next(s, cfg, acts[0]), cfg, acts[1..])
  }

  /** Every step of the run respects `rule` in the state it is taken from. */
  ghost predicate Respects(s: Sys, cfg: Config, acts: seq<Action>, rule: (Sys, Action) -> bool)
    requires Valid(s, cfg, acts)
    decreases |acts|
  {
    acts == [] || (rule(s, acts[0]) && Respects(Next(s, cfg, acts[0]), cfg, acts[1..], rule))
  }

  /** `holds` is true at the start of the run and after every step of it. */
  ghost predicate Throughout(s: Sys, cfg: Config, acts: seq<Action>, holds: Sys -> bool)
    requires Valid(s, cfg, acts)
    decreases |acts|
  {
    holds(s) && (acts == [] || Throughout(Next(s, cfg, acts[0]), cfg, acts[1..], holds))
  }

  lemma {:induction false} ThroughoutEndsWell(s: Sys, cfg: Config, acts: seq<Action>, holds: Sys -> bool)
    requires Valid(s, cfg, acts) && Throughout(s, cfg, acts, holds)
    ensures holds(After(s, cfg, acts))
    decreases |acts|
  {
    if acts != [] {
      ThroughoutEndsWell(Next(s, cfg, acts[0]), cfg, acts[1..], holds);
    }
  }

  ghost predicate Fresh(s: Sys) {
    Opening(s.db) && s.bookings == map[] && s.locks == map[]
  }

  // ------------------------------------------------------------ what every interleaving keeps

  /** What a booking in progress may rely on. */
  ghost predicate Sound(s: Sys, tx: Tx)
    requires tx in s.bookings
  {
    var b := s.bookings[tx];
    InFlight(b) ==>
      && b.lead < |s.db.leads| && b.startedAt <= s.clock
      && s.db.leads[b.lead].agent in s.db.agents
      && InAgency(s.db, b.owner, s.db.agents[s.db.leads[b.lead].agent].agency)
      && (s.db.leads[b.lead].stage.Interested? ==> Newest(s.db.transitions, b.lead, b.startedAt))
      && (Holding(b) ==> b.owner in s.locks && s.locks[b.owner] == tx)
      && (b.pc.NoClash? || b.pc.Fitting? ==> !Clash(s.db.visits, b.owner, Slot(b), None))
  }

  ghost predicate LocksHeld(s: Sys) {
    forall agent :: agent in s.locks ==>
      var tx := s.locks[agent];
      tx in s.bookings && Holding(s.bookings[tx]) && s.bookings[tx].owner == agent
  }

  ghost predicate SysInv(s: Sys) {
    && Core(s.db, s.clock) && OffRows(s.db) && LocksHeld(s)
    && forall tx :: tx in s.bookings ==> Sound(s, tx)
  }

  // ------------------------------------------------------------ what others may do meanwhile

  /** The agent's calendar only empties: whatever still occupies it occupied it before, in the same
    * place. */
  ghost predicate Eases(before: seq<Visit>, after: seq<Visit>, agent: AgentId) {
    forall i :: 0 <= i < |after| && Occupies(after[i], agent) ==>
      i < |before| && Occupies(before[i], agent) && Span(before[i]) == Span(after[i])
  }

  /** No visit of the lead comes back on the calendar. */
  ghost predicate NoNewOpen(before: seq<Visit>, after: seq<Visit>) {
    forall i :: 0 <= i < |after| && Blocking(after[i].status) ==>
      i < |before| && Blocking(before[i].status) && before[i].lead == after[i].lead
  }

  lemma EasedStaysClear(before: seq<Visit>, after: seq<Visit>, agent: AgentId, span: Interval)
    requires Eases(before, after, agent) && !Clash(before, agent, span, None)
    ensures !Clash(after, agent, span, None)
  {
    forall i | 0 <= i < |after| && Occupies(after[i], agent) ensures !Overlaps(Span(after[i]), span) {
      assert None != Some(i);
    }
  }

  lemma PatchEases(s: Sys, cfg: Config, visit: VisitId, p: Patch, actor: Actor, now: Time, agent: AgentId)
    requires LockFree(s, PatchVisitReq(visit, p, actor))
    ensures var r := PatchVisit(s.db, cfg, visit, p, actor, now).0;
      NoNewOpen(s.db.visits, r.visits) && (agent in s.locks ==> Eases(s.db.visits, r.visits, agent))
  {
    if PatchRefusal(s.db, cfg, visit, p, actor, now).None? {
      PatchedIsLegal(s.db, visit, p, actor);
      var v := s.db.visits[visit];
      var after := Patched(v, p);
      ChangeVisitUnfolds(s.db, visit, after, ChangeKind(v, after), actor, now);
    }
  }

  lemma TransitionEases(
      db: Db, lead: LeadId, to: Stage, reason: Option<LostReason>, note: bool, actor: Actor, now: Time, agent: AgentId)
    ensures var r := AddTransition(db, lead, to, reason, note, actor, now).0;
      NoNewOpen(db.visits, r.visits) && Eases(db.visits, r.visits, agent)
  {
    if TransitionRefusal(db, lead, to, reason, actor).None? && Terminal(to) {
      var noted := Transitioned(db, lead, to, reason, note, actor, now);
      CancelOpenShape(noted, lead, actor, now, 0);
    }
  }

  /** The guarantee every other request gives a lock holder. */
  lemma OthersEase(s: Sys, cfg: Config, req: Request, now: Time, agent: AgentId)
    requires !req.RequestVisitReq? && LockFree(s, req)
    ensures var r := Handle(s.db, cfg, req, now);
      NoNewOpen(s.db.visits, r.visits) && (agent in s.locks ==> Eases(s.db.visits, r.visits, agent))
  {
    match req
    case PatchVisitReq(visit, patch, actor) => PatchEases(s, cfg, visit, patch, actor, now, agent);
    case AddTransitionReq(lead, to, reason, note, actor) =>
      TransitionEases(s.db, lead, to, reason, note, actor, now, agent);
    case CreateLeadReq(client, listing, message, author, agency) =>
      assert CreateLead(s.db, client, listing, message, author, agency, now).0.visits == s.db.visits;
    case ReassignReq(lead, target, actor) => assert Reassign(s.db, lead, target, actor).0.visits == s.db.visits;
    case SweepReq(_, _) => assert Handle(s.db, cfg, req, now).visits == s.db.visits;
    case _ => QuietRequestsTouchNothing(s.db, cfg, req, now);
  }

  // ------------------------------------------------------------ dates of the stage log

  lemma {:induction false} RowsGrow(a: seq<Transition>, b: seq<Transition>, l: LeadId)
    requires a <= b
    ensures RowsOf(a, l) <= RowsOf(b, l)
  {
    if a == b {
    } else {
      var n := |b| - 1;
      assert a <= b[..n];
      RowsGrow(a, b[..n], l);
    }
  }

  /** A lead still at INTERESTED has only its opening row, so a transaction that started after it
    * is still the newest, however long it took. */
  lemma InterestedLogStands(a: Db, b: Db, l: LeadId, now: Time, later: Time, at: Time)
    requires Core(a, now) && Core(b, later) && a.transitions <= b.transitions
    requires l < |a.leads| && l < |b.leads| && b.leads[l].stage.Interested?
    requires a.leads[l].stage.Interested? ==> Newest(a.transitions, l, at)
    ensures Newest(b.transitions, l, at)
  {
    EveryLeadsLogIsLegal(a, now, l);
    EveryLeadsLogIsLegal(b, later, l);
    var rows := RowsOf(b.transitions, l);
    LegalPathIsShort(rows);
    RowsGrow(a.transitions, b.transitions, l);
    assert RowsOf(a.transitions, l) == rows;
    RowsAreTheLeads(a.transitions, l);
    RowsAreTheLeads(b.transitions, l);
    forall i | 0 <= i < |b.transitions| && b.transitions[i].lead == l ensures b.transitions[i].at <= at {
      assert b.transitions[i] in rows;
      var j :| 0 <= j < |a.transitions| && a.transitions[j] == b.transitions[i];
    }
  }
}

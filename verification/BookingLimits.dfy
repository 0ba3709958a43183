/** What concurrent bookings promise only under a discipline, with the run that breaks it otherwise. */
module BookingLimits {
  import opened Domain
  import opened Store
  import opened Invariants
  import opened Requests
  import opened Runs
  import opened History
  import opened Booking
  import opened BookingSafety
  import CalendarImport
  import Effects

  /** A booking for the lead is in progress. */
  ghost predicate BookingOn(s: Sys, lead: LeadId) {
    exists tx :: tx in s.bookings && InFlight(s.bookings[tx]) && s.bookings[tx].lead == lead
  }

  /** Only this booking's counter moved. */
  ghost predicate OnlyCounter(s: Sys, r: Sys, tx: Tx) {
    && tx in s.bookings && r.bookings.Keys == s.bookings.Keys
    && (forall other :: other in s.bookings && other != tx ==> r.bookings[other] == s.bookings[other])
    && r.bookings[tx] == s.bookings[tx].(pc := r.bookings[tx].pc)
  }

  /** What a step of a booking itself does short of beginning and inserting: it moves that
    * booking's counter, and only past checks that hold. */
  ghost predicate Counted(s: Sys, cfg: Config, r: Sys, tx: Tx) {
    && OnlyCounter(s, r, tx) && r.db == s.db
    && var b, c := s.bookings[tx], r.bookings[tx];
       && (InFlight(c) ==> InFlight(b))
       && (PastTheLook(c) ==> PastTheLook(b) || FirstOpen(s.db.visits, b.lead).None?)
       && (c.pc.Fitting? ==> MustFit(cfg, b.actor) ==> SlotOpen(s.db, b.owner, b.start, b.minutes, None))
       && !(c.pc.Finished? && c.pc.outcome.Created?)
       && (c.pc.Finished? && c.pc.outcome.Existing? ==>
             AgainstOpen(s.db.visits, b.lead, b.start, b.minutes) == Some(c.pc.outcome))
  }

  lemma CounterStep(s: Sys, cfg: Config, a: Action)
    requires Enabled(s, a) && !a.act.Atomic? && !a.act.Begin? && !a.act.Insert?
    ensures Counted(s, cfg, Next(s, cfg, a), a.act.tx)
  {
  }

  /** What an insert does: it books, or finds that the lead has an open visit after all. */
  ghost predicate Inserted(s: Sys, r: Sys, tx: Tx) {
    && OnlyCounter(s, r, tx)
    && var b := s.bookings[tx];
       if FirstOpen(s.db.visits, b.lead).Some? then
         r.db == s.db && r.bookings[tx].pc == Finished(Refused(DuplicateOpenVisit))
       else
         && r.bookings[tx].pc == Finished(Created(|s.db.visits|))
         && Booked(s.db, r.db, b.lead, b.owner, b.start, b.minutes)
  }

  lemma InsertStep(s: Sys, cfg: Config, a: Action)
    requires Enabled(s, a) && a.act.Insert? && s.bookings[a.act.tx].lead < |s.db.leads|
    ensures Inserted(s, Next(s, cfg, a), a.act.tx)
  {
    var b := s.bookings[a.act.tx];
    if FirstOpen(s.db.visits, b.lead).None? {
      BookLeavesOwners(s.db, b.lead, b.owner, b.start, b.minutes, b.actor, b.startedAt);
      assert Next(s, cfg, a).db == Book(s.db, b.lead, b.owner, b.start, b.minutes, b.actor, b.startedAt);
    }
  }

  // ------------------------------------------------------------ the IntegrityError branch

  /** The lead does not change hands while a booking for it is in progress. */
  ghost predicate NoHandover(lead: LeadId, s: Sys, a: Action) {
    a.act.Atomic? && a.act.req.ReassignReq? && a.act.req.lead == lead ==> !BookingOn(s, lead)
  }

  ghost function HandoverRule(lead: LeadId): (Sys, Action) -> bool {
    (s: Sys, a: Action) => NoHandover(lead, s, a)
  }

  predicate PastTheLook(b: Booking) {
    b.pc.NoOpenVisit? || b.pc.NoClash? || b.pc.Fitting?
  }

  /** A booking of the lead in progress still knows its owner, and once it has found no open visit
    * there is none. */
  ghost predicate Knows(s: Sys, b: Booking, lead: LeadId) {
    b.lead == lead && InFlight(b) ==>
      && lead < |s.db.leads| && s.db.leads[lead].agent == b.owner
      && (PastTheLook(b) ==> forall i :: 0 <= i < |s.db.visits| ==> !OpenFor(s.db.visits[i], lead))
  }

  ghost predicate Owned(s: Sys, lead: LeadId) {
    forall tx :: tx in s.bookings ==> Knows(s, s.bookings[tx], lead)
  }

  lemma AtomicKeepsOwned(s: Sys, cfg: Config, a: Action, lead: LeadId)
    requires SysInv(s) && Owned(s, lead) && Enabled(s, a) && a.act.Atomic? && NoHandover(lead, s, a)
    ensures Owned(Next(s, cfg, a), lead)
  {
    var r := Next(s, cfg, a);
    OthersLeaveOwners(s.db, cfg, a.act.req, a.now);
    OthersEase(s, cfg, a.act.req, a.now, 0);
    forall tx | tx in r.bookings ensures Knows(r, r.bookings[tx], lead) {
      assert Knows(s, s.bookings[tx], lead);
      if s.bookings[tx].lead == lead && InFlight(s.bookings[tx]) {
        assert BookingOn(s, lead);
      }
    }
  }

  /** The booking that inserts holds its owner's lock, so no other has looked at that lead. */
  lemma InsertedStaysOwned(s: Sys, r: Sys, tx: Tx, lead: LeadId)
    requires SysInv(s) && Owned(s, lead) && Inserted(s, r, tx) && s.bookings[tx].pc.Fitting?
    ensures Owned(r, lead)
    ensures s.bookings[tx].lead == lead ==> r.bookings[tx].pc == Finished(Created(|s.db.visits|))
  {
    assert Knows(s, s.bookings[tx], lead);
    forall other | other in r.bookings ensures Knows(r, r.bookings[other], lead) {
      if FirstOpen(s.db.visits, s.bookings[tx].lead).Some? {
        assert Knows(s, s.bookings[other], lead);
      } else {
        assert Sound(s, tx) && Sound(s, other);
        assert Knows(s, s.bookings[other], lead);
        if other != tx && s.bookings[other].lead == lead && PastTheLook(s.bookings[other]) {
          OneBookingPastTheLook(s, tx, other, lead);
        }
        OtherStaysOwned(s, r, tx, other, lead);
      }
    }
  }

  lemma OtherStaysOwned(s: Sys, r: Sys, tx: Tx, other: Tx, lead: LeadId)
    requires Inserted(s, r, tx) && FirstOpen(s.db.visits, s.bookings[tx].lead).None? && other in s.bookings
    requires Knows(s, s.bookings[other], lead)
    requires other != tx && s.bookings[other].lead == lead && PastTheLook(s.bookings[other]) ==>
      s.bookings[tx].lead != lead
    requires InFlight(r.bookings[other]) ==> other != tx
    ensures Knows(r, r.bookings[other], lead)
  {
    if InFlight(r.bookings[other]) && s.bookings[other].lead == lead && PastTheLook(s.bookings[other]) {
      assert forall i :: 0 <= i < |s.db.visits| ==> r.db.visits[i] == s.db.visits[i];
    }
  }

  /** Two bookings of one lead past the look cannot be: both know the owner, and hold that lock. */
  lemma OneBookingPastTheLook(s: Sys, tx: Tx, other: Tx, lead: LeadId)
    requires tx in s.bookings && other in s.bookings && tx != other && Sound(s, tx) && Sound(s, other)
    requires Knows(s, s.bookings[tx], lead) && Knows(s, s.bookings[other], lead)
    requires PastTheLook(s.bookings[tx]) && PastTheLook(s.bookings[other]) && s.bookings[other].lead == lead
    ensures s.bookings[tx].lead != lead
  {
    assert s.locks[s.bookings[tx].owner] == tx && s.locks[s.bookings[other].owner] == other;
  }

  lemma InsertKeepsOwned(s: Sys, cfg: Config, a: Action, lead: LeadId)
    requires SysInv(s) && Owned(s, lead) && Enabled(s, a) && a.act.Insert?
    ensures Owned(Next(s, cfg, a), lead)
    ensures s.bookings[a.act.tx].lead == lead ==>
      Next(s, cfg, a).bookings[a.act.tx].pc == Finished(Created(|s.db.visits|))
  {
    assert Sound(s, a.act.tx);
    InsertStep(s, cfg, a);
    InsertedStaysOwned(s, Next(s, cfg, a), a.act.tx, lead);
  }

  lemma CountedStaysOwned(s: Sys, cfg: Config, r: Sys, tx: Tx, lead: LeadId)
    requires Owned(s, lead) && Counted(s, cfg, r, tx)
    ensures Owned(r, lead)
  {
    forall other | other in r.bookings ensures Knows(r, r.bookings[other], lead) {
      assert Knows(s, s.bookings[other], lead);
    }
  }

  lemma StepKeepsOwned(s: Sys, cfg: Config, a: Action, lead: LeadId)
    requires SysInv(s) && Owned(s, lead) && Enabled(s, a) && NoHandover(lead, s, a)
    ensures Owned(Next(s, cfg, a), lead)
  {
    if a.act.Atomic? {
      AtomicKeepsOwned(s, cfg, a, lead);
    } else if a.act.Insert? {
      InsertKeepsOwned(s, cfg, a, lead);
    } else if a.act.Begin? {
      forall tx | tx in s.bookings ensures Knows(Next(s, cfg, a), s.bookings[tx], lead) {
        assert Knows(s, s.bookings[tx], lead);
      }
    } else {
      CounterStep(s, cfg, a);
      CountedStaysOwned(s, cfg, Next(s, cfg, a), a.act.tx, lead);
    }
  }

  lemma {:induction false} RunKeepsOwned(s: Sys, cfg: Config, acts: seq<Action>, lead: LeadId)
    requires SysInv(s) && Owned(s, lead) && Valid(s, cfg, acts) && Respects(s, cfg, acts, HandoverRule(lead))
    ensures SysInv(After(s, cfg, acts)) && Owned(After(s, cfg, acts), lead)
    decreases |acts|
  {
    if acts != [] {
      StepKeeps(s, cfg, acts[0]);
      StepKeepsOwned(s, cfg, acts[0], lead);
      RunKeepsOwned(Next(s, cfg, acts[0]), cfg, acts[1..], lead);
    }
  }

  /** Unless its own lead changes hands mid-booking, an insert that has passed its checks always
    * creates the visit, whatever happens to other leads: the unique index never fires. */
  lemma InsertNeverFails(s: Sys, cfg: Config, acts: seq<Action>, a: Action)
    requires Fresh(s) && Valid(s, cfg, acts) && Enabled(After(s, cfg, acts), a) && a.act.Insert?
    requires Respects(s, cfg, acts, HandoverRule(After(s, cfg, acts).bookings[a.act.tx].lead))
    ensures var r := After(s, cfg, acts);
      Next(r, cfg, a).bookings[a.act.tx].pc == Finished(Created(|r.db.visits|))
  {
    var lead := After(s, cfg, acts).bookings[a.act.tx].lead;
    assert SysInv(s) && Owned(s, lead);
    RunKeepsOwned(s, cfg, acts, lead);
    InsertKeepsOwned(After(s, cfg, acts), cfg, a, lead);
  }

  // ------------------------------------------------------------ closed leads

  /** A closed lead has no visit on the calendar. */
  ghost predicate FreeIfClosed(db: Db, lead: LeadId) {
    lead < |db.leads| && Terminal(db.leads[lead].stage) ==>
      forall i :: 0 <= i < |db.visits| ==> !OpenFor(db.visits[i], lead)
  }

  /** A booking is about to insert a visit on a lead that has been closed since the booking read
    * it: the stage is not read again under the lock. */
  predicate InsertsOnClosed(s: Sys, a: Action, lead: LeadId) {
    && a.act.Insert? && a.act.tx in s.bookings && s.bookings[a.act.tx].lead == lead
    && lead < |s.db.leads| && Terminal(s.db.leads[lead].stage) && FirstOpen(s.db.visits, lead).None?
  }

  /** Only add_transition to WON or LOST closes a lead, and only its own. */
  lemma OthersCloseNothing(db: Db, cfg: Config, req: Request, now: Time, l: LeadId)
    requires !req.RequestVisitReq? && l < |db.leads|
    requires !(req.AddTransitionReq? && Terminal(req.to) && req.lead == l)
    ensures var r := Handle(db, cfg, req, now);
      l < |r.leads| && (Terminal(r.leads[l].stage) ==> Terminal(db.leads[l].stage))
  {
    OthersLeaveOwners(db, cfg, req, now);
    match req
    case PatchVisitReq(visit, patch, actor) => PatchLeavesOwners(db, cfg, visit, patch, actor, now);
    case AddTransitionReq(lead, to, reason, note, actor) =>
      TransitionLeavesOwners(db, lead, to, reason, note, actor, now);
    case CreateLeadReq(client, listing, message, author, agency) =>
      assert CreateLead(db, client, listing, message, author, agency, now).0.leads[l] == db.leads[l];
    case ReassignReq(lead, target, actor) =>
      assert Reassign(db, lead, target, actor).0.leads[l].stage == db.leads[l].stage;
    case SweepReq(_, _) => assert Handle(db, cfg, req, now).leads == db.leads;
    case _ => QuietRequestsTouchNothing(db, cfg, req, now);
  }

  /** Closing a lead frees its calendar in the same step; no other request gives a closed lead a
    * visit. */
  lemma AtomicKeepsFree(s: Sys, cfg: Config, a: Action, lead: LeadId)
    requires SysInv(s) && FreeIfClosed(s.db, lead) && Enabled(s, a) && a.act.Atomic?
    ensures FreeIfClosed(Next(s, cfg, a).db, lead)
  {
    var req := a.act.req;
    CoreLater(s.db, s.clock, a.now);
    OthersEase(s, cfg, req, a.now, 0);
    if req.AddTransitionReq? && Terminal(req.to) && req.lead == lead {
      Effects.TransitionLands(s.db, lead, req.to, req.reason, req.note, req.actor, a.now);
    } else if lead < |s.db.leads| {
      OthersCloseNothing(s.db, cfg, req, a.now, lead);
    }
  }

  lemma InsertedKeepsFree(s: Sys, r: Sys, a: Action, lead: LeadId)
    requires SysInv(s) && FreeIfClosed(s.db, lead) && a.act.Insert? && Inserted(s, r, a.act.tx)
    requires s.bookings[a.act.tx].lead < |s.db.leads| && StagesMeet(s, r, lead)
    ensures FreeIfClosed(r.db, lead) <==> !InsertsOnClosed(s, a, lead)
  {
    if FirstOpen(s.db.visits, s.bookings[a.act.tx].lead).None? {
      assert forall i :: 0 <= i < |s.db.visits| ==> r.db.visits[i] == s.db.visits[i];
      assert OpenFor(r.db.visits[|s.db.visits|], s.bookings[a.act.tx].lead);
    }
  }

  ghost predicate StagesMeet(s: Sys, r: Sys, lead: LeadId) {
    |r.db.leads| == |s.db.leads|
    && (lead < |s.db.leads| ==> (Terminal(r.db.leads[lead].stage) <==> Terminal(s.db.leads[lead].stage)))
  }

  /** A booking neither closes a lead nor reopens one. */
  lemma BookingClosesNothing(s: Sys, cfg: Config, a: Action, lead: LeadId)
    requires Enabled(s, a) && a.act.Insert? && s.bookings[a.act.tx].lead < |s.db.leads|
    ensures StagesMeet(s, Next(s, cfg, a), lead)
  {
    var b := s.bookings[a.act.tx];
    if FirstOpen(s.db.visits, b.lead).None? {
      BookLeavesOwners(s.db, b.lead, b.owner, b.start, b.minutes, b.actor, b.startedAt);
      BookEvolves(s.db, b.lead, b.owner, b.start, b.minutes, b.actor, b.startedAt);
      assert Next(s, cfg, a).db == Book(s.db, b.lead, b.owner, b.start, b.minutes, b.actor, b.startedAt);
    }
  }

  /** Exactly one step puts a closed lead on the calendar: the insert of a booking whose lead was
    * closed after the booking read it. */
  lemma ClosedStaysFreeIff(s: Sys, cfg: Config, a: Action, lead: LeadId)
    requires SysInv(s) && FreeIfClosed(s.db, lead) && Enabled(s, a)
    ensures FreeIfClosed(Next(s, cfg, a).db, lead) <==> !InsertsOnClosed(s, a, lead)
  {
    if a.act.Atomic? {
      AtomicKeepsFree(s, cfg, a, lead);
    } else if a.act.Insert? {
      assert Sound(s, a.act.tx);
      InsertStep(s, cfg, a);
      BookingClosesNothing(s, cfg, a, lead);
      InsertedKeepsFree(s, Next(s, cfg, a), a, lead);
    } else if !a.act.Begin? {
      CounterStep(s, cfg, a);
    }
  }

  ghost function ClosedIsFree(lead: LeadId): Sys -> bool {
    (s: Sys) => FreeIfClosed(s.db, lead)
  }

  function OpenInsertRule(lead: LeadId): (Sys, Action) -> bool {
    (s: Sys, a: Action) => !InsertsOnClosed(s, a, lead)
  }

  /** For each lead and every interleaving: it keeps no visit once closed, at every point of the
    * run, exactly when no booking inserts on it after it was closed. */
  lemma ClosedLeadKeepsNoVisitIff(s: Sys, cfg: Config, acts: seq<Action>, lead: LeadId)
    requires SysInv(s) && FreeIfClosed(s.db, lead) && Valid(s, cfg, acts)
    ensures Throughout(s, cfg, acts, ClosedIsFree(lead)) <==> Respects(s, cfg, acts, OpenInsertRule(lead))
  {
    var holds, rule := ClosedIsFree(lead), OpenInsertRule(lead);
    forall t, a | SysInv(t) && holds(t) && Enabled(t, a) ensures holds(Next(t, cfg, a)) <==> rule(t, a) {
      ClosedStaysFreeIff(t, cfg, a, lead);
    }
    ExactForRuns(s, cfg, acts, holds, rule);
  }

  lemma CoreLater(db: Db, now: Time, later: Time)
    requires Core(db, now) && now <= later
    ensures Core(db, later)
  {
  }

  // ------------------------------------------------------------ closed leads: a discipline

  /** The lead is not closed while a booking for it is in progress. */
  ghost predicate NoClosing(lead: LeadId, s: Sys, a: Action) {
    a.act.Atomic? && a.act.req.AddTransitionReq? && Terminal(a.act.req.to) && a.act.req.lead == lead ==>
      !BookingOn(s, lead)
  }

  ghost function ClosingRule(lead: LeadId): (Sys, Action) -> bool {
    (s: Sys, a: Action) => NoClosing(lead, s, a)
  }

  ghost predicate StillOpen(s: Sys, lead: LeadId) {
    BookingOn(s, lead) ==> lead < |s.db.leads| && !Terminal(s.db.leads[lead].stage)
  }

  lemma StepKeepsOpen(s: Sys, cfg: Config, a: Action, lead: LeadId)
    requires SysInv(s) && StillOpen(s, lead) && Enabled(s, a) && NoClosing(lead, s, a)
    ensures StillOpen(Next(s, cfg, a), lead)
  {
    var r := Next(s, cfg, a);
    if a.act.Atomic? {
      assert BookingOn(r, lead) ==> BookingOn(s, lead);
      if BookingOn(s, lead) {
        OthersCloseNothing(s.db, cfg, a.act.req, a.now, lead);
      }
    } else if a.act.Insert? {
      assert Sound(s, a.act.tx);
      InsertStep(s, cfg, a);
      BookingClosesNothing(s, cfg, a, lead);
      assert BookingOn(r, lead) ==> BookingOn(s, lead);
    } else if a.act.Begin? {
      if tx :| tx in r.bookings && InFlight(r.bookings[tx]) && r.bookings[tx].lead == lead {
        assert tx != a.act.tx ==> BookingOn(s, lead);
      }
    } else {
      CounterStep(s, cfg, a);
      assert BookingOn(r, lead) ==> BookingOn(s, lead);
    }
  }

  lemma {:induction false} NotClosedMidBooking(s: Sys, cfg: Config, acts: seq<Action>, lead: LeadId)
    requires SysInv(s) && StillOpen(s, lead) && Valid(s, cfg, acts) && Respects(s, cfg, acts, ClosingRule(lead))
    ensures Respects(s, cfg, acts, OpenInsertRule(lead))
    decreases |acts|
  {
    if acts != [] {
      if acts[0].act.Insert? && s.bookings[acts[0].act.tx].lead == lead {
        assert BookingOn(s, lead);
      }
      StepKeeps(s, cfg, acts[0]);
      StepKeepsOpen(s, cfg, acts[0], lead);
      NotClosedMidBooking(Next(s, cfg, acts[0]), cfg, acts[1..], lead);
    }
  }

  /** In particular a lead that is never closed while a booking for it is in progress keeps no visit
    * once closed, whatever happens to other leads. */
  lemma ClosedLeadsKeepNoVisit(s: Sys, cfg: Config, acts: seq<Action>, lead: LeadId)
    requires Fresh(s) && Valid(s, cfg, acts) && Respects(s, cfg, acts, ClosingRule(lead))
    ensures Throughout(s, cfg, acts, ClosedIsFree(lead)) && FreeIfClosed(After(s, cfg, acts).db, lead)
  {
    assert SysInv(s) && StillOpen(s, lead);
    NotClosedMidBooking(s, cfg, acts, lead);
    ClosedLeadKeepsNoVisitIff(s, cfg, acts, lead);
    ThroughoutEndsWell(s, cfg, acts, ClosedIsFree(lead));
  }

  /** For all leads at once: the calendar never holds a closed lead's visit exactly when no booking
    * ever inserts on a closed lead. */
  lemma NoClosedLeadKeepsAVisitIff(s: Sys, cfg: Config, acts: seq<Action>)
    requires SysInv(s) && ClosedFree(s.db.visits, s.db.leads) && Valid(s, cfg, acts)
    ensures Throughout(s, cfg, acts, AllClosedFree()) <==> Respects(s, cfg, acts, AllOpenInserts())
  {
    var holds, rule := AllClosedFree(), AllOpenInserts();
    forall t, a | SysInv(t) && holds(t) && Enabled(t, a) ensures holds(Next(t, cfg, a)) <==> rule(t, a) {
      StepKeeps(t, cfg, a);
      ClosedFreeByLead(t.db, t.clock);
      ClosedFreeByLead(Next(t, cfg, a).db, a.now);
      forall lead: LeadId ensures FreeIfClosed(Next(t, cfg, a).db, lead) <==> !InsertsOnClosed(t, a, lead) {
        ClosedStaysFreeIff(t, cfg, a, lead);
      }
    }
    ExactForRuns(s, cfg, acts, holds, rule);
  }

  ghost function AllClosedFree(): Sys -> bool {
    (s: Sys) => ClosedFree(s.db.visits, s.db.leads)
  }

  ghost function AllOpenInserts(): (Sys, Action) -> bool {
    (s: Sys, a: Action) => forall lead: LeadId :: !InsertsOnClosed(s, a, lead)
  }

  lemma ClosedFreeByLead(db: Db, now: Time)
    requires Core(db, now)
    ensures ClosedFree(db.visits, db.leads) <==> forall lead: LeadId :: FreeIfClosed(db, lead)
  {
    if forall lead: LeadId :: FreeIfClosed(db, lead) {
      forall i | 0 <= i < |db.visits| && Blocking(db.visits[i].status)
        ensures !Terminal(db.leads[db.visits[i].lead].stage)
      {
        assert FreeIfClosed(db, db.visits[i].lead);
        assert OpenFor(db.visits[i], db.visits[i].lead);
      }
    }
  }

  // ------------------------------------------------------------ time off

  /** No blocking visit overlaps time off its agent typed in. Imported busy time is exempt. */
  ghost predicate ManualClear(db: Db) {
    forall v, k :: 0 <= v < |db.visits| && Blocking(db.visits[v].status)
      && k in db.timeOff && k.Manual? && db.timeOff[k].agent == db.visits[v].agent
      ==> !Overlaps(Span(db.visits[v]), db.timeOff[k].span)
  }

  ghost predicate OffClear(timeOff: map<OffKey, TimeOff>, agent: AgentId, span: Interval) {
    forall k :: k in timeOff && k.Manual? && timeOff[k].agent == agent ==> !Overlaps(span, timeOff[k].span)
  }

  /** Where the step puts a visit on the calendar, if anywhere, its agent has typed in no time off. */
  ghost predicate LandsClear(cfg: Config, s: Sys, a: Action) {
    match a.act
    case Insert(tx) =>
      tx in s.bookings && FirstOpen(s.db.visits, s.bookings[tx].lead).None? ==>
        OffClear(s.db.timeOff, s.bookings[tx].owner, Slot(s.bookings[tx]))
    case Atomic(PatchVisitReq(visit, p, actor)) =>
      Moving(p) && PatchRefusal(s.db, cfg, visit, p, actor, a.now).None? ==>
        var after := Patched(s.db.visits[visit], p);
        Blocking(after.status) ==> OffClear(s.db.timeOff, after.agent, Span(after))
    case _ => true
  }

  /** Whoever puts a visit on the calendar in this step is held to published slots: a bot, or anybody
    * when availability is enforced. */
  predicate ActsHeld(cfg: Config, s: Sys, a: Action) {
    match a.act
    case Insert(tx) => tx in s.bookings ==> MustFit(cfg, s.bookings[tx].actor)
    case Atomic(PatchVisitReq(_, p, actor)) => Moving(p) ==> MustFit(cfg, actor)
    case _ => true
  }

  function HeldRule(cfg: Config): (Sys, Action) -> bool {
    (s: Sys, a: Action) => ActsHeld(cfg, s, a)
  }

  /** A booking held to slots that has passed the slot check found no typed-in time off there, and
    * there still is none: the agent's lock keeps it out. */
  ghost predicate FitsClear(s: Sys, cfg: Config, tx: Tx)
    requires tx in s.bookings
  {
    var b := s.bookings[tx];
    b.pc.Fitting? && MustFit(cfg, b.actor) ==> OffClear(s.db.timeOff, b.owner, Slot(b))
  }

  ghost predicate HeldFits(s: Sys, cfg: Config) {
    forall tx :: tx in s.bookings ==> FitsClear(s, cfg, tx)
  }

  /** Without the agent's lock nobody adds time off to their calendar. */
  ghost predicate NoNewManual(before: map<OffKey, TimeOff>, after: map<OffKey, TimeOff>, agent: AgentId) {
    forall k :: k in after && k.Manual? && after[k].agent == agent ==> k in before && before[k] == after[k]
  }

  lemma ReconcilingAddsNoManual(
      db: Db, cfg: Config, agent: AgentId, fetch: Fetch, lockFree: bool, now: Time, owner: AgentId)
    ensures NoNewManual(db.timeOff, SyncCalendar(db, cfg, agent, fetch, lockFree, now).0.timeOff, owner)
  {
    if agent in db.calendars && fetch.Feed? && lockFree {
      var blocks := CalendarImport.Parse(fetch.events);
      var after := CalendarImport.Reconcile(db.timeOff, agent, now, WindowEnd(cfg, now), blocks);
      forall k | k in after && k.Manual? ensures k in db.timeOff && db.timeOff[k] == after[k] {
        CalendarImport.ReconciledRow(db.timeOff, agent, now, WindowEnd(cfg, now), blocks, k);
      }
    }
  }

  lemma OthersAddNoManual(s: Sys, cfg: Config, req: Request, now: Time, owner: AgentId)
    requires !req.RequestVisitReq? && LockFree(s, req)
    ensures owner in s.locks || !req.AddTimeOffReq? ==>
      NoNewManual(s.db.timeOff, Handle(s.db, cfg, req, now).timeOff, owner)
  {
    match req
    case SyncCalendarReq(agent, fetch, lockFree) =>
      ReconcilingAddsNoManual(s.db, cfg, agent, fetch, lockFree, now, owner);
    case _ =>
  }

  /** Replacing one visit's row spoils the calendar exactly when the new place does. */
  lemma ReplacedStaysClearIff(a: Db, b: Db, visit: VisitId, after: Visit)
    requires ManualClear(a) && visit < |a.visits| && after.agent == a.visits[visit].agent
    requires b.timeOff == a.timeOff && b.visits == a.visits[visit := after]
    ensures ManualClear(b) <==> (Blocking(after.status) ==> OffClear(a.timeOff, after.agent, Span(after)))
  {
    assert b.visits[visit] == after;
  }

  /** A patch that is accepted, moving or not, keeps the calendar clear of typed-in time off exactly
    * when the visit it leaves is clear or no longer occupies the calendar. */
  lemma PatchStaysClearIff(db: Db, cfg: Config, visit: VisitId, p: Patch, actor: Actor, now: Time)
    requires ManualClear(db) && PatchRefusal(db, cfg, visit, p, actor, now).None?
    ensures var after := Patched(db.visits[visit], p);
      ManualClear(PatchVisit(db, cfg, visit, p, actor, now).0)
      <==> (Blocking(after.status) ==> OffClear(db.timeOff, after.agent, Span(after)))
  {
    PatchedIsLegal(db, visit, p, actor);
    var v := db.visits[visit];
    var after := Patched(v, p);
    var r := PatchVisit(db, cfg, visit, p, actor, now).0;
    if after == v {
      assert db.visits[visit := after] == db.visits;
    } else {
      ChangeVisitUnfolds(db, visit, after, ChangeKind(v, after), actor, now);
    }
    ReplacedStaysClearIff(db, r, visit, after);
  }

  /** A visit that stays where it was stays clear. */
  lemma UnmovedIsClear(db: Db, visit: VisitId, p: Patch, actor: Actor)
    requires ManualClear(db) && StatusRefusal(db, visit, p, actor).None? && !Moving(p)
    ensures var after := Patched(db.visits[visit], p);
      Blocking(after.status) ==> OffClear(db.timeOff, after.agent, Span(after))
  {
    PatchedIsLegal(db, visit, p, actor);
  }

  /** Fewer or the same visits in place, and no new manual rows: nothing can come to overlap. */
  lemma ClearWhenEased(a: Db, b: Db)
    requires ManualClear(a)
    requires forall agent :: Eases(a.visits, b.visits, agent) && NoNewManual(a.timeOff, b.timeOff, agent)
    ensures ManualClear(b)
  {
    forall v, k | 0 <= v < |b.visits| && Blocking(b.visits[v].status)
      && k in b.timeOff && k.Manual? && b.timeOff[k].agent == b.visits[v].agent
      ensures !Overlaps(Span(b.visits[v]), b.timeOff[k].span)
    {
      assert Eases(a.visits, b.visits, b.visits[v].agent);
      assert NoNewManual(a.timeOff, b.timeOff, b.visits[v].agent);
      assert Occupies(b.visits[v], b.visits[v].agent);
    }
  }

  lemma AtomicStaysClearIff(s: Sys, cfg: Config, a: Action)
    requires ManualClear(s.db) && Enabled(s, a) && a.act.Atomic?
    ensures ManualClear(Next(s, cfg, a).db) <==> LandsClear(cfg, s, a)
  {
    var req := a.act.req;
    if req.PatchVisitReq? {
      if PatchRefusal(s.db, cfg, req.visit, req.patch, req.actor, a.now).None? {
        PatchStaysClearIff(s.db, cfg, req.visit, req.patch, req.actor, a.now);
        if !Moving(req.patch) {
          UnmovedIsClear(s.db, req.visit, req.patch, req.actor);
        }
      }
    } else if req.AddTimeOffReq? {
      AddedOffIsClear(s.db, req.agent, req.agency, req.span);
    } else {
      OthersStayClear(s, cfg, req, a.now);
    }
  }

  /** Time-off requests but for adding, imports, transitions and the rest only ease. */
  lemma OthersStayClear(s: Sys, cfg: Config, req: Request, now: Time)
    requires ManualClear(s.db)
    requires !req.RequestVisitReq? && !req.PatchVisitReq? && !req.AddTimeOffReq?
    ensures ManualClear(Handle(s.db, cfg, req, now))
  {
    var r := Handle(s.db, cfg, req, now);
    forall agent ensures Eases(s.db.visits, r.visits, agent) && NoNewManual(s.db.timeOff, r.timeOff, agent) {
      var holding := s.(locks := map[agent := 0]);
      OthersEase(holding, cfg, req, now, agent);
      OthersAddNoManual(holding, cfg, req, now, agent);
    }
    ClearWhenEased(s.db, r);
  }

  lemma AddedOffIsClear(db: Db, agent: AgentId, agency: nat, span: Interval)
    requires ManualClear(db)
    ensures ManualClear(AddTimeOff(db, agent, agency, span).0)
  {
    forall v | 0 <= v < |db.visits| && Occupies(db.visits[v], agent) && !Clash(db.visits, agent, span, None)
      ensures !Overlaps(Span(db.visits[v]), span)
    {
      assert None != Some(v);
    }
  }

  /** An insert that creates spoils the calendar exactly when its slot does. */
  lemma InsertedStaysClearIff(s: Sys, r: Sys, tx: Tx)
    requires ManualClear(s.db) && Inserted(s, r, tx)
    ensures ManualClear(r.db) <==>
      (FirstOpen(s.db.visits, s.bookings[tx].lead).None? ==>
         OffClear(s.db.timeOff, s.bookings[tx].owner, Slot(s.bookings[tx])))
  {
    if FirstOpen(s.db.visits, s.bookings[tx].lead).None? {
      var n := |s.db.visits|;
      assert forall i :: 0 <= i < n ==> r.db.visits[i] == s.db.visits[i];
      assert Span(r.db.visits[n]) == Slot(s.bookings[tx]) && Blocking(r.db.visits[n].status);
    }
  }

  /** Every step keeps visits off typed-in time off exactly when it puts no visit onto any: time off
    * added or removed, imports, closes and the rest never break it. */
  lemma StepStaysClearIff(s: Sys, cfg: Config, a: Action)
    requires SysInv(s) && ManualClear(s.db) && Enabled(s, a)
    ensures ManualClear(Next(s, cfg, a).db) <==> LandsClear(cfg, s, a)
  {
    if a.act.Atomic? {
      AtomicStaysClearIff(s, cfg, a);
    } else if a.act.Insert? {
      assert Sound(s, a.act.tx);
      InsertStep(s, cfg, a);
      InsertedStaysClearIff(s, Next(s, cfg, a), a.act.tx);
    } else if !a.act.Begin? {
      CounterStep(s, cfg, a);
    }
  }

  ghost function OffTimeOff(): Sys -> bool {
    (s: Sys) => ManualClear(s.db)
  }

  ghost function ClearLandings(cfg: Config): (Sys, Action) -> bool {
    (s: Sys, a: Action) => LandsClear(cfg, s, a)
  }

  /** In every interleaving no blocking visit ever overlaps time off its agent typed in, at every
    * point of the run, exactly when every insert and every move lands clear of it. */
  lemma VisitsAvoidTimeOffIff(s: Sys, cfg: Config, acts: seq<Action>)
    requires SysInv(s) && ManualClear(s.db) && Valid(s, cfg, acts)
    ensures Throughout(s, cfg, acts, OffTimeOff()) <==> Respects(s, cfg, acts, ClearLandings(cfg))
  {
    var holds, rule := OffTimeOff(), ClearLandings(cfg);
    forall t, a | SysInv(t) && holds(t) && Enabled(t, a) ensures holds(Next(t, cfg, a)) <==> rule(t, a) {
      StepStaysClearIff(t, cfg, a);
    }
    ExactForRuns(s, cfg, acts, holds, rule);
  }

  // ------------------------------------------------------------ time off: held to slots

  /** A move held to published slots lands clear. */
  lemma HeldMovesLandClear(s: Sys, cfg: Config, a: Action)
    requires ForwardOff(s.db.timeOff) && Enabled(s, a) && a.act.Atomic? && ActsHeld(cfg, s, a)
    ensures LandsClear(cfg, s, a)
  {
    var req := a.act.req;
    if req.PatchVisitReq? && Moving(req.patch)
      && PatchRefusal(s.db, cfg, req.visit, req.patch, req.actor, a.now).None?
    {
      var after := Patched(s.db.visits[req.visit], req.patch);
      SlotsAreClear(s.db, after.agent, after.start, after.minutes, Some(req.visit));
    }
  }

  lemma AtomicKeepsFits(s: Sys, cfg: Config, a: Action)
    requires SysInv(s) && HeldFits(s, cfg) && Enabled(s, a) && a.act.Atomic?
    ensures HeldFits(Next(s, cfg, a), cfg)
  {
    var r := Next(s, cfg, a);
    forall tx | tx in r.bookings ensures FitsClear(r, cfg, tx) {
      assert Sound(s, tx) && FitsClear(s, cfg, tx);
      OthersAddNoManual(s, cfg, a.act.req, a.now, s.bookings[tx].owner);
    }
  }

  lemma SlotsAreClear(db: Db, owner: AgentId, start: Time, minutes: Minutes, exclude: Option<VisitId>)
    requires ForwardOff(db.timeOff)
    ensures SlotOpen(db, owner, start, minutes, exclude) ==>
      OffClear(db.timeOff, owner, Interval(start, VisitEnd(start, minutes)))
  {
    if SlotOpen(db, owner, start, minutes, exclude) {
      forall k | k in db.timeOff && k.Manual? && db.timeOff[k].agent == owner
        ensures !Overlaps(Interval(start, VisitEnd(start, minutes)), db.timeOff[k].span)
      {
        OpenSlotsAvoidTimeOff(db, owner, start, minutes, exclude, k);
      }
    }
  }

  lemma CountedKeepsFits(s: Sys, cfg: Config, r: Sys, tx: Tx)
    requires ForwardOff(s.db.timeOff) && HeldFits(s, cfg) && Counted(s, cfg, r, tx)
    ensures HeldFits(r, cfg)
  {
    var b := s.bookings[tx];
    SlotsAreClear(s.db, b.owner, b.start, b.minutes, None);
    forall other | other in r.bookings ensures FitsClear(r, cfg, other) {
      assert FitsClear(s, cfg, other);
    }
  }

  lemma InsertedKeepsFits(s: Sys, cfg: Config, r: Sys, tx: Tx)
    requires HeldFits(s, cfg) && Inserted(s, r, tx)
    ensures HeldFits(r, cfg)
  {
    forall other | other in r.bookings ensures FitsClear(r, cfg, other) {
      assert FitsClear(s, cfg, other);
    }
  }

  /** Whatever anybody does, a held booking about to insert has a slot clear of time off. */
  lemma StepKeepsFits(s: Sys, cfg: Config, a: Action)
    requires SysInv(s) && HeldFits(s, cfg) && Enabled(s, a)
    ensures HeldFits(Next(s, cfg, a), cfg)
  {
    var r := Next(s, cfg, a);
    if a.act.Atomic? {
      AtomicKeepsFits(s, cfg, a);
    } else if a.act.Insert? {
      assert Sound(s, a.act.tx);
      InsertStep(s, cfg, a);
      InsertedKeepsFits(s, cfg, r, a.act.tx);
    } else if a.act.Begin? {
      forall tx | tx in s.bookings ensures FitsClear(r, cfg, tx) {
        assert FitsClear(s, cfg, tx);
      }
    } else {
      CounterStep(s, cfg, a);
      CountedKeepsFits(s, cfg, r, a.act.tx);
    }
  }

  lemma {:induction false} RunKeepsFits(s: Sys, cfg: Config, acts: seq<Action>)
    requires SysInv(s) && HeldFits(s, cfg) && Valid(s, cfg, acts)
    ensures SysInv(After(s, cfg, acts)) && HeldFits(After(s, cfg, acts), cfg)
    decreases |acts|
  {
    if acts != [] {
      StepKeeps(s, cfg, acts[0]);
      StepKeepsFits(s, cfg, acts[0]);
      RunKeepsFits(Next(s, cfg, acts[0]), cfg, acts[1..]);
    }
  }

  lemma HeldStepLandsClear(s: Sys, cfg: Config, a: Action)
    requires SysInv(s) && HeldFits(s, cfg) && Enabled(s, a) && ActsHeld(cfg, s, a)
    ensures LandsClear(cfg, s, a)
  {
    if a.act.Atomic? {
      HeldMovesLandClear(s, cfg, a);
    } else if a.act.Insert? {
      assert FitsClear(s, cfg, a.act.tx);
    }
  }

  /** In every interleaving, whoever else books or moves and however: a visit that a bot books or
    * moves, or anybody under enforcement, lands clear of time off its agent typed in. */
  lemma HeldLandingsAreClear(s: Sys, cfg: Config, acts: seq<Action>, a: Action)
    requires Fresh(s) && Valid(s, cfg, acts) && Enabled(After(s, cfg, acts), a)
    requires ActsHeld(cfg, After(s, cfg, acts), a)
    ensures LandsClear(cfg, After(s, cfg, acts), a)
  {
    RunKeepsFits(s, cfg, acts);
    HeldStepLandsClear(After(s, cfg, acts), cfg, a);
  }

  lemma {:induction false} HeldLandsClear(s: Sys, cfg: Config, acts: seq<Action>)
    requires SysInv(s) && HeldFits(s, cfg) && Valid(s, cfg, acts)
    requires Respects(s, cfg, acts, HeldRule(cfg))
    ensures Respects(s, cfg, acts, ClearLandings(cfg))
    decreases |acts|
  {
    if acts != [] {
      StepKeeps(s, cfg, acts[0]);
      StepKeepsFits(s, cfg, acts[0]);
      HeldStepLandsClear(s, cfg, acts[0]);
      HeldLandsClear(Next(s, cfg, acts[0]), cfg, acts[1..]);
    }
  }

  /** In particular no visit ever overlaps typed-in time off when everyone who puts one on the calendar
    * is held to published slots. */
  lemma VisitsAvoidManualTimeOff(s: Sys, cfg: Config, acts: seq<Action>)
    requires Fresh(s) && Valid(s, cfg, acts)
    requires Respects(s, cfg, acts, HeldRule(cfg))
    ensures Throughout(s, cfg, acts, OffTimeOff()) && ManualClear(After(s, cfg, acts).db)
  {
    assert SysInv(s) && HeldFits(s, cfg);
    HeldLandsClear(s, cfg, acts);
    VisitsAvoidTimeOffIff(s, cfg, acts);
    ThroughoutEndsWell(s, cfg, acts, OffTimeOff());
  }

  lemma {:induction false} EnforcedIsHeld(s: Sys, cfg: Config, acts: seq<Action>)
    requires Valid(s, cfg, acts) && cfg.enforce
    ensures Respects(s, cfg, acts, HeldRule(cfg))
    decreases |acts|
  {
    if acts != [] {
      EnforcedIsHeld(Next(s, cfg, acts[0]), cfg, acts[1..]);
    }
  }

  /** And so with ENFORCE_AVAILABILITY on, whoever acts. */
  lemma EnforcedVisitsAvoidTimeOff(s: Sys, cfg: Config, acts: seq<Action>)
    requires Fresh(s) && Valid(s, cfg, acts) && cfg.enforce
    ensures Throughout(s, cfg, acts, OffTimeOff()) && ManualClear(After(s, cfg, acts).db)
  {
    EnforcedIsHeld(s, cfg, acts);
    VisitsAvoidManualTimeOff(s, cfg, acts);
  }
}

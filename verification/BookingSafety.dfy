/** Safety of concurrent bookings: what every interleaving keeps, and what needs more. */
module BookingSafety {
  import opened Domain
  import opened Funnel
  import opened Store
  import opened Invariants
  import opened Requests
  import opened Runs
  import opened History
  import opened Booking

  // ------------------------------------------------------------ leads under other requests

  /** Leads stay in their agency, and only a reassignment of the lead changes its owner. */
  ghost predicate OwnersStay(a: Db, b: Db, req: Request) {
    && a.agents == b.agents && |a.leads| <= |b.leads|
    && forall l :: 0 <= l < |a.leads| ==>
         || b.leads[l].agent == a.leads[l].agent
         || (req.ReassignReq? && req.lead == l && a.leads[l].agent in a.agents
             && InAgency(a, b.leads[l].agent, a.agents[a.leads[l].agent].agency))
  }

  lemma LoggingLeavesOwners(
      db: Db, lead: LeadId, to: Stage, reason: Option<LostReason>, note: bool, actor: Actor, now: Time)
    requires lead < |db.leads| && (to.Lost? ==> reason.Some?)
    ensures var r := Transitioned(db, lead, to, reason, note, actor, now);
      && (forall l :: 0 <= l < |db.leads| ==> r.leads[l].agent == db.leads[l].agent)
      && (forall l :: 0 <= l < |db.leads| && l != lead ==> r.leads[l] == db.leads[l])
      && (!Terminal(to) && Terminal(r.leads[lead].stage) ==> Terminal(db.leads[lead].stage))
  {
  }

  lemma TransitionLeavesOwners(
      db: Db, lead: LeadId, to: Stage, reason: Option<LostReason>, note: bool, actor: Actor, now: Time)
    ensures OwnersStay(db, AddTransition(db, lead, to, reason, note, actor, now).0,
                       AddTransitionReq(lead, to, reason, note, actor))
    ensures !Terminal(to) ==> forall l :: 0 <= l < |db.leads| ==>
      Terminal(AddTransition(db, lead, to, reason, note, actor, now).0.leads[l].stage) ==> Terminal(db.leads[l].stage)
    ensures forall l :: 0 <= l < |db.leads| && l != lead ==>
      AddTransition(db, lead, to, reason, note, actor, now).0.leads[l] == db.leads[l]
  {
    if TransitionRefusal(db, lead, to, reason, actor).None? {
      LoggingLeavesOwners(db, lead, to, reason, note, actor, now);
      var noted := Transitioned(db, lead, to, reason, note, actor, now);
      if Terminal(to) {
        CancelOpenShape(noted, lead, actor, now, 0);
      }
    }
  }

  lemma ChangeLeavesOwners(db: Db, visit: VisitId, after: Visit, kind: EventKind, actor: Actor, at: Time)
    requires visit < |db.visits| && db.visits[visit].lead < |db.leads|
    ensures var r := ChangeVisit(db, visit, after, kind, actor, at);
      && (forall l :: 0 <= l < |db.leads| ==> r.leads[l].agent == db.leads[l].agent)
      && (forall l :: 0 <= l < |db.leads| && Terminal(r.leads[l].stage) ==> Terminal(db.leads[l].stage))
  {
    ChangeVisitUnfolds(db, visit, after, kind, actor, at);
  }

  lemma PatchLeavesOwners(db: Db, cfg: Config, visit: VisitId, p: Patch, actor: Actor, now: Time)
    ensures var r := PatchVisit(db, cfg, visit, p, actor, now).0;
      && OwnersStay(db, r, PatchVisitReq(visit, p, actor))
      && forall l :: 0 <= l < |db.leads| && Terminal(r.leads[l].stage) ==> Terminal(db.leads[l].stage)
  {
    if PatchRefusal(db, cfg, visit, p, actor, now).None? {
      var after := Patched(db.visits[visit], p);
      ChangeLeavesOwners(db, visit, after, ChangeKind(db.visits[visit], after), actor, now);
    }
  }

  lemma OthersLeaveOwners(db: Db, cfg: Config, req: Request, now: Time)
    requires !req.RequestVisitReq?
    ensures OwnersStay(db, Handle(db, cfg, req, now), req)
  {
    match req
    case PatchVisitReq(visit, patch, actor) => PatchLeavesOwners(db, cfg, visit, patch, actor, now);
    case AddTransitionReq(lead, to, reason, note, actor) =>
      TransitionLeavesOwners(db, lead, to, reason, note, actor, now);
    case CreateLeadReq(client, listing, message, author, agency) =>
      assert OwnersStay(db, CreateLead(db, client, listing, message, author, agency, now).0, req);
    case ReassignReq(lead, target, actor) => assert OwnersStay(db, Reassign(db, lead, target, actor).0, req);
    case SweepReq(_, _) => assert Handle(db, cfg, req, now).leads == db.leads;
    case _ => QuietRequestsTouchNothing(db, cfg, req, now);
  }

  // ------------------------------------------------------------ one step

  lemma AdvancedKeeps(s: Sys, tx: Tx, pc: Pc)
    requires SysInv(s) && tx in s.bookings && Holding(s.bookings[tx]) && Holding(s.bookings[tx].(pc := pc))
    requires pc.NoClash? || pc.Fitting? ==> !Clash(s.db.visits, s.bookings[tx].owner, Slot(s.bookings[tx]), None)
    ensures SysInv(Advanced(s, tx, pc))
  {
    var r := Advanced(s, tx, pc);
    forall other | other in r.bookings ensures Sound(r, other) {
      assert Sound(s, other);
    }
  }

  lemma EndedKeeps(s: Sys, tx: Tx, pc: Pc)
    requires SysInv(s) && tx in s.bookings && InFlight(s.bookings[tx]) && (pc.Finished? || pc.Aborted?)
    ensures SysInv(Ended(s, tx, pc))
    ensures Holding(s.bookings[tx]) ==> s.bookings[tx].owner !in Ended(s, tx, pc).locks
  {
    var r := Ended(s, tx, pc);
    assert Sound(s, tx);
    forall other | other in r.bookings ensures Sound(r, other) {
      assert Sound(s, other);
    }
  }

  lemma AcquireKeeps(s: Sys, tx: Tx)
    requires SysInv(s) && At(s, tx, Waiting) && s.bookings[tx].owner !in s.locks
    ensures SysInv(Advanced(s, tx, Locked).(locks := s.locks[s.bookings[tx].owner := tx]))
  {
    var r := Advanced(s, tx, Locked).(locks := s.locks[s.bookings[tx].owner := tx]);
    forall other | other in r.bookings ensures Sound(r, other) {
      assert Sound(s, other);
    }
  }

  lemma BeginKeeps(s: Sys, cfg: Config, a: Action)
    requires SysInv(s) && Enabled(s, a) && a.act.Begin? && s.clock == a.now
    ensures SysInv(Next(s, cfg, a))
  {
    var r := Next(s, cfg, a);
    forall other | other in r.bookings && other != a.act.tx ensures Sound(r, other) {
      assert Sound(s, other);
    }
  }

  /** A booking commits while others are in progress on other agents' calendars. */
  lemma BookAmongOthers(
      s: Sys, lead: LeadId, owner: AgentId, start: Time, minutes: Minutes, actor: Actor, at: Time)
    requires SysInv(s) && owner !in s.locks && lead < |s.db.leads| && at <= s.clock
    requires s.db.leads[lead].stage.Interested? ==> Newest(s.db.transitions, lead, at)
    requires InAgency(s.db, owner, s.db.agents[s.db.leads[lead].agent].agency)
    requires FirstOpen(s.db.visits, lead).None?
    requires !Clash(s.db.visits, owner, Interval(start, VisitEnd(start, minutes)), None)
    ensures SysInv(s.(db := Book(s.db, lead, owner, start, minutes, actor, at)))
  {
    var db := Book(s.db, lead, owner, start, minutes, actor, at);
    BookKeeps(s.db, lead, owner, start, minutes, actor, at, s.clock);
    BookEvolves(s.db, lead, owner, start, minutes, actor, at);
    BookLeavesOwners(s.db, lead, owner, start, minutes, actor, at);
    BookedEasesOthers(s.db, db, lead, owner, start, minutes);
    OthersStaySound(s, owner, db);
  }

  lemma BookedEasesOthers(a: Db, b: Db, lead: LeadId, owner: AgentId, start: Time, minutes: Minutes)
    requires Booked(a, b, lead, owner, start, minutes)
    ensures forall o :: o != owner ==> Eases(a.visits, b.visits, o)
  {
    forall o, i | o != owner && 0 <= i < |b.visits| && Occupies(b.visits[i], o)
      ensures i < |a.visits| && Occupies(a.visits[i], o) && Span(a.visits[i]) == Span(b.visits[i])
    {
      if i < |a.visits| {
        assert b.visits[..|a.visits|][i] == a.visits[i];
      }
    }
  }

  lemma OthersStaySound(s: Sys, owner: AgentId, db: Db)
    requires SysInv(s) && owner !in s.locks
    requires Core(db, s.clock) && Evolves(s.db, db) && SameSetup(s.db, db) && |db.leads| == |s.db.leads|
    requires forall l :: 0 <= l < |db.leads| ==> db.leads[l].agent == s.db.leads[l].agent
    requires forall o :: o != owner ==> Eases(s.db.visits, db.visits, o)
    ensures SysInv(s.(db := db))
  {
    forall other | other in s.bookings ensures Sound(s.(db := db), other) {
      assert Sound(s, other);
      OtherStaysSound(s, owner, db, other);
    }
  }

  /** New tables in which only an unlocked agent's calendar filled up leave a booking's claims true. */
  lemma OtherStaysSound(s: Sys, owner: AgentId, db: Db, other: Tx)
    requires SysInv(s) && owner !in s.locks && other in s.bookings
    requires Core(db, s.clock) && Evolves(s.db, db) && |db.leads| == |s.db.leads| && db.agents == s.db.agents
    requires forall l :: 0 <= l < |db.leads| ==> db.leads[l].agent == s.db.leads[l].agent
    requires forall o :: o != owner ==> Eases(s.db.visits, db.visits, o)
    ensures Sound(s.(db := db), other)
  {
    assert Sound(s, other);
    var o := s.bookings[other];
    if InFlight(o) {
      if db.leads[o.lead].stage.Interested? {
        InterestedLogStands(s.db, db, o.lead, s.clock, s.clock, o.startedAt);
      }
      if o.pc.NoClash? || o.pc.Fitting? {
        EasedStaysClear(s.db.visits, db.visits, o.owner, Slot(o));
      }
    }
  }

  /** The insert: the checks made under the lock still stand, so the new visit overlaps nothing. */
  lemma InsertKeeps(s: Sys, cfg: Config, a: Action)
    requires SysInv(s) && Enabled(s, a) && a.act.Insert? && s.clock == a.now
    ensures SysInv(Next(s, cfg, a))
  {
    var tx := a.act.tx;
    assert Sound(s, tx);
    if FirstOpen(s.db.visits, s.bookings[tx].lead).Some? {
      EndedKeeps(s, tx, Finished(Refused(DuplicateOpenVisit)));
      assert Next(s, cfg, a) == Ended(s, tx, Finished(Refused(DuplicateOpenVisit)));
    } else {
      CreatingKeeps(s, tx);
      var b, ended := s.bookings[tx], Ended(s, tx, Finished(Created(|s.db.visits|)));
      assert Next(s, cfg, a)
        == ended.(db := Book(s.db, b.lead, b.owner, b.start, b.minutes, b.actor, b.startedAt));
    }
  }

  lemma CreatingKeeps(s: Sys, tx: Tx)
    requires SysInv(s) && At(s, tx, Fitting) && FirstOpen(s.db.visits, s.bookings[tx].lead).None?
    ensures s.bookings[tx].lead < |s.db.leads|
    ensures var b, ended := s.bookings[tx], Ended(s, tx, Finished(Created(|s.db.visits|)));
      SysInv(ended.(db := Book(s.db, b.lead, b.owner, b.start, b.minutes, b.actor, b.startedAt)))
  {
    var b, ended := s.bookings[tx], Ended(s, tx, Finished(Created(|s.db.visits|)));
    assert Sound(s, tx);
    EndedKeeps(s, tx, Finished(Created(|s.db.visits|)));
    BookAmongOthers(ended, b.lead, b.owner, b.start, b.minutes, b.actor, b.startedAt);
  }

  /** The tables after a booking, but for its logs: one more visit, nobody's owner changed, no lead
    * closed. */
  ghost predicate Booked(a: Db, b: Db, lead: LeadId, owner: AgentId, start: Time, minutes: Minutes) {
    && SameSetup(a, b) && |b.leads| == |a.leads|
    && (forall l :: 0 <= l < |a.leads| ==> b.leads[l].agent == a.leads[l].agent)
    && (forall l :: 0 <= l < |a.leads| && Terminal(b.leads[l].stage) ==> Terminal(a.leads[l].stage))
    && |b.visits| == |a.visits| + 1 && b.visits[..|a.visits|] == a.visits
    && var v := b.visits[|a.visits|];
       OpenFor(v, lead) && v.agent == owner && v.start == start && v.minutes == minutes
  }

  lemma FunnelLeavesOwners(db: Db, lead: LeadId, actor: Actor, at: Time)
    requires lead < |db.leads|
    ensures var r := SyncFunnel(db, lead, Confirmed, actor, at);
      && (forall l :: 0 <= l < |db.leads| ==> r.leads[l].agent == db.leads[l].agent)
      && (forall l :: 0 <= l < |db.leads| && Terminal(r.leads[l].stage) ==> Terminal(db.leads[l].stage))
  {
  }

  lemma BookLeavesOwners(
      db: Db, lead: LeadId, owner: AgentId, start: Time, minutes: Minutes, actor: Actor, at: Time)
    requires lead < |db.leads|
    ensures Booked(db, Book(db, lead, owner, start, minutes, actor, at), lead, owner, start, minutes)
  {
    var confirmed := BornConfirmed(actor, owner);
    var status := if confirmed then Confirmed else PendingConfirmation;
    var visit := Visit(lead, owner, start, minutes, status, actor.id);
    FunnelLeavesOwners(db.(visits := db.visits + [visit]), lead, actor, at);
  }

  lemma AtomicKeeps(s: Sys, cfg: Config, a: Action)
    requires SysInv(s) && Enabled(s, a) && a.act.Atomic? && s.clock == a.now
    ensures SysInv(Next(s, cfg, a))
  {
    var r := Next(s, cfg, a);
    var req := a.act.req;
    HandleKeepsCore(s.db, cfg, req, a.now);
    HandleKeepsOffRows(s.db, cfg, req, a.now);
    HandleEvolves(s.db, cfg, req, a.now);
    OthersLeaveOwners(s.db, cfg, req, a.now);
    forall tx | tx in r.bookings ensures Sound(r, tx) {
      AtomicKeepsSound(s, cfg, a, tx);
    }
  }

  lemma AtomicKeepsSound(s: Sys, cfg: Config, a: Action, tx: Tx)
    requires SysInv(s) && Enabled(s, a) && a.act.Atomic? && tx in s.bookings && s.clock == a.now
    requires Core(Next(s, cfg, a).db, a.now) && Evolves(s.db, Next(s, cfg, a).db)
    requires OwnersStay(s.db, Next(s, cfg, a).db, a.act.req)
    ensures Sound(Next(s, cfg, a), tx)
  {
    var r := Next(s, cfg, a);
    var b := s.bookings[tx];
    assert Sound(s, tx);
    if InFlight(b) {
      OthersEase(s, cfg, a.act.req, a.now, b.owner);
      if r.db.leads[b.lead].stage.Interested? {
        InterestedLogStands(s.db, r.db, b.lead, s.clock, r.clock, b.startedAt);
      }
      if b.pc.NoClash? || b.pc.Fitting? {
        EasedStaysClear(s.db.visits, r.db.visits, b.owner, Slot(b));
      }
    }
  }

  lemma StepKeepsNow(s: Sys, cfg: Config, a: Action)
    requires SysInv(s) && Enabled(s, a) && s.clock == a.now
    ensures SysInv(Next(s, cfg, a))
  {
    if a.act.Begin? {
      BeginKeeps(s, cfg, a);
    } else if a.act.Atomic? {
      AtomicKeeps(s, cfg, a);
    } else if a.act.Insert? {
      InsertKeeps(s, cfg, a);
    } else if a.act.Acquire? {
      AcquireKeeps(s, a.act.tx);
      var locks := s.locks[s.bookings[a.act.tx].owner := a.act.tx];
      assert Next(s, cfg, a) == Advanced(s, a.act.tx, Locked).(locks := locks);
    } else if a.act.Abort? {
      EndedKeeps(s, a.act.tx, Aborted);
      assert Next(s, cfg, a) == Ended(s, a.act.tx, Aborted);
    } else {
      CheckKeeps(s, cfg, a);
    }
  }

  lemma StepKeeps(s: Sys, cfg: Config, a: Action)
    requires SysInv(s) && Enabled(s, a)
    ensures SysInv(Next(s, cfg, a))
  {
    var now := s.(clock := a.now);
    ClockKeeps(s, a.now);
    StepKeepsNow(now, cfg, a);
    assert Next(s, cfg, a) == Next(now, cfg, a);
  }

  /** The three checks: each moves the booking on, or ends it. */
  lemma CheckKeeps(s: Sys, cfg: Config, a: Action)
    requires SysInv(s) && Enabled(s, a) && s.clock == a.now
    requires a.act.LookForOpen? || a.act.CheckOverlap? || a.act.CheckSlots?
    ensures SysInv(Next(s, cfg, a))
  {
    var tx := a.act.tx;
    var b := s.bookings[tx];
    assert Sound(s, tx);
    if a.act.LookForOpen? {
      var settled := AgainstOpen(s.db.visits, b.lead, b.start, b.minutes);
      if settled.Some? {
        EndedKeeps(s, tx, Finished(settled.value));
      } else {
        AdvancedKeeps(s, tx, NoOpenVisit);
      }
    } else if a.act.CheckOverlap? {
      if Clash(s.db.visits, b.owner, Slot(b), None) {
        EndedKeeps(s, tx, Finished(Refused(Overlap)));
      } else {
        AdvancedKeeps(s, tx, NoClash);
      }
    } else {
      EndedKeeps(s, tx, Finished(Refused(OutsideSlots)));
      AdvancedKeeps(s, tx, Fitting);
    }
  }

  lemma ClockKeeps(s: Sys, later: Time)
    requires SysInv(s) && s.clock <= later
    ensures SysInv(s.(clock := later))
  {
    forall tx | tx in s.bookings ensures Sound(s.(clock := later), tx) {
      assert Sound(s, tx);
    }
  }

  // ------------------------------------------------------------ every run

  lemma {:induction false} RunKeepsSys(s: Sys, cfg: Config, acts: seq<Action>)
    requires SysInv(s) && Valid(s, cfg, acts)
    ensures SysInv(After(s, cfg, acts))
    decreases |acts|
  {
    if acts != [] {
      StepKeeps(s, cfg, acts[0]);
      RunKeepsSys(Next(s, cfg, acts[0]), cfg, acts[1..]);
    }
  }

  /** In every interleaving no two visits of one agent in a blocking status overlap, no lead has
    * two of them, and every log still replays. The schema enforces none of it but the index. */
  lemma NoDoubleBooking(s: Sys, cfg: Config, acts: seq<Action>)
    requires Fresh(s) && Valid(s, cfg, acts)
    ensures NoOverlap(After(s, cfg, acts).db.visits) && OneOpen(After(s, cfg, acts).db.visits)
  {
    assert SysInv(s);
    RunKeepsSys(s, cfg, acts);
  }

  /** A rule that is exact for one step is exact for a run: the property holds throughout exactly
    * when every step respects the rule. */
  lemma {:induction false} ExactForRuns(
      s: Sys, cfg: Config, acts: seq<Action>, holds: Sys -> bool, rule: (Sys, Action) -> bool)
    requires SysInv(s) && holds(s) && Valid(s, cfg, acts)
    requires forall t, a :: SysInv(t) && holds(t) && Enabled(t, a) ==> (holds(Next(t, cfg, a)) <==> rule(t, a))
    ensures Throughout(s, cfg, acts, holds) <==> Respects(s, cfg, acts, rule)
    decreases |acts|
  {
    if acts != [] {
      var next := Next(s, cfg, acts[0]);
      StepKeeps(s, cfg, acts[0]);
      assert holds(next) <==> rule(s, acts[0]);
      if holds(next) {
        ExactForRuns(next, cfg, acts[1..], holds, rule);
      } else {
        assert !Throughout(next, cfg, acts[1..], holds);
      }
    }
  }
}

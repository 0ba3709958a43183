/** Whole runs with PATCH split into its read and its write: exactly when nothing is double-booked,
  * and the runs in which something is. */
module StaleRuns {
  import opened Domain
  import opened Store
  import opened Invariants
  import opened Requests
  import opened Runs
  import opened Booking
  import opened BookingSafety
  import opened BookingLimits
  import opened Interleavings
  import opened StalePatch
  import History

  // ------------------------------------------------------------ where a step may land

  /** The slot of a booking about to create its visit is free now, not only when it was checked. */
  ghost predicate InsertsFree(s: Sys, tx: Tx) {
    tx in s.bookings ==>
      var b := s.bookings[tx];
      b.lead < |s.db.leads| && FirstOpen(s.db.visits, b.lead).None? ==> !Clash(s.db.visits, b.owner, Slot(b), None)
  }

  /** The row a patch writes is off the calendar, or where no other visit of the agent is. */
  ghost predicate WritesFree(db: Db, cfg: Config, r: Reading, now: Time) {
    r.visit < |db.visits| && Writes(db, cfg, r, now) ==>
      var row := NewRow(db, r);
      !(Blocking(row.status) && Clash(db.visits, row.agent, Span(row), Some(r.visit)))
  }

  ghost predicate LandsFree(cfg: Config, s: SplitSys, act: SplitAct) {
    match act
    case Plain(a) => a.act.Insert? ==> InsertsFree(s.sys, a.act.tx)
    case Read(_, _, _, _) => true
    case Write(now, tx) => tx in s.readings ==> WritesFree(s.sys.db, cfg, s.readings[tx], now)
  }

  ghost function FreeLandings(cfg: Config): (SplitSys, SplitAct) -> bool {
    (s: SplitSys, act: SplitAct) => LandsFree(cfg, s, act)
  }

  ghost function NobodyOverlaps(): SplitSys -> bool {
    (s: SplitSys) => NoOverlap(s.sys.db.visits)
  }

  ghost predicate ThroughoutSplit(s: SplitSys, cfg: Config, acts: seq<SplitAct>, holds: SplitSys -> bool)
    requires ValidSplit(s, cfg, acts)
    decreases |acts|
  {
    holds(s) && (acts == [] || ThroughoutSplit(StepSplit(s, cfg, acts[0]), cfg, acts[1..], holds))
  }

  lemma {:induction false} SplitEndsWell(s: SplitSys, cfg: Config, acts: seq<SplitAct>, holds: SplitSys -> bool)
    requires ValidSplit(s, cfg, acts) && ThroughoutSplit(s, cfg, acts, holds)
    ensures holds(AfterSplit(s, cfg, acts))
    decreases |acts|
  {
    if acts != [] {
      SplitEndsWell(StepSplit(s, cfg, acts[0]), cfg, acts[1..], holds);
    }
  }

  // ------------------------------------------------------------ one step

  /** Where every calendar only empties, nothing comes to overlap. */
  lemma EasedNeverOverlaps(before: seq<Visit>, after: seq<Visit>)
    requires NoOverlap(before) && forall agent :: Eases(before, after, agent)
    ensures NoOverlap(after)
  {
    forall i, j | 0 <= i < |after| && 0 <= j < |after| && i != j && Occupies(after[i], after[i].agent)
      && Occupies(after[j], after[i].agent)
      ensures !Overlaps(Span(after[i]), Span(after[j]))
    {
      assert Eases(before, after, after[i].agent);
    }
    forall i, j | 0 <= i < |after| && 0 <= j < |after| && i != j
      && Blocking(after[i].status) && Blocking(after[j].status) && after[i].agent == after[j].agent
      ensures !Overlaps(Span(after[i]), Span(after[j]))
    {
      assert Occupies(after[i], after[i].agent) && Occupies(after[j], after[i].agent);
    }
  }

  lemma PatchNeverOverlaps(db: Db, cfg: Config, visit: VisitId, p: Patch, actor: Actor, now: Time)
    requires NoOverlap(db.visits)
    ensures NoOverlap(PatchVisit(db, cfg, visit, p, actor, now).0.visits)
  {
    if PatchRefusal(db, cfg, visit, p, actor, now).None? {
      PatchedIsLegal(db, visit, p, actor);
      var v := db.visits[visit];
      var after := Patched(v, p);
      ChangeVisitUnfolds(db, visit, after, ChangeKind(v, after), actor, now);
      MovedStaysClear(db.visits, visit, after);
    }
  }

  /** The requests that take one step never double-book, whatever the logs say. */
  lemma RequestsNeverOverlap(s: Sys, cfg: Config, req: Request, now: Time)
    requires NoOverlap(s.db.visits) && !req.RequestVisitReq?
    ensures NoOverlap(Handle(s.db, cfg, req, now).visits)
  {
    if req.PatchVisitReq? {
      PatchNeverOverlaps(s.db, cfg, req.visit, req.patch, req.actor, now);
    } else if req.AddTimeOffReq? {
      QuietRequestsTouchNothing(s.db, cfg, req, now);
    } else {
      var r := Handle(s.db, cfg, req, now);
      forall agent ensures Eases(s.db.visits, r.visits, agent) {
        OthersEase(s.(locks := map[agent := 0]), cfg, req, now, agent);
      }
      EasedNeverOverlaps(s.db.visits, r.visits);
    }
  }

  lemma BookedOverlapsIff(a: Db, b: Db, lead: LeadId, owner: AgentId, start: Time, minutes: Minutes)
    requires NoOverlap(a.visits) && Booked(a, b, lead, owner, start, minutes)
    ensures NoOverlap(b.visits) <==> !Clash(a.visits, owner, Interval(start, VisitEnd(start, minutes)), None)
  {
    var n, span := |a.visits|, Interval(start, VisitEnd(start, minutes));
    assert Span(b.visits[n]) == span && Blocking(b.visits[n].status) && b.visits[n].agent == owner;
    assert forall i :: 0 <= i < n ==> b.visits[i] == a.visits[i];
    if !Clash(a.visits, owner, span, None) {
      forall i | 0 <= i < n && Occupies(a.visits[i], owner)
        ensures !Overlaps(Span(a.visits[i]), span) && !Overlaps(span, Span(a.visits[i]))
      {
        assert None != Some(i);
      }
    }
  }

  lemma InsertOverlapsIff(s: Sys, cfg: Config, a: Action)
    requires NoOverlap(s.db.visits) && Enabled(s, a) && a.act.Insert?
    ensures NoOverlap(Next(s, cfg, a).db.visits) <==> InsertsFree(s, a.act.tx)
  {
    var b := s.bookings[a.act.tx];
    if b.lead < |s.db.leads| {
      InsertStep(s, cfg, a);
      if FirstOpen(s.db.visits, b.lead).None? {
        BookedOverlapsIff(s.db, Next(s, cfg, a).db, b.lead, b.owner, b.start, b.minutes);
      }
    }
  }

  /** A step double-books exactly when the insert or the write it makes, if any, lands where another
    * visit of the agent is. */
  lemma StepOverlapsIff(s: SplitSys, cfg: Config, act: SplitAct)
    requires NoOverlap(s.sys.db.visits) && CanStep(s, act)
    ensures NoOverlap(StepSplit(s, cfg, act).sys.db.visits) <==> LandsFree(cfg, s, act)
  {
    match act
    case Plain(a) =>
      if a.act.Atomic? {
        RequestsNeverOverlap(s.sys, cfg, a.act.req, a.now);
      } else if a.act.Insert? {
        InsertOverlapsIff(s.sys, cfg, a);
      } else if !a.act.Begin? {
        CounterStep(s.sys, cfg, a);
      }
    case Read(_, _, _, _) =>
    case Write(now, tx) =>
      var r := s.readings[tx];
      WriteBackRows(s.sys.db, cfg, r, now);
      if Writes(s.sys.db, cfg, r, now) {
        WriteOverlapsIff(s.sys.db, cfg, r, now);
      }
  }

  // ------------------------------------------------------------ every run

  /** From any calendar without overlaps, with patches split and anything interleaved: no two visits of
    * an agent overlap at any point of the run, exactly when every insert and every write lands free. */
  lemma {:induction false} NoDoubleBookingIff(s: SplitSys, cfg: Config, acts: seq<SplitAct>)
    requires NoOverlap(s.sys.db.visits) && ValidSplit(s, cfg, acts)
    ensures ThroughoutSplit(s, cfg, acts, NobodyOverlaps()) <==> RespectsSplit(s, cfg, acts, FreeLandings(cfg))
    decreases |acts|
  {
    if acts != [] {
      var next := StepSplit(s, cfg, acts[0]);
      StepOverlapsIff(s, cfg, acts[0]);
      if NoOverlap(next.sys.db.visits) {
        NoDoubleBookingIff(next, cfg, acts[1..]);
      } else {
        assert !ThroughoutSplit(next, cfg, acts[1..], NobodyOverlaps());
      }
    }
  }

  /** The unique index needs no discipline: no lead ever has two open visits. */
  lemma StepKeepsOneOpen(s: SplitSys, cfg: Config, act: SplitAct)
    requires OneOpen(s.sys.db.visits) && CanStep(s, act)
    ensures OneOpen(StepSplit(s, cfg, act).sys.db.visits)
  {
    match act
    case Plain(a) =>
      if a.act.Atomic? {
        OthersEase(s.sys, cfg, a.act.req, a.now, 0);
      } else if a.act.Insert? {
        InsertKeepsOneOpen(s.sys, cfg, a);
      } else if !a.act.Begin? {
        CounterStep(s.sys, cfg, a);
      }
    case Read(_, _, _, _) =>
    case Write(now, tx) => WriteBackRows(s.sys.db, cfg, s.readings[tx], now);
  }

  lemma InsertKeepsOneOpen(s: Sys, cfg: Config, a: Action)
    requires OneOpen(s.db.visits) && Enabled(s, a) && a.act.Insert?
    ensures OneOpen(Next(s, cfg, a).db.visits)
  {
    var b := s.bookings[a.act.tx];
    if b.lead < |s.db.leads| {
      InsertStep(s, cfg, a);
      if FirstOpen(s.db.visits, b.lead).None? {
        var after := Next(s, cfg, a).db.visits;
        assert forall i :: 0 <= i < |s.db.visits| ==> after[i] == s.db.visits[i];
      }
    }
  }

  lemma {:induction false} OneOpenAlways(s: SplitSys, cfg: Config, acts: seq<SplitAct>)
    requires OneOpen(s.sys.db.visits) && ValidSplit(s, cfg, acts)
    ensures OneOpen(AfterSplit(s, cfg, acts).sys.db.visits)
    decreases |acts|
  {
    if acts != [] {
      StepKeepsOneOpen(s, cfg, acts[0]);
      OneOpenAlways(StepSplit(s, cfg, acts[0]), cfg, acts[1..]);
    }
  }

  // ------------------------------------------------------------ a discipline

  /** The write finds the columns it was decided by as they were read. */
  predicate Current(s: SplitSys, act: SplitAct) {
    act.Write? && act.writer in s.readings && s.readings[act.writer].visit < |s.sys.db.visits| ==>
      StillAsRead(s.sys.db, s.readings[act.writer])
  }

  function CurrentWrites(): (SplitSys, SplitAct) -> bool {
    (s: SplitSys, act: SplitAct) => Current(s, act)
  }

  /** A booking under its lock still has the lock, and past the overlap check a free slot. */
  ghost predicate Clear(s: Sys, tx: Tx)
    requires tx in s.bookings
  {
    var b := s.bookings[tx];
    && (Holding(b) ==> b.owner in s.locks && s.locks[b.owner] == tx)
    && (b.pc.NoClash? || b.pc.Fitting? ==> !Clash(s.db.visits, b.owner, Slot(b), None))
  }

  ghost predicate AllClear(s: Sys) {
    forall tx :: tx in s.bookings ==> Clear(s, tx)
  }

  /** New tables on which every locked calendar only emptied leave the bookings clear. */
  lemma EasedKeepsClear(s: Sys, db: Db, now: Time)
    requires AllClear(s) && forall agent :: agent in s.locks ==> Eases(s.db.visits, db.visits, agent)
    ensures AllClear(s.(db := db, clock := now))
  {
    var r := s.(db := db, clock := now);
    forall tx | tx in r.bookings ensures Clear(r, tx) {
      assert Clear(s, tx);
      var b := s.bookings[tx];
      if b.pc.NoClash? || b.pc.Fitting? {
        EasedStaysClear(s.db.visits, db.visits, b.owner, Slot(b));
      }
    }
  }

  lemma EndedKeepsClear(s: Sys, tx: Tx, pc: Pc)
    requires AllClear(s) && tx in s.bookings && InFlight(s.bookings[tx]) && (pc.Finished? || pc.Aborted?)
    ensures AllClear(Ended(s, tx, pc))
    ensures Holding(s.bookings[tx]) ==> s.bookings[tx].owner !in Ended(s, tx, pc).locks
  {
    var r := Ended(s, tx, pc);
    assert Clear(s, tx);
    forall other | other in r.bookings ensures Clear(r, other) {
      assert Clear(s, other);
    }
  }

  lemma AdvancedKeepsClear(s: Sys, tx: Tx, pc: Pc)
    requires AllClear(s) && tx in s.bookings && Holding(s.bookings[tx]) && Holding(s.bookings[tx].(pc := pc))
    requires pc.NoClash? || pc.Fitting? ==> !Clash(s.db.visits, s.bookings[tx].owner, Slot(s.bookings[tx]), None)
    ensures AllClear(Advanced(s, tx, pc))
  {
    var r := Advanced(s, tx, pc);
    forall other | other in r.bookings ensures Clear(r, other) {
      assert Clear(s, other) && Clear(s, tx);
    }
  }

  lemma AcquireKeepsClear(s: Sys, tx: Tx)
    requires AllClear(s) && At(s, tx, Waiting) && s.bookings[tx].owner !in s.locks
    ensures AllClear(Advanced(s, tx, Locked).(locks := s.locks[s.bookings[tx].owner := tx]))
  {
    var r := Advanced(s, tx, Locked).(locks := s.locks[s.bookings[tx].owner := tx]);
    forall other | other in r.bookings ensures Clear(r, other) {
      assert Clear(s, other);
    }
  }

  lemma BeginKeepsClear(s: Sys, cfg: Config, a: Action)
    requires AllClear(s) && Enabled(s, a) && a.act.Begin?
    ensures AllClear(Next(s, cfg, a))
  {
    var r := Next(s, cfg, a);
    forall other | other in s.bookings ensures Clear(r, other) {
      assert Clear(s, other);
    }
  }

  lemma InsertKeepsClear(s: Sys, cfg: Config, a: Action)
    requires AllClear(s) && Enabled(s, a) && a.act.Insert? && s.clock == a.now
    ensures AllClear(Next(s, cfg, a))
  {
    var tx := a.act.tx;
    var b := s.bookings[tx];
    if b.lead >= |s.db.leads| || FirstOpen(s.db.visits, b.lead).Some? {
      EndedKeepsClear(s, tx, Finished(Refused(DuplicateOpenVisit)));
      assert Next(s, cfg, a) == Ended(s, tx, Finished(Refused(DuplicateOpenVisit)));
    } else {
      var ended := Ended(s, tx, Finished(Created(|s.db.visits|)));
      var db := Book(s.db, b.lead, b.owner, b.start, b.minutes, b.actor, b.startedAt);
      EndedKeepsClear(s, tx, Finished(Created(|s.db.visits|)));
      BookLeavesOwners(s.db, b.lead, b.owner, b.start, b.minutes, b.actor, b.startedAt);
      BookedEasesOthers(s.db, db, b.lead, b.owner, b.start, b.minutes);
      EasedKeepsClear(ended, db, s.clock);
      assert Next(s, cfg, a) == ended.(db := db, clock := s.clock);
    }
  }

  lemma CheckKeepsClear(s: Sys, cfg: Config, a: Action)
    requires AllClear(s) && Enabled(s, a) && s.clock == a.now
    requires a.act.LookForOpen? || a.act.CheckOverlap? || a.act.CheckSlots?
    ensures AllClear(Next(s, cfg, a))
  {
    var tx := a.act.tx;
    var b := s.bookings[tx];
    assert Clear(s, tx);
    if a.act.LookForOpen? {
      var settled := AgainstOpen(s.db.visits, b.lead, b.start, b.minutes);
      if settled.Some? {
        EndedKeepsClear(s, tx, Finished(settled.value));
      } else {
        AdvancedKeepsClear(s, tx, NoOpenVisit);
      }
    } else if a.act.CheckOverlap? {
      if Clash(s.db.visits, b.owner, Slot(b), None) {
        EndedKeepsClear(s, tx, Finished(Refused(Overlap)));
      } else {
        AdvancedKeepsClear(s, tx, NoClash);
      }
    } else {
      EndedKeepsClear(s, tx, Finished(Refused(OutsideSlots)));
      AdvancedKeepsClear(s, tx, Fitting);
    }
  }

  lemma PlainKeepsClear(s0: Sys, cfg: Config, a: Action)
    requires AllClear(s0) && Enabled(s0, a)
    ensures AllClear(Next(s0, cfg, a))
  {
    var s := s0.(clock := a.now);
    EasedKeepsClear(s0, s0.db, a.now);
    assert Next(s0, cfg, a) == Next(s, cfg, a);
    if a.act.Atomic? {
      forall agent | agent in s.locks ensures Eases(s.db.visits, Handle(s.db, cfg, a.act.req, a.now).visits, agent) {
        OthersEase(s, cfg, a.act.req, a.now, agent);
      }
      EasedKeepsClear(s, Handle(s.db, cfg, a.act.req, a.now), a.now);
    } else if a.act.Begin? {
      BeginKeepsClear(s, cfg, a);
    } else if a.act.Insert? {
      InsertKeepsClear(s, cfg, a);
    } else if a.act.Acquire? {
      AcquireKeepsClear(s, a.act.tx);
    } else if a.act.Abort? {
      EndedKeepsClear(s, a.act.tx, Aborted);
    } else {
      CheckKeepsClear(s, cfg, a);
    }
  }

  /** Readings that passed the check on a terminal status, of visits that have the same agent still. */
  ghost predicate ReadingsLegal(s: SplitSys) {
    forall tx :: tx in s.readings ==> ReadingLegal(s.sys.db, s.readings[tx])
  }

  predicate ReadingLegal(db: Db, r: Reading) {
    Legal(r) && r.visit < |db.visits| && db.visits[r.visit].agent == r.seen.agent
  }

  /** A write that finds its columns as read empties every locked calendar or leaves it alone. */
  lemma CurrentWriteEases(db: Db, cfg: Config, r: Reading, now: Time, agent: AgentId)
    requires ReadingLegal(db, r) && r.seen.lead < |db.leads| && StillAsRead(db, r)
    requires Moving(r.patch) ==> db.visits[r.visit].agent != agent
    ensures Eases(db.visits, WriteBack(db, cfg, r, now).visits, agent)
  {
    WriteBackRows(db, cfg, r, now);
    LegalStaysOff(r);
  }

  lemma WriteKeepsClear(s: SplitSys, cfg: Config, act: SplitAct)
    requires AllClear(s.sys) && ReadingsLegal(s) && CanStep(s, act) && act.Write? && Current(s, act)
    ensures AllClear(StepSplit(s, cfg, act).sys)
  {
    var r := s.readings[act.writer];
    assert ReadingLegal(s.sys.db, r);
    var db := WriteBack(s.sys.db, cfg, r, act.now);
    forall agent | agent in s.sys.locks ensures Eases(s.sys.db.visits, db.visits, agent) {
      CurrentWriteEases(s.sys.db, cfg, r, act.now, agent);
    }
    EasedKeepsClear(s.sys, db, act.now);
  }

  /** Visits keep their agents. */
  ghost predicate SameHands(a: seq<Visit>, b: seq<Visit>) {
    |a| <= |b| && forall v :: 0 <= v < |a| ==> b[v].agent == a[v].agent
  }

  lemma StepKeepsHands(s: SplitSys, cfg: Config, act: SplitAct)
    requires CanStep(s, act)
    ensures SameHands(s.sys.db.visits, StepSplit(s, cfg, act).sys.db.visits)
  {
    match act
    case Plain(a) =>
      if a.act.Atomic? {
        History.HandleEvolves(s.sys.db, cfg, a.act.req, a.now);
      } else if a.act.Insert? {
        InsertKeepsHands(s.sys, cfg, a);
      } else if !a.act.Begin? {
        CounterStep(s.sys, cfg, a);
      }
    case Read(_, _, _, _) =>
    case Write(now, tx) => WriteBackRows(s.sys.db, cfg, s.readings[tx], now);
  }

  lemma InsertKeepsHands(s: Sys, cfg: Config, a: Action)
    requires Enabled(s, a) && a.act.Insert?
    ensures SameHands(s.db.visits, Next(s, cfg, a).db.visits)
  {
    var b := s.bookings[a.act.tx];
    if b.lead < |s.db.leads| {
      InsertStep(s, cfg, a);
      if FirstOpen(s.db.visits, b.lead).None? {
        var after := Next(s, cfg, a).db.visits;
        assert forall i :: 0 <= i < |s.db.visits| ==> after[i] == s.db.visits[i];
      }
    }
  }

  lemma StepKeepsLegal(s: SplitSys, cfg: Config, act: SplitAct)
    requires ReadingsLegal(s) && CanStep(s, act)
    ensures ReadingsLegal(StepSplit(s, cfg, act))
  {
    var r := StepSplit(s, cfg, act);
    StepKeepsHands(s, cfg, act);
    forall tx | tx in r.readings ensures ReadingLegal(r.sys.db, r.readings[tx]) {
      assert tx in s.readings ==> ReadingLegal(s.sys.db, s.readings[tx]);
    }
  }

  lemma CurrentStepLandsFree(s: SplitSys, cfg: Config, act: SplitAct)
    requires AllClear(s.sys) && ReadingsLegal(s) && NoOverlap(s.sys.db.visits)
    requires CanStep(s, act) && Current(s, act)
    ensures LandsFree(cfg, s, act)
  {
    if act.Plain? && act.a.act.Insert? {
      assert Clear(s.sys, act.a.act.tx);
    }
    if act.Write? {
      var r := s.readings[act.writer];
      assert ReadingLegal(s.sys.db, r);
      OnlyStaleWritesOverlap(s.sys.db, cfg, r, act.now);
      StepOverlapsIff(s, cfg, act);
    }
  }

  lemma CurrentKeepsClear(s: SplitSys, cfg: Config, act: SplitAct)
    requires AllClear(s.sys) && ReadingsLegal(s) && CanStep(s, act) && Current(s, act)
    ensures AllClear(StepSplit(s, cfg, act).sys) && ReadingsLegal(StepSplit(s, cfg, act))
  {
    StepKeepsLegal(s, cfg, act);
    if act.Plain? {
      PlainKeepsClear(s.sys, cfg, act.a);
    } else if act.Write? {
      WriteKeepsClear(s, cfg, act);
    }
  }

  lemma {:induction false} CurrentLandsFree(s: SplitSys, cfg: Config, acts: seq<SplitAct>)
    requires AllClear(s.sys) && ReadingsLegal(s) && NoOverlap(s.sys.db.visits)
    requires ValidSplit(s, cfg, acts) && RespectsSplit(s, cfg, acts, CurrentWrites())
    ensures RespectsSplit(s, cfg, acts, FreeLandings(cfg))
    decreases |acts|
  {
    if acts != [] {
      CurrentStepLandsFree(s, cfg, acts[0]);
      StepOverlapsIff(s, cfg, acts[0]);
      CurrentKeepsClear(s, cfg, acts[0]);
      CurrentLandsFree(StepSplit(s, cfg, acts[0]), cfg, acts[1..]);
    }
  }

  /** In particular nothing is double-booked, by a write or by a booking in flight, when every write
    * finds the visit's status, and for a move its time and length, as it read them. */
  lemma NoDoubleBookingUnlessStale(s: Sys, cfg: Config, steps: seq<SplitAct>)
    requires Fresh(s) && ValidSplit(SplitSys(s, map[]), cfg, steps)
    requires RespectsSplit(SplitSys(s, map[]), cfg, steps, CurrentWrites())
    ensures ThroughoutSplit(SplitSys(s, map[]), cfg, steps, NobodyOverlaps())
    ensures var r := AfterSplit(SplitSys(s, map[]), cfg, steps).sys; NoOverlap(r.db.visits) && OneOpen(r.db.visits)
  {
    var first := SplitSys(s, map[]);
    CurrentLandsFree(first, cfg, steps);
    NoDoubleBookingIff(first, cfg, steps);
    SplitEndsWell(first, cfg, steps, NobodyOverlaps());
    OneOpenAlways(first, cfg, steps);
  }

  // ------------------------------------------------------------ under a booking in flight

  /** The second way to double-book: the stale CONFIRMED lands on a free calendar, but under a booking
    * that has made its checks and not yet inserted. The write leaves no overlap; the insert does. */
  lemma StaleConfirmUnderABooking() returns (steps: seq<SplitAct>, mid: SplitSys, insert: SplitAct)
    ensures Fresh(Start()) && SplitReaches(SplitSys(Start(), map[]), LAX, steps, mid)
    ensures NoOverlap(mid.sys.db.visits)
    ensures insert.Plain? && insert.a.act.Insert? && CanStep(mid, insert)
    ensures !NoOverlap(StepSplit(mid, LAX, insert).sys.db.visits)
  {
    var first := SplitSys(Start(), map[]);
    var steps1, asked := AskedAndRead();
    var acts2, s2 := CancelledAndChecked(asked.sys);
    PlainRun(asked, LAX, acts2, s2);
    SplitConcat(first, LAX, steps1, asked, Plains(acts2), asked.(sys := s2));
    var checked, write := asked.(sys := s2), Write(0, 0);
    OneSplitStep(checked, LAX, write);
    mid := StepSplit(checked, LAX, write);
    SplitConcat(first, LAX, steps1 + Plains(acts2), checked, [write], mid);
    steps := steps1 + Plains(acts2) + [write];
    insert := Plain(Action(0, Insert(1)));
    YesComesBack(s2.db, asked.readings[0].seen);
    StepOverlapsIff(mid, LAX, insert);
  }

  /** The visit is cancelled, and a booking of its slot for the second lead goes as far as its insert. */
  lemma CancelledAndChecked(s: Sys) returns (acts: seq<Action>, r: Sys)
    requires Asked(s.db, PendingConfirmation) && s.clock == 0 && s.locks == map[] && 1 !in s.bookings
    ensures Reaches(s, LAX, acts, r) && r.clock == 0 && r.locks == map[1 := 1]
    ensures Asked(r.db, Cancelled) && 1 in r.bookings
    ensures r.bookings[1] == Booking(1, 5 * HOUR, 60, HUMAN, 0, 1, Fitting)
  {
    var cancel := Action(0, Atomic(PatchVisitReq(0, GONE, HUMAN)));
    var s1 := Next(s, LAX, cancel);
    assert Reaches(s, LAX, [], s);
    OneMore(s, LAX, [], s, cancel);
    AskedThenCancelled(s.db);
    var acts2, s2 := ReadyToInsert(s1, 1, 1, 5 * HOUR);
    Concat(s, LAX, [] + [cancel], s1, acts2, s2);
    acts, r := [] + [cancel] + acts2, s2;
  }

  lemma YesComesBack(db: Db, seen: Visit)
    requires Asked(db, Cancelled) && seen == Visit(0, 1, 5 * HOUR, 60, PendingConfirmation, 2)
    ensures var r := WriteBack(db, LAX, Reading(0, seen, YES, HUMAN), 0);
      && r.visits == [seen.(status := Confirmed)] && |r.leads| == 2
      && FirstOpen(r.visits, 1).None? && Clash(r.visits, 1, Interval(5 * HOUR, VisitEnd(5 * HOUR, 60)), None)
  {
    var r := Reading(0, seen, YES, HUMAN);
    WriteBackRows(db, LAX, r, 0);
    assert Writes(db, LAX, r, 0) && NewRow(db, r) == seen.(status := Confirmed);
    var after := WriteBack(db, LAX, r, 0).visits;
    assert after == [seen.(status := Confirmed)];
    assert Occupies(after[0], 1) && Overlaps(Span(after[0]), Interval(5 * HOUR, VisitEnd(5 * HOUR, 60)));
  }
}

/** PATCH as it runs: the visit's row is read without a lock, and only the columns that changed
  * against that reading are written back later (patch_appointment in services/appointment.py). A
  * row that changed in between is not noticed. */
module StalePatch {
  import opened Domain
  import opened Store
  import opened Invariants
  import opened Requests
  import opened Runs
  import opened History
  import opened Booking
  import opened BookingSafety
  import opened BookingLimits
  import opened Interleavings
  import opened PlainTerms
  import opened BookingOutcomes

  // ------------------------------------------------------------ one patch, read and written

  datatype Reading = Reading(visit: VisitId, seen: Visit, patch: Patch, actor: Actor)

  /** The tables as the request still takes them to be. */
  function AsSeen(db: Db, r: Reading): Db
    requires r.visit < |db.visits|
  {
    db.(visits := db.visits[r.visit := r.seen])
  }

  /** What the row becomes: a column is written only if the request changed it. */
  function Written(row: Visit, seen: Visit, after: Visit): Visit {
    row.(start := if after.start == seen.start then row.start else after.start,
         minutes := if after.minutes == seen.minutes then row.minutes else after.minutes,
         status := if after.status == seen.status then row.status else after.status)
  }

  function NewRow(db: Db, r: Reading): Visit
    requires r.visit < |db.visits|
  {
    Written(db.visits[r.visit], r.seen, Patched(r.seen, r.patch))
  }

  /** uq_appointment_open_per_lead. */
  predicate IndexAllows(visits: seq<Visit>, visit: VisitId, row: Visit) {
    Blocking(row.status) ==> forall i :: 0 <= i < |visits| && i != visit ==> !OpenFor(visits[i], row.lead)
  }

  /** The request gets as far as changing the row. A move is checked under the agent's lock, against
    * the other visits as they are now and its own as it was read. */
  ghost predicate Writes(db: Db, cfg: Config, r: Reading, now: Time)
    requires r.visit < |db.visits|
  {
    && (Moving(r.patch) ==> MoveRefusal(AsSeen(db, r), cfg, r.visit, r.patch, r.actor, now).None?)
    && Patched(r.seen, r.patch) != r.seen
    && IndexAllows(db.visits, r.visit, NewRow(db, r))
  }

  ghost function WriteBack(db: Db, cfg: Config, r: Reading, now: Time): Db
    requires r.visit < |db.visits| && r.seen.lead < |db.leads|
  {
    if !Writes(db, cfg, r, now) then db
    else
      var after := Patched(r.seen, r.patch);
      var updated := db.(visits := db.visits[r.visit := NewRow(db, r)]);
      var synced :=
        if after.status != r.seen.status then SyncFunnel(updated, r.seen.lead, after.status, r.actor, now) else updated;
      Emit(Note(synced, r.seen.lead, Some(r.actor.id), now),
           VisitEvent(ChangeKind(r.seen, after), r.visit, r.seen.lead, after.start, after.minutes, after.status,
                      r.actor, Some(Previous(r.seen.status, Some(r.seen.start)))))
  }

  /** The reading passed the checks made on it. */
  predicate Accepted(db: Db, r: Reading) {
    r.visit < |db.visits| && StatusRefusal(AsSeen(db, r), r.visit, r.patch, r.actor).None?
  }

  /** With the row as it was read, writing back is the patch. */
  lemma FreshWriteIsPatch(db: Db, cfg: Config, r: Reading, now: Time)
    requires Accepted(db, r) && r.seen == db.visits[r.visit] && OneOpen(db.visits)
    ensures WriteBack(db, cfg, r, now) == PatchVisit(db, cfg, r.visit, r.patch, r.actor, now).0
  {
    assert AsSeen(db, r) == db;
    PatchedIsLegal(db, r.visit, r.patch, r.actor);
    assert NewRow(db, r) == Patched(r.seen, r.patch);
    assert IndexAllows(db.visits, r.visit, NewRow(db, r));
  }

  /** The columns one by one: start and minutes only if the patch names other ones than it read, the
    * status only if the patch leaves another one than it read; the rest is whatever is there now. */
  lemma WritesOnlyWhatChanged(db: Db, r: Reading)
    requires r.visit < |db.visits|
    ensures var (row, seen, p, now) := (NewRow(db, r), r.seen, r.patch, db.visits[r.visit]);
      && row.start == (if p.start.Some? && p.start.value != seen.start then p.start.value else now.start)
      && row.minutes == (if p.minutes.Some? && p.minutes.value != seen.minutes then p.minutes.value else now.minutes)
      && row.status == (if AskedStatus(seen, p) != seen.status then AskedStatus(seen, p) else now.status)
      && row.lead == now.lead && row.agent == now.agent && row.createdBy == now.createdBy
  {
  }

  /** A stale patch still judges by what it read: its move must lie ahead, keep a bot's notice, be free of
    * other visits and in the hours, at the start and length read wherever it names no other. */
  lemma MovesByWhatItRead(db: Db, cfg: Config, r: Reading, now: Time)
    requires r.visit < |db.visits|
    ensures var (start, minutes) := (AskedStart(r.seen, r.patch), AskedMinutes(r.seen, r.patch));
      var held := r.actor.isBot || cfg.enforce;
      MoveRefusal(AsSeen(db, r), cfg, r.visit, r.patch, r.actor, now).None? <==>
        && now < start && (r.actor.isBot ==> now + cfg.notice <= start)
        && !Taken(db.visits, r.seen.agent, start, minutes, Some(r.visit))
        && (held ==> InAgency(db, r.seen.agent, r.actor.agency)
                     && InHours(AsSeen(db, r), r.seen.agent, start, minutes, Some(r.visit)))
  {
    var (start, minutes) := (AskedStart(r.seen, r.patch), AskedMinutes(r.seen, r.patch));
    ClashIsTaken(db.visits, r.seen.agent, start, minutes, Some(r.visit));
    SameClash(db.visits, r.visit, r.seen, r.seen.agent, Interval(start, VisitEnd(start, minutes)));
    SlotOpenIsInHours(AsSeen(db, r), r.seen.agent, start, minutes, Some(r.visit));
  }

  lemma WriteBackRows(db: Db, cfg: Config, r: Reading, now: Time)
    requires r.visit < |db.visits| && r.seen.lead < |db.leads|
    ensures WriteBack(db, cfg, r, now).visits
      == if Writes(db, cfg, r, now) then db.visits[r.visit := NewRow(db, r)] else db.visits
  {
  }

  /** All a write writes. What it says, on the timeline and in the event, is by what the patch read. */
  lemma WriteBackWrites(db: Db, cfg: Config, r: Reading, now: Time)
    requires Dated(db.transitions, now) && r.visit < |db.visits| && r.seen.lead < |db.leads|
    requires Writes(db, cfg, r, now)
    ensures var (seen, p) := (r.seen, r.patch);
      var (start, minutes, status) := (AskedStart(seen, p), AskedMinutes(seen, p), AskedStatus(seen, p));
      var from := db.leads[seen.lead].stage;
      var to := MovedTo(from, seen.status, status);
      var changed := VisitEvent(PatchKind(seen, p), r.visit, seen.lead, start, minutes, status, r.actor,
                                Some(Previous(seen.status, Some(seen.start))));
      WriteBack(db, cfg, r, now) == db.(
        visits := db.visits[r.visit := NewRow(db, r)],
        leads := db.leads[seen.lead := db.leads[seen.lead].(stage := to)],
        transitions := db.transitions + if to != from
          then [Transition(seen.lead, Some(from), to, Some(r.actor.id), now)] else [],
        interactions := db.interactions + [Interaction(seen.lead, Outbound, StatusChange, Some(r.actor.id), now)],
        events := db.events + if to != from then [StageChanged(seen.lead, from, to), changed] else [changed])
  {
    var (seen, p) := (r.seen, r.patch);
    var after := Patched(seen, p);
    var from := db.leads[seen.lead].stage;
    var to := MovedTo(from, seen.status, after.status);
    var changed := VisitEvent(PatchKind(seen, p), r.visit, seen.lead, after.start, after.minutes, after.status, r.actor,
                              Some(Previous(seen.status, Some(seen.start))));
    assert ChangeKind(seen, after) == PatchKind(seen, p);
    PushWrites(db.(visits := db.visits[r.visit := NewRow(db, r)]), seen.lead, seen.status, after.status, r.actor, now);
    EventsBehind(db.events, if to != from then [StageChanged(seen.lead, from, to)] else [], changed);
  }

  /** A write double-books exactly when the row it leaves is on the calendar where another visit of the
    * agent already is. */
  lemma WriteOverlapsIff(db: Db, cfg: Config, r: Reading, now: Time)
    requires r.visit < |db.visits| && r.seen.lead < |db.leads| && NoOverlap(db.visits) && Writes(db, cfg, r, now)
    ensures NoOverlap(WriteBack(db, cfg, r, now).visits) <==>
      var row := NewRow(db, r);
      !(Blocking(row.status) && Clash(db.visits, row.agent, Span(row), Some(r.visit)))
  {
    var row := NewRow(db, r);
    var after := db.visits[r.visit := row];
    WriteBackRows(db, cfg, r, now);
    assert after[r.visit] == row && forall i :: 0 <= i < |after| && i != r.visit ==> after[i] == db.visits[i];
    if Blocking(row.status) && !Clash(db.visits, row.agent, Span(row), Some(r.visit)) {
      forall i | 0 <= i < |after| && i != r.visit && Occupies(after[i], row.agent)
        ensures !Overlaps(Span(after[i]), Span(row)) && !Overlaps(Span(row), Span(after[i]))
      {
        assert Some(r.visit) != Some(i);
      }
    }
  }

  /** The columns the request decided by are still what it read: the status, and for a move the time
    * and length. */
  predicate StillAsRead(db: Db, r: Reading)
    requires r.visit < |db.visits|
  {
    var row := db.visits[r.visit];
    row.status == r.seen.status && (Moving(r.patch) ==> Span(row) == Span(r.seen))
  }

  /** What the check on a terminal status leaves of a reading, whatever happens later. */
  predicate Legal(r: Reading) {
    Final(r.seen.status) ==> r.patch.status == Some(r.seen.status)
  }

  lemma AcceptedIsLegal(db: Db, r: Reading)
    requires Accepted(db, r)
    ensures Legal(r)
  {
  }

  lemma LegalStaysOff(r: Reading)
    requires Legal(r)
    ensures Blocking(Patched(r.seen, r.patch).status) ==> Blocking(r.seen.status)
  {
  }

  /** So a write that leaves two visits overlapping is a stale one. */
  lemma OnlyStaleWritesOverlap(db: Db, cfg: Config, r: Reading, now: Time)
    requires r.visit < |db.visits| && r.seen.lead < |db.leads| && NoOverlap(db.visits)
    requires Legal(r) && db.visits[r.visit].agent == r.seen.agent && StillAsRead(db, r)
    ensures NoOverlap(WriteBack(db, cfg, r, now).visits)
  {
    WriteBackRows(db, cfg, r, now);
    if Writes(db, cfg, r, now) {
      LegalStaysOff(r);
      WriteOverlapsIff(db, cfg, r, now);
      var row := NewRow(db, r);
      if Blocking(row.status) {
        if Moving(r.patch) {
          SameClash(db.visits, r.visit, r.seen, row.agent, Span(row));
        } else {
          forall i | 0 <= i < |db.visits| && Occupies(db.visits[i], row.agent) && Some(r.visit) != Some(i)
            ensures !Overlaps(Span(db.visits[i]), Span(row))
          {
          }
        }
      }
    }
  }

  /** The overlap check leaves the visit itself out, so it does not matter how it was read. */
  lemma SameClash(visits: seq<Visit>, visit: VisitId, seen: Visit, agent: AgentId, span: Interval)
    requires visit < |visits|
    ensures Clash(visits, agent, span, Some(visit)) <==> Clash(visits[visit := seen], agent, span, Some(visit))
  {
    var other := visits[visit := seen];
    assert forall i :: 0 <= i < |visits| && i != visit ==> other[i] == visits[i];
  }

  // ------------------------------------------------------------ among everything else

  datatype SplitSys = SplitSys(sys: Sys, readings: map<Tx, Reading>)

  datatype SplitAct =
    | Plain(a: Action)
    | Read(reader: Tx, visit: VisitId, patch: Patch, actor: Actor)
    | Write(now: Time, writer: Tx)

  function RequestOf(r: Reading): Request {
    PatchVisitReq(r.visit, r.patch, r.actor)
  }

  predicate CanStep(s: SplitSys, act: SplitAct) {
    match act
    case Plain(a) => Enabled(s.sys, a)
    case Read(tx, visit, p, actor) => tx !in s.readings && StatusRefusal(s.sys.db, visit, p, actor).None?
    case Write(now, tx) =>
      && tx in s.readings && s.sys.clock <= now && LockFree(s.sys, RequestOf(s.readings[tx]))
      && s.readings[tx].visit < |s.sys.db.visits| && s.readings[tx].seen.lead < |s.sys.db.leads|
  }

  ghost function StepSplit(s: SplitSys, cfg: Config, act: SplitAct): SplitSys
    requires CanStep(s, act)
  {
    match act
    case Plain(a) => s.(sys := Next(s.sys, cfg, a))
    case Read(tx, visit, p, actor) =>
      s.(readings := s.readings[tx := Reading(visit, s.sys.db.visits[visit], p, actor)])
    case Write(now, tx) =>
      SplitSys(s.sys.(clock := now, db := WriteBack(s.sys.db, cfg, s.readings[tx], now)), s.readings - {tx})
  }

  ghost predicate ValidSplit(s: SplitSys, cfg: Config, acts: seq<SplitAct>)
    decreases |acts|
  {
    acts == [] || (CanStep(s, acts[0]) && ValidSplit(StepSplit(s, cfg, acts[0]), cfg, acts[1..]))
  }

  ghost function AfterSplit(s: SplitSys, cfg: Config, acts: seq<SplitAct>): SplitSys
    requires ValidSplit(s, cfg, acts)
    decreases |acts|
  {
    if acts == [] then s else AfterSplit(StepSplit(s, cfg, acts[0]), cfg, acts[1..])
  }

  ghost predicate RespectsSplit(
    s: SplitSys, cfg: Config, acts: seq<SplitAct>, rule: (SplitSys, SplitAct) -> bool)
    requires ValidSplit(s, cfg, acts)
    decreases |acts|
  {
    acts == [] || (rule(s, acts[0]) && RespectsSplit(StepSplit(s, cfg, acts[0]), cfg, acts[1..], rule))
  }

  /** The write finds the row as it was read. */
  predicate Unchanged(s: SplitSys, act: SplitAct) {
    act.Write? && act.writer in s.readings && s.readings[act.writer].visit < |s.sys.db.visits| ==>
      s.sys.db.visits[s.readings[act.writer].visit] == s.readings[act.writer].seen
  }

  function NeverStale(): (SplitSys, SplitAct) -> bool {
    (s: SplitSys, act: SplitAct) => Unchanged(s, act)
  }

  // ------------------------------------------------------------ never stale is atomic

  ghost predicate ReadingsSound(s: SplitSys) {
    forall tx :: tx in s.readings ==> Accepted(s.sys.db, s.readings[tx])
  }

  /** Whoever could see a visit still can, whatever happens. */
  lemma StepKeepsVisible(s: Sys, cfg: Config, a: Action, visit: VisitId, agency: nat)
    requires SysInv(s) && Enabled(s, a) && VisitVisible(s.db, visit, agency)
    ensures VisitVisible(Next(s, cfg, a).db, visit, agency)
    ensures Next(s, cfg, a).db.visits[visit].lead == s.db.visits[visit].lead
  {
    if a.act.Atomic? {
      HandleEvolves(s.db, cfg, a.act.req, a.now);
      OthersLeaveOwners(s.db, cfg, a.act.req, a.now);
    } else if a.act.Insert? {
      assert Sound(s, a.act.tx);
      InsertStep(s, cfg, a);
      InsertedKeepsVisible(s, Next(s, cfg, a), a.act.tx, visit, agency);
    } else if !a.act.Begin? {
      CounterStep(s, cfg, a);
    }
  }

  lemma InsertedKeepsVisible(s: Sys, r: Sys, tx: Tx, visit: VisitId, agency: nat)
    requires Inserted(s, r, tx) && VisitVisible(s.db, visit, agency)
    ensures VisitVisible(r.db, visit, agency) && r.db.visits[visit].lead == s.db.visits[visit].lead
  {
    if FirstOpen(s.db.visits, s.bookings[tx].lead).None? {
      assert r.db.visits[..|s.db.visits|][visit] == s.db.visits[visit];
    }
  }

  /** A reading's checks stay passed: they look at the reading, and at whose lead it is. */
  lemma AcceptedStands(a: Db, b: Db, r: Reading)
    requires Accepted(a, r) && r.visit < |b.visits|
    requires LeadVisible(b, r.seen.lead, r.actor.agency)
    ensures Accepted(b, r)
  {
  }

  lemma StepKeepsReadings(s: SplitSys, cfg: Config, a: Action)
    requires SysInv(s.sys) && ReadingsSound(s) && ReadingsMatch(s) && Enabled(s.sys, a)
    ensures ReadingsSound(s.(sys := Next(s.sys, cfg, a))) && ReadingsMatch(s.(sys := Next(s.sys, cfg, a)))
  {
    var next := Next(s.sys, cfg, a);
    forall tx | tx in s.readings
      ensures Accepted(next.db, s.readings[tx]) && next.db.visits[s.readings[tx].visit].lead == s.readings[tx].seen.lead
    {
      var r := s.readings[tx];
      StepKeepsVisible(s.sys, cfg, a, r.visit, r.actor.agency);
      AcceptedStands(s.sys.db, next.db, r);
    }
  }

  ghost predicate ReadingsMatch(s: SplitSys) {
    forall tx :: tx in s.readings && s.readings[tx].visit < |s.sys.db.visits| ==>
      s.sys.db.visits[s.readings[tx].visit].lead == s.readings[tx].seen.lead
  }

  /** A write that is not stale is one atomic patch. */
  lemma FreshWriteIsAStep(s: SplitSys, cfg: Config, act: SplitAct)
    requires SysInv(s.sys) && ReadingsSound(s) && CanStep(s, act) && act.Write? && Unchanged(s, act)
    ensures var a := Action(act.now, Atomic(RequestOf(s.readings[act.writer])));
      Enabled(s.sys, a) && StepSplit(s, cfg, act).sys == Next(s.sys, cfg, a)
  {
    FreshWriteIsPatch(s.sys.db, cfg, s.readings[act.writer], act.now);
  }

  ghost predicate SplitInv(s: SplitSys) {
    SysInv(s.sys) && ReadingsSound(s) && ReadingsMatch(s)
  }

  lemma AtomicKeepsSplit(s: SplitSys, cfg: Config, a: Action)
    requires SplitInv(s) && Enabled(s.sys, a)
    ensures SplitInv(s.(sys := Next(s.sys, cfg, a)))
  {
    StepKeeps(s.sys, cfg, a);
    StepKeepsReadings(s, cfg, a);
  }

  lemma Forgets(s: SplitSys, tx: Tx)
    requires SplitInv(s)
    ensures SplitInv(s.(readings := s.readings - {tx}))
  {
  }

  lemma ReadKeepsSplit(s: SplitSys, cfg: Config, act: SplitAct)
    requires SplitInv(s) && act.Read? && CanStep(s, act)
    ensures SplitInv(StepSplit(s, cfg, act))
  {
    var db := s.sys.db;
    assert AsSeen(db, Reading(act.visit, db.visits[act.visit], act.patch, act.actor)) == db;
  }

  lemma OneAction(s: Sys, cfg: Config, a: Action)
    requires Enabled(s, a)
    ensures Reaches(s, cfg, [a], Next(s, cfg, a))
  {
    assert Reaches(Next(s, cfg, a), cfg, [], Next(s, cfg, a));
    StepThen(s, cfg, a, [], Next(s, cfg, a));
    assert [a] + [] == [a];
  }

  /** A read is no step at all, and a write that is not stale is one atomic patch. */
  lemma FreshStepIsAtomic(s: SplitSys, cfg: Config, act: SplitAct) returns (acts: seq<Action>)
    requires SplitInv(s) && CanStep(s, act) && Unchanged(s, act)
    ensures Reaches(s.sys, cfg, acts, StepSplit(s, cfg, act).sys) && SplitInv(StepSplit(s, cfg, act))
  {
    match act
    case Read(_, _, _, _) =>
      ReadKeepsSplit(s, cfg, act);
      acts := [];
    case Plain(a) =>
      AtomicKeepsSplit(s, cfg, a);
      OneAction(s.sys, cfg, a);
      acts := [a];
    case Write(now, tx) =>
      var a := Action(now, Atomic(RequestOf(s.readings[tx])));
      FreshWriteIsAStep(s, cfg, act);
      AtomicKeepsSplit(s, cfg, a);
      Forgets(s.(sys := Next(s.sys, cfg, a)), tx);
      assert StepSplit(s, cfg, act) == SplitSys(Next(s.sys, cfg, a), s.readings - {tx});
      OneAction(s.sys, cfg, a);
      acts := [a];
  }

  /** A run in which no write is stale is a run with every patch atomic: drop the reads, and take each
    * write for its patch. Everything proved of those runs holds of it. */
  lemma {:induction false} NeverStaleIsAtomic(s: SplitSys, cfg: Config, steps: seq<SplitAct>)
    returns (acts: seq<Action>, r: Sys)
    requires SplitInv(s) && ValidSplit(s, cfg, steps) && RespectsSplit(s, cfg, steps, NeverStale())
    ensures r == AfterSplit(s, cfg, steps).sys && Reaches(s.sys, cfg, acts, r)
    decreases |steps|
  {
    if steps == [] {
      acts, r := [], s.sys;
    } else {
      var next := StepSplit(s, cfg, steps[0]);
      var first := FreshStepIsAtomic(s, cfg, steps[0]);
      var rest, last := NeverStaleIsAtomic(next, cfg, steps[1..]);
      Concat(s.sys, cfg, first, next.sys, rest, last);
      acts, r := first + rest, last;
    }
  }

  // ------------------------------------------------------------ a stale write double-books

  /** Ordinary steps are steps here, and leave the readings alone. */
  function Plains(acts: seq<Action>): seq<SplitAct> {
    seq(|acts|, i requires 0 <= i < |acts| => Plain(acts[i]))
  }

  ghost predicate SplitReaches(s: SplitSys, cfg: Config, steps: seq<SplitAct>, r: SplitSys) {
    ValidSplit(s, cfg, steps) && AfterSplit(s, cfg, steps) == r
  }

  lemma {:induction false} PlainRun(s: SplitSys, cfg: Config, acts: seq<Action>, r: Sys)
    requires Reaches(s.sys, cfg, acts, r)
    ensures SplitReaches(s, cfg, Plains(acts), s.(sys := r))
    decreases |acts|
  {
    if acts != [] {
      var next := s.(sys := Next(s.sys, cfg, acts[0]));
      PlainRun(next, cfg, acts[1..], r);
      assert Plains(acts)[0] == Plain(acts[0]) && Plains(acts)[1..] == Plains(acts[1..]);
      assert StepSplit(s, cfg, Plain(acts[0])) == next;
    }
  }

  lemma {:induction false} SplitConcat(
      s: SplitSys, cfg: Config, a: seq<SplitAct>, mid: SplitSys, b: seq<SplitAct>, r: SplitSys)
    requires SplitReaches(s, cfg, a, mid) && SplitReaches(mid, cfg, b, r)
    ensures SplitReaches(s, cfg, a + b, r)
    decreases |a|
  {
    if a == [] {
      assert a + b == b;
    } else {
      assert (a + b)[0] == a[0] && (a + b)[1..] == a[1..] + b;
      SplitConcat(StepSplit(s, cfg, a[0]), cfg, a[1..], mid, b, r);
    }
  }

  lemma OneSplitStep(s: SplitSys, cfg: Config, act: SplitAct)
    requires CanStep(s, act)
    ensures SplitReaches(s, cfg, [act], StepSplit(s, cfg, act))
  {
    assert [act][1..] == [];
    assert SplitReaches(StepSplit(s, cfg, act), cfg, [], StepSplit(s, cfg, act));
  }

  const COLLEAGUE := Actor(2, 0, false, true)
  const YES := Patch(Some(Confirmed), None, None)

  function TwoClients(): Db {
    Empty().(clients := {0, 1})
  }

  function Start(): Sys {
    Sys(TwoClients(), 0, map[], map[])
  }

  /** Two leads of agent 1. */
  lemma TwoLeads() returns (acts: seq<Action>, r: Sys)
    ensures Fresh(Start()) && Reaches(Start(), LAX, acts, r)
    ensures r.clock == 0 && r.bookings == map[] && r.locks == map[] && r.db.agents == Empty().agents
    ensures r.db.leads == [Lead(0, 0, 1, Interested, 0), Lead(1, 0, 1, Interested, 0)] && r.db.visits == []
  {
    var a := Action(0, Atomic(CreateLeadReq(0, 0, false, None, 0)));
    var b := Action(0, Atomic(CreateLeadReq(1, 0, false, None, 0)));
    assert Reaches(Start(), LAX, [], Start());
    OneMore(Start(), LAX, [], Start(), a);
    var s1 := Next(Start(), LAX, a);
    FirstOfTwo();
    SecondOfTwo(s1.db);
    OneMore(Start(), LAX, [] + [a], s1, b);
    acts, r := [] + [a] + [b], Next(s1, LAX, b);
  }

  lemma FirstOfTwo()
    ensures var r := CreateLead(TwoClients(), 0, 0, false, None, 0, 0).0;
      r.leads == [Lead(0, 0, 1, Interested, 0)] && r.visits == [] && r.agents == Empty().agents
  {
  }

  lemma SecondOfTwo(db: Db)
    requires SameSetup(TwoClients(), db) && db.leads == [Lead(0, 0, 1, Interested, 0)] && db.visits == []
    ensures var r := CreateLead(db, 1, 0, false, None, 0, 0).0;
      r.leads == [Lead(0, 0, 1, Interested, 0), Lead(1, 0, 1, Interested, 0)] && r.visits == []
  {
  }

  /** What two leads and a first visit at five, asked for by a colleague, look like. */
  predicate Asked(db: Db, status: VisitStatus) {
    && db.agents == Empty().agents && |db.leads| == 2 && db.leads[0].agent == db.leads[1].agent == 1
    && !Terminal(db.leads[0].stage) && !Terminal(db.leads[1].stage)
    && db.visits == [Visit(0, 1, 5 * HOUR, 60, status, 2)]
  }

  lemma AskedByColleague(db: Db)
    requires db.leads == [Lead(0, 0, 1, Interested, 0), Lead(1, 0, 1, Interested, 0)] && db.visits == []
    requires db.agents == Empty().agents
    ensures Asked(RequestVisit(db, LAX, 0, 5 * HOUR, 60, COLLEAGUE, 0).0, PendingConfirmation)
  {
    BookLeavesOwners(db, 0, 1, 5 * HOUR, 60, COLLEAGUE, 0);
  }

  lemma AskedThenCancelled(db: Db)
    requires Asked(db, PendingConfirmation)
    ensures Asked(PatchVisit(db, LAX, 0, GONE, HUMAN, 0).0, Cancelled)
  {
    var gone := db.visits[0].(status := Cancelled);
    ChangeVisitUnfolds(db, 0, gone, CancelledEvent, HUMAN, 0);
    PatchLeavesOwners(db, LAX, 0, GONE, HUMAN, 0);
    assert db.visits[0 := gone] == [gone];
  }

  lemma RebookedByOwner(db: Db)
    requires Asked(db, Cancelled)
    ensures var r := RequestVisit(db, LAX, 1, 5 * HOUR, 60, HUMAN, 0).0;
      && |r.visits| == 2 && r.visits[0] == db.visits[0] && |r.leads| == 2
      && OpenFor(r.visits[1], 1) && r.visits[1].agent == 1 && r.visits[1].start == 5 * HOUR && r.visits[1].minutes == 60
  {
    assert forall i :: 0 <= i < |db.visits| ==> !Blocking(db.visits[i].status);
    BookLeavesOwners(db, 1, 1, 5 * HOUR, 60, HUMAN, 0);
    var r := Book(db, 1, 1, 5 * HOUR, 60, HUMAN, 0);
    assert r.visits[..1][0] == r.visits[0];
  }

  lemma StaleYesOverlaps(db: Db, seen: Visit)
    requires |db.visits| == 2 && |db.leads| == 2 && seen == Visit(0, 1, 5 * HOUR, 60, PendingConfirmation, 2)
    requires db.visits[0] == seen.(status := Cancelled)
    requires OpenFor(db.visits[1], 1) && db.visits[1].agent == 1
    requires db.visits[1].start == 5 * HOUR && db.visits[1].minutes == 60
    ensures !NoOverlap(WriteBack(db, LAX, Reading(0, seen, YES, HUMAN), 0).visits)
  {
    var r := Reading(0, seen, YES, HUMAN);
    WriteBackRows(db, LAX, r, 0);
    var after := db.visits[0 := NewRow(db, r)];
    assert Writes(db, LAX, r, 0) && NewRow(db, r) == seen.(status := Confirmed);
    assert Overlaps(Span(after[0]), Span(after[1]));
  }

  /** A colleague asks for a visit on the first lead, and the owner's CONFIRMED reads it. */
  lemma AskedAndRead() returns (steps: seq<SplitAct>, r: SplitSys)
    ensures SplitReaches(SplitSys(Start(), map[]), LAX, steps, r)
    ensures Fresh(Start())
    ensures Asked(r.sys.db, PendingConfirmation) && r.sys.clock == 0 && r.sys.locks == map[] && 1 !in r.sys.bookings
    ensures r.readings == map[0 := Reading(0, r.sys.db.visits[0], YES, HUMAN)]
  {
    var first := SplitSys(Start(), map[]);
    var acts1, s1 := TwoLeads();
    var acts2, s2 := UninterruptedIsRequestVisit(s1, LAX, 0, 0, 5 * HOUR, 60, COLLEAGUE, 0);
    AskedByColleague(s1.db);
    Concat(Start(), LAX, acts1, s1, acts2, s2);
    PlainRun(first, LAX, acts1 + acts2, s2);
    var read, asked := Read(0, 0, YES, HUMAN), first.(sys := s2);
    OneSplitStep(asked, LAX, read);
    SplitConcat(first, LAX, Plains(acts1 + acts2), asked, [read], StepSplit(asked, LAX, read));
    steps, r := Plains(acts1 + acts2) + [read], StepSplit(asked, LAX, read);
  }

  /** A run that double-books: an owner's CONFIRMED reads the pending visit, the visit is cancelled and
    * its slot booked for another lead, and only then is CONFIRMED written. */
  lemma StaleConfirmDoubleBooks() returns (steps: seq<SplitAct>, r: SplitSys)
    ensures Fresh(Start()) && SplitReaches(SplitSys(Start(), map[]), LAX, steps, r)
    ensures !NoOverlap(r.sys.db.visits)
  {
    var first := SplitSys(Start(), map[]);
    var steps1, asked := AskedAndRead();
    var acts2, s2 := CancelledAndRebooked(asked.sys);
    var write, rebooked := Write(0, 0), asked.(sys := s2);
    PlainRun(asked, LAX, acts2, s2);
    SplitConcat(first, LAX, steps1, asked, Plains(acts2), rebooked);
    StaleYesOverlaps(s2.db, asked.sys.db.visits[0]);
    OneSplitStep(rebooked, LAX, write);
    r := StepSplit(rebooked, LAX, write);
    SplitConcat(first, LAX, steps1 + Plains(acts2), rebooked, [write], r);
    steps := steps1 + Plains(acts2) + [write];
  }

  lemma CancelledAndRebooked(s: Sys) returns (acts: seq<Action>, r: Sys)
    requires Asked(s.db, PendingConfirmation) && s.clock == 0 && s.locks == map[] && 1 !in s.bookings
    ensures Reaches(s, LAX, acts, r) && r.clock == 0 && r.locks == map[]
    ensures |r.db.visits| == 2 && |r.db.leads| == 2 && r.db.visits[0] == s.db.visits[0].(status := Cancelled)
    ensures OpenFor(r.db.visits[1], 1) && r.db.visits[1].agent == 1
    ensures r.db.visits[1].start == 5 * HOUR && r.db.visits[1].minutes == 60
  {
    var cancel := Action(0, Atomic(PatchVisitReq(0, GONE, HUMAN)));
    var s1 := Next(s, LAX, cancel);
    assert Reaches(s, LAX, [], s);
    OneMore(s, LAX, [], s, cancel);
    AskedThenCancelled(s.db);
    var acts2, s2 := UninterruptedIsRequestVisit(s1, LAX, 1, 1, 5 * HOUR, 60, HUMAN, 0);
    RebookedByOwner(s1.db);
    Concat(s, LAX, [] + [cancel], s1, acts2, s2);
    acts, r := [] + [cancel] + acts2, s2;
  }
}

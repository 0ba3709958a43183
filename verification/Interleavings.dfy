/** Particular runs: a booking left alone, the same booking posted many times over, and the runs
  * that break what only a discipline guarantees. */
module Interleavings {
  import opened Domain
  import opened Store
  import opened Invariants
  import opened Requests
  import opened Runs
  import opened Booking
  import opened BookingSafety
  import opened BookingLimits

  // ------------------------------------------------------------ runs step by step

  ghost predicate Reaches(s: Sys, cfg: Config, acts: seq<Action>, r: Sys) {
    Valid(s, cfg, acts) && After(s, cfg, acts) == r
  }

  lemma StepThen(s: Sys, cfg: Config, a: Action, rest: seq<Action>, r: Sys)
    requires Enabled(s, a) && Reaches(Next(s, cfg, a), cfg, rest, r)
    ensures Reaches(s, cfg, [a] + rest, r)
  {
    assert ([a] + rest)[0] == a && ([a] + rest)[1..] == rest;
  }

  // ------------------------------------------------------------ a booking left alone

  /** What is left of request_visit once the lead has been read. */
  ghost function Continue(db: Db, cfg: Config, b: Booking): (Db, Outcome)
    requires b.lead < |db.leads|
  {
    var settled := AgainstOpen(db.visits, b.lead, b.start, b.minutes);
    if settled.Some? then (db, settled.value)
    else if Clash(db.visits, b.owner, Slot(b), None) then (db, Refused(Overlap))
    else if MustFit(cfg, b.actor) && !SlotOpen(db, b.owner, b.start, b.minutes, None) then (db, Refused(OutsideSlots))
    else (Book(db, b.lead, b.owner, b.start, b.minutes, b.actor, b.startedAt), Created(|db.visits|))
  }

  /** The booking finished with `outcome`, its lock released, and the tables at `db`. */
  function Closed(s: Sys, tx: Tx, db: Db, outcome: Outcome): Sys
    requires tx in s.bookings
  {
    Sys(db, s.clock, s.bookings[tx := s.bookings[tx].(pc := Finished(outcome))], s.locks - {s.bookings[tx].owner})
  }

  lemma FromFitting(s: Sys, cfg: Config, tx: Tx)
    requires At(s, tx, Fitting) && s.bookings[tx].lead < |s.db.leads|
    requires FirstOpen(s.db.visits, s.bookings[tx].lead).None?
    ensures var b := s.bookings[tx];
      Reaches(s, cfg, [Action(s.clock, Insert(tx))], Closed(s, tx,
        Book(s.db, b.lead, b.owner, b.start, b.minutes, b.actor, b.startedAt), Created(|s.db.visits|)))
  {
    var a := Action(s.clock, Insert(tx));
    assert Reaches(Next(s, cfg, a), cfg, [], Next(s, cfg, a));
    StepThen(s, cfg, a, [], Next(s, cfg, a));
    assert [a] + [] == [a];
  }

  lemma FromNoClash(s: Sys, cfg: Config, tx: Tx) returns (acts: seq<Action>)
    requires At(s, tx, NoClash) && s.bookings[tx].lead < |s.db.leads|
    requires FirstOpen(s.db.visits, s.bookings[tx].lead).None?
    requires !Clash(s.db.visits, s.bookings[tx].owner, Slot(s.bookings[tx]), None)
    ensures var (db, outcome) := Continue(s.db, cfg, s.bookings[tx]);
      Reaches(s, cfg, acts, Closed(s, tx, db, outcome))
  {
    var a := Action(s.clock, CheckSlots(tx));
    var b, next := s.bookings[tx], Next(s, cfg, a);
    acts := [];
    if MustFit(cfg, b.actor) && !SlotOpen(s.db, b.owner, b.start, b.minutes, None) {
      assert Reaches(next, cfg, [], next);
    } else {
      FromFitting(next, cfg, tx);
      acts := [Action(s.clock, Insert(tx))];
      assert next.bookings[tx := b.(pc := Finished(Created(|s.db.visits|)))]
          == s.bookings[tx := b.(pc := Finished(Created(|s.db.visits|)))];
    }
    var (db, outcome) := Continue(s.db, cfg, b);
    StepThen(s, cfg, a, acts, Closed(s, tx, db, outcome));
    acts := [a] + acts;
  }

  lemma FromNoOpen(s: Sys, cfg: Config, tx: Tx) returns (acts: seq<Action>)
    requires At(s, tx, NoOpenVisit) && s.bookings[tx].lead < |s.db.leads|
    requires FirstOpen(s.db.visits, s.bookings[tx].lead).None?
    ensures var (db, outcome) := Continue(s.db, cfg, s.bookings[tx]);
      Reaches(s, cfg, acts, Closed(s, tx, db, outcome))
  {
    var a := Action(s.clock, CheckOverlap(tx));
    var b, next := s.bookings[tx], Next(s, cfg, a);
    var (db, outcome) := Continue(s.db, cfg, b);
    acts := [];
    if Clash(s.db.visits, b.owner, Slot(b), None) {
      assert Reaches(next, cfg, [], next);
    } else {
      acts := FromNoClash(next, cfg, tx);
      assert Continue(next.db, cfg, next.bookings[tx]) == (db, outcome);
      assert next.bookings[tx := b.(pc := Finished(outcome))] == s.bookings[tx := b.(pc := Finished(outcome))];
    }
    StepThen(s, cfg, a, acts, Closed(s, tx, db, outcome));
    acts := [a] + acts;
  }

  lemma FromLocked(s: Sys, cfg: Config, tx: Tx) returns (acts: seq<Action>)
    requires At(s, tx, Locked) && s.bookings[tx].lead < |s.db.leads|
    ensures var (db, outcome) := Continue(s.db, cfg, s.bookings[tx]);
      Reaches(s, cfg, acts, Closed(s, tx, db, outcome))
  {
    var a := Action(s.clock, LookForOpen(tx));
    var b, next := s.bookings[tx], Next(s, cfg, a);
    var (db, outcome) := Continue(s.db, cfg, b);
    acts := [];
    if AgainstOpen(s.db.visits, b.lead, b.start, b.minutes).Some? {
      assert Reaches(next, cfg, [], next);
    } else {
      acts := FromNoOpen(next, cfg, tx);
      assert Continue(next.db, cfg, next.bookings[tx]) == (db, outcome);
      assert next.bookings[tx := b.(pc := Finished(outcome))] == s.bookings[tx := b.(pc := Finished(outcome))];
    }
    StepThen(s, cfg, a, acts, Closed(s, tx, db, outcome));
    acts := [a] + acts;
  }

  /** From the free lock to the commit with nobody in between. */
  lemma Complete(s: Sys, cfg: Config, tx: Tx) returns (acts: seq<Action>)
    requires At(s, tx, Waiting) && s.bookings[tx].owner !in s.locks && s.bookings[tx].lead < |s.db.leads|
    ensures var (db, outcome) := Continue(s.db, cfg, s.bookings[tx]);
      Reaches(s, cfg, acts, Closed(s, tx, db, outcome))
  {
    var a := Action(s.clock, Acquire(tx));
    var b, next := s.bookings[tx], Next(s, cfg, a);
    var (db, outcome) := Continue(s.db, cfg, b);
    acts := FromLocked(next, cfg, tx);
    assert Continue(next.db, cfg, next.bookings[tx]) == (db, outcome);
    assert next.bookings[tx := b.(pc := Finished(outcome))] == s.bookings[tx := b.(pc := Finished(outcome))];
    assert next.locks - {b.owner} == s.locks - {b.owner};
    StepThen(s, cfg, a, acts, Closed(s, tx, db, outcome));
    acts := [a] + acts;
  }

  /** The steps of a booking with nobody in between are request_visit. */
  lemma UninterruptedIsRequestVisit(
      s: Sys, cfg: Config, tx: Tx, lead: LeadId, start: Time, minutes: Minutes, actor: Actor, now: Time)
    returns (acts: seq<Action>, r: Sys)
    requires tx !in s.bookings && s.clock <= now
    requires lead < |s.db.leads| ==> s.db.leads[lead].agent !in s.locks
    ensures Reaches(s, cfg, acts, r) && r.clock == now && r.locks == s.locks && tx in r.bookings
    ensures (r.db, r.bookings[tx].pc) ==
      (RequestVisit(s.db, cfg, lead, start, minutes, actor, now).0,
       Finished(RequestVisit(s.db, cfg, lead, start, minutes, actor, now).1))
    ensures r.bookings.Keys == s.bookings.Keys + {tx}
    ensures forall other :: other in s.bookings ==> r.bookings[other] == s.bookings[other]
  {
    var begin := Action(now, Begin(tx, lead, start, minutes, actor));
    var s1 := Next(s, cfg, begin);
    if EarlyRefusal(s.db, cfg, lead, start, actor, now).Some? {
      assert Reaches(s1, cfg, [], s1);
      acts, r := [], s1;
    } else {
      acts := Complete(s1, cfg, tx);
      var (db, outcome) := Continue(s1.db, cfg, s1.bookings[tx]);
      r := Closed(s1, tx, db, outcome);
      assert s.locks - {s.db.leads[lead].agent} == s.locks;
    }
    StepThen(s, cfg, begin, acts, r);
    acts := [begin] + acts;
  }

  // ------------------------------------------------------------ the same booking, many times

  /** What the promise to a retried post allows in between: anything at all, unless it books the lead
    * another visit, moves or ends one of its visits, or closes it. */
  predicate LeavesLeadAlone(s: Sys, a: Action, lead: LeadId, start: Time, minutes: Minutes) {
    match a.act
    case Begin(_, other, at, length, _) => other == lead ==> at == start && length == minutes
    case Atomic(PatchVisitReq(visit, p, _)) =>
      visit < |s.db.visits| && s.db.visits[visit].lead == lead ==>
        !Moving(p) && (p.status.Some? ==> Blocking(p.status.value))
    case Atomic(AddTransitionReq(other, to, _, _, _)) => other == lead ==> !Terminal(to)
    case _ => true
  }

  function LeftAlone(lead: LeadId, start: Time, minutes: Minutes): (Sys, Action) -> bool {
    (s: Sys, a: Action) => LeavesLeadAlone(s, a, lead, start, minutes)
  }

  predicate IsTheVisit(db: Db, v: VisitId, lead: LeadId, start: Time, minutes: Minutes) {
    v < |db.visits| && OpenFor(db.visits[v], lead) && db.visits[v].start == start && db.visits[v].minutes == minutes
  }

  /** The visit a post answered with, created or found. */
  function Answer(pc: Pc): Option<VisitId> {
    match pc
    case Finished(Created(v)) => Some(v)
    case Finished(Existing(v)) => Some(v)
    case _ => None
  }

  /** The lead's open visits stay where they are, and any visit it gains is open. */
  ghost predicate LeadKept(a: seq<Visit>, b: seq<Visit>, lead: LeadId) {
    && |a| <= |b|
    && (forall i :: 0 <= i < |a| ==> b[i].lead == a[i].lead)
    && (forall i :: 0 <= i < |a| && OpenFor(a[i], lead) ==>
          OpenFor(b[i], lead) && b[i].start == a[i].start && b[i].minutes == a[i].minutes)
    && (forall i :: |a| <= i < |b| && b[i].lead == lead ==> OpenFor(b[i], lead))
  }

  /** Since the visits were `was` and the bookings `over` were over: every visit of the lead that was
    * open or is new is open, and every other booking of the lead posts this one visit and, if
    * answered, was answered with it. */
  ghost predicate Posting(
    s: Sys, was: seq<Visit>, over: set<Tx>, lead: LeadId, start: Time, minutes: Minutes)
  {
    && LeadKept(was, s.db.visits, lead)
    && (forall tx :: tx in over ==> tx in s.bookings && !InFlight(s.bookings[tx]))
    && (forall tx :: tx in s.bookings && tx !in over && s.bookings[tx].lead == lead ==>
          Posts(s.db, s.bookings[tx], lead, start, minutes))
  }

  predicate Posts(db: Db, b: Booking, lead: LeadId, start: Time, minutes: Minutes) {
    && b.start == start && b.minutes == minutes
    && (Answer(b.pc).Some? ==> IsTheVisit(db, Answer(b.pc).value, lead, start, minutes))
  }

  lemma KeptTwice(a: seq<Visit>, b: seq<Visit>, c: seq<Visit>, lead: LeadId)
    requires LeadKept(a, b, lead) && LeadKept(b, c, lead)
    ensures LeadKept(a, c, lead)
  {
  }

  lemma PatchLeavesLead(s: Sys, cfg: Config, a: Action, lead: LeadId, start: Time, minutes: Minutes)
    requires a.act.Atomic? && a.act.req.PatchVisitReq? && LeavesLeadAlone(s, a, lead, start, minutes)
    ensures LeadKept(s.db.visits, Handle(s.db, cfg, a.act.req, a.now).visits, lead)
  {
    var (visit, p, actor) := (a.act.req.visit, a.act.req.patch, a.act.req.actor);
    if PatchRefusal(s.db, cfg, visit, p, actor, a.now).None? {
      PatchedIsLegal(s.db, visit, p, actor);
      var after := Patched(s.db.visits[visit], p);
      ChangeVisitUnfolds(s.db, visit, after, ChangeKind(s.db.visits[visit], after), actor, a.now);
    }
  }

  lemma OthersLeaveLead(s: Sys, cfg: Config, a: Action, lead: LeadId, start: Time, minutes: Minutes)
    requires Enabled(s, a) && a.act.Atomic? && LeavesLeadAlone(s, a, lead, start, minutes)
    ensures LeadKept(s.db.visits, Handle(s.db, cfg, a.act.req, a.now).visits, lead)
  {
    var req := a.act.req;
    match req
    case PatchVisitReq(_, _, _) => PatchLeavesLead(s, cfg, a, lead, start, minutes);
    case AddTransitionReq(other, to, reason, note, actor) =>
      if TransitionRefusal(s.db, other, to, reason, actor).None? && Terminal(to) {
        CancelOpenShape(Transitioned(s.db, other, to, reason, note, actor, a.now), other, actor, a.now, 0);
      }
    case CreateLeadReq(client, listing, message, author, agency) =>
      assert CreateLead(s.db, client, listing, message, author, agency, a.now).0.visits == s.db.visits;
    case ReassignReq(other, target, actor) => assert Reassign(s.db, other, target, actor).0.visits == s.db.visits;
    case SweepReq(_, _) => assert Handle(s.db, cfg, req, a.now).visits == s.db.visits;
    case _ => QuietRequestsTouchNothing(s.db, cfg, req, a.now);
  }

  lemma AnswersStand(a: Db, b: Db, booking: Booking, lead: LeadId, start: Time, minutes: Minutes)
    requires LeadKept(a.visits, b.visits, lead) && Posts(a, booking, lead, start, minutes)
    ensures Posts(b, booking, lead, start, minutes)
  {
  }

  lemma AtomicKeepsPosting(
      s: Sys, cfg: Config, a: Action, was: seq<Visit>, over: set<Tx>, lead: LeadId, start: Time, minutes: Minutes)
    requires Posting(s, was, over, lead, start, minutes) && Enabled(s, a) && a.act.Atomic?
    requires LeavesLeadAlone(s, a, lead, start, minutes)
    ensures Posting(Next(s, cfg, a), was, over, lead, start, minutes)
  {
    var r := Next(s, cfg, a);
    OthersLeaveLead(s, cfg, a, lead, start, minutes);
    KeptTwice(was, s.db.visits, r.db.visits, lead);
    forall tx | tx in r.bookings && tx !in over && r.bookings[tx].lead == lead
      ensures Posts(r.db, r.bookings[tx], lead, start, minutes)
    {
      AnswersStand(s.db, r.db, s.bookings[tx], lead, start, minutes);
    }
  }

  lemma InsertedKeepsPosting(
      s: Sys, r: Sys, tx: Tx, was: seq<Visit>, over: set<Tx>, lead: LeadId, start: Time, minutes: Minutes)
    requires Posting(s, was, over, lead, start, minutes) && Inserted(s, r, tx) && InFlight(s.bookings[tx])
    ensures Posting(r, was, over, lead, start, minutes)
  {
    if FirstOpen(s.db.visits, s.bookings[tx].lead).None? {
      assert forall i :: 0 <= i < |s.db.visits| ==> r.db.visits[i] == s.db.visits[i];
      KeptTwice(was, s.db.visits, r.db.visits, lead);
      forall other | other in r.bookings && other != tx && other !in over && r.bookings[other].lead == lead
        ensures Posts(r.db, r.bookings[other], lead, start, minutes)
      {
        AnswersStand(s.db, r.db, s.bookings[other], lead, start, minutes);
      }
    }
  }

  lemma CountedKeepsPosting(
      s: Sys, cfg: Config, r: Sys, tx: Tx, was: seq<Visit>, over: set<Tx>,
      lead: LeadId, start: Time, minutes: Minutes)
    requires Posting(s, was, over, lead, start, minutes) && Counted(s, cfg, r, tx) && InFlight(s.bookings[tx])
    ensures Posting(r, was, over, lead, start, minutes)
  {
  }

  lemma StepKeepsPosting(
      s: Sys, cfg: Config, a: Action, was: seq<Visit>, over: set<Tx>, lead: LeadId, start: Time, minutes: Minutes)
    requires SysInv(s) && Posting(s, was, over, lead, start, minutes) && Enabled(s, a)
    requires LeavesLeadAlone(s, a, lead, start, minutes)
    ensures Posting(Next(s, cfg, a), was, over, lead, start, minutes)
  {
    if a.act.Atomic? {
      AtomicKeepsPosting(s, cfg, a, was, over, lead, start, minutes);
    } else if a.act.Insert? {
      assert Sound(s, a.act.tx);
      InsertStep(s, cfg, a);
      InsertedKeepsPosting(s, Next(s, cfg, a), a.act.tx, was, over, lead, start, minutes);
    } else if !a.act.Begin? {
      CounterStep(s, cfg, a);
      CountedKeepsPosting(s, cfg, Next(s, cfg, a), a.act.tx, was, over, lead, start, minutes);
    }
  }

  lemma {:induction false} RunKeepsPosting(
      s: Sys, cfg: Config, acts: seq<Action>, was: seq<Visit>, over: set<Tx>,
      lead: LeadId, start: Time, minutes: Minutes)
    requires SysInv(s) && Posting(s, was, over, lead, start, minutes) && Valid(s, cfg, acts)
    requires Respects(s, cfg, acts, LeftAlone(lead, start, minutes))
    ensures SysInv(After(s, cfg, acts)) && Posting(After(s, cfg, acts), was, over, lead, start, minutes)
    decreases |acts|
  {
    if acts != [] {
      StepKeeps(s, cfg, acts[0]);
      StepKeepsPosting(s, cfg, acts[0], was, over, lead, start, minutes);
      RunKeepsPosting(Next(s, cfg, acts[0]), cfg, acts[1..], was, over, lead, start, minutes);
    }
  }

  /** A booking of the lead that was not over when the run began. */
  predicate PostedSince(s: Sys, r: Sys, tx: Tx, lead: LeadId) {
    tx in r.bookings && r.bookings[tx].lead == lead && (tx in s.bookings ==> InFlight(s.bookings[tx]))
  }

  predicate SameAnswer(a: Option<VisitId>, b: Option<VisitId>) {
    a.Some? && b.Some? ==> a == b
  }

  /** A retry is safe, whatever else goes on. From any reachable state, let any number of posts of
    * one visit run while nobody books the lead another, moves or ends its visits, or closes it:
    * the lead gains at most one visit, none if it had one open, and every post that succeeds answers
    * with the same visit, open and at that place. */
  lemma IdenticalPostsMakeOneVisit(
      s: Sys, cfg: Config, acts: seq<Action>, lead: LeadId, start: Time, minutes: Minutes)
    requires SysInv(s) && Valid(s, cfg, acts) && Respects(s, cfg, acts, LeftAlone(lead, start, minutes))
    requires forall tx :: tx in s.bookings && InFlight(s.bookings[tx]) && s.bookings[tx].lead == lead ==>
      s.bookings[tx].start == start && s.bookings[tx].minutes == minutes
    ensures var (r, had) := (After(s, cfg, acts), |s.db.visits|);
      && (forall i, j :: had <= i < j < |r.db.visits| ==> !(r.db.visits[i].lead == lead && r.db.visits[j].lead == lead))
      && (FirstOpen(s.db.visits, lead).Some? ==> forall i :: had <= i < |r.db.visits| ==> r.db.visits[i].lead != lead)
      && (forall t :: PostedSince(s, r, t, lead) && Answer(r.bookings[t].pc).Some? ==>
            IsTheVisit(r.db, Answer(r.bookings[t].pc).value, lead, start, minutes))
      && (forall t, u :: PostedSince(s, r, t, lead) && PostedSince(s, r, u, lead) ==>
            SameAnswer(Answer(r.bookings[t].pc), Answer(r.bookings[u].pc)))
  {
    var over := set tx | tx in s.bookings && !InFlight(s.bookings[tx]);
    RunKeepsPosting(s, cfg, acts, s.db.visits, over, lead, start, minutes);
    var r := After(s, cfg, acts);
    GainsAtMostOne(s.db.visits, r.db.visits, lead);
    forall t | PostedSince(s, r, t, lead) ensures Posts(r.db, r.bookings[t], lead, start, minutes) {
      assert t !in over;
    }
    forall t, u | PostedSince(s, r, t, lead) && PostedSince(s, r, u, lead)
      ensures SameAnswer(Answer(r.bookings[t].pc), Answer(r.bookings[u].pc))
    {
      OneAnswer(r.db, r.bookings[t], r.bookings[u], lead, start, minutes);
    }
  }

  /** A lead whose open visits stay and whose new ones are open gains at most one, and none if it had
    * one: two open visits of a lead cannot be. */
  lemma GainsAtMostOne(was: seq<Visit>, visits: seq<Visit>, lead: LeadId)
    requires OneOpen(visits) && LeadKept(was, visits, lead)
    ensures forall i, j :: |was| <= i < j < |visits| ==> !(visits[i].lead == lead && visits[j].lead == lead)
    ensures FirstOpen(was, lead).Some? ==> forall i :: |was| <= i < |visits| ==> visits[i].lead != lead
  {
    if FirstOpen(was, lead).Some? {
      assert OpenFor(visits[FirstOpen(was, lead).value], lead);
    }
  }

  lemma OneAnswer(db: Db, b: Booking, c: Booking, lead: LeadId, start: Time, minutes: Minutes)
    requires OneOpen(db.visits) && Posts(db, b, lead, start, minutes) && Posts(db, c, lead, start, minutes)
    ensures SameAnswer(Answer(b.pc), Answer(c.pc))
  {
  }

  // ------------------------------------------------------------ runs that break a discipline

  lemma {:induction false} Concat(s: Sys, cfg: Config, a: seq<Action>, mid: Sys, b: seq<Action>, r: Sys)
    requires Reaches(s, cfg, a, mid) && Reaches(mid, cfg, b, r)
    ensures Reaches(s, cfg, a + b, r)
    decreases |a|
  {
    if a == [] {
      assert a + b == b;
    } else {
      assert (a + b)[0] == a[0] && (a + b)[1..] == a[1..] + b;
      Concat(Next(s, cfg, a[0]), cfg, a[1..], mid, b, r);
    }
  }

  lemma OneMore(s: Sys, cfg: Config, acts: seq<Action>, mid: Sys, a: Action)
    requires Reaches(s, cfg, acts, mid) && Enabled(mid, a)
    ensures Reaches(s, cfg, acts + [a], Next(mid, cfg, a))
  {
    var r := Next(mid, cfg, a);
    assert Reaches(r, cfg, [], r);
    StepThen(mid, cfg, a, [], r);
    assert [a] + [] == [a];
    Concat(s, cfg, acts, mid, [a], r);
  }

  const HUMAN := Actor(1, 0, false, true)
  const LAX := Config(false, 120 * MINUTE, 60 * DAY)

  function Empty(): Db {
    Db(map[1 := AgentRow(0, MemberRole, true), 2 := AgentRow(0, MemberRole, true)],
       map[0 := Listing(1, 0, Sale)], {0}, [], [], [], [], map[], [], [], [], [], map[], 0, map[])
  }

  /** One lead of agent 1, created at time 0. */
  lemma OneLead() returns (acts: seq<Action>, r: Sys)
    ensures Fresh(Sys(Empty(), 0, map[], map[])) && Reaches(Sys(Empty(), 0, map[], map[]), LAX, acts, r)
    ensures r.clock == 0 && r.bookings == map[] && r.locks == map[]
    ensures r.db.leads == [Lead(0, 0, 1, Interested, 0)] && r.db.visits == []
    ensures r.db.timeOff == map[] && r.db.nextOff == 0 && r.db.agents == Empty().agents
    ensures SysInv(r)
  {
    var s := Sys(Empty(), 0, map[], map[]);
    var a := Action(0, Atomic(CreateLeadReq(0, 0, false, None, 0)));
    EmptyIsSound();
    assert Reaches(s, LAX, [], s);
    OneMore(s, LAX, [], s, a);
    acts, r := [] + [a], Next(s, LAX, a);
    FirstLead();
    StepKeeps(s, LAX, a);
  }

  lemma EmptyIsSound()
    ensures Fresh(Sys(Empty(), 0, map[], map[])) && SysInv(Sys(Empty(), 0, map[], map[]))
  {
  }

  lemma FirstLead()
    ensures var r := CreateLead(Empty(), 0, 0, false, None, 0, 0).0;
      && r.leads == [Lead(0, 0, 1, Interested, 0)] && r.visits == []
      && r.timeOff == map[] && r.nextOff == 0 && r.agents == Empty().agents
  {
  }

  /** A booking of the human's, up to holding the lock. */
  lemma ReadyToLook(s: Sys, tx: Tx, lead: LeadId, start: Time) returns (acts: seq<Action>, r: Sys)
    requires s.clock == 0 && 0 < start && tx !in s.bookings && s.locks == map[]
    requires lead < |s.db.leads| && s.db.agents == Empty().agents
    requires s.db.leads[lead].agent == 1 && !Terminal(s.db.leads[lead].stage)
    ensures Reaches(s, LAX, acts, r)
    ensures r == Sys(s.db, 0, s.bookings[tx := Booking(lead, start, 60, HUMAN, 0, 1, Locked)], map[1 := tx])
  {
    var begin, acquire := Action(0, Begin(tx, lead, start, 60, HUMAN)), Action(0, Acquire(tx));
    assert Reaches(s, LAX, [], s);
    OneMore(s, LAX, [], s, begin);
    var s0 := Next(s, LAX, begin);
    OneMore(s, LAX, [] + [begin], s0, acquire);
    acts, r := [] + [begin] + [acquire], Next(s0, LAX, acquire);
    assert r.bookings == s.bookings[tx := Booking(lead, start, 60, HUMAN, 0, 1, Locked)];
  }

  /** A booking of the human's on a free calendar, taken from its start to just before its insert. */
  lemma ReadyToInsert(s: Sys, tx: Tx, lead: LeadId, start: Time) returns (acts: seq<Action>, r: Sys)
    requires s.clock == 0 && 0 < start && tx !in s.bookings && s.locks == map[]
    requires lead < |s.db.leads| && s.db.agents == Empty().agents
    requires s.db.leads[lead].agent == 1 && !Terminal(s.db.leads[lead].stage)
    requires forall i :: 0 <= i < |s.db.visits| ==> !Blocking(s.db.visits[i].status)
    ensures Reaches(s, LAX, acts, r) && r.db == s.db && r.clock == 0
    ensures r.locks == map[1 := tx]
    ensures r.bookings == s.bookings[tx := Booking(lead, start, 60, HUMAN, 0, 1, Fitting)]
  {
    var look, overlap, slots := Action(0, LookForOpen(tx)), Action(0, CheckOverlap(tx)), Action(0, CheckSlots(tx));
    var first, s1 := ReadyToLook(s, tx, lead, start);
    OneMore(s, LAX, first, s1, look);
    var s2 := Next(s1, LAX, look);
    OneMore(s, LAX, first + [look], s2, overlap);
    var s3 := Next(s2, LAX, overlap);
    OneMore(s, LAX, first + [look] + [overlap], s3, slots);
    acts, r := first + [look] + [overlap] + [slots], Next(s3, LAX, slots);
  }

  /** The unique index is needed: hand the lead over after the first booking's checks, book it on
    * the new owner's calendar, and the first insert runs into the second visit. */
  lemma HandoverReachesTheIndex() returns (acts: seq<Action>, r: Sys)
    ensures Fresh(Sys(Empty(), 0, map[], map[])) && Reaches(Sys(Empty(), 0, map[], map[]), LAX, acts, r)
    ensures At(r, 0, Finished(Refused(DuplicateOpenVisit)))
  {
    var s := Sys(Empty(), 0, map[], map[]);
    EmptyIsSound();
    var acts1, s1 := HandedOver();
    var acts2, s2 := UninterruptedIsRequestVisit(s1, LAX, 1, 0, 5 * HOUR, 60, HUMAN, 0);
    Concat(s, LAX, acts1, s1, acts2, s2);
    BookedForNewOwner(s1.db);
    var insert := Action(0, Insert(0));
    assert s2.bookings[0] == s1.bookings[0];
    OneMore(s, LAX, acts1 + acts2, s2, insert);
    acts, r := acts1 + acts2 + [insert], Next(s2, LAX, insert);
  }

  lemma HandedOver() returns (acts: seq<Action>, r: Sys)
    ensures Reaches(Sys(Empty(), 0, map[], map[]), LAX, acts, r)
    ensures |r.db.leads| == 1 && r.db.leads[0].agent == 2 && r.db.leads[0].stage.Interested? && r.db.visits == []
    ensures r.db.agents == Empty().agents && r.clock == 0 && r.locks == map[1 := 0]
    ensures r.bookings == map[0 := Booking(0, HOUR, 60, HUMAN, 0, 1, Fitting)]
  {
    var s := Sys(Empty(), 0, map[], map[]);
    var acts1, s1 := OneLead();
    var acts2, s2 := ReadyToInsert(s1, 0, 0, HOUR);
    Concat(s, LAX, acts1, s1, acts2, s2);
    var handover := Action(0, Atomic(ReassignReq(0, 2, HUMAN)));
    OneMore(s, LAX, acts1 + acts2, s2, handover);
    acts, r := acts1 + acts2 + [handover], Next(s2, LAX, handover);
  }

  lemma BookedForNewOwner(db: Db)
    requires |db.leads| == 1 && db.leads[0].agent == 2 && db.leads[0].stage.Interested? && db.visits == []
    requires db.agents == Empty().agents
    ensures FirstOpen(RequestVisit(db, LAX, 0, 5 * HOUR, 60, HUMAN, 0).0.visits, 0).Some?
    ensures |RequestVisit(db, LAX, 0, 5 * HOUR, 60, HUMAN, 0).0.leads| == 1
  {
    BookLeavesOwners(db, 0, 2, 5 * HOUR, 60, HUMAN, 0);
    assert OpenFor(Book(db, 0, 2, 5 * HOUR, 60, HUMAN, 0).visits[0], 0);
  }

  /** The lead's stage is read before the lock: close the lead after that, and the booking still
    * lands on it. */
  lemma ClosingMidBookingLeavesAVisit() returns (acts: seq<Action>, r: Sys)
    ensures Fresh(Sys(Empty(), 0, map[], map[])) && Reaches(Sys(Empty(), 0, map[], map[]), LAX, acts, r)
    ensures !ClosedFree(r.db.visits, r.db.leads)
  {
    var s := Sys(Empty(), 0, map[], map[]);
    var acts1, s1 := OneLead();
    var acts2, s2 := ReadyToInsert(s1, 0, 0, HOUR);
    Concat(s, LAX, acts1, s1, acts2, s2);
    var close := Action(0, Atomic(AddTransitionReq(0, Lost, Some(Price), false, HUMAN)));
    OneMore(s, LAX, acts1 + acts2, s2, close);
    var s3 := Next(s2, LAX, close);
    ClosedIsLost(s1);
    var insert := Action(0, Insert(0));
    OneMore(s, LAX, acts1 + acts2 + [close], s3, insert);
    acts, r := acts1 + acts2 + [close] + [insert], Next(s3, LAX, insert);
    InsertOnLostLead(s3, insert);
  }

  lemma InsertOnLostLead(s: Sys, a: Action)
    requires |s.db.leads| == 1 && s.db.leads[0].stage.Lost? && s.db.visits == [] && Enabled(s, a)
    requires a.act == Insert(0) && s.bookings[0] == Booking(0, HOUR, 60, HUMAN, 0, 1, Fitting)
    ensures !ClosedFree(Next(s, LAX, a).db.visits, Next(s, LAX, a).db.leads)
  {
    var r := Next(s, LAX, a);
    BookLeavesOwners(s.db, 0, 1, HOUR, 60, HUMAN, 0);
    BookOnLostLead(s.db);
    assert r.db == Book(s.db, 0, 1, HOUR, 60, HUMAN, 0);
    assert OpenFor(r.db.visits[0], 0);
  }

  lemma ClosedIsLost(s: Sys)
    requires |s.db.leads| == 1 && s.db.leads[0] == Lead(0, 0, 1, Interested, 0) && s.db.visits == []
    requires s.db.agents == Empty().agents && SysInv(s) && s.clock == 0
    ensures var r := AddTransition(s.db, 0, Lost, Some(Price), false, HUMAN, 0).0;
      |r.leads| == 1 && r.leads[0].stage.Lost? && r.visits == [] && r.agents == s.db.agents
  {
    DatedIsNewest(s.db.transitions, 0, 0);
    AdvanceKeeps(s.db, 0, Lost, HUMAN, 0, 0);
  }

  lemma BookOnLostLead(db: Db)
    requires |db.leads| == 1 && db.leads[0].stage.Lost?
    ensures Book(db, 0, 1, HOUR, 60, HUMAN, 0).leads == db.leads
  {
  }

  /** A person's booking ignores time off unless availability is enforced. */
  lemma PeopleBookOverTimeOff() returns (acts: seq<Action>, r: Sys)
    ensures Fresh(Sys(Empty(), 0, map[], map[])) && Reaches(Sys(Empty(), 0, map[], map[]), LAX, acts, r)
    ensures !ManualClear(r.db)
  {
    var s := Sys(Empty(), 0, map[], map[]);
    var acts1, s1 := OneLead();
    var off := Action(0, Atomic(AddTimeOffReq(1, 0, Interval(HOUR, 2 * HOUR))));
    OneMore(s, LAX, acts1, s1, off);
    var s2 := Next(s1, LAX, off);
    assert s2.db.timeOff == map[Manual(0) := TimeOff(1, Interval(HOUR, 2 * HOUR))];
    var acts3, s3 := ReadyToInsert(s2, 0, 0, HOUR);
    Concat(s, LAX, acts1 + [off], s2, acts3, s3);
    var insert := Action(0, Insert(0));
    OneMore(s, LAX, acts1 + [off] + acts3, s3, insert);
    acts, r := acts1 + [off] + acts3 + [insert], Next(s3, LAX, insert);
    InsertOverTimeOff(s3, insert);
  }

  lemma InsertOverTimeOff(s: Sys, a: Action)
    requires |s.db.leads| == 1 && s.db.visits == [] && Enabled(s, a)
    requires s.db.timeOff == map[Manual(0) := TimeOff(1, Interval(HOUR, 2 * HOUR))]
    requires a.act == Insert(0) && s.bookings[0] == Booking(0, HOUR, 60, HUMAN, 0, 1, Fitting)
    ensures !ManualClear(Next(s, LAX, a).db)
  {
    InsertStep(s, LAX, a);
    InsertedStaysClearIff(s, Next(s, LAX, a), 0);
    assert Overlaps(Slot(s.bookings[0]), s.db.timeOff[Manual(0)].span);
  }

  const LATER := Patch(Some(Cancelled), Some(9 * HOUR), None)

  /** A cancelled visit does move: send CANCELLED again with another time. */
  lemma CancelledVisitMoves() returns (acts: seq<Action>, s: Sys, move: Action)
    ensures Fresh(Sys(Empty(), 0, map[], map[])) && Reaches(Sys(Empty(), 0, map[], map[]), LAX, acts, s)
    ensures Enabled(s, move) && move.act == Atomic(PatchVisitReq(0, LATER, HUMAN))
    ensures |s.db.visits| == 1 && s.db.visits[0].status.Cancelled? && s.db.visits[0].start == 5 * HOUR
    ensures Next(s, LAX, move).db.visits == [s.db.visits[0].(start := 9 * HOUR)]
  {
    var first := Sys(Empty(), 0, map[], map[]);
    var acts1, s1 := OneLead();
    var acts2, s2 := UninterruptedIsRequestVisit(s1, LAX, 0, 0, 5 * HOUR, 60, HUMAN, 0);
    BookedForHuman(s1.db);
    Concat(first, LAX, acts1, s1, acts2, s2);
    var cancel := Action(0, Atomic(PatchVisitReq(0, GONE, HUMAN)));
    OneMore(first, LAX, acts1 + acts2, s2, cancel);
    CancelledByHuman(s2.db);
    acts, s := acts1 + acts2 + [cancel], Next(s2, LAX, cancel);
    move := Action(0, Atomic(PatchVisitReq(0, LATER, HUMAN)));
    MovedByHuman(s.db);
  }

  lemma BookedForHuman(db: Db)
    requires db.leads == [Lead(0, 0, 1, Interested, 0)] && db.visits == [] && db.agents == Empty().agents
    ensures var r := RequestVisit(db, LAX, 0, 5 * HOUR, 60, HUMAN, 0).0;
      && |r.visits| == 1 && r.visits[0] == Visit(0, 1, 5 * HOUR, 60, r.visits[0].status, 1)
      && Blocking(r.visits[0].status)
      && |r.leads| == 1 && r.leads[0].agent == 1 && r.agents == db.agents
  {
    BookLeavesOwners(db, 0, 1, 5 * HOUR, 60, HUMAN, 0);
  }

  const GONE := Patch(Some(Cancelled), None, None)

  lemma CancelledByHuman(db: Db)
    requires |db.leads| == 1 && db.leads[0].agent == 1 && db.agents == Empty().agents
    requires |db.visits| == 1 && Blocking(db.visits[0].status)
    requires db.visits[0] == Visit(0, 1, 5 * HOUR, 60, db.visits[0].status, 1)
    ensures var r := PatchVisit(db, LAX, 0, GONE, HUMAN, 0).0;
      && r.visits == [db.visits[0].(status := Cancelled)]
      && |r.leads| == 1 && r.leads[0].agent == 1 && r.agents == db.agents
  {
    var gone := db.visits[0].(status := Cancelled);
    ChangeVisitUnfolds(db, 0, gone, CancelledEvent, HUMAN, 0);
    assert db.visits[0 := gone] == [gone];
    PatchLeavesOwners(db, LAX, 0, GONE, HUMAN, 0);
  }

  lemma MovedByHuman(db: Db)
    requires |db.leads| == 1 && db.leads[0].agent == 1 && db.agents == Empty().agents
    requires db.visits == [Visit(0, 1, 5 * HOUR, 60, Cancelled, 1)]
    ensures PatchVisit(db, LAX, 0, LATER, HUMAN, 0).0.visits == [db.visits[0].(start := 9 * HOUR)]
  {
    var later := db.visits[0].(start := 9 * HOUR);
    ChangeVisitUnfolds(db, 0, later, RescheduledEvent, HUMAN, 0);
    assert db.visits[0 := later] == [later];
  }
}

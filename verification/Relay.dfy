/** The outbox relay (events.relay_domain_events in schema-2.sql), run by any number of runners at
  * once beside the service and its bookings in progress. A run takes its snapshot, locks rows one by
  * one in order, skipping rows another run holds or has already stamped, and at the end stamps what it
  * holds and raises first-touch tasks, all in one commit. */
module Relay {
  import opened Domain
  import opened Store
  import opened Invariants
  import opened Sweep
  import opened History
  import Booking
  import BookingSafety

  type RunId = nat

  /** The columns the relay orders by. occurred_at is the transaction's start and the id is handed
    * out at the insert, so neither follows the order of commits, which is the order of `events`. */
  datatype Slip = Slip(occurredAt: Time, id: nat)

  predicate Before(a: Slip, b: Slip) {
    a.occurredAt < b.occurredAt || (a.occurredAt == b.occurredAt && a.id < b.id)
  }

  datatype Phase = Working | Committed | RolledBack

  /** `tasks` and `leads` are the run's snapshot; `todo` the candidates it has not looked at yet;
    * `batch` the rows it has locked. */
  datatype Run = Run(
    limit: nat, at: Time, tasks: seq<Task>, leads: seq<Lead>, todo: seq<nat>, batch: seq<nat>, phase: Phase)

  /** One writing of published_at. */
  datatype Delivery = Delivery(event: nat, run: RunId)

  /** `firstTouch` lists the leads of the first-touch tasks raised, in order. */
  datatype Sys = Sys(
    db: Db, clock: Time, bookings: map<Booking.Tx, Booking.Booking>, locks: map<AgentId, Booking.Tx>,
    slips: seq<Slip>, runs: map<RunId, Run>,
    deliveries: seq<Delivery>, firstTouch: seq<LeadId>)

  datatype Act =
    | Start(run: RunId, limit: nat, queue: seq<nat>)
    | LockNext(run: RunId)
    | Commit(run: RunId)
    | RollBack(run: RunId)
    | Serve(cfg: Config, step: Booking.Act, slips: seq<Slip>)
    | EditTasks(tasks: seq<Task>)

  datatype Action = Action(now: Time, act: Act)

  /** Indices into a sequence of length n. */
  predicate Below(indices: seq<nat>, n: nat) {
    forall i :: 0 <= i < |indices| ==> indices[i] < n
  }

  /** The service the relay runs beside. */
  function Service(s: Sys): Booking.Sys {
    Booking.Sys(s.db, s.clock, s.bookings, s.locks)
  }

  /** The relay's state when the service has moved on. */
  function Beside(s: Sys, service: Booking.Sys): Sys {
    s.(db := service.db, bookings := service.bookings, locks := service.locks)
  }

  predicate Published(deliveries: seq<Delivery>, e: nat) {
    exists i :: 0 <= i < |deliveries| && deliveries[i].event == e
  }

  predicate Works(s: Sys, run: RunId) {
    run in s.runs && s.runs[run].phase.Working?
  }

  predicate Holds(s: Sys, run: RunId, e: nat) {
    Works(s, run) && e in s.runs[run].batch
  }

  predicate HeldElsewhere(s: Sys, run: RunId, e: nat) {
    exists other :: other in s.runs && other != run && Holds(s, other, e)
  }

  ghost predicate InOrder(slips: seq<Slip>, queue: seq<nat>) {
    && Below(queue, |slips|)
    && forall i, j :: 0 <= i < j < |queue| ==> Before(slips[queue[i]], slips[queue[j]])
  }

  /** The unpublished events, oldest first. */
  ghost predicate IsQueue(s: Sys, queue: seq<nat>) {
    && InOrder(s.slips, queue)
    && forall e: nat :: e in queue <==> e < |s.slips| && !Published(s.deliveries, e)
  }

  predicate DistinctIds(slips: seq<Slip>) {
    forall i, j :: 0 <= i < j < |slips| ==> slips[i].id != slips[j].id
  }

  predicate CanCommit(run: Run) {
    run.phase.Working? && (run.todo == [] || |run.batch| == run.limit)
  }

  ghost predicate Enabled(s: Sys, a: Action) {
    && s.clock <= a.now
    && match a.act
       case Start(run, _, queue) => run !in s.runs && IsQueue(s, queue)
       case LockNext(run) => Works(s, run) && s.runs[run].todo != [] && |s.runs[run].batch| < s.runs[run].limit
       case Commit(run) => Works(s, run) && CanCommit(s.runs[run])
       case RollBack(run) => Works(s, run)
       case Serve(cfg, step, slips) =>
         && Booking.Enabled(Service(s), Booking.Action(a.now, step))
         && |s.slips| + |slips| == |Booking.Next(Service(s), cfg, Booking.Action(a.now, step)).db.events|
         && DistinctIds(s.slips + slips)
       case EditTasks(_) => true
  }

  /** lead.created, joined to a lead with no pending task: both as the snapshot has them. */
  predicate Touches(run: Run, e: Event) {
    e.LeadCreated? && e.lead < |run.leads| && !HasPending(run.tasks, e.lead)
  }

  function Touched(run: Run, events: seq<Event>, batch: seq<nat>): (r: seq<LeadId>)
    requires Below(batch, |events|)
    ensures Below(r, |run.leads|)
  {
    if batch == [] then []
    else
      var e := events[batch[|batch| - 1]];
      Touched(run, events, batch[..|batch| - 1]) + if Touches(run, e) then [e.lead] else []
  }

  function FirstTouchTasks(run: Run, leads: seq<LeadId>): seq<Task>
    requires Below(leads, |run.leads|)
  {
    seq(|leads|, i requires 0 <= i < |leads| =>
      Task(leads[i], run.leads[leads[i]].agent, run.at + 24 * HOUR, TaskPending))
  }

  function Stamps(run: RunId, batch: seq<nat>): seq<Delivery> {
    seq(|batch|, i requires 0 <= i < |batch| => Delivery(batch[i], run))
  }

  function SetRun(s: Sys, run: RunId, row: Run): Sys {
    s.(runs := s.runs[run := row])
  }

  function Locked(s: Sys, run: RunId): Sys
    requires run in s.runs && s.runs[run].todo != []
  {
    var row := s.runs[run];
    var e := row.todo[0];
    var free := !Published(s.deliveries, e) && !HeldElsewhere(s, run, e);
    SetRun(s, run, row.(todo := row.todo[1..], batch := if free then row.batch + [e] else row.batch))
  }

  predicate InRange(s: Sys, run: RunId) {
    run in s.runs && Below(s.runs[run].batch, |s.db.events|)
  }

  function Finished(s: Sys, run: RunId): Sys
    requires InRange(s, run)
  {
    var row := s.runs[run];
    var leads := Touched(row, s.db.events, row.batch);
    SetRun(s, run, row.(phase := Committed)).(
      db := s.db.(tasks := s.db.tasks + FirstTouchTasks(row, leads)),
      firstTouch := s.firstTouch + leads,
      deliveries := s.deliveries + Stamps(run, row.batch))
  }

  /** A step of the service: runs and stamps are none of its business. */
  ghost function Served(s: Sys, cfg: Config, step: Booking.Action, slips: seq<Slip>): (r: Sys)
    requires Booking.Enabled(Service(s), step)
    ensures r.runs == s.runs && r.deliveries == s.deliveries && r.firstTouch == s.firstTouch
  {
    Beside(s, Booking.Next(Service(s), cfg, step)).(clock := step.now, slips := s.slips + slips)
  }

  /** One step; a step that is not enabled does not happen. */
  ghost function Next(s0: Sys, a: Action): Sys {
    if !Enabled(s0, a) then s0
    else
      var s := s0.(clock := a.now);
      match a.act
      case Start(run, limit, queue) =>
        SetRun(s, run, Run(limit, a.now, s.db.tasks, s.db.leads, queue, [], Working))
      case LockNext(run) => Locked(s, run)
      case Commit(run) => if InRange(s, run) then Finished(s, run) else s
      case RollBack(run) => SetRun(s, run, s.runs[run].(phase := RolledBack))
      case Serve(cfg, step, slips) => Served(s0, cfg, Booking.Action(a.now, step), slips)
      case EditTasks(tasks) => s.(db := s.db.(tasks := tasks))
  }

  // ------------------------------------------------------------ what every step keeps

  predicate Distinct<T(==)>(s: seq<T>) {
    forall i, j :: 0 <= i < j < |s| ==> s[i] != s[j]
  }

  ghost predicate Outbox(s: Sys) {
    Booking.SysInv(Service(s)) && |s.slips| == |s.db.events| && DistinctIds(s.slips)
  }

  /** Every event is stamped at most once, and only by a run that committed. */
  ghost predicate StampedOnce(s: Sys) {
    && (forall i :: 0 <= i < |s.deliveries| ==>
          && s.deliveries[i].event < |s.db.events| && s.deliveries[i].run in s.runs
          && s.runs[s.deliveries[i].run].phase.Committed?)
    && (forall i, j :: 0 <= i < j < |s.deliveries| ==> s.deliveries[i].event != s.deliveries[j].event)
  }

  /** A row the run may still write is an event of its snapshot. */
  predicate Candidate(db: Db, leads: nat, e: nat) {
    e < |db.events| && (db.events[e].LeadCreated? ==> db.events[e].lead < leads)
  }

  ghost predicate RunSound(s: Sys, run: RunId)
    requires run in s.runs
  {
    var row := s.runs[run];
    row.phase.Working? ==>
      && |row.batch| <= row.limit && Distinct(row.batch) && Distinct(row.todo)
      && (forall e :: e in row.todo || e in row.batch ==> Candidate(s.db, |row.leads|, e))
      && (forall e :: e in row.batch ==> !Published(s.deliveries, e) && e !in row.todo)
  }

  ghost predicate RunsSound(s: Sys) {
    forall run :: run in s.runs ==> RunSound(s, run)
  }

  /** No row is locked twice. */
  ghost predicate Disjoint(s: Sys) {
    forall e, a, b :: Holds(s, a, e) && Holds(s, b, e) ==> a == b
  }

  predicate OwesTouch(s: Sys, d: Delivery, l: LeadId) {
    d.event < |s.db.events| && Creates(s.db.events[d.event], l)
    && d.run in s.runs && !HasPending(s.runs[d.run].tasks, l)
  }

  /** A lead has a first-touch task exactly when its creation was relayed and the relaying run saw
    * no pending task on it. */
  ghost predicate TouchedWhenDue(s: Sys) {
    forall l :: l in s.firstTouch <==> exists i :: 0 <= i < |s.deliveries| && OwesTouch(s, s.deliveries[i], l)
  }

  ghost predicate RelayInv(s: Sys) {
    Outbox(s) && StampedOnce(s) && RunsSound(s) && Disjoint(s) && TouchedWhenDue(s) && Distinct(s.firstTouch)
  }

  // ------------------------------------------------------------ one step

  lemma StartKeeps(s: Sys, run: RunId, limit: nat, queue: seq<nat>)
    requires RelayInv(s) && run !in s.runs && IsQueue(s, queue)
    ensures RelayInv(SetRun(s, run, Run(limit, s.clock, s.db.tasks, s.db.leads, queue, [], Working)))
  {
    var row := Run(limit, s.clock, s.db.tasks, s.db.leads, queue, [], Working);
    var r := SetRun(s, run, row);
    forall e | e in queue ensures Candidate(r.db, |row.leads|, e) {
      CreatedLeadIsThere(s.db, s.clock, e);
    }
    assert Distinct(queue);
    assert RunSound(r, run);
    forall other | other in s.runs ensures RunSound(r, other) {
      assert RunSound(s, other);
    }
    assert forall other, e :: Holds(r, other, e) ==> Holds(s, other, e);
    SameTouches(s, r);
  }

  lemma CreatedLeadIsThere(db: Db, now: Time, e: nat)
    requires Core(db, now) && e < |db.events|
    ensures db.events[e].LeadCreated? ==> db.events[e].lead < |db.leads|
  {
    if db.events[e].LeadCreated? {
      var l := db.events[e].lead;
      OpeningsOf(db.events, l);
      assert Creates(db.events[e], l);
    }
  }

  /** What is due depends on the old events, the deliveries and the deliverers' snapshots only. */
  lemma SameTouches(s: Sys, r: Sys)
    requires StampedOnce(s) && TouchedWhenDue(s) && s.db.events <= r.db.events
    requires r.deliveries == s.deliveries && r.firstTouch == s.firstTouch
    requires forall run :: run in s.runs && s.runs[run].phase.Committed? ==>
      run in r.runs && r.runs[run].tasks == s.runs[run].tasks
    ensures TouchedWhenDue(r)
  {
    forall i, l | 0 <= i < |s.deliveries| ensures OwesTouch(s, s.deliveries[i], l) == OwesTouch(r, s.deliveries[i], l) {
    }
  }

  lemma TakingFirst(todo: seq<nat>, batch: seq<nat>)
    requires todo != [] && Distinct(todo) && Distinct(batch) && forall e :: e in batch ==> e !in todo
    ensures Distinct(todo[1..]) && Distinct(batch + [todo[0]]) && todo[0] !in todo[1..]
    ensures forall e :: e in todo <==> e == todo[0] || e in todo[1..]
    ensures forall e :: e in batch + [todo[0]] <==> e in batch || e == todo[0]
  {
    var rest := todo[1..];
    assert todo == [todo[0]] + rest;
    assert forall j :: 0 <= j < |rest| ==> rest[j] == todo[j + 1];
    assert todo[0] in todo;
  }

  lemma LockKeepsRun(s: Sys, run: RunId)
    requires RelayInv(s) && Works(s, run) && s.runs[run].todo != [] && |s.runs[run].batch| < s.runs[run].limit
    ensures RunSound(Locked(s, run), run)
  {
    var row := s.runs[run];
    assert RunSound(s, run);
    var (e, after) := (row.todo[0], Locked(s, run).runs[run]);
    TakingFirst(row.todo, row.batch);
    assert after.todo == row.todo[1..];
    assert after.batch == row.batch || (after.batch == row.batch + [e] && !Published(s.deliveries, e));
    forall k | k in after.todo || k in after.batch ensures Candidate(s.db, |row.leads|, k) {
      assert k in row.todo || k in row.batch;
    }
  }

  lemma LockKeepsRuns(s: Sys, run: RunId)
    requires RelayInv(s) && Works(s, run) && s.runs[run].todo != [] && |s.runs[run].batch| < s.runs[run].limit
    ensures RunsSound(Locked(s, run))
  {
    var r := Locked(s, run);
    LockKeepsRun(s, run);
    forall other | other in s.runs && other != run ensures RunSound(r, other) {
      assert RunSound(s, other);
    }
  }

  lemma LockKeeps(s: Sys, run: RunId)
    requires RelayInv(s) && Works(s, run) && s.runs[run].todo != [] && |s.runs[run].batch| < s.runs[run].limit
    ensures RelayInv(Locked(s, run))
  {
    var r := Locked(s, run);
    var e := s.runs[run].todo[0];
    LockKeepsRuns(s, run);
    forall k: nat, a: RunId, b: RunId | Holds(r, a, k) && Holds(r, b, k) ensures a == b {
      assert Holds(s, a, k) || (a == run && k == e);
      assert Holds(s, b, k) || (b == run && k == e);
    }
    SameTouches(s, r);
  }

  lemma RollBackKeeps(s: Sys, run: RunId)
    requires RelayInv(s) && Works(s, run)
    ensures RelayInv(SetRun(s, run, s.runs[run].(phase := RolledBack)))
  {
    var r := SetRun(s, run, s.runs[run].(phase := RolledBack));
    forall other | other in s.runs ensures RunSound(r, other) {
      assert RunSound(s, other);
    }
    assert forall other, e :: Holds(r, other, e) ==> Holds(s, other, e);
    SameTouches(s, r);
  }

  /** The service and the agents know nothing of runs: they only append events and edit tasks. */
  lemma OutsideKeeps(s: Sys, r: Sys)
    requires RelayInv(s) && Outbox(r) && s.db.events <= r.db.events
    requires r.runs == s.runs && r.deliveries == s.deliveries && r.firstTouch == s.firstTouch
    ensures RelayInv(r)
  {
    forall run | run in s.runs ensures RunSound(r, run) {
      assert RunSound(s, run);
      var row := s.runs[run];
      assert forall e :: Candidate(s.db, |row.leads|, e) ==> Candidate(r.db, |row.leads|, e);
    }
    assert forall other, e :: Holds(r, other, e) <==> Holds(s, other, e);
    SameTouches(s, r);
  }

  // ------------------------------------------------------------ the commit

  lemma DistinctTogether<T>(a: seq<T>, b: seq<T>)
    requires Distinct(a) && Distinct(b) && forall x :: x in b ==> x !in a
    ensures Distinct(a + b)
  {
    forall i, j | 0 <= i < j < |a + b| ensures (a + b)[i] != (a + b)[j] {
      if i < |a| <= j {
        assert b[j - |a|] in b;
      }
    }
  }

  lemma {:induction false} TouchedAre(run: Run, events: seq<Event>, batch: seq<nat>)
    requires Below(batch, |events|)
    requires CreatedOnce(events) && Distinct(batch)
    ensures Distinct(Touched(run, events, batch))
    ensures forall l :: l in Touched(run, events, batch) <==>
      exists i :: 0 <= i < |batch| && Creates(events[batch[i]], l) && Touches(run, events[batch[i]])
  {
    if batch != [] {
      var n := |batch| - 1;
      TouchedAre(run, events, batch[..n]);
      var e := events[batch[n]];
      forall i | 0 <= i < n && e.LeadCreated? ensures !Creates(events[batch[i]], e.lead) {
        OneCreation(events, batch[i], batch[n], e.lead);
      }
      DistinctTogether(Touched(run, events, batch[..n]), if Touches(run, e) then [e.lead] else []);
    }
  }

  lemma OneCreation(events: seq<Event>, i: nat, j: nat, l: LeadId)
    requires CreatedOnce(events) && i < |events| && j < |events| && i != j
    ensures !(Creates(events[i], l) && Creates(events[j], l))
  {
  }

  lemma StampsPublish(deliveries: seq<Delivery>, run: RunId, batch: seq<nat>)
    ensures forall e :: Published(deliveries + Stamps(run, batch), e) <==> Published(deliveries, e) || e in batch
  {
    var all := deliveries + Stamps(run, batch);
    forall e | e in batch ensures Published(all, e) {
      var i :| 0 <= i < |batch| && batch[i] == e;
      assert all[|deliveries| + i].event == e;
    }
    forall e | Published(deliveries, e) ensures Published(all, e) {
      var i :| 0 <= i < |deliveries| && deliveries[i].event == e;
      assert all[i].event == e;
    }
  }

  lemma CommitStamps(s: Sys, run: RunId)
    requires RelayInv(s) && Works(s, run) && InRange(s, run)
    ensures StampedOnce(Finished(s, run))
  {
    var r := Finished(s, run);
    var n := |s.deliveries|;
    assert RunSound(s, run);
    forall i, j | 0 <= i < j < |r.deliveries| ensures r.deliveries[i].event != r.deliveries[j].event {
      if i < n <= j {
        assert !Published(s.deliveries, s.runs[run].batch[j - n]);
      }
    }
  }

  lemma CommitKeepsRuns(s: Sys, run: RunId)
    requires RelayInv(s) && Works(s, run) && InRange(s, run)
    ensures RunsSound(Finished(s, run)) && Disjoint(Finished(s, run))
  {
    var r := Finished(s, run);
    StampsPublish(s.deliveries, run, s.runs[run].batch);
    assert forall other, e :: Holds(r, other, e) ==> Holds(s, other, e) && other != run;
    forall other | other in s.runs && other != run ensures RunSound(r, other) {
      assert RunSound(s, other);
      forall e | e in s.runs[other].batch && s.runs[other].phase.Working? ensures !Published(r.deliveries, e) {
        assert Holds(s, other, e);
        assert e in s.runs[run].batch ==> Holds(s, run, e);
      }
    }
  }

  /** A commit raises its tasks for exactly the leads its deliveries owe one. */
  lemma OwedByCommit(s: Sys, run: RunId, l: LeadId)
    requires RelayInv(s) && Works(s, run) && InRange(s, run)
    ensures var r := Finished(s, run);
      l in Touched(s.runs[run], s.db.events, s.runs[run].batch) <==>
        exists i :: |s.deliveries| <= i < |r.deliveries| && OwesTouch(r, r.deliveries[i], l)
  {
    var r := Finished(s, run);
    var (row, n) := (s.runs[run], |s.deliveries|);
    assert RunSound(s, run);
    EveryLeadIsCreatedOnce(s.db, s.clock);
    TouchedAre(row, s.db.events, row.batch);
    if i :| 0 <= i < |row.batch| && Creates(s.db.events[row.batch[i]], l) && Touches(row, s.db.events[row.batch[i]]) {
      assert OwesTouch(r, r.deliveries[n + i], l);
    }
    if i :| n <= i < |r.deliveries| && OwesTouch(r, r.deliveries[i], l) {
      assert Candidate(s.db, |row.leads|, row.batch[i - n]);
      assert Creates(s.db.events[row.batch[i - n]], l) && Touches(row, s.db.events[row.batch[i - n]]);
    }
  }

  lemma CommitTouches(s: Sys, run: RunId)
    requires RelayInv(s) && Works(s, run) && InRange(s, run)
    ensures TouchedWhenDue(Finished(s, run))
  {
    var r := Finished(s, run);
    forall l ensures l in r.firstTouch <==> exists i :: 0 <= i < |r.deliveries| && OwesTouch(r, r.deliveries[i], l) {
      OwedByCommit(s, run, l);
      forall i | 0 <= i < |s.deliveries|
        ensures OwesTouch(s, s.deliveries[i], l) <==> OwesTouch(r, r.deliveries[i], l)
      {
      }
    }
  }

  /** A lead touched before had its creation stamped before, and it has only one. */
  lemma CommitTouchesOnce(s: Sys, run: RunId)
    requires RelayInv(s) && Works(s, run) && InRange(s, run)
    ensures Distinct(Finished(s, run).firstTouch)
  {
    var row := s.runs[run];
    assert RunSound(s, run);
    EveryLeadIsCreatedOnce(s.db, s.clock);
    TouchedAre(row, s.db.events, row.batch);
    forall l | l in s.firstTouch ensures l !in Touched(row, s.db.events, row.batch) {
      var i :| 0 <= i < |s.deliveries| && OwesTouch(s, s.deliveries[i], l);
      var e := s.deliveries[i].event;
      forall k | 0 <= k < |row.batch| ensures !Creates(s.db.events[row.batch[k]], l) {
        assert !Published(s.deliveries, row.batch[k]);
        OneCreation(s.db.events, e, row.batch[k], l);
      }
    }
    DistinctTogether(s.firstTouch, Touched(row, s.db.events, row.batch));
  }

  /** Nothing in the service rests on the follow-up tasks. */
  lemma TasksAreFree(s: Booking.Sys, tasks: seq<Task>)
    requires Booking.SysInv(s)
    ensures Booking.SysInv(s.(db := s.db.(tasks := tasks)))
  {
    var r := s.(db := s.db.(tasks := tasks));
    forall tx | tx in r.bookings ensures Booking.Sound(r, tx) {
      assert Booking.Sound(s, tx);
    }
  }

  lemma CommitKeeps(s: Sys, run: RunId)
    requires RelayInv(s) && Works(s, run)
    ensures InRange(s, run) && RelayInv(Finished(s, run))
  {
    assert RunSound(s, run);
    assert forall i :: 0 <= i < |s.runs[run].batch| ==> Candidate(s.db, |s.runs[run].leads|, s.runs[run].batch[i]);
    CommitStamps(s, run);
    CommitKeepsRuns(s, run);
    CommitTouches(s, run);
    CommitTouchesOnce(s, run);
    TasksAreFree(Service(s), Finished(s, run).db.tasks);
    assert Service(Finished(s, run)) == Service(s).(db := s.db.(tasks := Finished(s, run).db.tasks));
  }

  // ------------------------------------------------------------ every run of the system

  lemma StepKeeps(s0: Sys, a: Action)
    requires RelayInv(s0)
    ensures RelayInv(Next(s0, a))
  {
    if Enabled(s0, a) {
      var s := s0.(clock := a.now);
      BookingSafety.ClockKeeps(Service(s0), a.now);
      OutsideKeeps(s0, s);
      match a.act
      case Start(run, limit, queue) =>
        assert IsQueue(s, queue);
        StartKeeps(s, run, limit, queue);
      case LockNext(run) => LockKeeps(s, run);
      case Commit(run) => CommitKeeps(s, run);
      case RollBack(run) => RollBackKeeps(s, run);
      case Serve(_, _, _) => ServeKeeps(s0, a);
      case EditTasks(tasks) =>
        TasksAreFree(Service(s), tasks);
        OutsideKeeps(s, Next(s0, a));
    }
  }

  /** Every step of the service, a booking's own included, keeps what the relay needs of it. */
  lemma ServeKeeps(s: Sys, a: Action)
    requires RelayInv(s) && Enabled(s, a) && a.act.Serve?
    ensures RelayInv(Next(s, a))
  {
    var step := Booking.Action(a.now, a.act.step);
    BookingSafety.StepKeeps(Service(s), a.act.cfg, step);
    StepOnlyAppends(Service(s), a.act.cfg, step);
    assert Service(Next(s, a)) == Booking.Next(Service(s), a.act.cfg, step);
    OutsideKeeps(s, Next(s, a));
  }

  lemma StepOnlyAppends(s: Booking.Sys, cfg: Config, a: Booking.Action)
    requires Booking.Enabled(s, a)
    ensures s.db.events <= Booking.Next(s, cfg, a).db.events && Booking.Next(s, cfg, a).clock == a.now
  {
    if a.act.Atomic? {
      HandleEvolves(s.db, cfg, a.act.req, a.now);
    } else if a.act.Insert? {
      var b := s.bookings[a.act.tx];
      if b.lead < |s.db.leads| {
        BookEvolves(s.db, b.lead, b.owner, b.start, b.minutes, b.actor, b.startedAt);
      }
    }
  }

  ghost function Exec(s: Sys, actions: seq<Action>): Sys
    decreases |actions|
  {
    if actions == [] then s else Exec(Next(s, actions[0]), actions[1..])
  }

  lemma {:induction false} RunKeeps(s: Sys, actions: seq<Action>)
    requires RelayInv(s)
    ensures RelayInv(Exec(s, actions))
    decreases |actions|
  {
    if actions != [] {
      StepKeeps(s, actions[0]);
      RunKeeps(Next(s, actions[0]), actions[1..]);
    }
  }

  ghost predicate Fresh(s: Sys) {
    Booking.Fresh(Service(s)) && s.slips == [] && s.runs == map[] && s.deliveries == [] && s.firstTouch == []
  }

  lemma FreshIsSound(s: Sys)
    requires Fresh(s)
    ensures RelayInv(s)
  {
  }

  /** However many runners, batches, rollbacks and requests interleave: no event is stamped twice,
    * and no lead ever gets two first-touch tasks. */
  lemma NothingIsRelayedTwice(s: Sys, actions: seq<Action>)
    requires Fresh(s)
    ensures var r := Exec(s, actions); StampedOnce(r) && TouchedWhenDue(r) && Distinct(r.firstTouch) && Disjoint(r)
  {
    FreshIsSound(s);
    RunKeeps(s, actions);
  }

  /** And a stamp, once written, stays. */
  lemma {:induction false} StampsStay(s: Sys, actions: seq<Action>)
    ensures s.deliveries <= Exec(s, actions).deliveries && s.firstTouch <= Exec(s, actions).firstTouch
    decreases |actions|
  {
    if actions != [] {
      StampStays(s, actions[0]);
      StampsStay(Next(s, actions[0]), actions[1..]);
    }
  }

  lemma StampStays(s: Sys, a: Action)
    ensures s.deliveries <= Next(s, a).deliveries && s.firstTouch <= Next(s, a).firstTouch
  {
    if Enabled(s, a) && a.act.Commit? {
      CommitOnlyAppends(s.(clock := a.now), a.act.run);
    } else {
      OnlyCommitsStamp(s, a);
    }
  }

  lemma CommitOnlyAppends(s: Sys, run: RunId)
    ensures InRange(s, run) ==>
      s.deliveries <= Finished(s, run).deliveries && s.firstTouch <= Finished(s, run).firstTouch
  {
  }

  lemma OnlyCommitsStamp(s: Sys, a: Action)
    requires !(Enabled(s, a) && a.act.Commit?)
    ensures Next(s, a).deliveries == s.deliveries && Next(s, a).firstTouch == s.firstTouch
  {
    if a.act.Serve? && Enabled(s, a) {
      assert Next(s, a) == Served(s, a.act.cfg, Booking.Action(a.now, a.act.step), a.act.slips);
    } else if a.act.LockNext? && Enabled(s, a) {
      assert Next(s, a) == Locked(s.(clock := a.now), a.act.run);
    }
  }

  // ------------------------------------------------------------ draining

  function Insert(slips: seq<Slip>, queue: seq<nat>, e: nat): (r: seq<nat>)
    requires e < |slips| && Below(queue, |slips|)
    ensures forall k :: k in r <==> k == e || k in queue
    ensures Below(r, |slips|)
  {
    if queue == [] || Before(slips[e], slips[queue[0]]) then [e] + queue
    else [queue[0]] + Insert(slips, queue[1..], e)
  }

  lemma {:induction false} InsertInOrder(slips: seq<Slip>, queue: seq<nat>, e: nat)
    requires InOrder(slips, queue) && e < |slips| && e !in queue && DistinctIds(slips)
    ensures InOrder(slips, Insert(slips, queue, e))
  {
    if queue != [] && !Before(slips[e], slips[queue[0]]) {
      assert queue == [queue[0]] + queue[1..];
      InsertInOrder(slips, queue[1..], e);
      var rest := Insert(slips, queue[1..], e);
      assert Before(slips[queue[0]], slips[e]);
      forall j | 0 <= j < |rest| ensures Before(slips[queue[0]], slips[rest[j]]) {
        assert rest[j] in rest;
      }
    }
  }

  /** There is always a queue: the relay can always start. */
  lemma {:induction false} QueueOf(s: Sys, n: nat) returns (queue: seq<nat>)
    requires n <= |s.slips| && DistinctIds(s.slips)
    ensures InOrder(s.slips, queue)
    ensures forall e: nat :: e in queue <==> e < n && !Published(s.deliveries, e)
  {
    queue := [];
    if n > 0 {
      queue := QueueOf(s, n - 1);
      if !Published(s.deliveries, n - 1) {
        InsertInOrder(s.slips, queue, n - 1);
        queue := Insert(s.slips, queue, n - 1);
      }
    }
  }

  ghost predicate NobodyWorks(s: Sys) {
    forall run :: run in s.runs ==> !s.runs[run].phase.Working?
  }

  function Least(a: nat, b: nat): nat {
    if a < b then a else b
  }

  /** One run with nobody else about: start, lock, commit. */
  function LockMany(now: Time, run: RunId, n: nat): seq<Action> {
    if n == 0 then [] else [Action(now, LockNext(run))] + LockMany(now, run, n - 1)
  }

  function Alone(now: Time, run: RunId, limit: nat, queue: seq<nat>): seq<Action> {
    [Action(now, Start(run, limit, queue))] + LockMany(now, run, Least(limit, |queue|)) + [Action(now, Commit(run))]
  }

  lemma {:induction false} ExecSplits(s: Sys, a: seq<Action>, b: seq<Action>)
    ensures Exec(s, a + b) == Exec(Exec(s, a), b)
    decreases |a|
  {
    if a == [] {
      assert a + b == b;
    } else {
      assert (a + b)[1..] == a[1..] + b;
      ExecSplits(Next(s, a[0]), a[1..], b);
    }
  }

  ghost predicate OnlyWorks(s: Sys, run: RunId) {
    Works(s, run) && forall other :: other in s.runs && other != run ==> !s.runs[other].phase.Working?
  }

  /** Undisturbed, every candidate looked at is taken. */
  lemma LockTakes(s: Sys, run: RunId)
    requires OnlyWorks(s, run) && |s.runs[run].batch| < s.runs[run].limit && s.runs[run].todo != []
    requires forall e :: e in s.runs[run].todo ==> !Published(s.deliveries, e)
    ensures var row := s.runs[run];
      Next(s, Action(s.clock, LockNext(run)))
        == SetRun(s, run, row.(todo := row.todo[1..], batch := row.batch + [row.todo[0]]))
  {
    assert !HeldElsewhere(s, run, s.runs[run].todo[0]);
    assert Next(s, Action(s.clock, LockNext(run))) == Locked(s, run);
  }

  /** A run that has looked at its first n candidates, all of them free. */
  function Taking(row: Run, n: nat): Run
    requires n <= |row.todo|
  {
    row.(todo := row.todo[n..], batch := row.batch + row.todo[..n])
  }

  lemma TakingOneMore(row: Run, n: nat)
    requires 0 < n <= |row.todo|
    ensures Taking(Taking(row, 1), n - 1) == Taking(row, n)
    ensures Taking(row, 1) == row.(todo := row.todo[1..], batch := row.batch + [row.todo[0]])
  {
    assert row.todo[..1] == [row.todo[0]];
    assert row.batch + row.todo[..1] + row.todo[1..][..n - 1] == row.batch + row.todo[..n];
  }

  lemma {:induction false} LockManyTakes(s: Sys, run: RunId, n: nat)
    requires OnlyWorks(s, run) && |s.runs[run].batch| + n <= s.runs[run].limit && n <= |s.runs[run].todo|
    requires forall e :: e in s.runs[run].todo ==> !Published(s.deliveries, e)
    ensures Exec(s, LockMany(s.clock, run, n)) == SetRun(s, run, Taking(s.runs[run], n))
    decreases n
  {
    var row := s.runs[run];
    if n == 0 {
      assert Taking(row, 0) == row && s.runs[run := row] == s.runs;
    } else {
      var next := SetRun(s, run, Taking(row, 1));
      TakingOneMore(row, n);
      LockTakes(s, run);
      LockManyTakes(next, run, n - 1);
      assert next.runs[run := Taking(row, n)] == s.runs[run := Taking(row, n)];
      assert LockMany(s.clock, run, n)[1..] == LockMany(s.clock, run, n - 1);
    }
  }

  function Opened(s: Sys, limit: nat, queue: seq<nat>): Run {
    Run(limit, s.clock, s.db.tasks, s.db.leads, queue, [], Working)
  }

  function Filled(s: Sys, limit: nat, queue: seq<nat>): Run {
    var n := Least(limit, |queue|);
    Opened(s, limit, queue).(todo := queue[n..], batch := queue[..n])
  }

  lemma OpensAndFills(s: Sys, run: RunId, limit: nat, queue: seq<nat>)
    requires NobodyWorks(s) && run !in s.runs && IsQueue(s, queue)
    ensures Exec(s, [Action(s.clock, Start(run, limit, queue))] + LockMany(s.clock, run, Least(limit, |queue|)))
      == SetRun(s, run, Filled(s, limit, queue))
  {
    var (first, n) := ([Action(s.clock, Start(run, limit, queue))], Least(limit, |queue|));
    var started := SetRun(s, run, Opened(s, limit, queue));
    assert Exec(s, first) == Exec(started, []);
    LockManyTakes(started, run, n);
    assert [] + queue[..n] == queue[..n];
    assert started.runs[run := Filled(s, limit, queue)] == s.runs[run := Filled(s, limit, queue)];
    ExecSplits(s, first, LockMany(s.clock, run, n));
  }

  /** Start, lock and commit with nobody else about. */
  lemma AloneFinishes(s: Sys, run: RunId, limit: nat, queue: seq<nat>)
    requires RelayInv(s) && NobodyWorks(s) && run !in s.runs && IsQueue(s, queue)
    ensures var held := SetRun(s, run, Filled(s, limit, queue));
      RelayInv(held) && InRange(held, run) && Exec(s, Alone(s.clock, run, limit, queue)) == Finished(held, run)
  {
    var last := [Action(s.clock, Commit(run))];
    var until := [Action(s.clock, Start(run, limit, queue))] + LockMany(s.clock, run, Least(limit, |queue|));
    AloneHolds(s, run, limit, queue);
    CommitFinishes(SetRun(s, run, Filled(s, limit, queue)), run);
    ExecSplits(s, until, last);
  }

  lemma AloneHolds(s: Sys, run: RunId, limit: nat, queue: seq<nat>)
    requires RelayInv(s) && NobodyWorks(s) && run !in s.runs && IsQueue(s, queue)
    ensures var held := SetRun(s, run, Filled(s, limit, queue));
      && RelayInv(held) && InRange(held, run)
      && Exec(s, [Action(s.clock, Start(run, limit, queue))] + LockMany(s.clock, run, Least(limit, |queue|))) == held
  {
    OpensAndFills(s, run, limit, queue);
    RunKeeps(s, [Action(s.clock, Start(run, limit, queue))] + LockMany(s.clock, run, Least(limit, |queue|)));
    CommitKeeps(SetRun(s, run, Filled(s, limit, queue)), run);
  }

  lemma CommitFinishes(s: Sys, run: RunId)
    requires Works(s, run) && CanCommit(s.runs[run]) && InRange(s, run)
    ensures Exec(s, [Action(s.clock, Commit(run))]) == Finished(s, run)
  {
    assert Exec(s, [Action(s.clock, Commit(run))]) == Exec(Finished(s, run), []);
  }

  /** An undisturbed run stamps the oldest events, in order, up to its limit, and leaves the rest. */
  lemma AloneDelivers(s: Sys, run: RunId, limit: nat, queue: seq<nat>)
    requires RelayInv(s) && NobodyWorks(s) && run !in s.runs && IsQueue(s, queue)
    ensures var r := Exec(s, Alone(s.clock, run, limit, queue));
      && r.deliveries == s.deliveries + Stamps(run, queue[..Least(limit, |queue|)])
      && r.runs.Keys == s.runs.Keys + {run} && r.slips == s.slips && r.clock == s.clock
      && NobodyWorks(r) && RelayInv(r)
  {
    AloneFinishes(s, run, limit, queue);
    CommitKeeps(SetRun(s, run, Filled(s, limit, queue)), run);
    FinishedAlone(s, run, limit, queue);
  }

  lemma FinishedAlone(s: Sys, run: RunId, limit: nat, queue: seq<nat>)
    requires NobodyWorks(s) && run !in s.runs && InRange(SetRun(s, run, Filled(s, limit, queue)), run)
    ensures var r := Finished(SetRun(s, run, Filled(s, limit, queue)), run);
      && r.deliveries == s.deliveries + Stamps(run, queue[..Least(limit, |queue|)])
      && r.runs.Keys == s.runs.Keys + {run} && r.slips == s.slips && r.clock == s.clock && NobodyWorks(r)
  {
  }

  lemma RestIsTheQueue(s: Sys, r: Sys, run: RunId, queue: seq<nat>, n: nat)
    requires IsQueue(s, queue) && n <= |queue| && r.slips == s.slips
    requires r.deliveries == s.deliveries + Stamps(run, queue[..n])
    ensures IsQueue(r, queue[n..])
  {
    StampsPublish(s.deliveries, run, queue[..n]);
    assert queue == queue[..n] + queue[n..];
    forall e | e in queue[n..] ensures e !in queue[..n] {
      NotTakenTwice(s, queue, n, e);
    }
    forall e: nat ensures e in queue[n..] <==> e < |r.slips| && !Published(r.deliveries, e) {
      assert e in queue <==> e in queue[..n] || e in queue[n..];
    }
  }

  lemma NotTakenTwice(s: Sys, queue: seq<nat>, n: nat, e: nat)
    requires InOrder(s.slips, queue) && n <= |queue| && e in queue[n..]
    ensures e !in queue[..n]
  {
    var j :| n <= j < |queue| && queue[j] == e;
    forall i | 0 <= i < n ensures queue[i] != e {
      assert Before(s.slips[queue[i]], s.slips[queue[j]]);
    }
  }

  /** k undisturbed runs in a row. */
  ghost function Rounds(s: Sys, run: RunId, limit: nat, queue: seq<nat>, k: nat): Sys
    decreases k
  {
    if k == 0 then s
    else Rounds(Exec(s, Alone(s.clock, run, limit, queue)), run + 1, limit, queue[Least(limit, |queue|)..], k - 1)
  }

  ghost predicate Reachable(s: Sys) {
    exists first, actions :: Fresh(first) && s == Exec(first, actions)
  }

  lemma ReachableIsSound(s: Sys)
    requires Reachable(s)
    ensures RelayInv(s)
  {
    var first, actions :| Fresh(first) && s == Exec(first, actions);
    FreshIsSound(first);
    RunKeeps(first, actions);
  }

  lemma ReachesOn(s: Sys, actions: seq<Action>)
    requires Reachable(s)
    ensures Reachable(Exec(s, actions))
  {
    var first, before :| Fresh(first) && s == Exec(first, before);
    ExecSplits(first, before, actions);
  }

  ghost predicate Idle(s: Sys, run: RunId) {
    Reachable(s) && NobodyWorks(s) && forall r :: r in s.runs ==> r < run
  }

  /** Nobody works, and `queue` is what there is to do. */
  ghost predicate Ready(s: Sys, run: RunId, queue: seq<nat>) {
    Idle(s, run) && IsQueue(s, queue)
  }

  lemma AloneShortens(s: Sys, run: RunId, limit: nat, queue: seq<nat>) returns (r: Sys)
    requires Ready(s, run, queue)
    ensures r == Exec(s, Alone(s.clock, run, limit, queue)) && r.slips == s.slips
    ensures Ready(r, run + 1, queue[Least(limit, |queue|)..])
  {
    r := Exec(s, Alone(s.clock, run, limit, queue));
    AloneStaysIdle(s, run, limit, queue);
    AloneLeavesTheRest(s, run, limit, queue);
  }

  lemma AloneStaysIdle(s: Sys, run: RunId, limit: nat, queue: seq<nat>)
    requires Idle(s, run) && IsQueue(s, queue)
    ensures Idle(Exec(s, Alone(s.clock, run, limit, queue)), run + 1)
  {
    AloneEnds(s, run, limit, queue);
    ReachesOn(s, Alone(s.clock, run, limit, queue));
  }

  lemma AloneEnds(s: Sys, run: RunId, limit: nat, queue: seq<nat>)
    requires Idle(s, run) && IsQueue(s, queue)
    ensures var r := Exec(s, Alone(s.clock, run, limit, queue));
      r.runs.Keys == s.runs.Keys + {run} && NobodyWorks(r)
  {
    ReachableIsSound(s);
    AloneDelivers(s, run, limit, queue);
  }

  lemma AloneLeavesTheRest(s: Sys, run: RunId, limit: nat, queue: seq<nat>)
    requires Idle(s, run) && IsQueue(s, queue)
    ensures var r := Exec(s, Alone(s.clock, run, limit, queue));
      IsQueue(r, queue[Least(limit, |queue|)..]) && r.slips == s.slips && r.clock == s.clock
  {
    ReachableIsSound(s);
    AloneDelivers(s, run, limit, queue);
    RestIsTheQueue(s, Exec(s, Alone(s.clock, run, limit, queue)), run, queue, Least(limit, |queue|));
  }

  /** What k undisturbed runs leave of the queue. */
  function After(queue: seq<nat>, limit: nat, k: nat): seq<nat>
    decreases k
  {
    if k == 0 then queue else After(queue[Least(limit, |queue|)..], limit, k - 1)
  }

  /** All but the first k * limit events. */
  lemma {:induction false} AfterDropsBatches(queue: seq<nat>, limit: nat, k: nat)
    ensures After(queue, limit, k) == queue[Least(k * limit, |queue|)..]
    decreases k
  {
    if k > 0 {
      AfterDropsBatches(queue[Least(limit, |queue|)..], limit, k - 1);
      assert k * limit == limit + (k - 1) * limit;
    }
  }

  lemma {:induction false} RoundsDrain(s: Sys, run: RunId, limit: nat, queue: seq<nat>, k: nat)
    returns (r: Sys, left: seq<nat>)
    requires Ready(s, run, queue)
    ensures r == Rounds(s, run, limit, queue, k) && left == After(queue, limit, k)
    ensures IsQueue(r, left) && r.slips == s.slips
    decreases k
  {
    if k == 0 {
      r, left := s, queue;
    } else {
      var next := AloneShortens(s, run, limit, queue);
      r, left := RoundsDrain(next, run + 1, limit, queue[Least(limit, |queue|)..], k - 1);
    }
  }

  /** From any reachable state with no run in progress, n unpublished events drain in
    * ceil(n / limit) undisturbed runs, and in no fewer. */
  lemma DrainsInCeil(s: Sys, run: RunId, limit: nat, queue: seq<nat>, k: nat)
    requires Idle(s, run) && IsQueue(s, queue) && limit > 0
    ensures (forall e: nat :: e < |s.slips| ==> Published(Rounds(s, run, limit, queue, k).deliveries, e))
      <==> k >= (|queue| + limit - 1) / limit
  {
    var r, left := RoundsDrain(s, run, limit, queue, k);
    QueueIsWhatIsLeft(r, left);
    EmptyAfter(queue, limit, k);
  }

  lemma EmptyAfter(queue: seq<nat>, limit: nat, k: nat)
    requires limit > 0
    ensures After(queue, limit, k) == [] <==> k >= (|queue| + limit - 1) / limit
  {
    AfterDropsBatches(queue, limit, k);
    CeilReaches(|queue|, limit, k);
  }

  lemma QueueIsWhatIsLeft(s: Sys, queue: seq<nat>)
    requires IsQueue(s, queue)
    ensures (forall e: nat :: e < |s.slips| ==> Published(s.deliveries, e)) <==> queue == []
  {
    if queue != [] {
      assert queue[0] in queue;
    }
  }

  lemma CeilReaches(n: nat, limit: nat, k: nat)
    requires limit > 0
    ensures k >= (n + limit - 1) / limit <==> k * limit >= n
  {
    var q := (n + limit - 1) / limit;
    assert n + limit - 1 == limit * q + (n + limit - 1) % limit;
    if k >= q {
      assert k * limit >= q * limit;
    } else {
      assert (q - 1 - k) * limit >= 0;
    }
  }
}

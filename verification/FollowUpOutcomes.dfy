/** What the sweep and the relay look at and write, in full: who is left waiting, and which follow-ups
  * are raised for it. */
module FollowUpOutcomes {
  import opened Domain
  import opened Store
  import opened Invariants
  import opened PlainTerms
  import History
  import Sweep
  import Relay

  // ------------------------------------------------------------ who is left waiting

  /** Somebody who is not an AI agent wrote to or called the lead's client, at `since` or later. */
  predicate Contact(db: Db, i: Interaction, lead: LeadId, since: Time) {
    && i.lead == lead && i.direction == Outbound && (i.kind == Message || i.kind == Call) && i.at >= since
    && !(i.author.Some? && i.author.value in db.agents && db.agents[i.author.value].role == AiAgent)
  }

  predicate NoContact(db: Db, lead: LeadId, since: Time) {
    forall i :: 0 <= i < |db.interactions| ==> !Contact(db, db.interactions[i], lead, since)
  }

  lemma {:induction false} LastResponseIsContact(db: Db, log: seq<Interaction>, lead: LeadId, since: Time)
    ensures var last := Sweep.LastResponse(db, log, lead);
      (last.Some? && last.value >= since) <==> exists i :: 0 <= i < |log| && Contact(db, log[i], lead, since)
  {
    if log != [] {
      var n := |log| - 1;
      LastResponseIsContact(db, log[..n], lead, since);
      if i :| 0 <= i < n && Contact(db, log[..n][i], lead, since) {
        assert Contact(db, log[i], lead, since);
      }
      if i :| 0 <= i < |log| && Contact(db, log[i], lead, since) {
        assert i < n ==> log[..n][i] == log[i];
      }
    }
  }

  /** At risk: an open lead of the agency, older than so many hours, that nobody contacted in them. */
  lemma AtRiskMeans(db: Db, agency: nat, hours: int, now: Time, l: LeadId)
    ensures l in Sweep.AtRisk(db, agency, hours, now) <==>
      var since := now - hours * 3_600_000_000;
      && Sees(db, agency, l) && !Ended(db.leads[l].stage)
      && db.leads[l].createdAt < since && NoContact(db, l, since)
  {
    var since := now - hours * 3_600_000_000;
    assert Sweep.Cutoff(hours, now) == since;
    LastResponseIsContact(db, db.interactions, l, since);
  }

  /** Whatever a bot writes, the lead stays as much at risk as it was. */
  lemma BotsAreNoContact(db: Db, agency: nat, hours: int, now: Time, said: Interaction, l: LeadId)
    requires said.author.Some? && said.author.value in db.agents && db.agents[said.author.value].role == AiAgent
    ensures var r := db.(interactions := db.interactions + [said]);
      l in Sweep.AtRisk(r, agency, hours, now) <==> l in Sweep.AtRisk(db, agency, hours, now)
  {
    var r, since := db.(interactions := db.interactions + [said]), now - hours * 3_600_000_000;
    AtRiskMeans(db, agency, hours, now, l);
    AtRiskMeans(r, agency, hours, now, l);
    forall i | 0 <= i < |db.interactions|
      ensures Contact(r, r.interactions[i], l, since) <==> Contact(db, db.interactions[i], l, since)
    {
    }
  }

  /** A person's message or call takes the lead off the list until as many hours have passed. */
  lemma PeopleAreContact(db: Db, agency: nat, hours: int, now: Time, said: Interaction)
    requires said.direction == Outbound && said.kind in {Message, Call} && said.at >= now - hours * 3_600_000_000
    requires said.author.Some? && said.author.value in db.agents ==> db.agents[said.author.value].role != AiAgent
    ensures said.lead !in Sweep.AtRisk(db.(interactions := db.interactions + [said]), agency, hours, now)
  {
    var r, since := db.(interactions := db.interactions + [said]), now - hours * 3_600_000_000;
    AtRiskMeans(r, agency, hours, now, said.lead);
    assert r.interactions[|db.interactions|] == said && Contact(r, said, said.lead, since);
  }

  predicate NoTaskWaits(tasks: seq<Task>, lead: LeadId) {
    forall i :: 0 <= i < |tasks| && tasks[i].lead == lead ==> tasks[i].status != TaskPending
  }

  /** The sweep's candidates: the same leads, of any agency, that no task is waiting for. */
  lemma StaleMeans(db: Db, hours: int, now: Time, l: LeadId)
    ensures l in Sweep.Stale(db, hours, now) <==>
      var since := now - hours * 3_600_000_000;
      && l < |db.leads| && db.leads[l].agent in db.agents && !Ended(db.leads[l].stage)
      && db.leads[l].createdAt < since && NoContact(db, l, since) && NoTaskWaits(db.tasks, l)
  {
    var since := now - hours * 3_600_000_000;
    assert Sweep.Cutoff(hours, now) == since;
    LastResponseIsContact(db, db.interactions, l, since);
  }

  /** A run chooses all candidates, or the 500 oldest. */
  lemma BatchMeans(db: Db, hours: int, now: Time, batch: seq<LeadId>)
    requires Sweep.IsBatch(db, hours, now, batch)
    ensures |batch| == if |Sweep.Stale(db, hours, now)| < 500 then |Sweep.Stale(db, hours, now)| else 500
    ensures forall i, l :: 0 <= i < |batch| && l in Sweep.Stale(db, hours, now) && l !in batch ==>
      db.leads[batch[i]].createdAt <= db.leads[l].createdAt
  {
  }

  // ------------------------------------------------------------ what the sweep writes

  function SweepTask(db: Db, l: LeadId, now: Time): Task
    requires l < |db.leads|
  {
    Task(l, db.leads[l].agent, now + 86_400_000_000, TaskPending)
  }

  function SweepLine(db: Db, l: LeadId, now: Time): Interaction
    requires l < |db.leads|
  {
    Interaction(l, Outbound, NoteLine, Some(db.leads[l].agent), now)
  }

  /** For each lead chosen, in order: a task for its agent due in a day, a line on its timeline, and an
    * event; and nothing else. */
  lemma {:induction false} SweepWrites(db: Db, batch: seq<LeadId>, now: Time)
    requires forall i :: 0 <= i < |batch| ==> batch[i] < |db.leads|
    ensures Sweep.SweepOver(db, batch, now) == db.(
      tasks := db.tasks + seq(|batch|, i requires 0 <= i < |batch| => SweepTask(db, batch[i], now)),
      interactions := db.interactions + seq(|batch|, i requires 0 <= i < |batch| => SweepLine(db, batch[i], now)),
      events := db.events + seq(|batch|, i requires 0 <= i < |batch| => LeadWentCold(batch[i])))
  {
    if batch == [] {
      assert db.tasks + [] == db.tasks && db.interactions + [] == db.interactions && db.events + [] == db.events;
    } else {
      var n := |batch| - 1;
      var before := batch[..n];
      SweepWrites(db, before, now);
      assert seq(n, i requires 0 <= i < n => SweepTask(db, before[i], now)) + [SweepTask(db, batch[n], now)]
        == seq(|batch|, i requires 0 <= i < |batch| => SweepTask(db, batch[i], now));
      assert seq(n, i requires 0 <= i < n => SweepLine(db, before[i], now)) + [SweepLine(db, batch[n], now)]
        == seq(|batch|, i requires 0 <= i < |batch| => SweepLine(db, batch[i], now));
      assert seq(n, i requires 0 <= i < n => LeadWentCold(before[i])) + [LeadWentCold(batch[n])]
        == seq(|batch|, i requires 0 <= i < |batch| => LeadWentCold(batch[i]));
    }
  }

  // ------------------------------------------------------------ what the relay writes

  /** The first-touch task that event `e` calls for, by the leads and tasks the run saw at its start. */
  predicate CallsFor(row: Relay.Run, e: Event, t: Task) {
    && e.LeadCreated? && e.lead < |row.leads| && NoTaskWaits(row.tasks, e.lead)
    && t == Task(e.lead, row.leads[e.lead].agent, row.at + 86_400_000_000, TaskPending)
  }

  /** `after` is `before` and, behind it, one task for each event of the batch that calls for one. */
  ghost predicate Raised(before: seq<Task>, after: seq<Task>, row: Relay.Run, events: seq<Event>, batch: seq<nat>) {
    && before <= after
    && (forall i :: |before| <= i < |after| ==> CalledFor(row, events, batch, after[i]))
    && (forall k, t :: 0 <= k < |batch| && batch[k] < |events| && CallsFor(row, events[batch[k]], t) ==>
          t in after[|before|..])
    && (forall i, j :: |before| <= i < j < |after| ==> after[i].lead != after[j].lead)
  }

  ghost predicate CalledFor(row: Relay.Run, events: seq<Event>, batch: seq<nat>, t: Task) {
    exists k :: 0 <= k < |batch| && batch[k] < |events| && CallsFor(row, events[batch[k]], t)
  }

  lemma TouchCallsFor(row: Relay.Run, e: Event)
    requires Relay.Touches(row, e)
    ensures CallsFor(row, e, Task(e.lead, row.leads[e.lead].agent, row.at + 86_400_000_000, TaskPending))
  {
  }

  lemma TasksAreRaised(before: seq<Task>, row: Relay.Run, events: seq<Event>, batch: seq<nat>)
    requires Relay.Below(batch, |events|) && History.CreatedOnce(events) && Relay.Distinct(batch)
    ensures var leads := Relay.Touched(row, events, batch);
      Raised(before, before + Relay.FirstTouchTasks(row, leads), row, events, batch)
  {
    var leads := Relay.Touched(row, events, batch);
    var raised := Relay.FirstTouchTasks(row, leads);
    var after := before + raised;
    Relay.TouchedAre(row, events, batch);
    forall i | |before| <= i < |after| ensures CalledFor(row, events, batch, after[i]) {
      var l := leads[i - |before|];
      assert l in leads;
      var k :| 0 <= k < |batch| && History.Creates(events[batch[k]], l) && Relay.Touches(row, events[batch[k]]);
      TouchCallsFor(row, events[batch[k]]);
    }
    forall k, t | 0 <= k < |batch| && batch[k] < |events| && CallsFor(row, events[batch[k]], t)
      ensures t in after[|before|..]
    {
      var l := events[batch[k]].lead;
      assert History.Creates(events[batch[k]], l) && Relay.Touches(row, events[batch[k]]);
      assert l in leads;
      var i :| 0 <= i < |leads| && leads[i] == l;
      assert raised[i] == t && after[|before|..] == raised;
    }
  }

  /** All a commit writes to the tables: behind the tasks there are, one first-touch task, waiting and due
    * in a day, for the agent of each lead that an event of the batch creates and that no task was waiting
    * for when the run began. */
  lemma CommitRaises(s: Relay.Sys, run: Relay.RunId, now: Time)
    requires Relay.RelayInv(s) && Relay.Enabled(s, Relay.Action(now, Relay.Commit(run)))
    ensures var r := Relay.Next(s, Relay.Action(now, Relay.Commit(run)));
      && r.db == s.db.(tasks := r.db.tasks)
      && Raised(s.db.tasks, r.db.tasks, s.runs[run], s.db.events, s.runs[run].batch)
  {
    Relay.CommitKeeps(s, run);
    assert Relay.RunSound(s, run);
    History.EveryLeadIsCreatedOnce(s.db, s.clock);
    TasksAreRaised(s.db.tasks, s.runs[run], s.db.events, s.runs[run].batch);
  }

  /** A run sees the leads and tasks of its start, and until its commit nothing changes what it saw. */
  lemma StartSees(s: Relay.Sys, run: Relay.RunId, limit: nat, queue: seq<nat>, now: Time)
    requires Relay.Enabled(s, Relay.Action(now, Relay.Start(run, limit, queue)))
    ensures var r := Relay.Next(s, Relay.Action(now, Relay.Start(run, limit, queue)));
      && run in r.runs && r.db == s.db
      && r.runs[run] == Relay.Run(limit, now, s.db.tasks, s.db.leads, queue, [], Relay.Working)
  {
  }

  /** The order is by occurred_at, and by id where that is the same. */
  lemma QueueIsOldestFirst(s: Relay.Sys, queue: seq<nat>, i: nat, j: nat)
    requires Relay.IsQueue(s, queue) && i < j < |queue|
    ensures var (a, b) := (s.slips[queue[i]], s.slips[queue[j]]);
      a.occurredAt < b.occurredAt || (a.occurredAt == b.occurredAt && a.id < b.id)
  {
  }

  /** So a run with nobody else about leaves, for each of the oldest events up to its limit that creates a
    * lead nobody has a task waiting for, one waiting task for the lead's agent due a day later. */
  lemma AloneRaises(s: Relay.Sys, run: Relay.RunId, limit: nat, queue: seq<nat>)
    requires Relay.RelayInv(s) && Relay.NobodyWorks(s) && run !in s.runs && Relay.IsQueue(s, queue)
    ensures var r := Relay.Exec(s, Relay.Alone(s.clock, run, limit, queue));
      var row := Relay.Run(limit, s.clock, s.db.tasks, s.db.leads, [], [], Relay.Committed);
      && r.db == s.db.(tasks := r.db.tasks)
      && Raised(s.db.tasks, r.db.tasks, row, s.db.events, queue[..if limit < |queue| then limit else |queue|])
  {
    var held := Relay.SetRun(s, run, Relay.Filled(s, limit, queue));
    Relay.AloneFinishes(s, run, limit, queue);
    assert Relay.RunSound(held, run);
    History.EveryLeadIsCreatedOnce(s.db, s.clock);
    var row, batch := held.runs[run], queue[..Relay.Least(limit, |queue|)];
    TasksAreRaised(s.db.tasks, row, s.db.events, batch);
    SameRaised(s.db.tasks, Relay.Finished(held, run).db.tasks, row,
               Relay.Run(limit, s.clock, s.db.tasks, s.db.leads, [], [], Relay.Committed), s.db.events, batch);
  }

  /** What a run raises depends on what it saw and when it began, not on how far it is. */
  lemma SameRaised(
      before: seq<Task>, after: seq<Task>, a: Relay.Run, b: Relay.Run, events: seq<Event>, batch: seq<nat>)
    requires Raised(before, after, a, events, batch)
    requires a.tasks == b.tasks && a.leads == b.leads && a.at == b.at
    ensures Raised(before, after, b, events, batch)
  {
    forall e, t ensures CallsFor(a, e, t) <==> CallsFor(b, e, t) {
    }
    forall i | |before| <= i < |after| ensures CalledFor(b, events, batch, after[i]) {
      assert CalledFor(a, events, batch, after[i]);
      var k :| 0 <= k < |batch| && batch[k] < |events| && CallsFor(a, events[batch[k]], after[i]);
    }
  }
}

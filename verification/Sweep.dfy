/** Leads going cold: the at-risk list an agent sees (services/lead.py) and the hourly sweep that
  * raises follow-ups (core.sweep_inactive_leads in schema-2.sql). */
module Sweep {
  import opened Domain
  import opened Store
  import opened Invariants

  const BATCH: nat := 500

  /** A response: an outbound message or call, not written by an AI agent. */
  predicate IsResponse(db: Db, i: Interaction) {
    && i.direction.Outbound? && (i.kind.Message? || i.kind.Call?)
    && !(i.author.Some? && i.author.value in db.agents && db.agents[i.author.value].role.AiAgent?)
  }

  /** max(occurred_at) over the lead's responses; none when there is no response. */
  function LastResponse(db: Db, interactions: seq<Interaction>, lead: LeadId): Option<Time> {
    if interactions == [] then None
    else
      var i := interactions[|interactions| - 1];
      var before := LastResponse(db, interactions[..|interactions| - 1], lead);
      if i.lead != lead || !IsResponse(db, i) then before
      else if before.None? || before.value < i.at then Some(i.at)
      else before
  }

  predicate Silent(db: Db, lead: LeadId, cutoff: Time) {
    var last := LastResponse(db, db.interactions, lead);
    last.None? || last.value < cutoff
  }

  function Cutoff(hours: int, now: Time): Time {
    now - hours * HOUR
  }

  predicate GoneQuiet(db: Db, lead: LeadId, cutoff: Time) {
    && lead < |db.leads| && !Terminal(db.leads[lead].stage)
    && db.leads[lead].createdAt < cutoff && Silent(db, lead, cutoff)
  }

  /** leads_at_risk, without its limit. */
  function AtRisk(db: Db, agency: nat, hours: int, now: Time): set<LeadId> {
    set l | 0 <= l < |db.leads| && InAgency(db, db.leads[l].agent, agency) && GoneQuiet(db, l, Cutoff(hours, now))
  }

  predicate HasPending(tasks: seq<Task>, lead: LeadId) {
    exists i :: 0 <= i < |tasks| && tasks[i].lead == lead && tasks[i].status.TaskPending?
  }

  /** The sweep's candidates before its limit: every agency's, minus leads already followed up. */
  function Stale(db: Db, hours: int, now: Time): set<LeadId> {
    set l | 0 <= l < |db.leads| && db.leads[l].agent in db.agents
         && GoneQuiet(db, l, Cutoff(hours, now)) && !HasPending(db.tasks, l)
  }

  /** One run's choice: the oldest candidates, oldest first, up to the limit. */
  ghost predicate IsBatch(db: Db, hours: int, now: Time, batch: seq<LeadId>) {
    && (forall i :: 0 <= i < |batch| ==> batch[i] in Stale(db, hours, now))
    && (forall i, j :: 0 <= i < j < |batch| ==>
          batch[i] != batch[j] && db.leads[batch[i]].createdAt <= db.leads[batch[j]].createdAt)
    && (forall i, l :: 0 <= i < |batch| && l in Stale(db, hours, now) && l !in batch ==>
          db.leads[batch[i]].createdAt <= db.leads[l].createdAt)
    && |batch| == if |Stale(db, hours, now)| < BATCH then |Stale(db, hours, now)| else BATCH
  }

  /** One lead flagged: a task, a timeline note and an event. */
  function Flag(db: Db, lead: LeadId, now: Time): Db
    requires lead < |db.leads|
  {
    var owner := db.leads[lead].agent;
    db.(tasks := db.tasks + [Task(lead, owner, now + 24 * HOUR, TaskPending)],
        interactions := db.interactions + [Interaction(lead, Outbound, NoteLine, Some(owner), now)],
        events := db.events + [LeadWentCold(lead)])
  }

  function SweepOver(db: Db, batch: seq<LeadId>, now: Time): (r: Db)
    requires forall i :: 0 <= i < |batch| ==> batch[i] < |db.leads|
    ensures SameSetup(db, r) && r.leads == db.leads && r.visits == db.visits && r.transitions == db.transitions
  {
    if batch == [] then db
    else Flag(SweepOver(db, batch[..|batch| - 1], now), batch[|batch| - 1], now)
  }

  /** The oldest of `all`, oldest first, and the rest. */
  ghost predicate Picked(db: Db, all: set<LeadId>, rest: set<LeadId>, batch: seq<LeadId>)
    requires forall l :: l in all ==> l < |db.leads|
  {
    && rest <= all && |batch| + |rest| == |all|
    && (forall l :: l in all <==> l in batch || l in rest)
    && (forall i :: 0 <= i < |batch| ==> batch[i] in all && batch[i] !in rest)
    && (forall i, j :: 0 <= i < j < |batch| ==>
          batch[i] != batch[j] && db.leads[batch[i]].createdAt <= db.leads[batch[j]].createdAt)
    && (forall i, l :: 0 <= i < |batch| && l in rest ==> db.leads[batch[i]].createdAt <= db.leads[l].createdAt)
  }

  lemma PickOldest(db: Db, all: set<LeadId>, rest: set<LeadId>, batch: seq<LeadId>, oldest: LeadId)
    requires forall l :: l in all ==> l < |db.leads|
    requires Picked(db, all, rest, batch) && oldest in rest
    requires forall l :: l in rest ==> db.leads[oldest].createdAt <= db.leads[l].createdAt
    ensures Picked(db, all, rest - {oldest}, batch + [oldest])
  {
    var longer := batch + [oldest];
    forall l ensures l in longer <==> l in batch || l == oldest {
    }
  }

  /** Oldest first, up to the limit. */
  method SelectStale(db: Db, hours: int, now: Time) returns (batch: seq<LeadId>)
    ensures IsBatch(db, hours, now, batch)
  {
    batch := [];
    var rest := Stale(db, hours, now);
    ghost var all := rest;
    var done := false;
    while !done
      invariant Picked(db, all, rest, batch) && |batch| <= BATCH
      invariant done ==> |batch| == BATCH || rest == {}
      decreases rest, !done
    {
      if |batch| == BATCH {
        done := true;
      } else if some :| some in rest {
        var oldest := Oldest(db, rest, some);
        PickOldest(db, all, rest, batch, oldest);
        rest := rest - {oldest};
        batch := batch + [oldest];
      } else {
        assert forall l :: l !in rest;
        done := true;
      }
    }
  }

  method Oldest(db: Db, s: set<LeadId>, some: LeadId) returns (oldest: LeadId)
    requires some in s && forall l :: l in s ==> l < |db.leads|
    ensures oldest in s && forall l :: l in s ==> db.leads[oldest].createdAt <= db.leads[l].createdAt
  {
    oldest := some;
    var rest := s - {oldest};
    var done := false;
    while !done
      invariant oldest in s && rest <= s
      invariant forall l :: l in s && l !in rest ==> db.leads[oldest].createdAt <= db.leads[l].createdAt
      invariant done ==> forall l :: l !in rest
      decreases rest, !done
    {
      if l :| l in rest {
        oldest := if db.leads[l].createdAt < db.leads[oldest].createdAt then l else oldest;
        rest := rest - {l};
      } else {
        done := true;
      }
    }
  }

  // ------------------------------------------------------------ what a run does

  /** The sweep and the at-risk list agree: the candidates are the union of the agencies' lists
    * minus the leads that already have a pending task. */
  lemma SweepIsTheAtRiskList(db: Db, hours: int, now: Time, l: LeadId)
    ensures l in Stale(db, hours, now)
       <==> (exists agency :: l in AtRisk(db, agency, hours, now)) && !HasPending(db.tasks, l)
  {
    if l in Stale(db, hours, now) {
      assert l in AtRisk(db, db.agents[db.leads[l].agent].agency, hours, now);
    }
  }

  /** Flagging a lead is not a response. */
  lemma FlagIsNoResponse(db: Db, lead: LeadId, now: Time, l: LeadId, cutoff: Time)
    requires lead < |db.leads|
    ensures Silent(Flag(db, lead, now), l, cutoff) == Silent(db, l, cutoff)
  {
    var r := Flag(db, lead, now);
    assert r.interactions[..|db.interactions|] == db.interactions;
    SameResponses(db, r, db.interactions, l);
  }

  lemma {:induction false} SameResponses(a: Db, b: Db, interactions: seq<Interaction>, l: LeadId)
    requires a.agents == b.agents
    ensures LastResponse(a, interactions, l) == LastResponse(b, interactions, l)
  {
    if interactions != [] {
      SameResponses(a, b, interactions[..|interactions| - 1], l);
    }
  }

  function Pending(tasks: seq<Task>, lead: LeadId): nat {
    if tasks == [] then 0
    else
      Pending(tasks[..|tasks| - 1], lead)
        + if tasks[|tasks| - 1].lead == lead && tasks[|tasks| - 1].status.TaskPending? then 1 else 0
  }

  lemma {:induction false} PendingCounts(tasks: seq<Task>, lead: LeadId)
    ensures HasPending(tasks, lead) <==> Pending(tasks, lead) > 0
  {
    if tasks != [] {
      var n := |tasks| - 1;
      PendingCounts(tasks[..n], lead);
      assert HasPending(tasks, lead) <==>
        HasPending(tasks[..n], lead) || (tasks[n].lead == lead && tasks[n].status.TaskPending?);
    }
  }

  /** A run raises one task, one note and one event per chosen lead, and nobody's quietness
    * changes by it. */
  lemma {:induction false} SweepEffects(db: Db, batch: seq<LeadId>, now: Time, l: LeadId, cutoff: Time)
    requires forall i :: 0 <= i < |batch| ==> batch[i] < |db.leads|
    requires forall i, j :: 0 <= i < j < |batch| ==> batch[i] != batch[j]
    ensures var r := SweepOver(db, batch, now);
      && |r.tasks| == |db.tasks| + |batch|
      && |r.interactions| == |db.interactions| + |batch|
      && |r.events| == |db.events| + |batch|
      && Silent(r, l, cutoff) == Silent(db, l, cutoff)
      && Pending(r.tasks, l) == Pending(db.tasks, l) + if l in batch then 1 else 0
  {
    if batch != [] {
      var n := |batch| - 1;
      var before := SweepOver(db, batch[..n], now);
      SweepEffects(db, batch[..n], now, l, cutoff);
      FlagIsNoResponse(before, batch[n], now, l, cutoff);
      FlagIsPending(before, batch[n], now, l);
      assert l in batch <==> l in batch[..n] || l == batch[n];
    }
  }

  lemma FlagIsPending(db: Db, lead: LeadId, now: Time, l: LeadId)
    requires lead < |db.leads|
    ensures Pending(Flag(db, lead, now).tasks, l) == Pending(db.tasks, l) + if l == lead then 1 else 0
  {
    assert Flag(db, lead, now).tasks[..|db.tasks|] == db.tasks;
  }

  lemma SweptLead(db: Db, hours: int, now: Time, batch: seq<LeadId>, l: LeadId)
    requires IsBatch(db, hours, now, batch)
    ensures var r := SweepOver(db, batch, now);
      && (forall agency :: l in AtRisk(r, agency, hours, now) <==> l in AtRisk(db, agency, hours, now))
      && (l in Stale(r, hours, now) <==> l in Stale(db, hours, now) && l !in batch)
      && (l in batch ==> Pending(db.tasks, l) == 0 && Pending(r.tasks, l) == 1)
  {
    SweepEffects(db, batch, now, l, Cutoff(hours, now));
    PendingCounts(db.tasks, l);
    PendingCounts(SweepOver(db, batch, now).tasks, l);
  }

  /** Taking a list of distinct members out of a set shrinks it by the list's length. */
  lemma {:induction false} TakingOut(before: set<LeadId>, after: set<LeadId>, batch: seq<LeadId>)
    requires forall i, j :: 0 <= i < j < |batch| ==> batch[i] != batch[j]
    requires forall i :: 0 <= i < |batch| ==> batch[i] in before
    requires forall l :: l in after <==> l in before && l !in batch
    ensures |after| == |before| - |batch|
    decreases |batch|
  {
    if batch == [] {
      assert after == before;
    } else {
      var n := |batch| - 1;
      var last := batch[n];
      assert forall l :: l in batch <==> l in batch[..n] || l == last;
      assert last !in batch[..n] && last !in after;
      TakingOut(before, after + {last}, batch[..n]);
    }
  }

  /** A run at a fixed time: equal numbers of tasks, notes and events; no at-risk list moves; each
    * chosen lead ends with exactly one pending task; and the candidates shrink by the choice. */
  lemma SweepRun(db: Db, hours: int, now: Time, batch: seq<LeadId>)
    requires IsBatch(db, hours, now, batch)
    ensures var r := SweepOver(db, batch, now);
      && |r.tasks| - |db.tasks| == |r.interactions| - |db.interactions| == |r.events| - |db.events| == |batch|
      && (forall agency :: AtRisk(r, agency, hours, now) == AtRisk(db, agency, hours, now))
      && (forall l :: l in batch ==> Pending(db.tasks, l) == 0 && Pending(r.tasks, l) == 1)
      && |Stale(r, hours, now)| == if |Stale(db, hours, now)| <= BATCH then 0 else |Stale(db, hours, now)| - BATCH
  {
    SweepEffects(db, batch, now, 0, Cutoff(hours, now));
    forall agency ensures AtRisk(SweepOver(db, batch, now), agency, hours, now) == AtRisk(db, agency, hours, now) {
      SweepLeavesAtRisk(db, hours, now, batch, agency);
    }
    forall l | l in batch ensures Pending(db.tasks, l) == 0 && Pending(SweepOver(db, batch, now).tasks, l) == 1 {
      SweptLead(db, hours, now, batch, l);
    }
    SweepShrinksStale(db, hours, now, batch);
  }

  lemma SweepLeavesAtRisk(db: Db, hours: int, now: Time, batch: seq<LeadId>, agency: nat)
    requires IsBatch(db, hours, now, batch)
    ensures AtRisk(SweepOver(db, batch, now), agency, hours, now) == AtRisk(db, agency, hours, now)
  {
    forall l: LeadId
      ensures l in AtRisk(SweepOver(db, batch, now), agency, hours, now) <==> l in AtRisk(db, agency, hours, now)
    {
      SweptLead(db, hours, now, batch, l);
    }
  }

  lemma SweepShrinksStale(db: Db, hours: int, now: Time, batch: seq<LeadId>)
    requires IsBatch(db, hours, now, batch)
    ensures |Stale(SweepOver(db, batch, now), hours, now)| == |Stale(db, hours, now)| - |batch|
  {
    forall l: LeadId
      ensures l in Stale(SweepOver(db, batch, now), hours, now) <==> l in Stale(db, hours, now) && l !in batch
    {
      SweptLead(db, hours, now, batch, l);
    }
    TakingOut(Stale(db, hours, now), Stale(SweepOver(db, batch, now), hours, now), batch);
  }

  /** A sequence of runs at one time, each choosing from what the one before left. */
  ghost predicate Sweeps(db: Db, hours: int, now: Time, batches: seq<seq<LeadId>>, after: Db)
    decreases |batches|
  {
    if batches == [] then after == db
    else
      && IsBatch(db, hours, now, batches[0])
      && Sweeps(SweepOver(db, batches[0], now), hours, now, batches[1..], after)
  }

  /** k stale leads drain in ceil(k / 500) runs, and not in fewer. */
  lemma {:induction false} SweepsDrain(db: Db, hours: int, now: Time, batches: seq<seq<LeadId>>, after: Db)
    requires Sweeps(db, hours, now, batches, after)
    ensures var stale := |Stale(db, hours, now)|;
      |Stale(after, hours, now)| == if stale <= |batches| * BATCH then 0 else stale - |batches| * BATCH
    decreases |batches|
  {
    if batches != [] {
      SweepRun(db, hours, now, batches[0]);
      SweepsDrain(SweepOver(db, batches[0], now), hours, now, batches[1..], after);
    }
  }

  // ------------------------------------------------------------ and what it keeps

  lemma {:induction false} SweepKeeps(db: Db, batch: seq<LeadId>, now: Time)
    requires Core(db, now) && forall i :: 0 <= i < |batch| ==> batch[i] < |db.leads|
    ensures Core(SweepOver(db, batch, now), now)
  {
    if batch != [] {
      var n := |batch| - 1;
      SweepKeeps(db, batch[..n], now);
      FlagKeeps(SweepOver(db, batch[..n], now), batch[n], now);
    }
  }

  lemma FlagKeeps(db: Db, lead: LeadId, now: Time)
    requires Core(db, now) && lead < |db.leads|
    ensures Core(Flag(db, lead, now), now)
  {
    AppendEvent(db.events, LeadWentCold(lead));
    LeadEventsLeaveVisits(db.events, LeadWentCold(lead), db.visits);
  }
}

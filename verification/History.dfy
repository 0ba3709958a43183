/** What no later request undoes, and what the logs of a reachable state say about it. */
module History {
  import opened Domain
  import opened Funnel
  import opened Store
  import opened Invariants
  import opened Requests
  import opened Sweep
  import opened Runs

  // ------------------------------------------------------------ nothing is undone

  /** A visit keeps its lead, agent and author; a terminal status is never left, and a visit off
    * the calendar never comes back on it. */
  ghost predicate VisitsEvolve(a: seq<Visit>, b: seq<Visit>) {
    && |a| <= |b|
    && forall v :: 0 <= v < |a| ==>
         && b[v].lead == a[v].lead && b[v].agent == a[v].agent && b[v].createdBy == a[v].createdBy
         && (Final(a[v].status) ==> b[v].status == a[v].status)
  }

  /** A lead keeps its client, listing and birth; a closed one keeps its stage. */
  ghost predicate LeadsEvolve(a: seq<Lead>, b: seq<Lead>) {
    && |a| <= |b|
    && forall l :: 0 <= l < |a| ==>
         && b[l].client == a[l].client && b[l].listing == a[l].listing && b[l].createdAt == a[l].createdAt
         && (Terminal(a[l].stage) ==> b[l].stage == a[l].stage)
  }

  ghost predicate Evolves(a: Db, b: Db) {
    && VisitsEvolve(a.visits, b.visits) && LeadsEvolve(a.leads, b.leads)
    && a.events <= b.events && a.transitions <= b.transitions && a.audits <= b.audits
    && a.interactions <= b.interactions
  }

  lemma EvolvesIsTransitive(a: Db, b: Db, c: Db)
    requires Evolves(a, b) && Evolves(b, c)
    ensures Evolves(a, c)
  {
  }

  lemma SyncEvolves(db: Db, lead: LeadId, status: VisitStatus, actor: Actor, at: Time)
    requires lead < |db.leads|
    ensures Evolves(db, SyncFunnel(db, lead, status, actor, at))
  {
  }

  lemma RecordEvolves(db: Db, visit: VisitId, actor: Actor, kind: EventKind, previous: Option<Previous>, at: Time)
    requires visit < |db.visits|
    ensures Evolves(db, Record(db, visit, actor, kind, previous, at))
  {
  }

  lemma ChangeEvolves(db: Db, visit: VisitId, after: Visit, kind: EventKind, actor: Actor, at: Time)
    requires visit < |db.visits| && db.visits[visit].lead < |db.leads|
    requires var v := db.visits[visit];
      && after.lead == v.lead && after.agent == v.agent && after.createdBy == v.createdBy
      && (Final(v.status) ==> after.status == v.status)
    ensures Evolves(db, ChangeVisit(db, visit, after, kind, actor, at))
  {
    var v := db.visits[visit];
    var updated := db.(visits := db.visits[visit := after]);
    var synced := if after.status != v.status then SyncFunnel(updated, v.lead, after.status, actor, at) else updated;
    assert Evolves(db, updated);
    SyncEvolves(updated, v.lead, after.status, actor, at);
    EvolvesIsTransitive(db, updated, synced);
    RecordEvolves(synced, visit, actor, kind, Some(Previous(v.status, Some(v.start))), at);
    EvolvesIsTransitive(db, synced, ChangeVisit(db, visit, after, kind, actor, at));
  }

  lemma BookEvolves(
      db: Db, lead: LeadId, owner: AgentId, start: Time, minutes: Minutes, actor: Actor, at: Time)
    requires lead < |db.leads|
    ensures Evolves(db, Book(db, lead, owner, start, minutes, actor, at))
  {
    var confirmed := BornConfirmed(actor, owner);
    var inserted := db.(visits := db.visits + [Visit(
      lead, owner, start, minutes, if confirmed then Confirmed else PendingConfirmation, actor.id)]);
    var synced := if confirmed then SyncFunnel(inserted, lead, Confirmed, actor, at) else inserted;
    assert Evolves(db, inserted);
    SyncEvolves(inserted, lead, Confirmed, actor, at);
    EvolvesIsTransitive(db, inserted, synced);
    RecordEvolves(synced, |db.visits|, actor, BookedEvent, None, at);
    EvolvesIsTransitive(db, synced, Book(db, lead, owner, start, minutes, actor, at));
  }

  lemma BookingEvolves(db: Db, cfg: Config, lead: LeadId, start: Time, minutes: Minutes, actor: Actor, now: Time)
    ensures Evolves(db, RequestVisit(db, cfg, lead, start, minutes, actor, now).0)
  {
    if RequestVisit(db, cfg, lead, start, minutes, actor, now).1.Created? {
      BookEvolves(db, lead, db.leads[lead].agent, start, minutes, actor, now);
    }
  }

  lemma PatchEvolves(db: Db, cfg: Config, visit: VisitId, p: Patch, actor: Actor, now: Time)
    ensures Evolves(db, PatchVisit(db, cfg, visit, p, actor, now).0)
  {
    if PatchRefusal(db, cfg, visit, p, actor, now).None? {
      PatchedIsLegal(db, visit, p, actor);
      var after := Patched(db.visits[visit], p);
      ChangeEvolves(db, visit, after, ChangeKind(db.visits[visit], after), actor, now);
    }
  }

  lemma CancelOneEvolves(db: Db, visit: VisitId, actor: Actor, now: Time)
    requires visit < |db.visits| && !Final(db.visits[visit].status)
    ensures Evolves(db, CancelVisit(db, visit, actor, now))
  {
  }

  lemma {:induction false} CancelEvolves(db: Db, lead: LeadId, actor: Actor, now: Time, i: nat)
    requires lead < |db.leads| && i <= |db.visits|
    ensures Evolves(db, CancelOpen(db, lead, actor, now, i))
    decreases |db.visits| - i
  {
    if i < |db.visits| {
      if OpenFor(db.visits[i], lead) {
        var next := CancelVisit(db, i, actor, now);
        CancelOneShape(db, i, actor, now);
        CancelOneEvolves(db, i, actor, now);
        CancelEvolves(next, lead, actor, now, i + 1);
        EvolvesIsTransitive(db, next, CancelOpen(next, lead, actor, now, i + 1));
      } else {
        CancelEvolves(db, lead, actor, now, i + 1);
      }
    }
  }

  lemma TransitionedEvolves(
      db: Db, lead: LeadId, to: Stage, reason: Option<LostReason>, note: bool, actor: Actor, now: Time)
    requires TransitionRefusal(db, lead, to, reason, actor).None?
    ensures Evolves(db, Transitioned(db, lead, to, reason, note, actor, now))
  {
  }

  lemma TransitionEvolves(
      db: Db, lead: LeadId, to: Stage, reason: Option<LostReason>, note: bool, actor: Actor, now: Time)
    ensures Evolves(db, AddTransition(db, lead, to, reason, note, actor, now).0)
  {
    if TransitionRefusal(db, lead, to, reason, actor).None? {
      var noted := Transitioned(db, lead, to, reason, note, actor, now);
      TransitionedEvolves(db, lead, to, reason, note, actor, now);
      CancelEvolves(noted, lead, actor, now, 0);
      EvolvesIsTransitive(db, noted, CancelOpen(noted, lead, actor, now));
    }
  }

  lemma {:induction false} SweepEvolves(db: Db, batch: seq<LeadId>, now: Time)
    requires forall i :: 0 <= i < |batch| ==> batch[i] < |db.leads|
    ensures Evolves(db, SweepOver(db, batch, now)) && SweepOver(db, batch, now).audits == db.audits
  {
    if batch != [] {
      SweepEvolves(db, batch[..|batch| - 1], now);
    }
  }

  lemma NewLeadEvolves(
      db: Db, client: nat, listing: nat, message: bool, author: Option<Actor>, agency: nat, now: Time)
    ensures Evolves(db, CreateLead(db, client, listing, message, author, agency, now).0)
  {
  }

  lemma ReassignEvolves(db: Db, lead: LeadId, target: AgentId, actor: Actor)
    ensures Evolves(db, Reassign(db, lead, target, actor).0)
  {
  }

  lemma HandleEvolves(db: Db, cfg: Config, req: Request, now: Time)
    ensures Evolves(db, Handle(db, cfg, req, now))
  {
    match req
    case RequestVisitReq(lead, start, minutes, actor) => BookingEvolves(db, cfg, lead, start, minutes, actor, now);
    case PatchVisitReq(visit, patch, actor) => PatchEvolves(db, cfg, visit, patch, actor, now);
    case AddTransitionReq(lead, to, reason, note, actor) => TransitionEvolves(db, lead, to, reason, note, actor, now);
    case SweepReq(hours, batch) => if IsBatch(db, hours, now, batch) { SweepEvolves(db, batch, now); }
    case CreateLeadReq(client, listing, message, author, agency) =>
      NewLeadEvolves(db, client, listing, message, author, agency, now);
    case ReassignReq(lead, target, actor) => ReassignEvolves(db, lead, target, actor);
    case _ => QuietRequestsAppend(db, cfg, req, now);
  }

  lemma QuietRequestsAppend(db: Db, cfg: Config, req: Request, now: Time)
    requires Quiet(req)
    ensures Evolves(db, Handle(db, cfg, req, now))
  {
    QuietRequestsTouchNothing(db, cfg, req, now);
    assert db.interactions <= Handle(db, cfg, req, now).interactions;
  }

  /** Over any run, from any state: terminal statuses and closed stages stay, visits and leads keep
    * who they belong to, and the logs only grow. */
  lemma {:induction false} RunsOnlyAdd(db: Db, cfg: Config, steps: seq<Step>)
    ensures Evolves(db, Exec(db, cfg, steps))
    decreases |steps|
  {
    if steps != [] {
      var next := Handle(db, cfg, steps[0].req, steps[0].now);
      HandleEvolves(db, cfg, steps[0].req, steps[0].now);
      RunsOnlyAdd(next, cfg, steps[1..]);
      EvolvesIsTransitive(db, next, Exec(next, cfg, steps[1..]));
    }
  }

  /** "Already CANCELLED and cannot be changed" is about the status: a patch that repeats it may
    * still move the visit in time. It changes the row exactly when it repeats the status, asks for
    * another time or length, and passes the checks of a move. */
  lemma FinalVisitsMoveOnlyByRepeatingTheirStatus(
      db: Db, cfg: Config, visit: VisitId, p: Patch, actor: Actor, now: Time)
    requires VisitVisible(db, visit, actor.agency) && Final(db.visits[visit].status)
    ensures var v := db.visits[visit];
      PatchVisit(db, cfg, visit, p, actor, now).0.visits != db.visits
      <==> && p.status == Some(v.status) && !(actor.isBot && (v.status.Completed? || v.status.NoShow?))
           && ((p.start.Some? && p.start.value != v.start) || (p.minutes.Some? && p.minutes.value != v.minutes))
           && MoveRefusal(db, cfg, visit, p, actor, now).None?
  {
    var v := db.visits[visit];
    if PatchRefusal(db, cfg, visit, p, actor, now).None? {
      var after := Patched(v, p);
      ChangeVisitUnfolds(db, visit, after, ChangeKind(v, after), actor, now);
      if after != v {
        assert db.visits[visit := after][visit] != db.visits[visit];
      }
    }
  }

  // ------------------------------------------------------------ consent

  /** The last event about a visit carries the visit as it stands. */
  lemma {:induction false} LastWord(events: seq<Event>, visit: VisitId) returns (i: nat)
    requires TrackVisit(events, visit).Tracked?
    ensures i < |events| && events[i].VisitEvent? && events[i].visit == visit
    ensures TrackVisit(events, visit) == Tracked(events[i].start, events[i].minutes, events[i].status)
  {
    var n := |events| - 1;
    if events[n].VisitEvent? && events[n].visit == visit {
      i := n;
    } else {
      i := LastWord(events[..n], visit);
    }
  }

  /** Status is consent: the time and length of a confirmed visit, as they stand now, were set or
    * accepted by a person or by a bot trusted to. */
  lemma ConfirmedWasAgreed(db: Db, now: Time, visit: VisitId)
    requires Core(db, now) && visit < |db.visits| && db.visits[visit].status.Confirmed?
    ensures exists i :: 0 <= i < |db.events| && Agrees(db.events[i], visit, db.visits[visit])
  {
    var i := LastWord(db.events, visit);
    assert Agrees(db.events[i], visit, db.visits[visit]);
  }

  /** Someone who may agree left the visit confirmed at this very time and length. */
  predicate Agrees(e: Event, visit: VisitId, v: Visit) {
    && e.VisitEvent? && e.visit == visit && MayConsent(e.actor)
    && e.status.Confirmed? && e.start == v.start && e.minutes == v.minutes
  }

  // ------------------------------------------------------------ the funnel's log

  /** The last event is the last row. */
  lemma LastRowOfTrail(events: seq<Event>, transitions: seq<Transition>)
    requires Trail(events, transitions) && events != [] && EdgeOf(events[|events| - 1]) != []
    ensures var (m, e) := (|transitions| - 1, events[|events| - 1]);
      && m >= 0 && Trail(events[..|events| - 1], transitions[..m])
      && EdgeOf(e) == [Edge(transitions[m].lead, transitions[m].from, transitions[m].to)]
  {
    var (m, before) := (|transitions| - 1, events[..|events| - 1]);
    assert EdgesOf(events)[m] == EdgeOf(events[|events| - 1])[0];
    assert forall i :: 0 <= i < m ==> EdgesOf(events)[i] == EdgesOf(before)[i];
  }

  /** Replaying to an open lead means its rows in the stage log are one legal path to its stage. */
  lemma {:induction false} TrailIsALegalPath(events: seq<Event>, transitions: seq<Transition>, l: LeadId)
    requires Trail(events, transitions) && !TrackLead(events, l).LeadBroken?
    ensures TrackLead(events, l).Unopened? ==> RowsOf(transitions, l) == []
    ensures TrackLead(events, l).Open? ==>
      var rows := RowsOf(transitions, l); LegalPath(rows) && rows[|rows| - 1].to == TrackLead(events, l).stage
  {
    if events != [] {
      var e, before := events[|events| - 1], events[..|events| - 1];
      if EdgeOf(e) == [] {
        TrailIsALegalPath(before, transitions, l);
      } else {
        LastRowOfTrail(events, transitions);
        TrailIsALegalPath(before, transitions[..|transitions| - 1], l);
      }
    }
  }

  /** Both stage writers, the validated one and the calendar's, keep every lead's log one legal
    * path of at most five rows, ending at the cached stage, and in LOST exactly when the reason
    * was recorded. */
  lemma EveryLeadsLogIsLegal(db: Db, now: Time, l: LeadId)
    requires Core(db, now) && l < |db.leads|
    ensures var rows := RowsOf(db.transitions, l);
      && LegalPath(rows) && |rows| <= 5
      && rows[|rows| - 1].to == db.leads[l].stage
      && (rows[|rows| - 1].to.Lost? <==> l in db.lost)
  {
    TrailIsALegalPath(db.events, db.transitions, l);
    LegalPathIsShort(RowsOf(db.transitions, l));
  }

  predicate Creates(e: Event, l: LeadId) {
    e.LeadCreated? && e.lead == l
  }

  /** One lead.created per lead: what the relay's first-touch task relies on. */
  ghost predicate CreatedOnce(events: seq<Event>) {
    forall i, j :: 0 <= i < j < |events| && events[i].LeadCreated? ==> !Creates(events[j], events[i].lead)
  }

  lemma {:induction false} OpeningsOf(events: seq<Event>, l: LeadId)
    requires !TrackLead(events, l).LeadBroken?
    ensures TrackLead(events, l).Unopened? ==> forall i :: 0 <= i < |events| ==> !Creates(events[i], l)
    ensures forall i, j :: 0 <= i < j < |events| && Creates(events[i], l) ==> !Creates(events[j], l)
    ensures TrackLead(events, l).Open? ==> exists i :: 0 <= i < |events| && Creates(events[i], l)
  {
    if events != [] {
      var before := events[..|events| - 1];
      OpeningsOf(before, l);
      assert forall i :: 0 <= i < |before| ==> before[i] == events[i];
    }
  }

  predicate IsCreated(events: seq<Event>, l: LeadId) {
    exists i :: 0 <= i < |events| && Creates(events[i], l)
  }

  /** Exactly one event creates each lead. */
  lemma EveryLeadIsCreatedOnce(db: Db, now: Time)
    requires Core(db, now)
    ensures CreatedOnce(db.events)
    ensures forall l :: 0 <= l < |db.leads| ==> IsCreated(db.events, l)
  {
    forall l: LeadId | l < |db.leads| ensures IsCreated(db.events, l) {
      OpeningsOf(db.events, l);
    }
    forall i, j | 0 <= i < j < |db.events| && db.events[i].LeadCreated?
      ensures !Creates(db.events[j], db.events[i].lead)
    {
      OpeningsOf(db.events, db.events[i].lead);
      assert Creates(db.events[i], db.events[i].lead);
    }
  }
}

/** What every reachable state of the tables keeps: the calendar's safety, the coupling of visits
  * and funnel, and that the outbox replays to the tables. */
module Invariants {
  import opened Domain
  import opened Funnel
  import opened Store

  // ------------------------------------------------------------ the calendar

  /** No two visits of one agent in a blocking status overlap. */
  ghost predicate NoOverlap(visits: seq<Visit>) {
    forall i, j :: 0 <= i < |visits| && 0 <= j < |visits| && i != j
      && Blocking(visits[i].status) && Blocking(visits[j].status) && visits[i].agent == visits[j].agent
      ==> !Overlaps(Span(visits[i]), Span(visits[j]))
  }

  ghost predicate OneOpen(visits: seq<Visit>) {
    forall i, j :: 0 <= i < |visits| && 0 <= j < |visits| && i != j
      && Blocking(visits[i].status) && Blocking(visits[j].status)
      ==> visits[i].lead != visits[j].lead
  }

  ghost predicate ConfirmedPastInterested(visits: seq<Visit>, leads: seq<Lead>) {
    forall i :: 0 <= i < |visits| && visits[i].lead < |leads| && visits[i].status.Confirmed?
      ==> !leads[visits[i].lead].stage.Interested?
  }

  /** A WON or LOST lead holds no slot. */
  ghost predicate ClosedFree(visits: seq<Visit>, leads: seq<Lead>) {
    forall i :: 0 <= i < |visits| && visits[i].lead < |leads| && Blocking(visits[i].status)
      ==> !Terminal(leads[visits[i].lead].stage)
  }

  // ------------------------------------------------------------ replaying the outbox

  datatype VisitTrack = Unbooked | Tracked(start: Time, minutes: Minutes, status: VisitStatus) | VisitBroken

  function StatusAfter(kind: EventKind, carried: VisitStatus): VisitStatus {
    match kind
    case ConfirmedEvent => Confirmed
    case CancelledEvent => Cancelled
    case CompletedEvent => Completed
    case NoShowEvent => NoShow
    case ReopenedEvent => PendingConfirmation
    case RescheduledEvent => carried
    case BookedEvent => carried
  }

  /** An event's `previous` agrees with what was there, as far as it says. */
  predicate Found(previous: Option<Previous>, status: VisitStatus, start: Time) {
    && previous.Some? && previous.value.status == status
    && (previous.value.start.Some? ==> previous.value.start.value == start)
  }

  /** A consumer's view of visit `v` after event `e`. A booking opens it once; every other event
    * must name the status it found, and the start if it names one. Only a rescheduling moves the visit in time, every
    * other kind sets the status by its name alone, and the payload must agree with the outcome. */
  function ApplyToVisit(track: VisitTrack, v: VisitId, e: Event): VisitTrack {
    if !e.VisitEvent? || e.visit != v then track
    else if e.kind.BookedEvent? then
      if track.Unbooked? && e.previous.None? then Tracked(e.start, e.minutes, e.status) else VisitBroken
    else if !track.Tracked? || !Found(e.previous, track.status, track.start) then VisitBroken
    else
      var next :=
        if e.kind.RescheduledEvent? then Tracked(e.start, e.minutes, e.status)
        else track.(status := StatusAfter(e.kind, e.status));
      if next == Tracked(e.start, e.minutes, e.status) then next else VisitBroken
  }

  function TrackVisit(events: seq<Event>, v: VisitId): VisitTrack {
    if events == [] then Unbooked
    else ApplyToVisit(TrackVisit(events[..|events| - 1], v), v, events[|events| - 1])
  }

  datatype LeadTrack = Unopened | Open(owner: AgentId, stage: Stage) | LeadBroken

  /** A consumer's view of lead `l`: created once; every stage change leaves from where the lead
    * was, along an edge of the funnel; every reassignment leaves from the current owner. */
  function ApplyToLead(track: LeadTrack, l: LeadId, e: Event): LeadTrack {
    if e.VisitEvent? || e.lead != l then track
    else match e
      case LeadCreated(_, agent) => if track.Unopened? then Open(agent, Interested) else LeadBroken
      case StageChanged(_, from, to) =>
        if track.Open? && track.stage == from && Allowed(from, to) then track.(stage := to) else LeadBroken
      case LeadReassigned(_, from, to, _) =>
        if track.Open? && track.owner == from && from != to then track.(owner := to) else LeadBroken
      case LeadWentCold(_) => if track.Open? then track else LeadBroken
      case VisitEvent(_, _, _, _, _, _, _, _) => track
  }

  function TrackLead(events: seq<Event>, l: LeadId): LeadTrack {
    if events == [] then Unopened
    else ApplyToLead(TrackLead(events[..|events| - 1], l), l, events[|events| - 1])
  }

  /** Folding each visit's events gives its row, and no event speaks of a visit that is not there. */
  ghost predicate VisitReplay(events: seq<Event>, visits: seq<Visit>) {
    forall v: nat :: TrackVisit(events, v) ==
      if v < |visits| then Tracked(visits[v].start, visits[v].minutes, visits[v].status) else Unbooked
  }

  ghost predicate LeadReplay(events: seq<Event>, leads: seq<Lead>) {
    forall l: nat :: TrackLead(events, l) ==
      if l < |leads| then Open(leads[l].agent, leads[l].stage) else Unopened
  }

  datatype Edge = Edge(lead: LeadId, from: Option<Stage>, to: Stage)

  function EdgeOf(e: Event): seq<Edge> {
    match e
    case LeadCreated(l, _) => [Edge(l, None, Interested)]
    case StageChanged(l, from, to) => [Edge(l, Some(from), to)]
    case _ => []
  }

  function EdgesOf(events: seq<Event>): seq<Edge> {
    if events == [] then [] else EdgesOf(events[..|events| - 1]) + EdgeOf(events[|events| - 1])
  }

  /** One lead.created per opening row, one lead.stage_changed per later row, in the same order. */
  ghost predicate Trail(events: seq<Event>, transitions: seq<Transition>) {
    && |EdgesOf(events)| == |transitions|
    && forall i :: 0 <= i < |transitions| ==>
         EdgesOf(events)[i] == Edge(transitions[i].lead, transitions[i].from, transitions[i].to)
  }

  function AuditsOf(events: seq<Event>): seq<Audit> {
    if events == [] then []
    else
      var e := events[|events| - 1];
      AuditsOf(events[..|events| - 1])
        + if e.LeadReassigned? then [Audit(e.lead, e.fromAgent, e.toAgent, e.reassignedBy)] else []
  }

  /** No event by anyone but a person or a trusted bot leaves a visit confirmed. */
  ghost predicate ConsentLog(events: seq<Event>) {
    forall i :: 0 <= i < |events| && events[i].VisitEvent? && events[i].status.Confirmed?
      ==> MayConsent(events[i].actor)
  }

  // ------------------------------------------------------------ the rest of the tables

  /** Rows point at rows, and a visit's agent belongs to the agency of its lead's owner. */
  ghost predicate Refs(db: Db) {
    && (forall k :: k in db.listings ==> db.listings[k].agent in db.agents)
    && (forall l :: 0 <= l < |db.leads| ==> db.leads[l].agent in db.agents && db.leads[l].listing in db.listings)
    && (forall v :: 0 <= v < |db.visits| ==>
          && db.visits[v].lead < |db.leads|
          && InAgency(db, db.visits[v].agent, db.agents[db.leads[db.visits[v].lead].agent].agency))
  }

  ghost predicate LostDetails(lost: map<LeadId, LostReason>, leads: seq<Lead>) {
    && (forall l :: l in lost ==> l < |leads|)
    && (forall l :: 0 <= l < |leads| ==> (l in lost <==> leads[l].stage.Lost?))
  }

  /** One thread per client and listing. */
  ghost predicate DistinctPairs(leads: seq<Lead>) {
    forall i, j :: 0 <= i < j < |leads| ==> leads[i].client != leads[j].client || leads[i].listing != leads[j].listing
  }

  ghost predicate Dated(transitions: seq<Transition>, now: Time) {
    forall i :: 0 <= i < |transitions| ==> transitions[i].at <= now
  }

  ghost predicate Logs(db: Db) {
    && VisitReplay(db.events, db.visits)
    && LeadReplay(db.events, db.leads)
    && Trail(db.events, db.transitions)
    && AuditsOf(db.events) == db.audits
    && ConsentLog(db.events)
  }

  ghost predicate Rows(db: Db, now: Time) {
    Refs(db) && DistinctPairs(db.leads) && Dated(db.transitions, now)
  }

  ghost predicate Calendar(db: Db) {
    NoOverlap(db.visits) && OneOpen(db.visits) && ConfirmedPastInterested(db.visits, db.leads)
  }

  /** What holds in every interleaving. */
  ghost predicate Core(db: Db, now: Time) {
    Logs(db) && Rows(db, now) && Calendar(db) && LostDetails(db.lost, db.leads)
  }

  /** What holds when requests run one at a time. */
  ghost predicate Inv(db: Db, now: Time) {
    Core(db, now) && ClosedFree(db.visits, db.leads)
  }

  // ------------------------------------------------------------ appending one event

  lemma AppendEvent(events: seq<Event>, e: Event)
    ensures forall v: nat {:trigger TrackVisit(events + [e], v)} ::
      TrackVisit(events + [e], v) == ApplyToVisit(TrackVisit(events, v), v, e)
    ensures forall l: nat {:trigger TrackLead(events + [e], l)} ::
      TrackLead(events + [e], l) == ApplyToLead(TrackLead(events, l), l, e)
    ensures EdgesOf(events + [e]) == EdgesOf(events) + EdgeOf(e)
    ensures AuditsOf(events + [e]) == AuditsOf(events)
      + if e.LeadReassigned? then [Audit(e.lead, e.fromAgent, e.toAgent, e.reassignedBy)] else []
  {
    assert (events + [e])[..|events + [e]| - 1] == events;
  }

  /** A visit event tells the lead's consumers nothing, and the other way round. */
  lemma VisitEventsLeaveLeads(events: seq<Event>, e: Event, leads: seq<Lead>, transitions: seq<Transition>)
    requires e.VisitEvent? && LeadReplay(events, leads) && Trail(events, transitions)
    ensures LeadReplay(events + [e], leads) && Trail(events + [e], transitions)
    ensures AuditsOf(events + [e]) == AuditsOf(events)
  {
    AppendEvent(events, e);
  }

  lemma LeadEventsLeaveVisits(events: seq<Event>, e: Event, visits: seq<Visit>)
    requires !e.VisitEvent? && VisitReplay(events, visits) && ConsentLog(events)
    ensures VisitReplay(events + [e], visits) && ConsentLog(events + [e])
  {
    AppendEvent(events, e);
  }

  lemma BookingReplays(events: seq<Event>, visits: seq<Visit>, visit: Visit, e: Event)
    requires VisitReplay(events, visits)
    requires e.VisitEvent? && e.kind.BookedEvent? && e.visit == |visits| && e.previous.None?
    requires e.start == visit.start && e.minutes == visit.minutes && e.status == visit.status
    ensures VisitReplay(events + [e], visits + [visit])
  {
    AppendEvent(events, e);
  }

  /** What makes an event describe a change of a visit's row truthfully. */
  predicate Describes(e: Event, visit: VisitId, before: Visit, after: Visit) {
    && e.VisitEvent? && e.visit == visit && Found(e.previous, before.status, before.start)
    && e.start == after.start && e.minutes == after.minutes && e.status == after.status
    && !e.kind.BookedEvent?
    && (e.kind.RescheduledEvent?
        || (after.start == before.start && after.minutes == before.minutes
            && after.status == StatusAfter(e.kind, e.status)))
  }

  lemma ChangeReplays(events: seq<Event>, visits: seq<Visit>, visit: VisitId, after: Visit, e: Event)
    requires VisitReplay(events, visits) && visit < |visits|
    requires Describes(e, visit, visits[visit], after)
    ensures VisitReplay(events + [e], visits[visit := after])
  {
    AppendEvent(events, e);
    forall v: nat ensures TrackVisit(events + [e], v) ==
      var now := visits[visit := after];
      if v < |now| then Tracked(now[v].start, now[v].minutes, now[v].status) else Unbooked
    {
      assert TrackVisit(events, visit) == Tracked(visits[visit].start, visits[visit].minutes, visits[visit].status);
    }
  }

  // ------------------------------------------------------------ the stage log

  lemma LoggedStage(db: Db, row: Transition)
    requires row.lead < |db.leads| && Newest(db.transitions, row.lead, row.at)
    ensures LogStage(db, row).leads == db.leads[row.lead := db.leads[row.lead].(stage := row.to)]
  {
  }

  /** A legal, newest row and its event: everything is kept but the lost-detail rows, which the
    * caller still owes when the lead is lost. */
  lemma AdvanceKeeps(db: Db, lead: LeadId, to: Stage, actor: Actor, at: Time, now: Time)
    requires Logs(db) && Rows(db, now) && Calendar(db)
    requires lead < |db.leads| && Allowed(db.leads[lead].stage, to)
    requires Newest(db.transitions, lead, at) && at <= now
    ensures var r := Advance(db, lead, db.leads[lead].stage, to, actor, at);
            && Logs(r) && Rows(r, now) && Calendar(r)
            && r.leads == db.leads[lead := db.leads[lead].(stage := to)]
            && r.visits == db.visits && r.lost == db.lost
  {
    var from := db.leads[lead].stage;
    var row := Transition(lead, Some(from), to, Some(actor.id), at);
    LoggedStage(db, row);
    var e := StageChanged(lead, from, to);
    AppendEvent(db.events, e);
    LeadEventsLeaveVisits(db.events, e, db.visits);
    assert TrackLead(db.events, lead) == Open(db.leads[lead].agent, from);
  }

  /** An advance that closes nothing owes no lost-detail row. */
  lemma OpenAdvanceKeeps(db: Db, lead: LeadId, to: Stage, actor: Actor, at: Time, now: Time)
    requires Core(db, now) && lead < |db.leads| && Allowed(db.leads[lead].stage, to) && !Terminal(to)
    requires Newest(db.transitions, lead, at) && at <= now
    ensures var r := Advance(db, lead, db.leads[lead].stage, to, actor, at);
            && Core(r, now) && r.visits == db.visits && r.leads == db.leads[lead := db.leads[lead].(stage := to)]
            && (ClosedFree(db.visits, db.leads) ==> ClosedFree(r.visits, r.leads))
  {
    AdvanceKeeps(db, lead, to, actor, at, now);
  }

  /** The push is one edge of the funnel, and closes nothing, or it is none at all. */
  lemma PushIsAnEdge(stage: Stage, status: VisitStatus)
    ensures var target := Pushed(stage, status);
      target == stage || (Allowed(stage, target) && !Terminal(target))
  {
  }

  /** The calendar pushes the funnel only along its edges, and a confirmed visit's lead is never
    * left at INTERESTED. */
  lemma SyncKeeps(db: Db, lead: LeadId, status: VisitStatus, actor: Actor, at: Time, now: Time)
    requires Core(db, now) && lead < |db.leads| && at <= now
    requires Newest(db.transitions, lead, at) || !(status.Confirmed? || status.Completed?)
          || (status.Confirmed? && !db.leads[lead].stage.Interested?)
    ensures var r := SyncFunnel(db, lead, status, actor, at);
            && Core(r, now) && r.visits == db.visits && |r.leads| == |db.leads|
            && (status.Confirmed? ==> !r.leads[lead].stage.Interested?)
            && (ClosedFree(db.visits, db.leads) ==> ClosedFree(r.visits, r.leads))
            && (forall l :: 0 <= l < |db.leads| && Terminal(r.leads[l].stage) ==> Terminal(db.leads[l].stage))
  {
    var stage := db.leads[lead].stage;
    PushIsAnEdge(stage, status);
    if Pushed(stage, status) != stage {
      OpenAdvanceKeeps(db, lead, Pushed(stage, status), actor, at, now);
    }
  }

  // ------------------------------------------------------------ the visit rows

  lemma AdvanceIgnoresVisits(db: Db, visits: seq<Visit>, lead: LeadId, from: Stage, to: Stage, actor: Actor, at: Time)
    requires lead < |db.leads|
    ensures Advance(db.(visits := visits), lead, from, to, actor, at)
         == Advance(db, lead, from, to, actor, at).(visits := visits)
  {
    var row := Transition(lead, Some(from), to, Some(actor.id), at);
    var logged := LogStage(db, row);
    assert LogStage(db.(visits := visits), row) == logged.(visits := visits);
  }

  /** The funnel reads and writes no visit. */
  lemma SyncIgnoresVisits(db: Db, visits: seq<Visit>, lead: LeadId, status: VisitStatus, actor: Actor, at: Time)
    requires lead < |db.leads|
    ensures SyncFunnel(db.(visits := visits), lead, status, actor, at)
         == SyncFunnel(db, lead, status, actor, at).(visits := visits)
  {
    AdvanceIgnoresVisits(db, visits, lead, Interested, VisitScheduled, actor, at);
    AdvanceIgnoresVisits(db, visits, lead, VisitScheduled, Visited, actor, at);
  }

  lemma ChangeVisitUnfolds(db: Db, visit: VisitId, after: Visit, kind: EventKind, actor: Actor, at: Time)
    requires visit < |db.visits| && db.visits[visit].lead < |db.leads|
    ensures var v := db.visits[visit];
            var synced := if after.status != v.status then SyncFunnel(db, v.lead, after.status, actor, at) else db;
            && synced.visits == db.visits
            && ChangeVisit(db, visit, after, kind, actor, at)
               == Record(synced.(visits := db.visits[visit := after]), visit, actor, kind,
                         Some(Previous(v.status, Some(v.start))), at)
  {
    SyncIgnoresVisits(db, db.visits[visit := after], db.visits[visit].lead, after.status, actor, at);
  }

  lemma RecordedChangeKeeps(
      db: Db, visit: VisitId, after: Visit, kind: EventKind, previous: Previous, actor: Actor, at: Time, now: Time)
    requires Core(db, now) && visit < |db.visits|
    requires Found(Some(previous), db.visits[visit].status, db.visits[visit].start)
    requires var v := db.visits[visit];
      && after.lead == v.lead && after.agent == v.agent
      && (Blocking(after.status) ==> Blocking(v.status))
      && (after.status.Confirmed? ==> MayConsent(actor) && !db.leads[v.lead].stage.Interested?)
      && !kind.BookedEvent?
      && (kind.RescheduledEvent? || (after.start == v.start && after.minutes == v.minutes
                                     && after.status == StatusAfter(kind, after.status)))
    requires NoOverlap(db.visits[visit := after])
    ensures var v := db.visits[visit];
            var r := Record(db.(visits := db.visits[visit := after]), visit, actor, kind, Some(previous), at);
            && Core(r, now)
            && (ClosedFree(db.visits, db.leads) ==> ClosedFree(r.visits, r.leads))
  {
    var v := db.visits[visit];
    var e := VisitEvent(kind, visit, after.lead, after.start, after.minutes, after.status, actor, Some(previous));
    ChangeReplays(db.events, db.visits, visit, after, e);
    VisitEventsLeaveLeads(db.events, e, db.leads, db.transitions);
  }

  lemma ChangeVisitKeeps(
      db: Db, visit: VisitId, after: Visit, kind: EventKind, actor: Actor, at: Time, now: Time)
    requires Core(db, now) && visit < |db.visits| && at <= now
    requires Newest(db.transitions, db.visits[visit].lead, at)
    requires var v := db.visits[visit];
      && after.lead == v.lead && after.agent == v.agent
      && (Blocking(after.status) ==> Blocking(v.status))
      && (after.status.Confirmed? ==> MayConsent(actor))
      && !kind.BookedEvent?
      && (kind.RescheduledEvent? || (after.start == v.start && after.minutes == v.minutes
                                     && after.status == StatusAfter(kind, after.status)))
    requires NoOverlap(db.visits[visit := after])
    ensures var r := ChangeVisit(db, visit, after, kind, actor, at);
            && Core(r, now) && r.visits == db.visits[visit := after]
            && (ClosedFree(db.visits, db.leads) ==> ClosedFree(r.visits, r.leads))
            && (forall l :: 0 <= l < |db.leads| && Terminal(r.leads[l].stage) ==> Terminal(db.leads[l].stage))
  {
    var v := db.visits[visit];
    var synced := if after.status != v.status then SyncFunnel(db, v.lead, after.status, actor, at) else db;
    if after.status != v.status {
      SyncKeeps(db, v.lead, after.status, actor, at, now);
    }
    ChangeVisitUnfolds(db, visit, after, kind, actor, at);
    RecordedChangeKeeps(synced, visit, after, kind, Previous(v.status, Some(v.start)), actor, at, now);
  }

  /** The insert of a booking, whatever was checked before it: the checks are the requirements. */
  lemma BookKeeps(
      db: Db, lead: LeadId, owner: AgentId, start: Time, minutes: Minutes, actor: Actor, at: Time, now: Time)
    requires Core(db, now) && lead < |db.leads| && at <= now
    requires db.leads[lead].stage.Interested? ==> Newest(db.transitions, lead, at)
    requires InAgency(db, owner, db.agents[db.leads[lead].agent].agency)
    requires FirstOpen(db.visits, lead).None?
    requires !Clash(db.visits, owner, Interval(start, VisitEnd(start, minutes)), None)
    ensures var r := Book(db, lead, owner, start, minutes, actor, at);
            && Core(r, now) && |r.visits| == |db.visits| + 1 && r.visits[..|db.visits|] == db.visits
            && OpenFor(r.visits[|db.visits|], lead) && r.visits[|db.visits|].agent == owner
            && Span(r.visits[|db.visits|]) == Interval(start, VisitEnd(start, minutes))
            && (ClosedFree(db.visits, db.leads) && !Terminal(db.leads[lead].stage) ==> ClosedFree(r.visits, r.leads))
  {
    var confirmed := BornConfirmed(actor, owner);
    var status := if confirmed then Confirmed else PendingConfirmation;
    var visit := Visit(lead, owner, start, minutes, status, actor.id);
    var synced := if confirmed then SyncFunnel(db, lead, Confirmed, actor, at) else db;
    if confirmed {
      SyncKeeps(db, lead, Confirmed, actor, at, now);
    }
    SyncIgnoresVisits(db, db.visits + [visit], lead, Confirmed, actor, at);
    assert Book(db, lead, owner, start, minutes, actor, at)
      == Record(synced.(visits := db.visits + [visit]), |db.visits|, actor, BookedEvent, None, at);
    BookedRowKeeps(synced, visit, actor, at, now);
  }

  lemma BookedRowKeeps(db: Db, visit: Visit, actor: Actor, at: Time, now: Time)
    requires Core(db, now) && visit.lead < |db.leads|
    requires InAgency(db, visit.agent, db.agents[db.leads[visit.lead].agent].agency)
    requires FirstOpen(db.visits, visit.lead).None? && !Clash(db.visits, visit.agent, Span(visit), None)
    requires visit.status.Confirmed? ==> MayConsent(actor) && !db.leads[visit.lead].stage.Interested?
    ensures var r := Record(db.(visits := db.visits + [visit]), |db.visits|, actor, BookedEvent, None, at);
            && Core(r, now)
            && (ClosedFree(db.visits, db.leads) && !Terminal(db.leads[visit.lead].stage) ==>
                  ClosedFree(r.visits, r.leads))
  {
    var e := VisitEvent(BookedEvent, |db.visits|, visit.lead, visit.start, visit.minutes, visit.status, actor, None);
    BookingReplays(db.events, db.visits, visit, e);
    VisitEventsLeaveLeads(db.events, e, db.leads, db.transitions);
    BookedCalendar(db.visits, db.leads, visit);
  }

  lemma BookedCalendar(visits: seq<Visit>, leads: seq<Lead>, visit: Visit)
    requires NoOverlap(visits) && OneOpen(visits) && ConfirmedPastInterested(visits, leads)
    requires FirstOpen(visits, visit.lead).None? && !Clash(visits, visit.agent, Span(visit), None)
    requires visit.lead < |leads| && (visit.status.Confirmed? ==> !leads[visit.lead].stage.Interested?)
    ensures NoOverlap(visits + [visit]) && OneOpen(visits + [visit])
    ensures ConfirmedPastInterested(visits + [visit], leads)
  {
    forall i | 0 <= i < |visits| && Occupies(visits[i], visit.agent)
      ensures !Overlaps(Span(visits[i]), Span(visit)) && !Overlaps(Span(visit), Span(visits[i]))
    {
      assert None != Some(i);
    }
  }
}

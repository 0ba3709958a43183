/** What creating, moving and reassigning a lead answer and write, in full. */
module LeadOutcomes {
  import opened Domain
  import opened Funnel
  import opened Store
  import opened Invariants
  import opened Requests
  import opened PlainTerms
  import opened BookingOutcomes

  // ------------------------------------------------------------ a new lead

  predicate IsThread(l: Lead, client: nat, listing: nat) {
    l.client == client && l.listing == listing
  }

  /** A listing out of the agency's sight and an unknown client are refused; a thread that exists is
    * answered with, and then nothing is written; otherwise the lead is new. */
  lemma CreateLeadAnswers(
      db: Db, client: nat, listing: nat, message: bool, actor: Option<Actor>, agency: nat, now: Time)
    ensures var (r, answer) := CreateLead(db, client, listing, message, actor, agency, now);
      if !(listing in db.listings && db.listings[listing].agent in db.agents
           && db.agents[db.listings[listing].agent].agency == agency)
      then r == db && answer == LeadRefused(ListingNotFound)
      else if client !in db.clients then r == db && answer == LeadRefused(ClientNotFound)
      else if exists i :: 0 <= i < |db.leads| && IsThread(db.leads[i], client, listing)
      then r == db && answer.KnownLead? && answer.lead < |db.leads| && IsThread(db.leads[answer.lead], client, listing)
      else answer == NewLead(|db.leads|)
  {
    if i :| 0 <= i < |db.leads| && IsThread(db.leads[i], client, listing) {
      assert FirstPair(db.leads, client, listing).Some?;
    } else {
      var known := FirstPair(db.leads, client, listing);
      assert known.Some? ==> IsThread(db.leads[known.value], client, listing);
    }
  }

  /** All a new lead writes: it belongs to the listing's agent whoever makes it, opens at INTERESTED,
    * and its first message, if any, is the client's, written by the bot if a bot relays it. */
  lemma NewLeadWrites(
      db: Db, client: nat, listing: nat, message: bool, actor: Option<Actor>, agency: nat, now: Time)
    requires forall i :: 0 <= i < |db.transitions| ==> db.transitions[i].lead < |db.leads|
    ensures var (r, answer) := CreateLead(db, client, listing, message, actor, agency, now);
      answer.NewLead? ==>
        && listing in db.listings
        && var (lead, owner) := (|db.leads|, db.listings[listing].agent);
           var creator := if actor.Some? then Some(actor.value.id) else None;
           var writer := if actor.Some? && actor.value.isBot then Some(actor.value.id) else None;
           r == db.(
             leads := db.leads + [Lead(client, listing, owner, Interested, now)],
             transitions := db.transitions + [Transition(lead, None, Interested, creator, now)],
             interactions := db.interactions
               + if message then [Interaction(lead, Inbound, Message, writer, now)] else [],
             events := db.events + [LeadCreated(lead, owner)])
  {
    if CreateLead(db, client, listing, message, actor, agency, now).1.NewLead? {
      var leads := db.leads + [Lead(client, listing, db.listings[listing].agent, Interested, now)];
      assert leads[|db.leads| := leads[|db.leads|].(stage := Interested)] == leads;
      assert db.interactions + [] == db.interactions;
    }
  }

  // ------------------------------------------------------------ a transition

  /** The funnel's eight edges. */
  lemma AllowedEdges(from: Stage, to: Stage)
    ensures Allowed(from, to) <==> (from, to) in {
      (Interested, VisitScheduled), (VisitScheduled, Visited), (Visited, Negotiating), (Negotiating, Won),
      (Interested, Lost), (VisitScheduled, Lost), (Visited, Lost), (Negotiating, Lost)}
  {
  }

  lemma TransitionAnswers(
      db: Db, lead: LeadId, to: Stage, reason: Option<LostReason>, note: bool, actor: Actor, now: Time)
    ensures var answer := AddTransition(db, lead, to, reason, note, actor, now).1;
      answer ==
        if !Sees(db, actor.agency, lead) then LeadRefused(LeadNotFound)
        else if Ended(db.leads[lead].stage) then LeadRefused(LeadClosed)
        else if !Allowed(db.leads[lead].stage, to) then LeadRefused(IllegalTransition)
        else if to == Lost && reason == None then LeadRefused(UnknownReason)
        else Moved
  {
  }

  /** Cancelling a lead's visits cancels its one open visit. */
  lemma {:induction false} CancelsTheOpenOne(db: Db, lead: LeadId, actor: Actor, now: Time, i: nat, v: VisitId)
    requires lead < |db.leads| && i <= v < |db.visits|
    requires db.visits[v].lead == lead && OnCalendar(db.visits[v].status)
    requires forall j :: i <= j < |db.visits| && j != v ==> !OpenFor(db.visits[j], lead)
    ensures CancelOpen(db, lead, actor, now, i) == CancelVisit(db, v, actor, now)
    decreases |db.visits| - i
  {
    if i < v {
      CancelsTheOpenOne(db, lead, actor, now, i + 1, v);
    } else {
      CancelsNone(CancelVisit(db, v, actor, now), lead, actor, now, v + 1);
    }
  }

  lemma {:induction false} CancelsNone(db: Db, lead: LeadId, actor: Actor, now: Time, i: nat)
    requires lead < |db.leads| && i <= |db.visits|
    requires forall j :: i <= j < |db.visits| ==> !OpenFor(db.visits[j], lead)
    ensures CancelOpen(db, lead, actor, now, i) == db
    decreases |db.visits| - i
  {
    if i < |db.visits| {
      CancelsNone(db, lead, actor, now, i + 1);
    }
  }

  /** All a transition writes but for cancelled visits: the lead's stage, one row, the reason of a lost
    * lead, one event, and a line on the timeline for a note or a loss. */
  function MovedLead(
    db: Db, lead: LeadId, to: Stage, reason: Option<LostReason>, note: bool, actor: Actor, now: Time): Db
    requires lead < |db.leads| && (to == Lost ==> reason.Some?)
  {
    db.(
      leads := db.leads[lead := db.leads[lead].(stage := to)],
      transitions := db.transitions + [Transition(lead, Some(db.leads[lead].stage), to, Some(actor.id), now)],
      lost := if to == Lost then db.lost[lead := reason.value] else db.lost,
      interactions := db.interactions
        + if to == Lost || note then [Interaction(lead, Outbound, StatusChange, Some(actor.id), now)] else [],
      events := db.events + [StageChanged(lead, db.leads[lead].stage, to)])
  }

  /** One visit cancelled because its lead was closed. */
  function VisitCancelled(db: Db, v: VisitId, actor: Actor, now: Time): Db
    requires v < |db.visits|
  {
    var row := db.visits[v];
    db.(
      visits := db.visits[v := row.(status := Cancelled)],
      interactions := db.interactions + [Interaction(row.lead, Outbound, StatusChange, Some(actor.id), now)],
      events := db.events + [VisitEvent(
        CancelledEvent, v, row.lead, row.start, row.minutes, Cancelled, actor, Some(Previous(row.status, None)))])
  }

  /** Closing a lead cancels its open visit, if it has one; nothing else does. */
  lemma TransitionWrites(
      db: Db, lead: LeadId, to: Stage, reason: Option<LostReason>, note: bool, actor: Actor, now: Time)
    requires Dated(db.transitions, now)
    requires OneOpen(db.visits)
    ensures var (r, answer) := AddTransition(db, lead, to, reason, note, actor, now);
      if answer != Moved then r == db
      else
        && lead < |db.leads| && (to == Lost ==> reason.Some?)
        && var moved := MovedLead(db, lead, to, reason, note, actor, now);
           (!(Ended(to) && HasOpen(db.visits, lead)) ==> r == moved)
           && (Ended(to) ==> forall v :: 0 <= v < |db.visits| && IsOpen(db.visits[v], lead) ==>
                 r == VisitCancelled(moved, v, actor, now))
  {
    if AddTransition(db, lead, to, reason, note, actor, now).1 == Moved {
      DatedIsNewest(db.transitions, lead, now);
      AdvanceWrites(db, lead, to, actor, now);
      var moved := MovedLead(db, lead, to, reason, note, actor, now);
      assert db.interactions + [] == db.interactions;
      assert Transitioned(db, lead, to, reason, note, actor, now) == moved;
      OpenIsFound(db.visits, lead);
      if Ended(to) {
        if !HasOpen(db.visits, lead) {
          CancelsNone(moved, lead, actor, now, 0);
        }
        forall v: VisitId | v < |db.visits| && IsOpen(db.visits[v], lead)
          ensures CancelOpen(moved, lead, actor, now) == VisitCancelled(moved, v, actor, now)
        {
          CancelsTheOpenOne(moved, lead, actor, now, 0, v);
        }
      }
    }
  }

  predicate IsOpen(v: Visit, lead: LeadId) {
    v.lead == lead && OnCalendar(v.status)
  }

  // ------------------------------------------------------------ a reassignment

  lemma ReassignAnswers(db: Db, lead: LeadId, target: AgentId, actor: Actor)
    ensures var answer := Reassign(db, lead, target, actor).1;
      answer ==
        if !Sees(db, actor.agency, lead) then LeadRefused(LeadNotFound)
        else if !(target in db.agents && db.agents[target].agency == actor.agency) then LeadRefused(AgentNotFound)
        else if !db.agents[target].active then LeadRefused(AgentDeactivated)
        else if db.agents[target].role == AiAgent then LeadRefused(AgentIsBot)
        else if db.leads[lead].agent == target then LeadRefused(SameAgent)
        else Moved
  {
  }

  /** The lead changes hands with its audit row and its event, and its visits stay with whom they were. */
  lemma ReassignWrites(db: Db, lead: LeadId, target: AgentId, actor: Actor)
    ensures var (r, answer) := Reassign(db, lead, target, actor);
      if answer != Moved then r == db
      else
        && lead < |db.leads|
        && var from := db.leads[lead].agent;
           r == db.(
             leads := db.leads[lead := db.leads[lead].(agent := target)],
             audits := db.audits + [Audit(lead, from, target, actor.id)],
             events := db.events + [LeadReassigned(lead, from, target, actor.id)])
  {
  }
}

/** The service as it runs: one object holds the tables, and each method changes them in place.
  * Every method is tied to what its request does to the tables as a whole. */
module Service {
  import opened Domain
  import opened Funnel
  import SlotEngine
  import CalendarImport
  import opened Store
  import Sweep
  import Runs

  /** What GET /slots answers: the starts, or why there are none to list. */
  datatype SlotList = Listed(starts: seq<Time>) | Unlisted(why: Refusal)

  class Crm {
    const cfg: Config
    const agents: map<AgentId, AgentRow>
    const listings: map<nat, Listing>
    const clients: set<nat>

    var rules: seq<Rule>
    var leads: seq<Lead>
    var visits: seq<Visit>
    var transitions: seq<Transition>
    var lost: map<LeadId, LostReason>
    var interactions: seq<Interaction>
    var tasks: seq<Task>
    var audits: seq<Audit>
    var events: seq<Event>
    var timeOff: map<OffKey, TimeOff>
    var nextOff: nat
    var calendars: map<AgentId, ExternalCalendar>

    function Tables(): Db
      reads this
    {
      Db(agents, listings, clients, rules, leads, visits, transitions, lost, interactions, tasks, audits,
         events, timeOff, nextOff, calendars)
    }

    constructor (cfg: Config, agents: map<AgentId, AgentRow>, listings: map<nat, Listing>, clients: set<nat>)
      requires forall k :: k in listings ==> listings[k].agent in agents
      ensures this.cfg == cfg && Runs.Opening(Tables())
      ensures this.agents == agents && this.listings == listings && this.clients == clients
    {
      this.cfg, this.agents, this.listings, this.clients := cfg, agents, listings, clients;
      rules, leads, visits, transitions, lost := [], [], [], [], map[];
      interactions, tasks, audits, events := [], [], [], [];
      timeOff, nextOff, calendars := map[], 0, map[];
    }

    // ---------------------------------------------------------- slots

    /** free_slots: only future starts, for an agent of the caller's agency. An agent out of sight is
      * refused before a window that does not run forwards. */
    method FreeSlots(agent: AgentId, agency: nat, window: Interval, minutes: int, now: Time)
      returns (slots: SlotList)
      ensures slots == Unlisted(AgentNotFound) <==> !InAgency(Tables(), agent, agency)
      ensures slots == Unlisted(BackwardsWindow) <==> InAgency(Tables(), agent, agency) && window.start >= window.end
      ensures slots.Unlisted? ==> slots.why == AgentNotFound || slots.why == BackwardsWindow
      ensures slots.Listed? ==>
        SlotEngine.Lists(slots.starts, RulesOf(rules, agent), BusyTime(Tables(), agent, None),
                         window, minutes, Some(now))
    {
      if !InAgency(Tables(), agent, agency) {
        return Unlisted(AgentNotFound);
      }
      var starts := SlotEngine.ComputeSlots(
        RulesOf(rules, agent), BusyOff(timeOff, agent), BusyVisits(visits, agent, None), window, minutes, Some(now));
      slots := if starts.Some? then Listed(starts.value) else Unlisted(BackwardsWindow);
    }

    /** slot_is_available. */
    method SlotIsAvailable(agent: AgentId, start: Time, minutes: Minutes, exclude: Option<VisitId>)
      returns (open: bool)
      ensures open <==> SlotOpen(Tables(), agent, start, minutes, exclude)
    {
      var window := Interval(start, VisitEnd(start, minutes));
      var fits := SlotEngine.ComputeSlots(
        RulesOf(rules, agent), BusyOff(timeOff, agent), BusyVisits(visits, agent, exclude), window, minutes, None);
      open := start in fits.value;
    }

    // ---------------------------------------------------------- logs

    /** The insert of a stage row, with the trigger behind it. */
    method LogStage(row: Transition)
      requires row.lead < |leads|
      modifies this
      ensures Tables() == Store.LogStage(old(Tables()), row)
    {
      var lead := leads[row.lead];
      transitions := transitions + [row];
      if Newest(transitions, row.lead, row.at) {
        leads := leads[row.lead := lead.(stage := row.to)];
      }
      assert leads == old(leads)[row.lead := lead.(stage := Trigger(lead.stage, old(transitions), row.lead, row))];
    }

    method InsertTransition(lead: LeadId, from: Stage, to: Stage, actor: Actor, now: Time)
      requires lead < |leads|
      modifies this
      ensures Tables() == Advance(old(Tables()), lead, from, to, actor, now)
    {
      LogStage(Transition(lead, Some(from), to, Some(actor.id), now));
      events := events + [StageChanged(lead, from, to)];
    }

    /** _sync_funnel. */
    method SyncFunnel(lead: LeadId, status: VisitStatus, actor: Actor, now: Time)
      requires lead < |leads|
      modifies this
      ensures Tables() == Store.SyncFunnel(old(Tables()), lead, status, actor, now)
    {
      var stage := leads[lead].stage;
      if status.Confirmed? && stage.Interested? {
        InsertTransition(lead, stage, VisitScheduled, actor, now);
      } else if status.Completed? && stage.VisitScheduled? {
        InsertTransition(lead, stage, Visited, actor, now);
      }
    }

    method AddNote(lead: LeadId, author: AgentId, now: Time)
      modifies this
      ensures Tables() == Note(old(Tables()), lead, Some(author), now)
    {
      interactions := interactions + [Interaction(lead, Outbound, StatusChange, Some(author), now)];
    }

    /** _record. */
    method Record(visit: VisitId, actor: Actor, kind: EventKind, previous: Option<Previous>, now: Time)
      requires visit < |visits|
      modifies this
      ensures Tables() == Store.Record(old(Tables()), visit, actor, kind, previous, now)
    {
      var v := visits[visit];
      AddNote(v.lead, actor.id, now);
      events := events + [VisitEvent(kind, visit, v.lead, v.start, v.minutes, v.status, actor, previous)];
    }

    // ---------------------------------------------------------- visits

    method RequestVisit(lead: LeadId, start: Time, minutes: Minutes, actor: Actor, now: Time)
      returns (outcome: Outcome)
      modifies this
      ensures (Tables(), outcome) == Store.RequestVisit(old(Tables()), cfg, lead, start, minutes, actor, now)
    {
      var early := EarlyRefusal(Tables(), cfg, lead, start, actor, now);
      if early.Some? {
        return Refused(early.value);
      }
      var owner := leads[lead].agent;
      var existing := FirstOpen(visits, lead);
      if existing.Some? {
        var v := visits[existing.value];
        return if v.start == start && v.minutes == minutes then Existing(existing.value) else Refused(OtherOpenVisit);
      }
      if Clash(visits, owner, Interval(start, VisitEnd(start, minutes)), None) {
        return Refused(Overlap);
      }
      if MustFit(cfg, actor) {
        var open := SlotIsAvailable(owner, start, minutes, None);
        if !open {
          return Refused(OutsideSlots);
        }
      }
      var confirmed := BornConfirmed(actor, owner);
      var visit := |visits|;
      visits := visits + [Visit(
        lead, owner, start, minutes, if confirmed then Confirmed else PendingConfirmation, actor.id)];
      if confirmed {
        SyncFunnel(lead, Confirmed, actor, now);
      }
      Record(visit, actor, BookedEvent, None, now);
      return Created(visit);
    }

    /** The checks of a move. */
    method CheckMove(visit: VisitId, p: Patch, actor: Actor, now: Time) returns (refusal: Option<Refusal>)
      requires visit < |visits|
      ensures refusal == MoveRefusal(Tables(), cfg, visit, p, actor, now)
    {
      var v := visits[visit];
      var start := if p.start.Some? then p.start.value else v.start;
      var minutes := if p.minutes.Some? then p.minutes.value else v.minutes;
      if start <= now {
        return Some(InThePast);
      }
      if TooSoon(cfg, actor, start, now) {
        return Some(ShortNotice);
      }
      if Clash(visits, v.agent, Interval(start, VisitEnd(start, minutes)), Some(visit)) {
        return Some(Overlap);
      }
      if MustFit(cfg, actor) {
        if !InAgency(Tables(), v.agent, actor.agency) {
          return Some(AgentNotFound);
        }
        var open := SlotIsAvailable(v.agent, start, minutes, Some(visit));
        if !open {
          return Some(OutsideSlots);
        }
      }
      return None;
    }

    /** The row as a patch leaves it. */
    method Edit(before: Visit, p: Patch) returns (after: Visit)
      ensures after == Patched(before, p)
    {
      after := before;
      if Moving(p) {
        if p.start.Some? {
          after := after.(start := p.start.value);
        }
        if p.minutes.Some? {
          after := after.(minutes := p.minutes.value);
        }
        if p.status.None? && before.status.Confirmed?
           && (after.start != before.start || after.minutes != before.minutes) {
          after := after.(status := Rescheduled);
        }
      }
      if p.status.Some? {
        after := after.(status := p.status.value);
      }
    }

    method WriteChange(visit: VisitId, after: Visit, actor: Actor, now: Time)
      requires visit < |visits| && visits[visit].lead < |leads| && after.lead == visits[visit].lead
      modifies this
      ensures var before := old(visits[visit]);
        Tables() == ChangeVisit(old(Tables()), visit, after, ChangeKind(before, after), actor, now)
    {
      var before := visits[visit];
      visits := visits[visit := after];
      if after.status != before.status {
        SyncFunnel(after.lead, after.status, actor, now);
      }
      Record(visit, actor, ChangeKind(before, after), Some(Previous(before.status, Some(before.start))), now);
    }

    method PatchAppointment(visit: VisitId, p: Patch, actor: Actor, now: Time) returns (outcome: PatchOutcome)
      modifies this
      ensures (Tables(), outcome) == PatchVisit(old(Tables()), cfg, visit, p, actor, now)
    {
      var refusal := StatusRefusal(Tables(), visit, p, actor);
      if refusal.None? && Moving(p) {
        refusal := CheckMove(visit, p, actor, now);
      }
      if refusal.Some? {
        return PatchRefused(refusal.value);
      }
      var before := visits[visit];
      var after := Edit(before, p);
      if after != before {
        WriteChange(visit, after, actor, now);
      }
      return Done;
    }

    method CancelOpenVisits(lead: LeadId, actor: Actor, now: Time)
      requires lead < |leads|
      modifies this
      ensures Tables() == CancelOpen(old(Tables()), lead, actor, now)
    {
      var i := 0;
      while i < |visits|
        invariant i <= |visits| && lead < |leads|
        invariant CancelOpen(Tables(), lead, actor, now, i) == CancelOpen(old(Tables()), lead, actor, now)
        decreases |visits| - i
      {
        var before := visits[i];
        if OpenFor(before, lead) {
          ghost var rest := Tables();
          visits := visits[i := before.(status := Cancelled)];
          Record(i, actor, CancelledEvent, Some(Previous(before.status, None)), now);
          assert Tables() == CancelVisit(rest, i, actor, now);
        }
        i := i + 1;
      }
    }

    // ---------------------------------------------------------- leads

    method CreateOrGetLead(
        client: nat, listing: nat, message: bool, actor: Option<Actor>, agency: nat, now: Time)
      returns (outcome: LeadOutcome)
      modifies this
      ensures (Tables(), outcome) == CreateLead(old(Tables()), client, listing, message, actor, agency, now)
    {
      if listing !in listings || !InAgency(Tables(), listings[listing].agent, agency) {
        return LeadRefused(ListingNotFound);
      }
      if client !in clients {
        return LeadRefused(ClientNotFound);
      }
      var known := FirstPair(leads, client, listing);
      if known.Some? {
        return KnownLead(known.value);
      }
      var lead, owner := |leads|, listings[listing].agent;
      leads := leads + [Lead(client, listing, owner, Interested, now)];
      LogStage(Transition(lead, None, Interested, if actor.Some? then Some(actor.value.id) else None, now));
      if message {
        var author := if actor.Some? && actor.value.isBot then Some(actor.value.id) else None;
        interactions := interactions + [Interaction(lead, Inbound, Message, author, now)];
      }
      events := events + [LeadCreated(lead, owner)];
      return NewLead(lead);
    }

    method AddTransition(lead: LeadId, to: Stage, reason: Option<LostReason>, note: bool, actor: Actor, now: Time)
      returns (outcome: LeadOutcome)
      modifies this
      ensures (Tables(), outcome) == Store.AddTransition(old(Tables()), lead, to, reason, note, actor, now)
    {
      var refusal := TransitionRefusal(Tables(), lead, to, reason, actor);
      if refusal.Some? {
        return LeadRefused(refusal.value);
      }
      InsertTransition(lead, leads[lead].stage, to, actor, now);
      if to.Lost? {
        lost := lost[lead := reason.value];
      }
      if to.Lost? || note {
        AddNote(lead, actor.id, now);
      }
      if Terminal(to) {
        CancelOpenVisits(lead, actor, now);
      }
      return Moved;
    }

    method Reassign(lead: LeadId, target: AgentId, actor: Actor) returns (outcome: LeadOutcome)
      modifies this
      ensures (Tables(), outcome) == Store.Reassign(old(Tables()), lead, target, actor)
    {
      var refusal := ReassignRefusal(Tables(), lead, target, actor);
      if refusal.Some? {
        return LeadRefused(refusal.value);
      }
      var previous := leads[lead].agent;
      leads := leads[lead := leads[lead].(agent := target)];
      audits := audits + [Audit(lead, previous, target, actor.id)];
      events := events + [LeadReassigned(lead, previous, target, actor.id)];
      return Moved;
    }

    // ---------------------------------------------------------- time off and imports

    method AddTimeOff(agent: AgentId, agency: nat, span: Interval) returns (outcome: OffOutcome)
      modifies this
      ensures (Tables(), outcome) == Store.AddTimeOff(old(Tables()), agent, agency, span)
    {
      if !InAgency(Tables(), agent, agency) {
        return OffRefused(AgentNotFound);
      }
      if span.start >= span.end {
        return OffRefused(BackwardsSpan);
      }
      if Clash(visits, agent, span, None) {
        return OffRefused(OverlapsVisits);
      }
      timeOff := timeOff[Manual(nextOff) := TimeOff(agent, span)];
      outcome := Stored(nextOff);
      nextOff := nextOff + 1;
    }

    method DeleteTimeOff(agent: AgentId, agency: nat, key: OffKey) returns (outcome: OffOutcome)
      modifies this
      ensures (Tables(), outcome) == Store.DeleteTimeOff(old(Tables()), agent, agency, key)
    {
      if !InAgency(Tables(), agent, agency) {
        return OffRefused(AgentNotFound);
      }
      if key !in timeOff || timeOff[key].agent != agent {
        return OffRefused(TimeOffNotFound);
      }
      if key.Imported? {
        return OffRefused(ImportedBlock);
      }
      timeOff := timeOff - {key};
      return Deleted;
    }

    method SyncExternalCalendar(agent: AgentId, fetch: Fetch, lockFree: bool, now: Time)
      returns (outcome: SyncOutcome)
      modifies this
      ensures (Tables(), outcome) == SyncCalendar(old(Tables()), cfg, agent, fetch, lockFree, now)
    {
      if agent !in calendars {
        return SyncRefused(NoCalendar);
      }
      if fetch.FetchFailed? {
        calendars := calendars[agent := ExternalCalendar(Some(now), true)];
        return SyncError;
      }
      outcome := ReadAndSync(agent, fetch.events, lockFree, now);
    }

    method ReadAndSync(agent: AgentId, events: seq<CalendarImport.FeedEvent>, lockFree: bool, now: Time)
      returns (outcome: SyncOutcome)
      modifies this
      ensures (Tables(), outcome) == SyncFeed(old(Tables()), cfg, agent, events, lockFree, now)
    {
      var blocks, skipped := CalendarImport.ParseBusy(events);
      if lockFree {
        outcome := WriteSync(agent, now, WindowEnd(cfg, now), blocks, skipped);
      } else {
        outcome := Synced(0, 0, skipped);
      }
    }

    /** The upsert, the delete of what vanished, and the stamp on the calendar. */
    method WriteSync(agent: AgentId, now: Time, windowEnd: Time, blocks: CalendarImport.Blocks, skipped: nat)
      returns (outcome: SyncOutcome)
      modifies this
      ensures (Tables(), outcome) == Reconciled(old(Tables()), agent, now, windowEnd, blocks, skipped)
    {
      var known := CalendarImport.Known(timeOff, agent, now, windowEnd);
      var rows := CalendarImport.RowsFor(agent, blocks);
      var vanished := known - rows.Keys;
      timeOff := timeOff + rows;
      timeOff := timeOff - vanished;
      calendars := calendars[agent := ExternalCalendar(Some(now), false)];
      return Synced(|rows.Keys - known|, |vanished|, skipped);
    }

    method RemoveExternalCalendar(agent: AgentId)
      modifies this
      ensures Tables() == RemoveCalendar(old(Tables()), agent)
    {
      if agent in calendars {
        timeOff := timeOff - ImportedKeys(timeOff, agent);
        calendars := calendars - {agent};
      }
    }

    // ---------------------------------------------------------- the hourly sweep

    method SweepInactiveLeads(hours: int, now: Time) returns (batch: seq<LeadId>)
      modifies this
      ensures Sweep.IsBatch(old(Tables()), hours, now, batch)
      ensures Tables() == Sweep.SweepOver(old(Tables()), batch, now)
    {
      batch := Sweep.SelectStale(Tables(), hours, now);
      for i := 0 to |batch|
        invariant Tables() == Sweep.SweepOver(old(Tables()), batch[..i], now)
      {
        assert batch[..i + 1][..i] == batch[..i];
        var lead := batch[i];
        var owner := leads[lead].agent;
        tasks := tasks + [Task(lead, owner, now + 24 * HOUR, TaskPending)];
        interactions := interactions + [Interaction(lead, Outbound, NoteLine, Some(owner), now)];
        events := events + [LeadWentCold(lead)];
      }
      assert batch[..|batch|] == batch;
    }
  }
}

/** What each request keeps, one at a time, and how listing slots and booking them agree. */
module Requests {
  import opened Domain
  import opened Funnel
  import opened SlotEngine
  import opened Store
  import opened Invariants

  // ------------------------------------------------------------ slots against the calendar

  lemma VisitsAreBusy(db: Db, agent: AgentId, exclude: Option<VisitId>, i: int)
    requires 0 <= i < |db.visits| && Occupies(db.visits[i], agent) && exclude != Some(i)
    ensures Span(db.visits[i]) in BusyTime(db, agent, exclude)
  {
  }

  /** Passing the slot check implies the overlap check cannot fail: the two never disagree about
    * what occupies a calendar. */
  lemma OpenSlotsDoNotClash(db: Db, agent: AgentId, start: Time, minutes: Minutes, exclude: Option<VisitId>)
    requires SlotOpen(db, agent, start, minutes, exclude)
    ensures !Clash(db.visits, agent, Interval(start, VisitEnd(start, minutes)), exclude)
  {
    var span := Interval(start, VisitEnd(start, minutes));
    forall i | 0 <= i < |db.visits| && Occupies(db.visits[i], agent) && exclude != Some(i)
      ensures !Overlaps(Span(db.visits[i]), span)
    {
      VisitsAreBusy(db, agent, exclude, i);
      OfferedIsFree(RulesOf(db.rules, agent), BusyTime(db, agent, exclude), span, minutes, start, Span(db.visits[i]));
    }
  }

  /** Every time-off row, typed in or imported, runs forwards. */
  ghost predicate ForwardOff(timeOff: map<OffKey, TimeOff>) {
    forall k :: k in timeOff ==> timeOff[k].span.start < timeOff[k].span.end
  }

  lemma OpenSlotsAvoidTimeOff(
      db: Db, agent: AgentId, start: Time, minutes: Minutes, exclude: Option<VisitId>, k: OffKey)
    requires SlotOpen(db, agent, start, minutes, exclude)
    requires k in db.timeOff && db.timeOff[k].agent == agent && db.timeOff[k].span.start < db.timeOff[k].span.end
    ensures !Overlaps(Interval(start, VisitEnd(start, minutes)), db.timeOff[k].span)
  {
    assert db.timeOff[k].span in BusyTime(db, agent, exclude);
    OfferedIsFree(RulesOf(db.rules, agent), BusyTime(db, agent, exclude),
                  Interval(start, VisitEnd(start, minutes)), minutes, start, db.timeOff[k].span);
  }

  /** What a bot may ask for beyond the slot itself: an open lead of its agency with no open visit,
    * enough notice, and a duration of whole cells. */
  predicate Askable(db: Db, cfg: Config, lead: LeadId, minutes: Minutes, s: Time, actor: Actor, now: Time) {
    && EarlyRefusal(db, cfg, lead, s, actor, now).None? && FirstOpen(db.visits, lead).None?
    && minutes % 30 == 0
  }

  /** The slots listed for the lead's owner. */
  ghost predicate ListedFor(db: Db, lead: LeadId, slots: seq<Time>, window: Interval, minutes: Minutes, listedAt: Time)
    requires lead < |db.leads|
  {
    var owner := db.leads[lead].agent;
    Lists(slots, RulesOf(db.rules, owner), BusyTime(db, owner, None), window, minutes, Some(listedAt))
  }

  ghost predicate Books(db: Db, cfg: Config, lead: LeadId, minutes: Minutes, s: Time, actor: Actor, now: Time) {
    RequestVisit(db, cfg, lead, s, minutes, actor, now).1.Created?
  }

  /** An offered start is open to the booking check exactly when the duration is whole cells. */
  lemma ListedIsOpenIff(
      db: Db, lead: LeadId, slots: seq<Time>, window: Interval, minutes: Minutes, listedAt: Time, s: Time)
    requires lead < |db.leads| && ListedFor(db, lead, slots, window, minutes, listedAt) && s in slots
    ensures SlotOpen(db, db.leads[lead].agent, s, minutes, None) <==> minutes % 30 == 0
  {
    var owner := db.leads[lead].agent;
    var rules, busy := RulesOf(db.rules, owner), BusyTime(db, owner, None);
    var run := Run(s, minutes);
    var wide := Interval(if s < window.start then s else window.start,
                         if run.end > window.end then run.end else window.end);
    WindowIndependence(rules, busy, window, wide, minutes, Some(listedAt), s);
    assert Offered(rules, busy, wide, minutes, None, s);
    AvailableIffListed(rules, busy, wide, minutes, s);
  }

  /** GET /slots, then POST, in an unchanged calendar: a listed start is booked for a bot exactly when
    * the lead may be booked, the notice is kept and the duration is whole cells. Inside the notice it
    * is refused for the notice, and a broken cell is refused as busy or outside the slots. */
  lemma ListingThenBooking(
      db: Db, cfg: Config, lead: LeadId, window: Interval, minutes: Minutes, listedAt: Time,
      slots: seq<Time>, s: Time, actor: Actor, now: Time)
    requires lead < |db.leads| && actor.isBot
    requires ListedFor(db, lead, slots, window, minutes, listedAt) && s in slots
    ensures Books(db, cfg, lead, minutes, s, actor, now) <==> Askable(db, cfg, lead, minutes, s, actor, now)
    ensures LeadVisible(db, lead, actor.agency) && !Terminal(db.leads[lead].stage) && now < s < now + cfg.notice ==>
      RequestVisit(db, cfg, lead, s, minutes, actor, now).1 == Refused(ShortNotice)
    ensures (EarlyRefusal(db, cfg, lead, s, actor, now).None? && FirstOpen(db.visits, lead).None?
             && minutes % 30 != 0) ==>
      RequestVisit(db, cfg, lead, s, minutes, actor, now).1 in {Refused(Overlap), Refused(OutsideSlots)}
  {
    ListedIsOpenIff(db, lead, slots, window, minutes, listedAt, s);
    if minutes % 30 == 0 {
      OpenSlotsDoNotClash(db, db.leads[lead].agent, s, minutes, None);
    }
  }

  /** The other way round: whatever a bot does book is on the list of every window that contains the
    * visit and was asked for no later than its start. */
  lemma BookingThenListing(
      db: Db, cfg: Config, lead: LeadId, window: Interval, minutes: Minutes, listedAt: Time,
      slots: seq<Time>, s: Time, actor: Actor, now: Time)
    requires lead < |db.leads| && actor.isBot && ListedFor(db, lead, slots, window, minutes, listedAt)
    requires Within(Interval(s, VisitEnd(s, minutes)), window) && listedAt <= s
    requires Books(db, cfg, lead, minutes, s, actor, now)
    ensures s in slots && minutes % 30 == 0
  {
    var owner := db.leads[lead].agent;
    AvailableIffListed(RulesOf(db.rules, owner), BusyTime(db, owner, None), window, minutes, s);
  }

  /** The list is what a bot may book, no more and no less. */
  ghost predicate IsExactlyBookable(
    db: Db, cfg: Config, lead: LeadId, slots: seq<Time>, window: Interval, minutes: Minutes, actor: Actor, now: Time)
  {
    forall s :: Within(Interval(s, VisitEnd(s, minutes)), window) ==>
      (s in slots <==> Books(db, cfg, lead, minutes, s, actor, now))
  }

  /** "This is exactly what an AI agent may book", for an open lead with no open visit: true exactly
    * when the list is empty, or the duration is whole cells and the first start listed keeps the
    * notice. */
  lemma ListIsExactlyBookableIff(
      db: Db, cfg: Config, lead: LeadId, window: Interval, minutes: Minutes, listedAt: Time,
      slots: seq<Time>, actor: Actor, now: Time)
    requires LeadVisible(db, lead, actor.agency) && !Terminal(db.leads[lead].stage) && actor.isBot
    requires FirstOpen(db.visits, lead).None? && listedAt <= now
    requires ListedFor(db, lead, slots, window, minutes, listedAt)
    ensures IsExactlyBookable(db, cfg, lead, slots, window, minutes, actor, now)
      <==> slots == [] || (minutes % 30 == 0 && now < slots[0] && now + cfg.notice <= slots[0])
  {
    forall s | s in slots
      ensures Within(Interval(s, VisitEnd(s, minutes)), window)
      ensures Books(db, cfg, lead, minutes, s, actor, now) <==> Askable(db, cfg, lead, minutes, s, actor, now)
    {
      ListingThenBooking(db, cfg, lead, window, minutes, listedAt, slots, s, actor, now);
      ListedFits(db, lead, slots, window, minutes, listedAt, s);
    }
    forall s | Within(Interval(s, VisitEnd(s, minutes)), window) && Books(db, cfg, lead, minutes, s, actor, now)
      ensures s in slots
    {
      BookingThenListing(db, cfg, lead, window, minutes, listedAt, slots, s, actor, now);
    }
    if slots != [] {
      assert slots[0] in slots;
    }
  }

  lemma ListedFits(
      db: Db, lead: LeadId, slots: seq<Time>, window: Interval, minutes: Minutes, listedAt: Time, s: Time)
    requires lead < |db.leads| && ListedFor(db, lead, slots, window, minutes, listedAt) && s in slots
    ensures Within(Interval(s, VisitEnd(s, minutes)), window)
  {
    var owner := db.leads[lead].agent;
    var rules, busy := RulesOf(db.rules, owner), BusyTime(db, owner, None);
    OfferedIsCovered(rules, busy, window, minutes, s, s);
    OfferedIsCovered(rules, busy, window, minutes, s, VisitEnd(s, minutes) - 1);
  }

  /** The second input that breaks it: half past eight, a 30-minute visit, a calendar open from nine,
    * two hours' notice. Nine is listed, and refused for the notice. */
  lemma ListedInsideTheNotice()
    ensures exists db: Db, cfg: Config, actor: Actor, now: Time, window: Interval, s: Time ::
      && LeadVisible(db, 0, actor.agency) && db.leads[0].stage.Interested? && db.visits == [] && actor.isBot
      && Offered(RulesOf(db.rules, db.leads[0].agent), BusyTime(db, db.leads[0].agent, None), window, 30, Some(now), s)
      && RequestVisit(db, cfg, 0, s, 30, actor, now).1 == Refused(ShortNotice)
  {
    var rule := Rule(1, 0, 9 * HOUR, 12 * HOUR, None, None);
    var db := Db(map[1 := AgentRow(0, MemberRole, true)], map[0 := Listing(1, 0, Sale)], {0}, [rule],
                 [Lead(0, 0, 1, Interested, 0)], [], [], map[], [], [], [], [], map[], 0, map[]);
    var s := LocalMidnight(0) + 9 * HOUR;
    var now, window := s - 30 * MINUTE, Interval(s, s + 3 * HOUR);
    assert LocalDay(s) == 0 && CellOf(Block(rule, 0), s);
    assert rule in RulesOf(db.rules, 1);
    assert Published(RulesOf(db.rules, 1), s) && BusyTime(db, 1, None) == {};
    assert Offered(RulesOf(db.rules, 1), {}, window, 30, Some(now), s);
    assert RequestVisit(db, Config(false, 120 * MINUTE, 60 * DAY), 0, s, 30, Actor(2, 0, true, false), now).1
      == Refused(ShortNotice);
  }

  // ------------------------------------------------------------ booking

  lemma DatedIsNewest(transitions: seq<Transition>, lead: LeadId, now: Time)
    requires Dated(transitions, now)
    ensures Newest(transitions, lead, now)
  {
  }

  lemma RequestVisitKeeps(
      db: Db, cfg: Config, lead: LeadId, start: Time, minutes: Minutes, actor: Actor, now: Time)
    requires Inv(db, now)
    ensures Inv(RequestVisit(db, cfg, lead, start, minutes, actor, now).0, now)
  {
    if RequestVisit(db, cfg, lead, start, minutes, actor, now).1.Created? {
      BookedIsSafe(db, lead, start, minutes, actor, now);
      assert RequestVisit(db, cfg, lead, start, minutes, actor, now).0
        == Book(db, lead, db.leads[lead].agent, start, minutes, actor, now);
    }
  }

  /** What the checks leave true is enough for the insert. */
  lemma BookedIsSafe(db: Db, lead: LeadId, start: Time, minutes: Minutes, actor: Actor, now: Time)
    requires Inv(db, now) && lead < |db.leads| && !Terminal(db.leads[lead].stage) && FirstOpen(db.visits, lead).None?
    requires !Clash(db.visits, db.leads[lead].agent, Interval(start, VisitEnd(start, minutes)), None)
    ensures Inv(Book(db, lead, db.leads[lead].agent, start, minutes, actor, now), now)
  {
    DatedIsNewest(db.transitions, lead, now);
    BookKeeps(db, lead, db.leads[lead].agent, start, minutes, actor, now, now);
  }

  // ------------------------------------------------------------ changing a visit

  lemma PatchedIsLegal(db: Db, visit: VisitId, p: Patch, actor: Actor)
    requires StatusRefusal(db, visit, p, actor).None?
    ensures var v, after := db.visits[visit], Patched(db.visits[visit], p);
      && after.lead == v.lead && after.agent == v.agent
      && (Blocking(after.status) ==> Blocking(v.status))
      && (Final(v.status) ==> after.status == v.status)
      && (after != v && after.status.Confirmed? ==> MayConsent(actor))
      && (ChangeKind(v, after).RescheduledEvent?
          || (after.start == v.start && after.minutes == v.minutes
              && after.status == StatusAfter(ChangeKind(v, after), after.status)))
  {
  }

  lemma MovedStaysClear(visits: seq<Visit>, visit: VisitId, after: Visit)
    requires NoOverlap(visits) && visit < |visits| && after.agent == visits[visit].agent
    requires Blocking(after.status) ==> Blocking(visits[visit].status)
    requires Span(after) == Span(visits[visit]) || !Clash(visits, after.agent, Span(after), Some(visit))
    ensures NoOverlap(visits[visit := after])
  {
    forall i | 0 <= i < |visits| && i != visit && Blocking(after.status) && Occupies(visits[i], after.agent)
      ensures !Overlaps(Span(visits[i]), Span(after)) && !Overlaps(Span(after), Span(visits[i]))
    {
      assert Some(visit) != Some(i);
    }
  }

  /** A patch keeps everything, and asks of the stage log only what its own lead needs. */
  lemma PatchVisitKeeps(db: Db, cfg: Config, visit: VisitId, p: Patch, actor: Actor, now: Time)
    requires Core(db, now)
    ensures var r := PatchVisit(db, cfg, visit, p, actor, now).0;
      Core(r, now) && (ClosedFree(db.visits, db.leads) ==> ClosedFree(r.visits, r.leads))
  {
    if PatchRefusal(db, cfg, visit, p, actor, now).None? {
      var v := db.visits[visit];
      var after := Patched(v, p);
      if after != v {
        PatchedIsLegal(db, visit, p, actor);
        MovedStaysClear(db.visits, visit, after);
        DatedIsNewest(db.transitions, v.lead, now);
        ChangeVisitKeeps(db, visit, after, ChangeKind(v, after), actor, now, now);
      }
    }
  }

  // ------------------------------------------------------------ closing a lead

  lemma CancelOneKeeps(db: Db, visit: VisitId, actor: Actor, now: Time)
    requires Core(db, now) && visit < |db.visits|
    ensures Core(CancelVisit(db, visit, actor, now), now)
  {
    var after := Cancel(db.visits[visit]);
    MovedStaysClear(db.visits, visit, after);
    RecordedChangeKeeps(db, visit, after, CancelledEvent, Previous(db.visits[visit].status, None), actor, now, now);
  }

  /** The calendar after a close: every open visit of the lead, from row `i` on, is cancelled. */
  function Cancelled(visits: seq<Visit>, lead: LeadId, i: nat): (r: seq<Visit>)
    ensures |r| == |visits|
    ensures forall v :: 0 <= v < |visits| ==>
      r[v] == if i <= v && OpenFor(visits[v], lead) then Cancel(visits[v]) else visits[v]
  {
    seq(|visits|, v requires 0 <= v < |visits| =>
      if i <= v && OpenFor(visits[v], lead) then Cancel(visits[v]) else visits[v])
  }

  lemma CancelOneShape(db: Db, visit: VisitId, actor: Actor, now: Time)
    requires visit < |db.visits| && db.visits[visit].lead < |db.leads|
    ensures var r := CancelVisit(db, visit, actor, now);
      r.leads == db.leads && r.visits == db.visits[visit := Cancel(db.visits[visit])] && r.agents == db.agents
  {
  }

  /** Cancelling takes every open visit of the lead off the calendar and moves no lead. */
  lemma {:induction false} CancelOpenShape(db: Db, lead: LeadId, actor: Actor, now: Time, i: nat)
    requires lead < |db.leads| && i <= |db.visits|
    ensures var r := CancelOpen(db, lead, actor, now, i);
      r.leads == db.leads && r.visits == Cancelled(db.visits, lead, i) && r.agents == db.agents
    decreases |db.visits| - i
  {
    if i == |db.visits| {
      assert Cancelled(db.visits, lead, i) == db.visits;
    } else if OpenFor(db.visits[i], lead) {
      CancelOneShape(db, i, actor, now);
      var next := CancelVisit(db, i, actor, now);
      CancelOpenShape(next, lead, actor, now, i + 1);
      assert Cancelled(next.visits, lead, i + 1) == Cancelled(db.visits, lead, i);
    } else {
      CancelOpenShape(db, lead, actor, now, i + 1);
      assert Cancelled(db.visits, lead, i + 1) == Cancelled(db.visits, lead, i);
    }
  }

  lemma {:induction false} CancelOpenKeeps(db: Db, lead: LeadId, actor: Actor, now: Time, i: nat)
    requires Core(db, now) && lead < |db.leads| && i <= |db.visits|
    ensures Core(CancelOpen(db, lead, actor, now, i), now)
    decreases |db.visits| - i
  {
    if i == |db.visits| {
    } else if OpenFor(db.visits[i], lead) {
      CancelOneKeeps(db, i, actor, now);
      CancelOneShape(db, i, actor, now);
      CancelOpenKeeps(CancelVisit(db, i, actor, now), lead, actor, now, i + 1);
    } else {
      CancelOpenKeeps(db, lead, actor, now, i + 1);
    }
  }

  lemma ClosingKeeps(db: Db, to: Stage, lead: LeadId, reason: Option<LostReason>, actor: Actor, now: Time)
    requires Core(db, now) && lead < |db.leads| && Allowed(db.leads[lead].stage, to)
    requires to.Lost? ==> reason.Some?
    ensures var detailed := Detailed(db, lead, to, reason, actor, now);
      && Core(detailed, now) && detailed.visits == db.visits
      && detailed.leads == db.leads[lead := db.leads[lead].(stage := to)]
  {
    DatedIsNewest(db.transitions, lead, now);
    AdvanceKeeps(db, lead, to, actor, now, now);
  }

  lemma NoteKeeps(db: Db, lead: LeadId, author: Option<AgentId>, now: Time)
    requires Core(db, now)
    ensures Core(Note(db, lead, author, now), now)
  {
  }

  /** The stage row, the lost detail and the timeline line, before any visit is cancelled. */
  lemma TransitionedKeeps(
      db: Db, lead: LeadId, to: Stage, reason: Option<LostReason>, note: bool, actor: Actor, now: Time)
    requires Core(db, now) && lead < |db.leads| && Allowed(db.leads[lead].stage, to)
    requires to.Lost? ==> reason.Some?
    ensures var r := Transitioned(db, lead, to, reason, note, actor, now);
      Core(r, now) && r.visits == db.visits && r.leads == db.leads[lead := db.leads[lead].(stage := to)]
  {
    ClosingKeeps(db, to, lead, reason, actor, now);
    NoteKeeps(Detailed(db, lead, to, reason, actor, now), lead, Some(actor.id), now);
  }

  lemma AddTransitionKeeps(
      db: Db, lead: LeadId, to: Stage, reason: Option<LostReason>, note: bool, actor: Actor, now: Time)
    requires Core(db, now)
    ensures var r := AddTransition(db, lead, to, reason, note, actor, now).0;
      Core(r, now) && (ClosedFree(db.visits, db.leads) ==> ClosedFree(r.visits, r.leads))
  {
    if TransitionRefusal(db, lead, to, reason, actor).None? {
      TransitionedKeeps(db, lead, to, reason, note, actor, now);
      if Terminal(to) {
        CancellingKeeps(Transitioned(db, lead, to, reason, note, actor, now), db.leads, lead, to, actor, now);
      }
    }
  }

  /** The other half of closing a lead: the visits go, and the lead's slot is free. */
  lemma CancellingKeeps(noted: Db, leads: seq<Lead>, lead: LeadId, to: Stage, actor: Actor, now: Time)
    requires Core(noted, now) && lead < |leads| && noted.leads == leads[lead := leads[lead].(stage := to)]
    ensures var r := CancelOpen(noted, lead, actor, now);
      Core(r, now) && (ClosedFree(noted.visits, leads) ==> ClosedFree(r.visits, r.leads))
  {
    CancelOpenKeeps(noted, lead, actor, now, 0);
    CancelOpenShape(noted, lead, actor, now, 0);
    ClosedLeadIsFree(noted.visits, leads, lead, to);
  }

  lemma ClosedLeadIsFree(visits: seq<Visit>, leads: seq<Lead>, lead: LeadId, to: Stage)
    requires lead < |leads|
    ensures ClosedFree(visits, leads) ==>
      ClosedFree(Cancelled(visits, lead, 0), leads[lead := leads[lead].(stage := to)])
  {
  }

  // ------------------------------------------------------------ the lead itself

  lemma CreateLeadKeeps(
      db: Db, client: nat, listing: nat, message: bool, actor: Option<Actor>, agency: nat, now: Time)
    requires Core(db, now)
    ensures var r := CreateLead(db, client, listing, message, actor, agency, now).0;
      Core(r, now) && (ClosedFree(db.visits, db.leads) ==> ClosedFree(r.visits, r.leads))
  {
    if CreateLead(db, client, listing, message, actor, agency, now).1.NewLead? {
      NewLeadKeeps(db, client, listing, message, actor, now);
    }
  }

  lemma NewLeadKeeps(db: Db, client: nat, listing: nat, message: bool, actor: Option<Actor>, now: Time)
    requires Core(db, now)
    requires listing in db.listings && FirstPair(db.leads, client, listing).None?
    ensures var agency := db.agents[db.listings[listing].agent].agency;
      var r := CreateLead(db, client, listing, message, actor, agency, now).0;
      Core(r, now) && (ClosedFree(db.visits, db.leads) ==> ClosedFree(r.visits, r.leads))
  {
    if client in db.clients {
      NewLeadTables(db, client, listing, message, actor, now);
      NewLeadLogs(db, client, listing, message, actor, now);
      NewLeadRows(db, client, listing, message, actor, now);
    }
  }

  lemma NewLeadLogs(db: Db, client: nat, listing: nat, message: bool, actor: Option<Actor>, now: Time)
    requires Core(db, now) && client in db.clients
    requires listing in db.listings && FirstPair(db.leads, client, listing).None?
    ensures Logs(CreateLead(db, client, listing, message, actor, db.agents[db.listings[listing].agent].agency, now).0)
  {
    var e := LeadCreated(|db.leads|, db.listings[listing].agent);
    NewLeadTables(db, client, listing, message, actor, now);
    AppendEvent(db.events, e);
    LeadEventsLeaveVisits(db.events, e, db.visits);
  }

  lemma NewLeadRows(db: Db, client: nat, listing: nat, message: bool, actor: Option<Actor>, now: Time)
    requires Core(db, now) && client in db.clients
    requires listing in db.listings && FirstPair(db.leads, client, listing).None?
    ensures var agency := db.agents[db.listings[listing].agent].agency;
      var r := CreateLead(db, client, listing, message, actor, agency, now).0;
      Rows(r, now) && LostDetails(r.lost, r.leads)
  {
    NewLeadTables(db, client, listing, message, actor, now);
  }

  lemma NewLeadTables(db: Db, client: nat, listing: nat, message: bool, actor: Option<Actor>, now: Time)
    requires Core(db, now) && client in db.clients
    requires listing in db.listings && FirstPair(db.leads, client, listing).None?
    ensures var owner := db.listings[listing].agent;
      var r := CreateLead(db, client, listing, message, actor, db.agents[owner].agency, now).0;
      && r.leads == db.leads + [Lead(client, listing, owner, Interested, now)]
      && r.events == db.events + [LeadCreated(|db.leads|, owner)]
      && r.transitions == db.transitions + [Transition(
           |db.leads|, None, Interested, if actor.Some? then Some(actor.value.id) else None, now)]
      && r.visits == db.visits && r.lost == db.lost && r.audits == db.audits
      && r.agents == db.agents && r.listings == db.listings
  {
  }

  lemma ReassignKeeps(db: Db, lead: LeadId, target: AgentId, actor: Actor, now: Time)
    requires Core(db, now)
    ensures var r := Reassign(db, lead, target, actor).0;
      Core(r, now) && (ClosedFree(db.visits, db.leads) ==> ClosedFree(r.visits, r.leads))
  {
    if Reassign(db, lead, target, actor).1.Moved? {
      ReassignLogs(db, lead, target, actor, now);
      ReassignRows(db, lead, target, actor, now);
    }
  }

  lemma ReassignLogs(db: Db, lead: LeadId, target: AgentId, actor: Actor, now: Time)
    requires Core(db, now) && Reassign(db, lead, target, actor).1.Moved?
    ensures Logs(Reassign(db, lead, target, actor).0)
  {
    var owner := db.leads[lead].agent;
    var e := LeadReassigned(lead, owner, target, actor.id);
    AppendEvent(db.events, e);
    LeadEventsLeaveVisits(db.events, e, db.visits);
    assert TrackLead(db.events, lead) == Open(owner, db.leads[lead].stage);
  }

  lemma ReassignRows(db: Db, lead: LeadId, target: AgentId, actor: Actor, now: Time)
    requires Core(db, now) && Reassign(db, lead, target, actor).1.Moved?
    ensures var r := Reassign(db, lead, target, actor).0;
      && Rows(r, now) && Calendar(r) && LostDetails(r.lost, r.leads)
      && (ClosedFree(db.visits, db.leads) ==> ClosedFree(r.visits, r.leads))
  {
  }
}

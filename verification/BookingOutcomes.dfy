/** What booking and patching a visit answer and write, in full. */
module BookingOutcomes {
  import opened Domain
  import opened Funnel
  import opened SlotEngine
  import opened Store
  import opened Invariants
  import opened Requests
  import opened PlainTerms
  import Booking

  // ------------------------------------------------------------ the checks

  lemma ClashIsTaken(visits: seq<Visit>, agent: AgentId, start: Time, minutes: Minutes, except: Option<VisitId>)
    ensures Clash(visits, agent, Interval(start, VisitEnd(start, minutes)), except)
      <==> Taken(visits, agent, start, minutes, except)
  {
    forall i | 0 <= i < |visits|
      ensures Takes(visits[i], agent, start, minutes)
        <==> Occupies(visits[i], agent) && Overlaps(Span(visits[i]), Interval(start, VisitEnd(start, minutes)))
    {
    }
  }

  lemma PublishedIsOpen(rules: seq<Rule>, agent: AgentId, c: Time)
    ensures Published(RulesOf(rules, agent), c) <==> OpenHalfHour(rules, agent, c)
  {
    forall r ensures r in RulesOf(rules, agent) <==> r in rules && r.agent == agent {
      RulesOfMembers(rules, agent, r);
    }
    forall r: Rule ensures ValidOn(r, LocalDay(c)) && CellOf(Block(r, LocalDay(c)), c) <==> Publishes(r, c) {
      CellOnTheClock(r, c);
    }
  }

  lemma {:induction false} RulesOfMembers(rules: seq<Rule>, agent: AgentId, r: Rule)
    ensures r in RulesOf(rules, agent) <==> r in rules && r.agent == agent
  {
    if rules != [] {
      RulesOfMembers(rules[1..], agent, r);
      assert rules == [rules[0]] + rules[1..];
    }
  }

  lemma CellOnTheClock(r: Rule, c: Time)
    ensures ValidOn(r, LocalDay(c)) && CellOf(Block(r, LocalDay(c)), c) <==> Publishes(r, c)
  {
    var local := c - 18_000_000_000;
    assert local == c + ZONE && DAY == 86_400_000_000 && SLOT == 1_800_000_000;
    assert local == local / DAY * DAY + local % DAY;
    assert c - Block(r, LocalDay(c)).start == local % DAY - r.startTime;
  }

  lemma BusyHalfHour(db: Db, agent: AgentId, c: Time, except: Option<VisitId>)
    ensures !Busy(BusyTime(db, agent, except), Cell(c)) <==> FreeHalfHour(db, agent, c, except)
  {
    var busy := BusyTime(db, agent, except);
    forall i | 0 <= i < |db.visits| && except != Some(i)
      ensures Takes(db.visits[i], agent, c, 30) ==> Span(db.visits[i]) in busy && Overlaps(Cell(c), Span(db.visits[i]))
    {
    }
    forall k | k in db.timeOff && db.timeOff[k].agent == agent ensures db.timeOff[k].span in busy {
    }
    if FreeHalfHour(db, agent, c, except) {
      forall b | b in busy ensures !Overlaps(Cell(c), b) {
        if i :| 0 <= i < |db.visits| && Occupies(db.visits[i], agent) && except != Some(i) && Span(db.visits[i]) == b {
          assert !Takes(db.visits[i], agent, c, 30);
        } else {
          assert b in BusyOff(db.timeOff, agent);
        }
      }
    }
  }

  /** The booking check's slot is one of whole half hours that some rule publishes and nothing takes. */
  lemma SlotOpenIsInHours(db: Db, agent: AgentId, start: Time, minutes: Minutes, except: Option<VisitId>)
    ensures SlotOpen(db, agent, start, minutes, except) <==> InHours(db, agent, start, minutes, except)
  {
    var rules, busy := RulesOf(db.rules, agent), BusyTime(db, agent, except);
    var window := Interval(start, VisitEnd(start, minutes));
    AvailableIffListed(rules, busy, window, minutes, start);
    if minutes % 30 == 0 {
      forall k | 0 <= k < minutes / 30
        ensures FreeCell(rules, busy, window, CellStart(start, k))
          <==> HalfHourServes(db, agent, start + k * 1_800_000_000, except)
      {
        HalfHourIsACell(db, agent, start, minutes, except, k);
      }
      if InHours(db, agent, start, minutes, except) {
        forall k | 0 <= k < minutes / 30 ensures FreeCell(rules, busy, window, CellStart(start, k)) {
          assert HalfHourServes(db, agent, start + k * 1_800_000_000, except);
        }
        assert CellStart(start, 0) == start && Cells(minutes) == minutes / 30;
        assert FreeCell(rules, busy, window, CellStart(start, 0));
      }
      if Offered(rules, busy, window, minutes, None, start) {
        forall k | 0 <= k < minutes / 30 ensures HalfHourServes(db, agent, start + k * 1_800_000_000, except) {
          assert FreeCell(rules, busy, window, CellStart(start, k));
        }
      }
    }
  }

  lemma HalfHourIsACell(db: Db, agent: AgentId, start: Time, minutes: Minutes, except: Option<VisitId>, k: int)
    requires minutes % 30 == 0 && 0 <= k < minutes / 30
    ensures var window := Interval(start, VisitEnd(start, minutes));
      FreeCell(RulesOf(db.rules, agent), BusyTime(db, agent, except), window, CellStart(start, k))
      <==> HalfHourServes(db, agent, start + k * 1_800_000_000, except)
  {
    PublishedIsOpen(db.rules, agent, CellStart(start, k));
    BusyHalfHour(db, agent, CellStart(start, k), except);
    assert CellStart(start, k) + SLOT <= VisitEnd(start, minutes);
  }

  /** The half hour serves and lies in the window. */
  ghost predicate ServesWithin(db: Db, agent: AgentId, window: Interval, c: Time) {
    HalfHourServes(db, agent, c, None) && window.start <= c && c + 1_800_000_000 <= window.end
  }

  /** The starts GET /slots lists: those whose every half hour, the first and any the visit still needs,
    * is published, free and in the window, and that do not lie before the moment of asking. */
  lemma ListedOnTheClock(
      db: Db, agent: AgentId, window: Interval, minutes: int, notBefore: Time, slots: seq<Time>, s: Time)
    requires Lists(slots, RulesOf(db.rules, agent), BusyTime(db, agent, None), window, minutes, Some(notBefore))
    ensures s in slots <==>
      && notBefore <= s && ServesWithin(db, agent, window, s)
      && forall k :: 1 <= k && 30 * k < minutes ==> ServesWithin(db, agent, window, s + k * 1_800_000_000)
  {
    var rules, busy := RulesOf(db.rules, agent), BusyTime(db, agent, None);
    assert CellStart(s, 0) == s;
    forall k ensures FreeCell(rules, busy, window, CellStart(s, k))
      <==> ServesWithin(db, agent, window, s + k * 1_800_000_000)
    {
      PublishedIsOpen(db.rules, agent, CellStart(s, k));
      BusyHalfHour(db, agent, CellStart(s, k), None);
    }
    assert FreeCell(rules, busy, window, CellStart(s, 0)) <==> ServesWithin(db, agent, window, s);
    forall k | 1 <= k ensures k < Cells(minutes) <==> 30 * k < minutes {
    }
    if s in slots {
      forall k | 1 <= k && 30 * k < minutes ensures ServesWithin(db, agent, window, s + k * 1_800_000_000) {
        assert FreeCell(rules, busy, window, CellStart(s, k));
      }
    }
    if notBefore <= s && ServesWithin(db, agent, window, s)
      && forall k :: 1 <= k && 30 * k < minutes ==> ServesWithin(db, agent, window, s + k * 1_800_000_000)
    {
      forall k | 1 <= k < Cells(minutes) ensures FreeCell(rules, busy, window, CellStart(s, k)) {
        assert ServesWithin(db, agent, window, s + k * 1_800_000_000);
      }
    }
  }

  // ------------------------------------------------------------ booking

  /** Neither the lead's stage nor the clock is in the way. */
  predicate MayAsk(db: Db, cfg: Config, lead: LeadId, start: Time, actor: Actor, now: Time) {
    && Sees(db, actor.agency, lead) && !Ended(db.leads[lead].stage)
    && now < start && (actor.isBot ==> now + cfg.notice <= start)
  }

  predicate HasOpen(visits: seq<Visit>, lead: LeadId) {
    exists i :: 0 <= i < |visits| && visits[i].lead == lead && OnCalendar(visits[i].status)
  }

  lemma OpenIsFound(visits: seq<Visit>, lead: LeadId)
    ensures FirstOpen(visits, lead).Some? <==> HasOpen(visits, lead)
  {
    if i :| 0 <= i < |visits| && visits[i].lead == lead && OnCalendar(visits[i].status) {
      assert OpenFor(visits[i], lead);
    }
  }

  /** The answer before the lock: the tenancy boundary, a closed lead, the past, the notice. */
  lemma EarlyAnswers(
      db: Db, cfg: Config, lead: LeadId, start: Time, minutes: Minutes, actor: Actor, now: Time)
    ensures var answer := RequestVisit(db, cfg, lead, start, minutes, actor, now).1;
      if !Sees(db, actor.agency, lead) then answer == Refused(LeadNotFound)
      else if Ended(db.leads[lead].stage) then answer == Refused(LeadClosed)
      else if start <= now then answer == Refused(InThePast)
      else if actor.isBot && start < now + cfg.notice then answer == Refused(ShortNotice)
      else answer !in {Refused(LeadNotFound), Refused(LeadClosed), Refused(InThePast), Refused(ShortNotice)}
  {
  }

  /** A lead with an open visit: the same place again gets that visit back, another is refused. */
  lemma OpenVisitAnswers(
      db: Db, cfg: Config, lead: LeadId, start: Time, minutes: Minutes, actor: Actor, now: Time)
    requires MayAsk(db, cfg, lead, start, actor, now) && HasOpen(db.visits, lead)
    ensures exists v :: 0 <= v < |db.visits| && AnswersOpen(
      db.visits[v], v, lead, start, minutes, RequestVisit(db, cfg, lead, start, minutes, actor, now).1)
  {
    var open := FirstOpen(db.visits, lead);
    OpenIsFound(db.visits, lead);
    assert AnswersOpen(db.visits[open.value], open.value, lead, start, minutes,
                       RequestVisit(db, cfg, lead, start, minutes, actor, now).1);
  }

  predicate AnswersOpen(v: Visit, id: VisitId, lead: LeadId, start: Time, minutes: Minutes, answer: Outcome) {
    && v.lead == lead && OnCalendar(v.status)
    && answer == if v.start == start && v.minutes == minutes then Existing(id) else Refused(OtherOpenVisit)
  }

  /** Otherwise it is booked unless the place is taken, or outside the hours of who is held to them. */
  lemma FreeLeadAnswers(
      db: Db, cfg: Config, lead: LeadId, start: Time, minutes: Minutes, actor: Actor, now: Time)
    requires MayAsk(db, cfg, lead, start, actor, now) && !HasOpen(db.visits, lead)
    ensures var (answer, owner) := (RequestVisit(db, cfg, lead, start, minutes, actor, now).1, db.leads[lead].agent);
      answer ==
        if Taken(db.visits, owner, start, minutes, None) then Refused(Overlap)
        else if (actor.isBot || cfg.enforce) && !InHours(db, owner, start, minutes, None) then Refused(OutsideSlots)
        else Created(|db.visits|)
  {
    var owner := db.leads[lead].agent;
    OpenIsFound(db.visits, lead);
    ClashIsTaken(db.visits, owner, start, minutes, None);
    SlotOpenIsInHours(db, owner, start, minutes, None);
  }

  /** The owner booking for themselves agrees by that, and so does a bot trusted to. */
  predicate Agreed(db: Db, lead: LeadId, actor: Actor)
    requires lead < |db.leads|
  {
    (actor.isBot && actor.manages) || (!actor.isBot && actor.id == db.leads[lead].agent)
  }

  /** All a booking writes. An agreed visit is born CONFIRMED and takes a lead from INTERESTED to
    * VISIT_SCHEDULED; any other waits for a yes and moves no lead. Unless it creates, it writes nothing. */
  lemma BookingWrites(
      db: Db, cfg: Config, lead: LeadId, start: Time, minutes: Minutes, actor: Actor, now: Time)
    requires Dated(db.transitions, now)
    ensures var (r, answer) := RequestVisit(db, cfg, lead, start, minutes, actor, now);
      if !answer.Created? then r == db
      else
        && answer == Created(|db.visits|) && lead < |db.leads|
        && var agreed := Agreed(db, lead, actor);
           var status := if agreed then Confirmed else PendingConfirmation;
           var moves := agreed && db.leads[lead].stage == Interested;
           var booked := VisitEvent(BookedEvent, |db.visits|, lead, start, minutes, status, actor, None);
           r == db.(
             visits := db.visits + [Visit(lead, db.leads[lead].agent, start, minutes, status, actor.id)],
             leads := if moves then db.leads[lead := db.leads[lead].(stage := VisitScheduled)] else db.leads,
             transitions := db.transitions + if moves
               then [Transition(lead, Some(Interested), VisitScheduled, Some(actor.id), now)] else [],
             interactions := db.interactions + [Interaction(lead, Outbound, StatusChange, Some(actor.id), now)],
             events := db.events + if moves
               then [StageChanged(lead, Interested, VisitScheduled), booked] else [booked])
  {
    if RequestVisit(db, cfg, lead, start, minutes, actor, now).1.Created? {
      DatedIsNewest(db.transitions, lead, now);
      BookWrites(db, lead, db.leads[lead].agent, start, minutes, actor, now);
    }
  }

  /** The insert, for the owner as the booking read it and at the time its transaction began. */
  lemma BookWrites(
      db: Db, lead: LeadId, owner: AgentId, start: Time, minutes: Minutes, actor: Actor, at: Time)
    requires lead < |db.leads| && (db.leads[lead].stage == Interested ==> Newest(db.transitions, lead, at))
    ensures var agreed := (actor.isBot && actor.manages) || (!actor.isBot && actor.id == owner);
      var status := if agreed then Confirmed else PendingConfirmation;
      var moves := agreed && db.leads[lead].stage == Interested;
      var booked := VisitEvent(BookedEvent, |db.visits|, lead, start, minutes, status, actor, None);
      Book(db, lead, owner, start, minutes, actor, at) == db.(
        visits := db.visits + [Visit(lead, owner, start, minutes, status, actor.id)],
        leads := if moves then db.leads[lead := db.leads[lead].(stage := VisitScheduled)] else db.leads,
        transitions := db.transitions + if moves
          then [Transition(lead, Some(Interested), VisitScheduled, Some(actor.id), at)] else [],
        interactions := db.interactions + [Interaction(lead, Outbound, StatusChange, Some(actor.id), at)],
        events := db.events + if moves
          then [StageChanged(lead, Interested, VisitScheduled), booked] else [booked])
  {
    var agreed := (actor.isBot && actor.manages) || (!actor.isBot && actor.id == owner);
    var status := if agreed then Confirmed else PendingConfirmation;
    var inserted := db.(visits := db.visits + [Visit(lead, owner, start, minutes, status, actor.id)]);
    var booked := VisitEvent(BookedEvent, |db.visits|, lead, start, minutes, status, actor, None);
    if agreed && db.leads[lead].stage == Interested {
      AdvanceWrites(inserted, lead, VisitScheduled, actor, at);
      assert db.events + [StageChanged(lead, Interested, VisitScheduled)] + [booked]
        == db.events + [StageChanged(lead, Interested, VisitScheduled), booked];
    } else {
      assert db.transitions + [] == db.transitions;
    }
  }

  /** The same among other requests: what the insert of a booking in progress writes to the tables as they
    * are by then, or nothing if the lead got an open visit meanwhile. */
  lemma InsertWrites(s: Booking.Sys, cfg: Config, now: Time, tx: Booking.Tx)
    requires Booking.SysInv(s) && Booking.Enabled(s, Booking.Action(now, Booking.Insert(tx)))
    ensures var r := Booking.Next(s, cfg, Booking.Action(now, Booking.Insert(tx)));
      var (b, db) := (s.bookings[tx], s.db);
      && b.lead < |db.leads|
      && if HasOpen(db.visits, b.lead) then
           r.db == db && r.bookings[tx].pc == Booking.Finished(Refused(DuplicateOpenVisit))
         else
           && r.bookings[tx].pc == Booking.Finished(Created(|db.visits|))
           && var agreed := (b.actor.isBot && b.actor.manages) || (!b.actor.isBot && b.actor.id == b.owner);
              var status := if agreed then Confirmed else PendingConfirmation;
              var moves := agreed && db.leads[b.lead].stage == Interested;
              var booked := VisitEvent(BookedEvent, |db.visits|, b.lead, b.start, b.minutes, status, b.actor, None);
              r.db == db.(
                visits := db.visits + [Visit(b.lead, b.owner, b.start, b.minutes, status, b.actor.id)],
                leads := if moves then db.leads[b.lead := db.leads[b.lead].(stage := VisitScheduled)] else db.leads,
                transitions := db.transitions + if moves
                  then [Transition(b.lead, Some(Interested), VisitScheduled, Some(b.actor.id), b.startedAt)] else [],
                interactions := db.interactions
                  + [Interaction(b.lead, Outbound, StatusChange, Some(b.actor.id), b.startedAt)],
                events := db.events + if moves
                  then [StageChanged(b.lead, Interested, VisitScheduled), booked] else [booked])
  {
    var b := s.bookings[tx];
    assert Booking.Sound(s, tx);
    OpenIsFound(s.db.visits, b.lead);
    BookWrites(s.db, b.lead, b.owner, b.start, b.minutes, b.actor, b.startedAt);
  }

  /** The newest row sets the cache. */
  lemma AdvanceWrites(db: Db, lead: LeadId, to: Stage, actor: Actor, now: Time)
    requires lead < |db.leads| && Newest(db.transitions, lead, now)
    ensures var from := db.leads[lead].stage;
      Advance(db, lead, from, to, actor, now) == db.(
        leads := db.leads[lead := db.leads[lead].(stage := to)],
        transitions := db.transitions + [Transition(lead, Some(from), to, Some(actor.id), now)],
        events := db.events + [StageChanged(lead, from, to)])
  {
    LoggedStage(db, Transition(lead, Some(db.leads[lead].stage), to, Some(actor.id), now));
  }

  // ------------------------------------------------------------ patching

  /** Who may patch the visit, and to what, whether or not it moves. */
  predicate MayPatch(db: Db, visit: VisitId, p: Patch, actor: Actor) {
    && visit < |db.visits| && Sees(db, actor.agency, db.visits[visit].lead)
    && (Over(db.visits[visit].status) ==> p.status == Some(db.visits[visit].status))
    && (actor.isBot ==> p.status != Some(Completed) && p.status != Some(NoShow))
    && (actor.isBot && !actor.manages ==> p.status != Some(Confirmed))
  }

  predicate NamesAPlace(p: Patch) {
    p.start.Some? || p.minutes.Some?
  }

  /** Why a patch is refused, in order; None when it is accepted. A place, even the current one sent
    * again, must lie ahead, with a bot's notice, free, and in the hours of who is held to them. */
  ghost function WhyNot(db: Db, cfg: Config, visit: VisitId, p: Patch, actor: Actor, now: Time): Option<Refusal> {
    if visit >= |db.visits| || !Sees(db, actor.agency, db.visits[visit].lead) then Some(VisitNotFound)
    else
      var v := db.visits[visit];
      var (start, minutes, held) := (AskedStart(v, p), AskedMinutes(v, p), actor.isBot || cfg.enforce);
      if Over(v.status) && p.status != Some(v.status) then Some(AlreadyFinal)
      else if actor.isBot && p.status in {Some(Completed), Some(NoShow)} then Some(BotRecordsNoOutcome)
      else if actor.isBot && !actor.manages && p.status == Some(Confirmed) then Some(BotMayNotConfirm)
      else if !NamesAPlace(p) then None
      else if start <= now then Some(InThePast)
      else if actor.isBot && start < now + cfg.notice then Some(ShortNotice)
      else if Taken(db.visits, v.agent, start, minutes, Some(visit)) then Some(Overlap)
      else if held && !(v.agent in db.agents && db.agents[v.agent].agency == actor.agency) then Some(AgentNotFound)
      else if held && !InHours(db, v.agent, start, minutes, Some(visit)) then Some(OutsideSlots)
      else None
  }

  lemma PatchAnswers(db: Db, cfg: Config, visit: VisitId, p: Patch, actor: Actor, now: Time)
    ensures var (answer, why) := (PatchVisit(db, cfg, visit, p, actor, now).1, WhyNot(db, cfg, visit, p, actor, now));
      answer == if why.Some? then PatchRefused(why.value) else Done
    ensures PatchVisit(db, cfg, visit, p, actor, now).1 == Done ==> MayPatch(db, visit, p, actor)
  {
    if StatusRefusal(db, visit, p, actor).None? && NamesAPlace(p) {
      var v := db.visits[visit];
      ClashIsTaken(db.visits, v.agent, AskedStart(v, p), AskedMinutes(v, p), Some(visit));
      SlotOpenIsInHours(db, v.agent, AskedStart(v, p), AskedMinutes(v, p), Some(visit));
    }
  }

  function PatchKind(v: Visit, p: Patch): EventKind {
    if OtherPlace(v, p) then RescheduledEvent
    else match AskedStatus(v, p)
      case Confirmed => ConfirmedEvent
      case Cancelled => CancelledEvent
      case Completed => CompletedEvent
      case NoShow => NoShowEvent
      case Rescheduled => RescheduledEvent
      case PendingConfirmation => ReopenedEvent
  }

  /** The stage a lead is moved to: by a yes out of INTERESTED, by a visit that took place out of
    * VISIT_SCHEDULED, and by nothing else. */
  function MovedTo(stage: Stage, before: VisitStatus, after: VisitStatus): Stage {
    if before != Confirmed && after == Confirmed && stage == Interested then VisitScheduled
    else if before != Completed && after == Completed && stage == VisitScheduled then Visited
    else stage
  }

  /** All a patch writes. The row gets the place and status asked for, a confirmed visit that really
    * moves being reopened unless told otherwise; a patch that changes nothing writes nothing. */
  lemma PatchWrites(db: Db, cfg: Config, visit: VisitId, p: Patch, actor: Actor, now: Time)
    requires Dated(db.transitions, now)
    ensures var (r, answer) := PatchVisit(db, cfg, visit, p, actor, now);
      if answer != Done then r == db
      else
        && visit < |db.visits| && db.visits[visit].lead < |db.leads|
        && var v := db.visits[visit];
           var (start, minutes, status) := (AskedStart(v, p), AskedMinutes(v, p), AskedStatus(v, p));
           if start == v.start && minutes == v.minutes && status == v.status then r == db
           else
             var from := db.leads[v.lead].stage;
             var to := MovedTo(from, v.status, status);
             var changed := VisitEvent(
               PatchKind(v, p), visit, v.lead, start, minutes, status, actor, Some(Previous(v.status, Some(v.start))));
             r == db.(
               visits := db.visits[visit := v.(start := start, minutes := minutes, status := status)],
               leads := db.leads[v.lead := db.leads[v.lead].(stage := to)],
               transitions := db.transitions + if to != from
                 then [Transition(v.lead, Some(from), to, Some(actor.id), now)] else [],
               interactions := db.interactions + [Interaction(v.lead, Outbound, StatusChange, Some(actor.id), now)],
               events := db.events + if to != from then [StageChanged(v.lead, from, to), changed] else [changed])
  {
    if PatchRefusal(db, cfg, visit, p, actor, now).None? {
      var v := db.visits[visit];
      assert Patched(v, p) == v.(start := AskedStart(v, p), minutes := AskedMinutes(v, p), status := AskedStatus(v, p));
      if Patched(v, p) != v {
        ChangeWrites(db, visit, p, actor, now);
      }
    }
  }

  /** What a change of a visit's status does to the funnel. */
  lemma PushWrites(db: Db, lead: LeadId, before: VisitStatus, after: VisitStatus, actor: Actor, now: Time)
    requires Dated(db.transitions, now) && lead < |db.leads|
    ensures var from := db.leads[lead].stage;
      var to := MovedTo(from, before, after);
      (if after != before then SyncFunnel(db, lead, after, actor, now) else db) == db.(
        leads := db.leads[lead := db.leads[lead].(stage := to)],
        transitions := db.transitions + if to != from
          then [Transition(lead, Some(from), to, Some(actor.id), now)] else [],
        events := db.events + if to != from then [StageChanged(lead, from, to)] else [])
  {
    var from := db.leads[lead].stage;
    var to := MovedTo(from, before, after);
    DatedIsNewest(db.transitions, lead, now);
    if to != from {
      AdvanceWrites(db, lead, to, actor, now);
    } else {
      assert db.leads[lead := db.leads[lead].(stage := to)] == db.leads;
      assert db.transitions + [] == db.transitions && db.events + [] == db.events;
    }
  }

  /** An event behind the one, or none, that came before it. */
  lemma EventsBehind(events: seq<Event>, first: seq<Event>, last: Event)
    requires |first| <= 1
    ensures events + first + [last] == events + if first == [] then [last] else [first[0], last]
  {
    if first == [] {
      assert events + first == events;
    } else {
      assert events + first + [last] == events + [first[0], last];
    }
  }

  lemma ChangeWrites(db: Db, visit: VisitId, p: Patch, actor: Actor, now: Time)
    requires Dated(db.transitions, now) && visit < |db.visits| && db.visits[visit].lead < |db.leads|
    requires Patched(db.visits[visit], p) != db.visits[visit]
    ensures var v := db.visits[visit];
      var (start, minutes, status) := (AskedStart(v, p), AskedMinutes(v, p), AskedStatus(v, p));
      var from := db.leads[v.lead].stage;
      var to := MovedTo(from, v.status, status);
      var changed := VisitEvent(
        PatchKind(v, p), visit, v.lead, start, minutes, status, actor, Some(Previous(v.status, Some(v.start))));
      ChangeVisit(db, visit, Patched(v, p), ChangeKind(v, Patched(v, p)), actor, now) == db.(
        visits := db.visits[visit := v.(start := start, minutes := minutes, status := status)],
        leads := db.leads[v.lead := db.leads[v.lead].(stage := to)],
        transitions := db.transitions + if to != from
          then [Transition(v.lead, Some(from), to, Some(actor.id), now)] else [],
        interactions := db.interactions + [Interaction(v.lead, Outbound, StatusChange, Some(actor.id), now)],
        events := db.events + if to != from then [StageChanged(v.lead, from, to), changed] else [changed])
  {
    var v := db.visits[visit];
    var after := Patched(v, p);
    var from := db.leads[v.lead].stage;
    var to := MovedTo(from, v.status, after.status);
    var changed := VisitEvent(
      PatchKind(v, p), visit, v.lead, after.start, after.minutes, after.status, actor,
      Some(Previous(v.status, Some(v.start))));
    assert ChangeKind(v, after) == PatchKind(v, p);
    PushWrites(db.(visits := db.visits[visit := after]), v.lead, v.status, after.status, actor, now);
    EventsBehind(db.events, if to != from then [StageChanged(v.lead, from, to)] else [], changed);
  }
}

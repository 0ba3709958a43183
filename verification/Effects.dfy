/** What a single request may do to the tables, read off the tables before and after: where visits
  * may appear or move, how the funnel follows, and who may touch time off. */
module Effects {
  import opened Domain
  import opened Funnel
  import opened Store
  import opened Invariants
  import opened Requests
  import opened Runs
  import CalendarImport

  // ------------------------------------------------------------ where visits land

  /** Visit `v` is new, or is not where it was. */
  predicate Moved(a: Db, b: Db, v: VisitId) {
    v < |b.visits| && (v >= |a.visits| || Span(b.visits[v]) != Span(a.visits[v]))
  }

  /** The place was free, in the future, far enough ahead for a bot, and, where the actor is held to
    * published slots, inside them. */
  ghost predicate EarnedBy(db: Db, cfg: Config, actor: Actor, now: Time, v: Visit, exclude: Option<VisitId>) {
    && v.start > now && (actor.isBot ==> v.start >= now + cfg.notice)
    && !Clash(db.visits, v.agent, Span(v), exclude)
    && (MustFit(cfg, actor) ==> SlotOpen(db, v.agent, v.start, v.minutes, exclude))
  }

  /** A booking puts one visit on the calendar of the lead's owner, confirmed only if the owner or a
    * trusted bot booked it; a patch moves its own visit, which stays confirmed only if it says so. */
  ghost predicate Earned(db: Db, cfg: Config, req: Request, now: Time, v: VisitId, row: Visit) {
    match req
    case RequestVisitReq(lead, _, _, actor) =>
      && v == |db.visits| && lead < |db.leads| && !Terminal(db.leads[lead].stage)
      && row.lead == lead && row.agent == db.leads[lead].agent && row.createdBy == actor.id
      && EarnedBy(db, cfg, actor, now, row, None)
      && (row.status.Confirmed? <==> BornConfirmed(actor, row.agent))
    case PatchVisitReq(visit, p, actor) =>
      && v == visit && v < |db.visits|
      && EarnedBy(db, cfg, actor, now, row, Some(v))
      && (row.status.Confirmed? ==> p.status == Some(Confirmed))
      && (p.status.None? && db.visits[v].status.Confirmed? ==> row.status.Rescheduled?)
    case _ => false
  }

  lemma BookedPlace(db: Db, cfg: Config, lead: LeadId, start: Time, minutes: Minutes, actor: Actor, now: Time)
    ensures var (r, outcome) := RequestVisit(db, cfg, lead, start, minutes, actor, now);
      if outcome.Created? then
        && |r.visits| == |db.visits| + 1 && r.visits[..|db.visits|] == db.visits
        && Earned(db, cfg, RequestVisitReq(lead, start, minutes, actor), now, |db.visits|, r.visits[|db.visits|])
      else r == db
  {
  }

  lemma PatchedPlace(db: Db, cfg: Config, visit: VisitId, p: Patch, actor: Actor, now: Time, v: VisitId)
    requires v < |db.visits|
    ensures var r := PatchVisit(db, cfg, visit, p, actor, now).0;
      && |r.visits| == |db.visits|
      && (Moved(db, r, v) ==> Earned(db, cfg, PatchVisitReq(visit, p, actor), now, v, r.visits[v]))
  {
    if PatchRefusal(db, cfg, visit, p, actor, now).None? {
      var before := db.visits[visit];
      var after := Patched(before, p);
      ChangeVisitUnfolds(db, visit, after, ChangeKind(before, after), actor, now);
    }
  }

  lemma ClosingMovesNothing(
      db: Db, lead: LeadId, to: Stage, reason: Option<LostReason>, note: bool, actor: Actor, now: Time)
    ensures var r := AddTransition(db, lead, to, reason, note, actor, now).0;
      |r.visits| == |db.visits| && forall v :: 0 <= v < |db.visits| ==> Span(r.visits[v]) == Span(db.visits[v])
  {
    if TransitionRefusal(db, lead, to, reason, actor).None? && Terminal(to) {
      CancelOpenShape(Transitioned(db, lead, to, reason, note, actor, now), lead, actor, now, 0);
    }
  }

  /** No request puts a visit anywhere it has not earned, and only booking and patching put one
    * anywhere at all. */
  lemma NewPlacesAreEarned(db: Db, cfg: Config, req: Request, now: Time, v: VisitId)
    ensures var r := Handle(db, cfg, req, now);
      Moved(db, r, v) ==> Earned(db, cfg, req, now, v, r.visits[v])
  {
    match req
    case RequestVisitReq(lead, start, minutes, actor) => BookedPlace(db, cfg, lead, start, minutes, actor, now);
    case PatchVisitReq(visit, p, actor) =>
      PatchKeepsLength(db, cfg, visit, p, actor, now);
      if v < |db.visits| {
        PatchedPlace(db, cfg, visit, p, actor, now, v);
      }
    case AddTransitionReq(lead, to, reason, note, actor) =>
      ClosingMovesNothing(db, lead, to, reason, note, actor, now);
    case CreateLeadReq(client, listing, message, author, agency) =>
      assert CreateLead(db, client, listing, message, author, agency, now).0.visits == db.visits;
    case ReassignReq(lead, target, actor) => assert Reassign(db, lead, target, actor).0.visits == db.visits;
    case SweepReq(_, _) => assert Handle(db, cfg, req, now).visits == db.visits;
    case _ => QuietRequestsTouchNothing(db, cfg, req, now);
  }

  lemma PatchKeepsLength(db: Db, cfg: Config, visit: VisitId, p: Patch, actor: Actor, now: Time)
    ensures |PatchVisit(db, cfg, visit, p, actor, now).0.visits| == |db.visits|
  {
  }

  // ------------------------------------------------------------ how the funnel follows

  lemma SyncPushes(db: Db, now: Time, lead: LeadId, status: VisitStatus, actor: Actor)
    requires Dated(db.transitions, now) && lead < |db.leads|
    ensures SyncFunnel(db, lead, status, actor, now).leads
      == db.leads[lead := db.leads[lead].(stage := Pushed(db.leads[lead].stage, status))]
  {
    DatedIsNewest(db.transitions, lead, now);
  }

  /** A patch moves at most its own visit's lead, by the push of the new status, and only when the
    * status changed. The stage the trigger caches is the pushed one, since no row is newer. */
  lemma PatchMovesTheFunnel(db: Db, cfg: Config, visit: VisitId, p: Patch, actor: Actor, now: Time)
    requires Core(db, now) && visit < |db.visits|
    ensures var r := PatchVisit(db, cfg, visit, p, actor, now).0;
      var (v, lead, status) := (db.visits[visit], db.visits[visit].lead, r.visits[visit].status);
      r.leads ==
        if status == v.status then db.leads
        else db.leads[lead := db.leads[lead].(stage := Pushed(db.leads[lead].stage, status))]
  {
    if PatchRefusal(db, cfg, visit, p, actor, now).None? {
      var v := db.visits[visit];
      var after := Patched(v, p);
      ChangeVisitUnfolds(db, visit, after, ChangeKind(v, after), actor, now);
      SyncPushes(db, now, v.lead, after.status, actor);
    }
  }

  /** A booking moves at most its own lead, and only when it is born confirmed. */
  lemma BookingMovesTheFunnel(
      db: Db, cfg: Config, lead: LeadId, start: Time, minutes: Minutes, actor: Actor, now: Time)
    requires Core(db, now) && RequestVisit(db, cfg, lead, start, minutes, actor, now).1.Created?
    ensures var r := RequestVisit(db, cfg, lead, start, minutes, actor, now).0;
      r.leads == db.leads[lead := db.leads[lead].(stage := Pushed(db.leads[lead].stage, r.visits[|db.visits|].status))]
  {
    var owner := db.leads[lead].agent;
    var status := if BornConfirmed(actor, owner) then Confirmed else PendingConfirmation;
    var visit := Visit(lead, owner, start, minutes, status, actor.id);
    SyncPushes(db.(visits := db.visits + [visit]), now, lead, Confirmed, actor);
  }

  /** A transition lands exactly when the lead is the caller's and the edge is in the funnel, with a
    * reason if it is LOST: that the lead is closed needs no check of its own. It then moves that
    * lead and no other, keeps the reason, and frees the calendar of a closed lead only. */
  lemma TransitionLands(
      db: Db, lead: LeadId, to: Stage, reason: Option<LostReason>, note: bool, actor: Actor, now: Time)
    requires Core(db, now)
    ensures var (r, outcome) := AddTransition(db, lead, to, reason, note, actor, now);
      && (outcome.Moved? <==>
            LeadVisible(db, lead, actor.agency) && Allowed(db.leads[lead].stage, to) && (to.Lost? ==> reason.Some?))
      && (!outcome.Moved? ==> r == db)
      && (outcome.Moved? ==>
            && r.leads == db.leads[lead := db.leads[lead].(stage := to)]
            && r.lost == (if to.Lost? then db.lost[lead := reason.value] else db.lost)
            && r.visits == if Terminal(to) then Requests.Cancelled(db.visits, lead, 0) else db.visits)
  {
    if AddTransition(db, lead, to, reason, note, actor, now).1.Moved? {
      ClosingKeeps(db, to, lead, reason, actor, now);
      var moved := Transitioned(db, lead, to, reason, note, actor, now);
      assert moved.leads == db.leads[lead := db.leads[lead].(stage := to)];
      if Terminal(to) {
        CancelOpenShape(moved, lead, actor, now, 0);
        CancelKeepsLost(moved, lead, actor, now, 0);
      }
    }
  }

  lemma {:induction false} CancelKeepsLost(db: Db, lead: LeadId, actor: Actor, now: Time, i: nat)
    requires lead < |db.leads| && i <= |db.visits|
    ensures CancelOpen(db, lead, actor, now, i).lost == db.lost
    decreases |db.visits| - i
  {
    if i < |db.visits| {
      if OpenFor(db.visits[i], lead) {
        CancelOneShape(db, i, actor, now);
        CancelKeepsLost(CancelVisit(db, i, actor, now), lead, actor, now, i + 1);
      } else {
        CancelKeepsLost(db, lead, actor, now, i + 1);
      }
    }
  }

  // ------------------------------------------------------------ who may touch time off

  /** The requests that may change one time-off row: for a manual row its deletion, for an imported
    * one its own agent's sync or disconnection. */
  predicate MayTouch(req: Request, k: OffKey) {
    match k
    case Manual(_) => req.DeleteTimeOffReq? && req.key == k
    case Imported(agent, _) =>
      (req.SyncCalendarReq? && req.agent == agent) || (req.RemoveCalendarReq? && req.agent == agent)
  }

  lemma SyncLeavesOthers(db: Db, cfg: Config, agent: AgentId, fetch: Fetch, lockFree: bool, now: Time, k: OffKey)
    requires k.Manual? || k.agent != agent
    ensures var r := SyncCalendar(db, cfg, agent, fetch, lockFree, now).0;
      (k in r.timeOff <==> k in db.timeOff) && (k in db.timeOff ==> r.timeOff[k] == db.timeOff[k])
  {
    if agent in db.calendars && fetch.Feed? && lockFree {
      CalendarImport.SyncTouchesNothingElse(
        db.timeOff, agent, now, WindowEnd(cfg, now), CalendarImport.Parse(fetch.events), k);
    }
  }

  lemma DisconnectLeavesOthers(db: Db, agent: AgentId, k: OffKey)
    requires k.Manual? || k.agent != agent
    ensures var r := RemoveCalendar(db, agent);
      (k in r.timeOff <==> k in db.timeOff) && (k in db.timeOff ==> r.timeOff[k] == db.timeOff[k])
  {
  }

  /** Every other request leaves the row as it was, and invents it only by adding manual time off. */
  lemma TimeOffIsNobodyElses(db: Db, cfg: Config, req: Request, now: Time, k: OffKey)
    requires OffRows(db) && !MayTouch(req, k)
    ensures var r := Handle(db, cfg, req, now);
      && (k in db.timeOff ==> k in r.timeOff && r.timeOff[k] == db.timeOff[k])
      && (k in r.timeOff && k !in db.timeOff ==>
            req.AddTimeOffReq? && k == Manual(db.nextOff) && r.timeOff[k] == TimeOff(req.agent, req.span)
            && !Clash(db.visits, req.agent, req.span, None))
  {
    match req
    case SyncCalendarReq(agent, fetch, lockFree) => SyncLeavesOthers(db, cfg, agent, fetch, lockFree, now, k);
    case RemoveCalendarReq(agent) => DisconnectLeavesOthers(db, agent, k);
    case _ =>
  }
}

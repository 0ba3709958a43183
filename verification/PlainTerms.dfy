/** The requests' conditions written out in statuses, instants and numbers, for statements about what
  * a request answers and writes. Nothing in the requests themselves is defined by these. */
module PlainTerms {
  import opened Domain
  import opened Store

  /** Waiting for a yes, agreed, or moved: the agent is expected there. */
  predicate OnCalendar(s: VisitStatus) {
    s == PendingConfirmation || s == Confirmed || s == Rescheduled
  }

  predicate Over(s: VisitStatus) {
    s == Cancelled || s == Completed || s == NoShow
  }

  predicate Ended(s: Stage) {
    s == Won || s == Lost
  }

  /** The lead exists and its owner works for the agency. */
  predicate Sees(db: Db, agency: nat, lead: LeadId) {
    && lead < |db.leads| && db.leads[lead].agent in db.agents
    && db.agents[db.leads[lead].agent].agency == agency
  }

  /** When a stretch of `minutes` from `start` is over. */
  function Until(start: Time, minutes: int): Time {
    start + minutes * 60_000_000
  }

  /** Another visit of the agent is on the calendar in [start, start + minutes). */
  ghost predicate Taken(visits: seq<Visit>, agent: AgentId, start: Time, minutes: Minutes, except: Option<VisitId>) {
    exists i :: 0 <= i < |visits| && except != Some(i) && Takes(visits[i], agent, start, minutes)
  }

  predicate Takes(v: Visit, agent: AgentId, start: Time, minutes: Minutes) {
    && v.agent == agent && OnCalendar(v.status)
    && v.start < Until(start, minutes) && start < Until(v.start, v.minutes)
  }

  /** The half hour from `c` is published by one of the agent's rules: on the agents' clock, five hours
    * behind UTC, it lies on the rule's weekday, within its dates and times, on its half-hour grid. */
  ghost predicate OpenHalfHour(rules: seq<Rule>, agent: AgentId, c: Time) {
    exists r :: r in rules && r.agent == agent && Publishes(r, c)
  }

  predicate Publishes(r: Rule, c: Time) {
    var local := c - 18_000_000_000;
    var (day, time) := (local / 86_400_000_000, local % 86_400_000_000);
    && r.weekday == day % 7
    && (r.validFrom.Some? ==> r.validFrom.value <= day) && (r.validTo.Some? ==> day <= r.validTo.value)
    && r.startTime <= time && time + 1_800_000_000 <= r.endTime
    && (time - r.startTime) % 1_800_000_000 == 0
  }

  /** No other visit and no time off of the agent touches the half hour from `c`. */
  ghost predicate FreeHalfHour(db: Db, agent: AgentId, c: Time, except: Option<VisitId>) {
    && (forall i :: 0 <= i < |db.visits| && except != Some(i) ==> !Takes(db.visits[i], agent, c, 30))
    && (forall k :: k in db.timeOff && db.timeOff[k].agent == agent ==>
          !(db.timeOff[k].span.start < c + 1_800_000_000 && c < db.timeOff[k].span.end))
  }

  /** The visit is made of open, free half hours from its own start, and ends with one of them. */
  ghost predicate InHours(db: Db, agent: AgentId, start: Time, minutes: Minutes, except: Option<VisitId>) {
    && minutes % 30 == 0
    && forall k :: 0 <= k < minutes / 30 ==> HalfHourServes(db, agent, start + k * 1_800_000_000, except)
  }

  ghost predicate HalfHourServes(db: Db, agent: AgentId, c: Time, except: Option<VisitId>) {
    OpenHalfHour(db.rules, agent, c) && FreeHalfHour(db, agent, c, except)
  }

  // ------------------------------------------------------------ what a patch asks for

  function AskedStart(v: Visit, p: Patch): Time {
    if p.start.Some? then p.start.value else v.start
  }

  function AskedMinutes(v: Visit, p: Patch): Minutes {
    if p.minutes.Some? then p.minutes.value else v.minutes
  }

  /** Really another time or length, not the current one sent again. */
  predicate OtherPlace(v: Visit, p: Patch) {
    (p.start.Some? && p.start.value != v.start) || (p.minutes.Some? && p.minutes.value != v.minutes)
  }

  function AskedStatus(v: Visit, p: Patch): VisitStatus {
    if p.status.Some? then p.status.value
    else if v.status == Confirmed && OtherPlace(v, p) then Rescheduled
    else v.status
  }
}

/** The CRM's vocabulary: instants, the agents' local clock, the funnel's stages, visit
  * statuses, the rows of each table and the outbox events. */
module Domain {

  datatype Option<+T> = None | Some(value: T)

  /** An instant: microseconds since a Monday's UTC midnight. Python and Postgres both keep
    * microseconds. */
  type Time = int
  const MINUTE: Time := 60_000_000
  const HOUR: Time := 60 * MINUTE
  const DAY: Time := 24 * HOUR

  /** America/Bogota: five hours behind UTC all year round. */
  const ZONE: Time := -5 * HOUR

  function LocalDay(t: Time): int {
    (t + ZONE) / DAY
  }

  function LocalMidnight(day: int): Time {
    day * DAY - ZONE
  }

  /** 0 is Monday. */
  function Weekday(day: int): int {
    day % 7
  }

  /** Half-open: [start, end). */
  datatype Interval = Interval(start: Time, end: Time)

  predicate Overlaps(a: Interval, b: Interval) {
    a.start < b.end && b.start < a.end
  }

  type AgentId = nat
  type LeadId = nat
  type VisitId = nat

  /** duration_min, as the request schema bounds it. */
  type Minutes = m: int | 15 <= m <= 480 witness 60

  datatype Stage = Interested | VisitScheduled | Visited | Negotiating | Won | Lost

  predicate Terminal(s: Stage) {
    s.Won? || s.Lost?
  }

  datatype VisitStatus =
    | PendingConfirmation | Confirmed | Rescheduled
    | Cancelled | Completed | NoShow

  /** A visit in one of these holds its slot: nothing else may be booked there. */
  predicate Blocking(s: VisitStatus) {
    s.PendingConfirmation? || s.Confirmed? || s.Rescheduled?
  }

  datatype Role = MemberRole | TeamAdmin | AiAgent
  datatype AgentRow = AgentRow(agency: nat, role: Role, active: bool)

  /** Who is calling: `manages` says whether a service account holds visits:manage. */
  datatype Actor = Actor(id: AgentId, agency: nat, isBot: bool, manages: bool)

  /** A person, or a bot trusted to agree on the owner's behalf. */
  predicate MayConsent(a: Actor) {
    !a.isBot || a.manages
  }

  datatype Operation = Sale | Rent
  datatype Listing = Listing(agent: AgentId, property: nat, operation: Operation)

  datatype Lead = Lead(client: nat, listing: nat, agent: AgentId, stage: Stage, createdAt: Time)

  datatype Visit = Visit(
    lead: LeadId, agent: AgentId, start: Time, minutes: Minutes, status: VisitStatus, createdBy: AgentId)

  function VisitEnd(start: Time, minutes: int): Time {
    start + minutes * MINUTE
  }

  function Span(v: Visit): Interval {
    Interval(v.start, VisitEnd(v.start, v.minutes))
  }

  /** One row of the stage log; `at` is changed_at, the inserting transaction's start. */
  datatype Transition = Transition(
    lead: LeadId, from: Option<Stage>, to: Stage, changedBy: Option<AgentId>, at: Time)

  datatype LostReason = Price | Location | BoughtElsewhere | NoResponse | Financing | OtherReason

  datatype Direction = Inbound | Outbound
  datatype InteractionKind = Message | Call | NoteLine | StatusChange
  datatype Interaction = Interaction(
    lead: LeadId, direction: Direction, kind: InteractionKind, author: Option<AgentId>, at: Time)

  datatype TaskStatus = TaskPending | TaskDone | TaskSnoozed
  datatype Task = Task(lead: LeadId, agent: AgentId, due: Time, status: TaskStatus)

  datatype Audit = Audit(lead: LeadId, from: AgentId, to: AgentId, reassignedBy: AgentId)

  /** A calendar import's event UID with its occurrence start. */
  datatype Uid = Uid(uid: string, start: Time)

  /** Time off is keyed by its own id when typed in, and by (agent, external uid) when imported:
    * the partial unique index on imported rows is the shape of the key. */
  datatype OffKey = Manual(id: nat) | Imported(agent: AgentId, uid: Uid)
  datatype TimeOff = TimeOff(agent: AgentId, span: Interval)

  type TimeOfDay = t: Time | 0 <= t < DAY
  datatype Rule = Rule(
    agent: AgentId, weekday: int, startTime: TimeOfDay, endTime: TimeOfDay,
    validFrom: Option<int>, validTo: Option<int>)

  datatype EventKind =
    | BookedEvent | ConfirmedEvent | RescheduledEvent | ReopenedEvent
    | CancelledEvent | CompletedEvent | NoShowEvent

  /** What a change to a visit found. The cancellation of a closed lead's visit names no start. */
  datatype Previous = Previous(status: VisitStatus, start: Option<Time>)

  /** The outbox. A visit event carries the visit as it stands after the change. */
  datatype Event =
    | LeadCreated(lead: LeadId, agent: AgentId)
    | StageChanged(lead: LeadId, from: Stage, to: Stage)
    | LeadReassigned(lead: LeadId, fromAgent: AgentId, toAgent: AgentId, reassignedBy: AgentId)
    | LeadWentCold(lead: LeadId)
    | VisitEvent(
        kind: EventKind, visit: VisitId, lead: LeadId, start: Time, minutes: Minutes,
        status: VisitStatus, actor: Actor, previous: Option<Previous>)
}

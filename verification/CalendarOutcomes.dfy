/** What time off and calendar imports answer and write, in full. */
module CalendarOutcomes {
  import opened Domain
  import opened Store
  import opened Invariants
  import opened Runs
  import opened PlainTerms
  import opened BookingOutcomes
  import CalendarImport

  // ------------------------------------------------------------ time off

  predicate WorksFor(db: Db, agent: AgentId, agency: nat) {
    agent in db.agents && db.agents[agent].agency == agency
  }

  predicate HasVisitIn(visits: seq<Visit>, agent: AgentId, span: Interval) {
    exists i :: 0 <= i < |visits| && MeetsSpan(visits[i], agent, span)
  }

  predicate MeetsSpan(v: Visit, agent: AgentId, span: Interval) {
    v.agent == agent && OnCalendar(v.status) && v.start < span.end && span.start < Until(v.start, v.minutes)
  }

  /** Time off needs an agent of the agency, a span that runs forwards, and no visit in it; then it is
    * stored under a new id. */
  lemma AddTimeOffOutcome(db: Db, agent: AgentId, agency: nat, span: Interval)
    ensures AddTimeOff(db, agent, agency, span) ==
      if !WorksFor(db, agent, agency) then (db, OffRefused(AgentNotFound))
      else if span.start >= span.end then (db, OffRefused(BackwardsSpan))
      else if HasVisitIn(db.visits, agent, span) then (db, OffRefused(OverlapsVisits))
      else (db.(timeOff := db.timeOff[Manual(db.nextOff) := TimeOff(agent, span)], nextOff := db.nextOff + 1),
            Stored(db.nextOff))
  {
    forall i | 0 <= i < |db.visits|
      ensures MeetsSpan(db.visits[i], agent, span)
        <==> Occupies(db.visits[i], agent) && Overlaps(Span(db.visits[i]), span)
    {
    }
    if Clash(db.visits, agent, span, None) {
      var i :| 0 <= i < |db.visits| && Occupies(db.visits[i], agent) && Overlaps(Span(db.visits[i]), span);
      assert MeetsSpan(db.visits[i], agent, span);
    }
    if i :| 0 <= i < |db.visits| && MeetsSpan(db.visits[i], agent, span) {
      assert None != Some(i);
    }
  }

  /** Deleting takes that row away and no other, and only one the agent typed in. */
  lemma DeleteTimeOffOutcome(db: Db, agent: AgentId, agency: nat, key: OffKey)
    ensures var (r, answer) := DeleteTimeOff(db, agent, agency, key);
      && answer == (
        if !WorksFor(db, agent, agency) then OffRefused(AgentNotFound)
        else if !(key in db.timeOff && db.timeOff[key].agent == agent) then OffRefused(TimeOffNotFound)
        else if key.Imported? then OffRefused(ImportedBlock)
        else Deleted)
      && r == db.(timeOff := r.timeOff)
      && (forall k :: k in r.timeOff <==> k in db.timeOff && !(answer == Deleted && k == key))
      && (forall k :: k in r.timeOff ==> r.timeOff[k] == db.timeOff[k])
  {
  }

  // ------------------------------------------------------------ a sync

  /** The agent's imported rows that meet [now, until). */
  function ImportedIn(table: map<OffKey, TimeOff>, agent: AgentId, now: Time, until: Time): set<OffKey> {
    set k | k in table && k.Imported? && k.agent == agent && table[k].span.end > now && table[k].span.start < until
  }

  /** An event blocks time unless it is cancelled, marked free, the service's own, without a start, or
    * without length. */
  predicate BlocksTime(e: CalendarImport.FeedEvent) {
    && !e.cancelled && !e.transparent && !OwnUid(e.uid)
    && e.start.Some? && Begins(e) < Finishes(e)
  }

  predicate OwnUid(uid: string) {
    |uid| >= 11 && uid[|uid| - 11..] == "@homelitics"
  }

  /** A date at midnight and a floating time by the agents' clock, five hours behind UTC. */
  function Instant(w: CalendarImport.When): Time {
    match w
    case AllDay(day) => day * 86_400_000_000 + 18_000_000_000
    case Floating(local) => local + 18_000_000_000
    case Zoned(utc) => utc
  }

  function Begins(e: CalendarImport.FeedEvent): Time
    requires e.start.Some?
  {
    Instant(e.start.value)
  }

  /** Its own end, or its start and its length, or the end of its day, or at once. */
  function Finishes(e: CalendarImport.FeedEvent): Time
    requires e.start.Some?
  {
    if e.end.Some? then Instant(e.end.value)
    else if e.duration.Some? then Begins(e) + e.duration.value
    else if e.start.value.AllDay? then Begins(e) + 86_400_000_000
    else Begins(e)
  }

  function NameOf(e: CalendarImport.FeedEvent): Uid
    requires e.start.Some?
  {
    Uid(if e.uid == "" then "no-uid" else e.uid, Begins(e))
  }

  lemma BlocksTimeCounts(e: CalendarImport.FeedEvent)
    ensures CalendarImport.Counts(e) <==> BlocksTime(e)
    ensures e.start.Some? ==>
      CalendarImport.KeyOf(e) == NameOf(e) && CalendarImport.SpanOf(e) == Interval(Begins(e), Finishes(e))
  {
  }

  /** The keys a feed names. */
  ghost predicate Names(events: seq<CalendarImport.FeedEvent>, u: Uid) {
    exists i :: 0 <= i < |events| && BlocksTime(events[i]) && NameOf(events[i]) == u
  }

  function Blocking(events: seq<CalendarImport.FeedEvent>): nat {
    if events == [] then 0
    else Blocking(events[..|events| - 1]) + if BlocksTime(events[|events| - 1]) then 1 else 0
  }

  lemma {:induction false} ParsedAreNamed(events: seq<CalendarImport.FeedEvent>, u: Uid)
    ensures u in CalendarImport.Parse(events) <==> Names(events, u)
  {
    if events != [] {
      var n := |events| - 1;
      ParsedAreNamed(events[..n], u);
      BlocksTimeCounts(events[n]);
      if i :| 0 <= i < |events| && BlocksTime(events[i]) && NameOf(events[i]) == u {
        assert i < n ==> events[..n][i] == events[i];
      }
      if i :| 0 <= i < n && BlocksTime(events[..n][i]) && NameOf(events[..n][i]) == u {
        assert events[i] == events[..n][i];
      }
    }
  }

  lemma {:induction false} SkippedAreTheRest(events: seq<CalendarImport.FeedEvent>)
    ensures CalendarImport.Skipped(events) + Blocking(events) == |events|
  {
    if events != [] {
      SkippedAreTheRest(events[..|events| - 1]);
      BlocksTimeCounts(events[|events| - 1]);
    }
  }

  function Gone(known: set<OffKey>, after: map<OffKey, TimeOff>): set<OffKey> {
    set k | k in known && k !in after
  }

  function Unknown(agent: AgentId, named: set<Uid>, known: set<OffKey>): set<Uid> {
    set u | u in named && Imported(agent, u) !in known
  }

  /** All keys a feed names. */
  function NamedKeys(events: seq<CalendarImport.FeedEvent>): set<Uid> {
    set i | 0 <= i < |events| && BlocksTime(events[i]) :: NameOf(events[i])
  }

  lemma ParsedKeys(events: seq<CalendarImport.FeedEvent>)
    ensures CalendarImport.Parse(events).Keys == NamedKeys(events)
  {
    forall u ensures u in CalendarImport.Parse(events).Keys <==> u in NamedKeys(events) {
      ParsedAreNamed(events, u);
    }
  }

  /** A sync answers with what it did: as removed the imported rows of the window that are gone, as
    * imported the keys named that were not among them, as skipped the events that block nothing. */
  lemma SyncAnswers(
      db: Db, cfg: Config, agent: AgentId, events: seq<CalendarImport.FeedEvent>, now: Time, until: Time)
    requires agent in db.calendars && until == now + cfg.window
    ensures var (r, answer) := SyncCalendar(db, cfg, agent, Feed(events), true, now);
      var known := ImportedIn(db.timeOff, agent, now, until);
      && answer.Synced?
      && answer.removed == |Gone(known, r.timeOff)|
      && answer.imported == |Unknown(agent, NamedKeys(events), known)|
      && answer.skipped + Blocking(events) == |events|
  {
    SyncReconciles(db, cfg, agent, events, now);
    assert WindowEnd(cfg, now) == until;
    ReconciledAnswers(db, agent, now, until, CalendarImport.Parse(events), CalendarImport.Skipped(events));
    SkippedAreTheRest(events);
    ParsedKeys(events);
  }

  lemma ReconciledAnswers(
      db: Db, agent: AgentId, now: Time, until: Time, blocks: CalendarImport.Blocks, skipped: nat)
    ensures var (r, answer) := Reconciled(db, agent, now, until, blocks, skipped);
      var known := ImportedIn(db.timeOff, agent, now, until);
      answer == Synced(|Unknown(agent, blocks.Keys, known)|, |Gone(known, r.timeOff)|, skipped)
  {
    RemovedAreGone(db.timeOff, agent, now, until, blocks);
    ImportedAreNew(db.timeOff, agent, now, until, blocks);
  }

  lemma SyncReconciles(db: Db, cfg: Config, agent: AgentId, events: seq<CalendarImport.FeedEvent>, now: Time)
    requires agent in db.calendars
    ensures SyncCalendar(db, cfg, agent, Feed(events), true, now)
      == Reconciled(db, agent, now, WindowEnd(cfg, now), CalendarImport.Parse(events), CalendarImport.Skipped(events))
  {
  }

  lemma RemovedAreGone(
      table: map<OffKey, TimeOff>, agent: AgentId, now: Time, until: Time, blocks: CalendarImport.Blocks)
    ensures var after := CalendarImport.Reconcile(table, agent, now, until, blocks);
      CalendarImport.Removals(table, agent, now, until, blocks)
        == |Gone(ImportedIn(table, agent, now, until), after)|
  {
    var after := CalendarImport.Reconcile(table, agent, now, until, blocks);
    var known := ImportedIn(table, agent, now, until);
    assert known == CalendarImport.Known(table, agent, now, until);
    forall k | k in known ensures k !in after <==> k !in CalendarImport.RowsFor(agent, blocks) {
      CalendarImport.ReconciledRow(table, agent, now, until, blocks, k);
    }
    assert known - CalendarImport.RowsFor(agent, blocks).Keys == Gone(known, after);
  }

  lemma ImportedAreNew(
      table: map<OffKey, TimeOff>, agent: AgentId, now: Time, until: Time, blocks: CalendarImport.Blocks)
    ensures CalendarImport.Imports(table, agent, now, until, blocks)
      == |Unknown(agent, blocks.Keys, ImportedIn(table, agent, now, until))|
  {
    var known := ImportedIn(table, agent, now, until);
    assert known == CalendarImport.Known(table, agent, now, until);
    var keys := CalendarImport.RowsFor(agent, blocks).Keys - known;
    var uids := Unknown(agent, blocks.Keys, known);
    assert keys == set u | u in uids :: Imported(agent, u);
    SameSize(agent, uids, keys);
  }

  lemma {:induction false} SameSize(agent: AgentId, uids: set<Uid>, keys: set<OffKey>)
    requires keys == set u | u in uids :: Imported(agent, u)
    ensures |keys| == |uids|
    decreases uids
  {
    if u :| u in uids {
      assert keys - {Imported(agent, u)} == set w | w in uids - {u} :: Imported(agent, w);
      SameSize(agent, uids - {u}, keys - {Imported(agent, u)});
    } else {
      assert uids == {} && keys == {};
    }
  }

  /** And it does exactly that to the rows: in the window, each key named is there with the span of the
    * last event that names it, and no other; out of it, and everywhere else, nothing changed. */
  lemma SyncWrites(db: Db, cfg: Config, agent: AgentId, events: seq<CalendarImport.FeedEvent>, now: Time, k: OffKey)
    requires agent in db.calendars
    ensures var r := SyncCalendar(db, cfg, agent, Feed(events), true, now).0;
      && r == db.(timeOff := r.timeOff,
                  calendars := db.calendars[agent := ExternalCalendar(Some(now), false)])
      && if k.Imported? && k.agent == agent && Names(events, k.uid) then
           && k in r.timeOff && r.timeOff[k].agent == agent
           && exists i :: 0 <= i < |events| && LastNamed(events, k.uid, i)
                && r.timeOff[k].span == Interval(Begins(events[i]), Finishes(events[i]))
         else if k in ImportedIn(db.timeOff, agent, now, now + cfg.window) then k !in r.timeOff
         else (k in r.timeOff <==> k in db.timeOff) && (k in db.timeOff ==> r.timeOff[k] == db.timeOff[k])
  {
    var blocks := CalendarImport.Parse(events);
    CalendarImport.ReconciledRow(db.timeOff, agent, now, now + cfg.window, blocks, k);
    if k.Imported? {
      ParsedAreNamed(events, k.uid);
      CalendarImport.ParseKeepsTheLast(events, k.uid);
      if i :| CalendarImport.LastFor(events, k.uid, i) {
        forall j | 0 <= j < |events| ensures CalendarImport.Counts(events[j]) <==> BlocksTime(events[j]) {
          BlocksTimeCounts(events[j]);
        }
        BlocksTimeCounts(events[i]);
        assert LastNamed(events, k.uid, i);
      }
    }
  }

  ghost predicate LastNamed(events: seq<CalendarImport.FeedEvent>, u: Uid, i: int) {
    && 0 <= i < |events| && BlocksTime(events[i]) && NameOf(events[i]) == u
    && forall j :: i < j < |events| && BlocksTime(events[j]) ==> NameOf(events[j]) != u
  }

  /** What else a sync can meet: no calendar, a feed that cannot be read, another sync at work. None of
    * them touches a busy row. */
  lemma SyncRefusals(db: Db, cfg: Config, agent: AgentId, fetch: Fetch, lockFree: bool, now: Time)
    ensures agent !in db.calendars ==>
      SyncCalendar(db, cfg, agent, fetch, lockFree, now) == (db, SyncRefused(NoCalendar))
    ensures agent in db.calendars && fetch.FetchFailed? ==>
      SyncCalendar(db, cfg, agent, fetch, lockFree, now)
        == (db.(calendars := db.calendars[agent := ExternalCalendar(Some(now), true)]), SyncError)
    ensures agent in db.calendars && fetch.Feed? && !lockFree ==>
      var (r, answer) := SyncCalendar(db, cfg, agent, fetch, lockFree, now);
      r == db && answer.Synced? && answer.imported == answer.removed == 0
      && answer.skipped + Blocking(fetch.events) == |fetch.events|
  {
    if fetch.Feed? {
      SkippedAreTheRest(fetch.events);
    }
  }

  // ------------------------------------------------------------ the connection

  /** Disconnecting takes away the connection and every imported row of that agent, and nothing else. */
  lemma DisconnectWrites(db: Db, agent: AgentId)
    ensures var r := RemoveCalendar(db, agent);
      if agent !in db.calendars then r == db
      else
        && r == db.(timeOff := r.timeOff, calendars := r.calendars)
        && r.calendars == db.calendars - {agent}
        && (forall k :: k in r.timeOff <==> k in db.timeOff && !(k.Imported? && k.agent == agent))
        && (forall k :: k in r.timeOff ==> r.timeOff[k] == db.timeOff[k])
  {
  }

  lemma ConnectWrites(db: Db, agent: AgentId)
    ensures ConnectCalendar(db, agent) == db.(calendars := db.calendars[agent := ExternalCalendar(None, false)])
  {
  }
}

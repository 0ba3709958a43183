/** Imports (services/calendar_import.py): which intervals an expanded feed stands for, and how the
  * imported time-off rows are brought to match them. */
module CalendarImport {
  import opened Domain

  // ------------------------------------------------------------ reading the feed

  /** A calendar value: a bare date, a floating wall-clock time, or an instant. */
  datatype When = AllDay(day: int) | Floating(local: Time) | Zoned(utc: Time)

  /** A value read at some offset from UTC: only dates and floating times depend on it. */
  function AsUtcAt(w: When, zone: Time): Time {
    match w
    case AllDay(day) => day * DAY - zone
    case Floating(local) => local - zone
    case Zoned(utc) => utc
  }

  /** _as_utc reads them on the agents' clock. */
  function AsUtc(w: When): Time {
    AsUtcAt(w, ZONE)
  }

  /** One occurrence, already expanded over the window. */
  datatype FeedEvent = FeedEvent(
    uid: string, cancelled: bool, transparent: bool,
    start: Option<When>, end: Option<When>, duration: Option<Time>)

  const OWN_SUFFIX := "@homelitics"

  predicate EndsWith(s: string, suffix: string) {
    |suffix| <= |s| && s[|s| - |suffix|..] == suffix
  }

  predicate Ignored(e: FeedEvent) {
    e.cancelled || e.transparent || EndsWith(e.uid, OWN_SUFFIX)
  }

  /** Section 3.6.1 of RFC 5545: DTEND, else DTSTART + DURATION, else one day for a date, else
    * the event takes no time. */
  function EndAt(e: FeedEvent, zone: Time): Time
    requires e.start.Some?
  {
    var start := AsUtcAt(e.start.value, zone);
    if e.end.Some? then AsUtcAt(e.end.value, zone)
    else if e.duration.Some? then start + e.duration.value
    else if e.start.value.AllDay? then start + DAY
    else start
  }

  function EndOf(e: FeedEvent): Time
    requires e.start.Some?
  {
    EndAt(e, ZONE)
  }

  predicate Counts(e: FeedEvent) {
    !Ignored(e) && e.start.Some? && AsUtc(e.start.value) < EndOf(e)
  }

  function SpanOf(e: FeedEvent): Interval
    requires e.start.Some?
  {
    Interval(AsUtc(e.start.value), EndOf(e))
  }

  function KeyOf(e: FeedEvent): Uid
    requires e.start.Some?
  {
    Uid(if e.uid == "" then "no-uid" else e.uid, AsUtc(e.start.value))
  }

  type Blocks = map<Uid, Interval>

  function Parse(events: seq<FeedEvent>): Blocks {
    if events == [] then map[]
    else
      var before, e := Parse(events[..|events| - 1]), events[|events| - 1];
      if Counts(e) then before[KeyOf(e) := SpanOf(e)] else before
  }

  function Skipped(events: seq<FeedEvent>): nat {
    if events == [] then 0
    else Skipped(events[..|events| - 1]) + if Counts(events[|events| - 1]) then 0 else 1
  }

  /** parse_busy. */
  method ParseBusy(events: seq<FeedEvent>) returns (blocks: Blocks, skipped: nat)
    ensures blocks == Parse(events)
    ensures skipped == Skipped(events)
  {
    blocks, skipped := map[], 0;
    for i := 0 to |events|
      invariant blocks == Parse(events[..i]) && skipped == Skipped(events[..i])
    {
      assert events[..i + 1][..i] == events[..i];
      var event := events[i];
      if Ignored(event) || event.start.None? {
        skipped := skipped + 1;
        continue;
      }
      var start := AsUtc(event.start.value);
      var end := start;
      if event.end.Some? {
        end := AsUtc(event.end.value);
      } else if event.duration.Some? {
        end := start + event.duration.value;
      } else if event.start.value.AllDay? {
        end := start + DAY;
      }
      if end <= start {
        skipped := skipped + 1;
        continue;
      }
      blocks := blocks[KeyOf(event) := Interval(start, end)];
    }
    assert events[..|events|] == events;
  }

  /** The last counted event with a block's key. */
  ghost predicate LastFor(events: seq<FeedEvent>, u: Uid, i: int) {
    && 0 <= i < |events| && Counts(events[i]) && KeyOf(events[i]) == u
    && forall j :: i < j < |events| && Counts(events[j]) ==> KeyOf(events[j]) != u
  }

  /** A key is a block exactly when some counted event carries it, and the last one decides. */
  lemma {:induction false} ParseKeepsTheLast(events: seq<FeedEvent>, u: Uid)
    ensures u in Parse(events) <==> exists i :: LastFor(events, u, i)
    ensures forall i :: LastFor(events, u, i) ==> Parse(events)[u] == SpanOf(events[i])
    ensures u in Parse(events) ==> Parse(events)[u].start == u.start < Parse(events)[u].end
  {
    if events != [] {
      var n := |events| - 1;
      var before, e := events[..n], events[n];
      ParseKeepsTheLast(before, u);
      if Counts(e) && KeyOf(e) == u {
        assert LastFor(events, u, n);
      } else {
        assert forall i :: LastFor(before, u, i) ==> LastFor(events, u, i);
        assert forall i :: LastFor(events, u, i) ==> LastFor(before, u, i);
      }
    }
  }

  /** An all-day event blocks exactly its own days, on the agents' clock. */
  lemma AllDayBlocksItsDays(e: FeedEvent, t: Time)
    requires e.start.Some? && e.start.value.AllDay?
    requires (e.end.None? && e.duration.None?) || (e.end.Some? && e.end.value.AllDay?)
    ensures var last := if e.end.Some? then e.end.value.day - 1 else e.start.value.day;
            SpanOf(e).start <= t < SpanOf(e).end <==> e.start.value.day <= LocalDay(t) <= last
  {
    var first := e.start.value.day;
    var after := if e.end.Some? then e.end.value.day else first + 1;
    assert LocalMidnight(first) <= t <==> first <= LocalDay(t);
    assert LocalMidnight(after) <= t <==> after <= LocalDay(t);
  }

  // ------------------------------------------------------------ reconciling

  predicate Meets(span: Interval, now: Time, windowEnd: Time) {
    span.end > now && span.start < windowEnd
  }

  predicate InWindow(table: map<OffKey, TimeOff>, key: OffKey, agent: AgentId, now: Time, windowEnd: Time) {
    key in table && key.Imported? && key.agent == agent && Meets(table[key].span, now, windowEnd)
  }

  /** The agent's imported rows that meet the window. */
  function Known(table: map<OffKey, TimeOff>, agent: AgentId, now: Time, windowEnd: Time): set<OffKey> {
    set key | key in table && InWindow(table, key, agent, now, windowEnd)
  }

  /** The rows the parsed blocks stand for. */
  function RowsFor(agent: AgentId, blocks: Blocks): map<OffKey, TimeOff> {
    map u | u in blocks :: Imported(agent, u) := TimeOff(agent, blocks[u])
  }

  /** Upsert every parsed row, delete every known row the feed no longer names. */
  function Reconcile(
    table: map<OffKey, TimeOff>, agent: AgentId, now: Time, windowEnd: Time, blocks: Blocks): map<OffKey, TimeOff>
  {
    var rows := RowsFor(agent, blocks);
    (table + rows) - (Known(table, agent, now, windowEnd) - rows.Keys)
  }

  function Imports(table: map<OffKey, TimeOff>, agent: AgentId, now: Time, windowEnd: Time, blocks: Blocks): nat {
    |RowsFor(agent, blocks).Keys - Known(table, agent, now, windowEnd)|
  }

  function Removals(table: map<OffKey, TimeOff>, agent: AgentId, now: Time, windowEnd: Time, blocks: Blocks): nat {
    |Known(table, agent, now, windowEnd) - RowsFor(agent, blocks).Keys|
  }

  /** What one key holds after a sync. */
  lemma ReconciledRow(
      table: map<OffKey, TimeOff>, agent: AgentId, now: Time, windowEnd: Time, blocks: Blocks, key: OffKey)
    ensures var after := Reconcile(table, agent, now, windowEnd, blocks);
            if key.Imported? && key.agent == agent && key.uid in blocks then
              key in after && after[key] == TimeOff(agent, blocks[key.uid])
            else if InWindow(table, key, agent, now, windowEnd) then key !in after
            else (key in after <==> key in table) && (key in table ==> after[key] == table[key])
  {
    assert key in RowsFor(agent, blocks) <==> key.Imported? && key.agent == agent && key.uid in blocks;
  }

  /** After a good sync the agent's imported rows that meet the window are exactly the parsed
    * blocks that meet it, as a uid-to-interval map. */
  lemma SyncIsExact(
      table: map<OffKey, TimeOff>, agent: AgentId, now: Time, windowEnd: Time, blocks: Blocks, u: Uid)
    ensures var after := Reconcile(table, agent, now, windowEnd, blocks);
            && (InWindow(after, Imported(agent, u), agent, now, windowEnd)
                <==> u in blocks && Meets(blocks[u], now, windowEnd))
            && (u in blocks ==> after[Imported(agent, u)] == TimeOff(agent, blocks[u]))
  {
    ReconciledRow(table, agent, now, windowEnd, blocks, Imported(agent, u));
  }

  /** Manual time off, other agents' rows, and this agent's rows outside the window under uids the
    * feed no longer names are left as they were. */
  lemma SyncTouchesNothingElse(
      table: map<OffKey, TimeOff>, agent: AgentId, now: Time, windowEnd: Time, blocks: Blocks, key: OffKey)
    requires key.Manual? || key.agent != agent
          || (key.uid !in blocks && !InWindow(table, key, agent, now, windowEnd))
    ensures var after := Reconcile(table, agent, now, windowEnd, blocks);
            (key in after <==> key in table) && (key in table ==> after[key] == table[key])
  {
    ReconciledRow(table, agent, now, windowEnd, blocks, key);
  }

  ghost predicate AllMeet(blocks: Blocks, now: Time, windowEnd: Time) {
    forall u :: u in blocks ==> Meets(blocks[u], now, windowEnd)
  }

  /** The parsed rows that meet the window. */
  function Meeting(agent: AgentId, blocks: Blocks, now: Time, windowEnd: Time): set<OffKey> {
    var rows := RowsFor(agent, blocks);
    set key | key in rows && Meets(rows[key].span, now, windowEnd)
  }

  lemma KnownAfterSync(table: map<OffKey, TimeOff>, agent: AgentId, now: Time, windowEnd: Time, blocks: Blocks)
    ensures Known(Reconcile(table, agent, now, windowEnd, blocks), agent, now, windowEnd)
         == Meeting(agent, blocks, now, windowEnd)
  {
    var after := Reconcile(table, agent, now, windowEnd, blocks);
    forall key ensures key in Known(after, agent, now, windowEnd) <==> key in Meeting(agent, blocks, now, windowEnd) {
      ReconciledRow(table, agent, now, windowEnd, blocks, key);
    }
  }

  lemma AllMeetIffAllKnown(agent: AgentId, blocks: Blocks, now: Time, windowEnd: Time)
    ensures Meeting(agent, blocks, now, windowEnd) <= RowsFor(agent, blocks).Keys
    ensures Meeting(agent, blocks, now, windowEnd) == RowsFor(agent, blocks).Keys <==> AllMeet(blocks, now, windowEnd)
  {
    var rows := RowsFor(agent, blocks);
    assert forall u :: u in blocks ==> Imported(agent, u) in rows && rows[Imported(agent, u)].span == blocks[u];
    if Meeting(agent, blocks, now, windowEnd) == rows.Keys {
      forall u | u in blocks ensures Meets(blocks[u], now, windowEnd) {
        assert Imported(agent, u) in Meeting(agent, blocks, now, windowEnd);
      }
    }
  }

  lemma EqualSizeSubset<T>(a: set<T>, b: set<T>)
    requires a <= b
    ensures |a| <= |b| && (|a| == |b| <==> a == b)
  {
    assert b == a + (b - a);
  }

  lemma BalanceOfSets<T>(known: set<T>, named: set<T>, meeting: set<T>)
    requires meeting <= named
    ensures |named - known| - |known - named| == |meeting| - |known| <==> meeting == named
  {
    EqualSizeSubset(meeting, named);
    assert named == (named - known) + (named * known);
    assert known == (known - named) + (named * known);
  }

  /** The reported numbers balance: imported minus removed is the change in the number of rows
    * meeting the window, exactly when every parsed block meets it. */
  lemma SyncCountsBalance(table: map<OffKey, TimeOff>, agent: AgentId, now: Time, windowEnd: Time, blocks: Blocks)
    ensures var after := Reconcile(table, agent, now, windowEnd, blocks);
            Imports(table, agent, now, windowEnd, blocks) - Removals(table, agent, now, windowEnd, blocks)
              == |Known(after, agent, now, windowEnd)| - |Known(table, agent, now, windowEnd)|
            <==> AllMeet(blocks, now, windowEnd)
  {
    KnownAfterSync(table, agent, now, windowEnd, blocks);
    AllMeetIffAllKnown(agent, blocks, now, windowEnd);
    BalanceOfSets(Known(table, agent, now, windowEnd), RowsFor(agent, blocks).Keys,
                  Meeting(agent, blocks, now, windowEnd));
  }

  /** Syncing the same feed again at the same time changes nothing, and reports nothing imported
    * and nothing removed exactly when every parsed block meets the window. */
  lemma SyncIsIdempotent(table: map<OffKey, TimeOff>, agent: AgentId, now: Time, windowEnd: Time, blocks: Blocks)
    ensures var after := Reconcile(table, agent, now, windowEnd, blocks);
            && Reconcile(after, agent, now, windowEnd, blocks) == after
            && Removals(after, agent, now, windowEnd, blocks) == 0
            && (Imports(after, agent, now, windowEnd, blocks) == 0 <==> AllMeet(blocks, now, windowEnd))
  {
    var after := Reconcile(table, agent, now, windowEnd, blocks);
    var again := Reconcile(after, agent, now, windowEnd, blocks);
    KnownAfterSync(table, agent, now, windowEnd, blocks);
    AllMeetIffAllKnown(agent, blocks, now, windowEnd);
    var known, rows := Known(after, agent, now, windowEnd), RowsFor(agent, blocks);
    assert known - rows.Keys == {};
    assert rows.Keys - known == {} <==> rows.Keys == known;
    forall key ensures key in again <==> key in after
               ensures key in after ==> again[key] == after[key] {
      ReconciledRow(after, agent, now, windowEnd, blocks, key);
      ReconciledRow(table, agent, now, windowEnd, blocks, key);
    }
  }

  // ------------------------------------------------------------ what the expansion hands over

  /** The expansion over the window hands over events that overlap it, reading dates and floating
    * times at an offset of its own. */
  predicate Expanded(e: FeedEvent, zone: Time, now: Time, windowEnd: Time) {
    e.start.Some? ==> Meets(Interval(AsUtcAt(e.start.value, zone), EndAt(e, zone)), now, windowEnd)
  }

  ghost predicate ExpandedFeed(events: seq<FeedEvent>, zone: Time, now: Time, windowEnd: Time) {
    forall i :: 0 <= i < |events| ==> Expanded(events[i], zone, now, windowEnd)
  }

  predicate Anchored(w: Option<When>) {
    w.Some? ==> w.value.Zoned?
  }

  /** An event whose times carry an offset or an instant of their own. */
  predicate AllAnchored(e: FeedEvent) {
    Anchored(e.start) && Anchored(e.end)
  }

  lemma BlocksMeet(events: seq<FeedEvent>, now: Time, windowEnd: Time)
    requires forall i :: 0 <= i < |events| && Counts(events[i]) ==> Meets(SpanOf(events[i]), now, windowEnd)
    ensures AllMeet(Parse(events), now, windowEnd)
  {
    var blocks := Parse(events);
    forall u | u in blocks ensures Meets(blocks[u], now, windowEnd) {
      ParseKeepsTheLast(events, u);
      var i :| LastFor(events, u, i);
    }
  }

  lemma ExpandedFeedsMeet(events: seq<FeedEvent>, zone: Time, now: Time, windowEnd: Time)
    requires ExpandedFeed(events, zone, now, windowEnd)
    requires zone == ZONE || forall i :: 0 <= i < |events| ==> AllAnchored(events[i])
    ensures AllMeet(Parse(events), now, windowEnd)
  {
    forall i | 0 <= i < |events| && Counts(events[i]) ensures Meets(SpanOf(events[i]), now, windowEnd) {
      assert Expanded(events[i], zone, now, windowEnd);
    }
    BlocksMeet(events, now, windowEnd);
  }

  /** Events that carry their own offset, and any events at all if the expansion reads dates and
    * floating times on the agents' clock: every parsed block meets the window. So the counts of a sync
    * balance, and syncing the same feed again reports nothing. */
  lemma ExpandedFeedsBalance(
      table: map<OffKey, TimeOff>, agent: AgentId, events: seq<FeedEvent>, zone: Time, now: Time, windowEnd: Time)
    requires ExpandedFeed(events, zone, now, windowEnd)
    requires zone == ZONE || forall i :: 0 <= i < |events| ==> AllAnchored(events[i])
    ensures var blocks := Parse(events);
      var after := Reconcile(table, agent, now, windowEnd, blocks);
      && AllMeet(blocks, now, windowEnd)
      && Imports(table, agent, now, windowEnd, blocks) - Removals(table, agent, now, windowEnd, blocks)
         == |Known(after, agent, now, windowEnd)| - |Known(table, agent, now, windowEnd)|
      && Imports(after, agent, now, windowEnd, blocks) == 0 && Removals(after, agent, now, windowEnd, blocks) == 0
  {
    ExpandedFeedsMeet(events, zone, now, windowEnd);
    SyncCountsBalance(table, agent, now, windowEnd, Parse(events));
    SyncIsIdempotent(table, agent, now, windowEnd, Parse(events));
  }

  /** Whatever the offset, a block lies outside the window by no more than the two clocks differ. */
  lemma StrayOnlyNearTheEdges(e: FeedEvent, zone: Time, now: Time, windowEnd: Time)
    requires Counts(e) && Expanded(e, zone, now, windowEnd)
    ensures var gap := if zone > ZONE then zone - ZONE else ZONE - zone;
      Meets(SpanOf(e), now - gap, windowEnd + gap)
  {
  }

  /** An instant of floating time that the expansion puts inside the window and the agents' clock
    * outside it. */
  function Between(zone: Time, now: Time, windowEnd: Time): FeedEvent {
    var local := if zone > ZONE then windowEnd - 1 + zone else now + zone;
    FeedEvent("call", false, false, Some(Floating(local)), None, Some(1))
  }

  lemma ParsesAlone(e: FeedEvent)
    requires Counts(e)
    ensures Parse([e]) == map[KeyOf(e) := SpanOf(e)]
  {
    var before: seq<FeedEvent> := [e][..0];
    assert Parse(before) == map[];
  }

  /** Exactly when: over every window that is not empty, all feeds the expansion can hand over leave
    * only blocks that meet it, and so balance, if and only if the expansion reads dates and floating
    * times as the agents' clock does. */
  lemma FeedsBalanceIff(zone: Time, now: Time, windowEnd: Time)
    requires now < windowEnd
    ensures (forall events :: ExpandedFeed(events, zone, now, windowEnd) ==> AllMeet(Parse(events), now, windowEnd))
      <==> zone == ZONE
  {
    if zone == ZONE {
      forall events | ExpandedFeed(events, zone, now, windowEnd) ensures AllMeet(Parse(events), now, windowEnd) {
        ExpandedFeedsMeet(events, zone, now, windowEnd);
      }
    } else {
      var e := Between(zone, now, windowEnd);
      assert !EndsWith(e.uid, OWN_SUFFIX);
      ParsesAlone(e);
      assert ExpandedFeed([e], zone, now, windowEnd);
      assert KeyOf(e) in Parse([e]) && !Meets(Parse([e])[KeyOf(e)], now, windowEnd);
    }
  }

  /** The whole of the second day, as a bare date. */
  const STRAY := FeedEvent("fair", false, false, Some(AllDay(1)), None, None)

  lemma StrayParses()
    ensures Parse([STRAY]) == map[KeyOf(STRAY) := Interval(DAY + 5 * HOUR, 2 * DAY + 5 * HOUR)]
  {
    assert !EndsWith(STRAY.uid, OWN_SUFFIX);
    ParsesAlone(STRAY);
  }

  lemma StrayRows(blocks: Blocks)
    requires blocks == map[KeyOf(STRAY) := Interval(DAY + 5 * HOUR, 2 * DAY + 5 * HOUR)]
    ensures RowsFor(0, blocks)
      == map[Imported(0, KeyOf(STRAY)) := TimeOff(0, Interval(DAY + 5 * HOUR, 2 * DAY + 5 * HOUR))]
    ensures Meeting(0, blocks, 0, DAY + HOUR) == {} == Known(map[], 0, 0, DAY + HOUR)
  {
  }

  /** If dates are expanded as UTC, a bare date that begins before the window's end there and after it
    * on the agents' clock is handed over: its row is imported and meets no window, so the sync reports
    * one import that changed no count, and the next sync reports it again. */
  lemma StrayBlockUnbalances()
    ensures var (now, windowEnd, blocks) := (0, DAY + HOUR, Parse([STRAY]));
      var after := Reconcile(map[], 0, now, windowEnd, blocks);
      && ExpandedFeed([STRAY], 0, now, windowEnd)
      && Imports(map[], 0, now, windowEnd, blocks) == 1 && Removals(map[], 0, now, windowEnd, blocks) == 0
      && |Known(after, 0, now, windowEnd)| == |Known(map[], 0, now, windowEnd)|
      && Imports(after, 0, now, windowEnd, blocks) == 1
  {
    StrayParses();
    StrayRows(Parse([STRAY]));
    KnownAfterSync(map[], 0, 0, DAY + HOUR, Parse([STRAY]));
  }
}

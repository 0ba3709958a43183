/** The funnel report (services/analytics.py) against the stage_conversion view (schema-2.sql):
  * two computations of the same numbers, one filtered by cohort, one by lag() over present rows. */
module Analytics {
  import opened Domain
  import opened Funnel
  import opened Store
  import opened Invariants
  import opened History

  // ------------------------------------------------------------ the cohort

  /** Both days are calendar days on the agents' clock, and both are included. */
  datatype Filters = Filters(
    createdFrom: Option<int>, createdTo: Option<int>, agent: Option<AgentId>, listing: Option<nat>,
    property: Option<nat>, operation: Option<Operation>)

  const UNFILTERED := Filters(None, None, None, None, None, None)

  predicate CreatedWithin(f: Filters, createdAt: Time) {
    && (f.createdFrom.Some? ==> createdAt >= LocalMidnight(f.createdFrom.value))
    && (f.createdTo.Some? ==> createdAt < LocalMidnight(f.createdTo.value + 1))
  }

  predicate Matches(f: Filters, lead: Lead, listing: Listing) {
    && CreatedWithin(f, lead.createdAt)
    && (f.agent.Some? ==> lead.agent == f.agent.value)
    && (f.listing.Some? ==> lead.listing == f.listing.value)
    && (f.property.Some? ==> listing.property == f.property.value)
    && (f.operation.Some? ==> listing.operation == f.operation.value)
  }

  /** The rows of lead_outcome the report reads. */
  function Cohort(db: Db, agency: nat, f: Filters): set<LeadId> {
    set l | 0 <= l < |db.leads| && InAgency(db, db.leads[l].agent, agency)
         && db.leads[l].listing in db.listings && Matches(f, db.leads[l], db.listings[db.leads[l].listing])
  }

  /** The day filters mean days: a lead is in exactly when its local day is. */
  lemma CohortDaysAreInclusive(f: Filters, createdAt: Time)
    ensures CreatedWithin(f, createdAt) <==>
      (f.createdFrom.Some? ==> f.createdFrom.value <= LocalDay(createdAt))
      && (f.createdTo.Some? ==> LocalDay(createdAt) <= f.createdTo.value)
  {
    forall day ensures LocalMidnight(day) <= createdAt <==> day <= LocalDay(createdAt) {
      assert LocalDay(createdAt) * DAY <= createdAt + ZONE < LocalDay(createdAt) * DAY + DAY;
    }
  }

  function ThatReached(db: Db, cohort: set<LeadId>, s: Stage): set<LeadId> {
    set l | l in cohort && Reached(db.transitions, l, s)
  }

  // ------------------------------------------------------------ percentages

  /** Hundredths of a percent, halves up, as Decimal.quantize does: keep the quotient, look at the
    * remainder. None for an empty base. */
  function Percent(n: nat, of: nat): Option<nat> {
    if of == 0 then None
    else
      var scaled := 10000 * n;
      Some(scaled / of + if 2 * (scaled % of) >= of then 1 else 0)
  }

  /** round(100.0 * n / nullif(prev, 0), 2), as Postgres does: floor of the value plus a half. */
  function Rounded(n: nat, prev: Option<nat>): Option<nat> {
    if prev.None? || prev.value == 0 then None
    else Some((2 * 10000 * n + prev.value) / (2 * prev.value))
  }

  lemma HalfUpIsFloorOfHalf(a: nat, b: nat)
    requires b > 0
    ensures (2 * a + b) / (2 * b) == a / b + if 2 * (a % b) >= b then 1 else 0
  {
    var q, r := a / b, a % b;
    assert a == b * q + r;
    var up := if 2 * r >= b then 1 else 0;
    assert 2 * a + b == (2 * b) * (q + up) + (2 * r + b - 2 * b * up);
    assert 0 <= 2 * r + b - 2 * b * up < 2 * b;
    UniqueQuotient(2 * a + b, 2 * b, q + up, 2 * r + b - 2 * b * up);
  }

  lemma UniqueQuotient(a: nat, b: nat, q: int, r: int)
    requires b > 0 && a == b * q + r && 0 <= r < b
    ensures a / b == q
  {
    var q' := a / b;
    assert a == b * q' + a % b;
    Multiples(b, q - q');
  }

  /** The only multiple of b strictly between -b and b is none at all. */
  lemma Multiples(b: int, d: int)
    requires b > 0 && -b < b * d < b
    ensures d == 0
  {
    assert d >= 1 ==> b * d >= b;
    assert d <= -1 ==> b * d <= -b;
  }

  lemma RoundingAgrees(n: nat, of: nat)
    ensures Percent(n, of) == Rounded(n, Some(of))
    ensures of > 0 && n <= of ==> Percent(n, of).value <= 10000
  {
    if of > 0 {
      HalfUpIsFloorOfHalf(10000 * n, of);
      if n <= of {
        var scaled := 10000 * n;
        assert scaled == of * (scaled / of) + scaled % of;
        if scaled / of >= 10000 {
          assert of * (scaled / of) >= of * 10000;
        }
      }
    }
  }

  // ------------------------------------------------------------ the report

  const FUNNEL_STAGES: seq<Stage> := [Interested, VisitScheduled, Visited, Negotiating, Won]

  datatype StageLine = StageLine(stage: Stage, reached: nat, fromPrev: Option<nat>, ofFirst: Option<nat>)
  datatype Report = Report(stages: seq<StageLine>, lost: nat)

  /** count(*) for the first stage, count(*) filter (where reached_...) for the others. */
  function CountAt(db: Db, cohort: set<LeadId>, i: nat): nat
    requires i < 5
  {
    if i == 0 then |cohort| else |ThatReached(db, cohort, FUNNEL_STAGES[i])|
  }

  /** funnel. */
  function FunnelReport(db: Db, agency: nat, f: Filters): Report {
    var cohort := Cohort(db, agency, f);
    Report(
      seq(5, i requires 0 <= i < 5 => StageLine(
        FUNNEL_STAGES[i], CountAt(db, cohort, i),
        if i == 0 then None else Percent(CountAt(db, cohort, i), CountAt(db, cohort, i - 1)),
        Percent(CountAt(db, cohort, i), CountAt(db, cohort, 0)))),
      |ThatReached(db, cohort, Lost)|)
  }

  // ------------------------------------------------------------ the view

  const BY_SORT_ORDER: seq<Stage> := FUNNEL_STAGES + [Lost]

  /** Distinct leads of the agency with a row into the stage. */
  function ViewReached(db: Db, agency: nat, s: Stage): set<LeadId> {
    set l | 0 <= l < |db.leads| && InAgency(db, db.leads[l].agent, agency) && Reached(db.transitions, l, s)
  }

  /** Stages with at least one lead, in sort order: a stage nobody reached has no row at all. */
  function Present(db: Db, agency: nat, i: nat): seq<nat>
    requires i <= 6
    decreases 6 - i
  {
    if i == 6 then []
    else (if ViewReached(db, agency, BY_SORT_ORDER[i]) == {} then [] else [i]) + Present(db, agency, i + 1)
  }

  datatype ViewLine = ViewLine(stage: Stage, reached: nat, prev: Option<nat>, pct: Option<nat>)

  lemma {:induction false} PresentInRange(db: Db, agency: nat, i: nat, j: nat)
    requires i <= 6 && j < |Present(db, agency, i)|
    ensures Present(db, agency, i)[j] < 6
    decreases 6 - i
  {
    if i < 6 && ViewReached(db, agency, BY_SORT_ORDER[i]) == {} {
      PresentInRange(db, agency, i + 1, j);
    } else if i < 6 && j > 0 {
      PresentInRange(db, agency, i + 1, j - 1);
    }
  }

  /** stage_conversion: lag() takes whatever row comes before. */
  function Conversion(db: Db, agency: nat, j: nat): ViewLine
    requires j < |Present(db, agency, 0)|
  {
    PresentInRange(db, agency, 0, j);
    var stage := BY_SORT_ORDER[Present(db, agency, 0)[j]];
    var n := |ViewReached(db, agency, stage)|;
    if stage.Lost? || j == 0 then ViewLine(stage, n, None, None)
    else
      PresentInRange(db, agency, 0, j - 1);
      var lag := |ViewReached(db, agency, BY_SORT_ORDER[Present(db, agency, 0)[j - 1]])|;
      ViewLine(stage, n, Some(lag), Rounded(n, Some(lag)))
  }

  // ------------------------------------------------------------ reached in order

  /** On a service-written log a lead has been at INTERESTED, has been at each stage before any it
    * reached, and is never both won and lost. */
  lemma ReachedInOrder(db: Db, now: Time, l: LeadId, i: nat)
    requires Core(db, now) && l < |db.leads| && i < 5
    ensures Reached(db.transitions, l, Interested)
    ensures i > 0 && Reached(db.transitions, l, FUNNEL_STAGES[i]) ==> Reached(db.transitions, l, FUNNEL_STAGES[i - 1])
    ensures !(Reached(db.transitions, l, Won) && Reached(db.transitions, l, Lost))
  {
    EveryLeadsLogIsLegal(db, now, l);
    PathOrder(RowsOf(db.transitions, l), i);
    RowReached(db.transitions, l, Interested);
    RowReached(db.transitions, l, FUNNEL_STAGES[i]);
    if i > 0 {
      RowReached(db.transitions, l, FUNNEL_STAGES[i - 1]);
    }
    RowReached(db.transitions, l, Won);
    RowReached(db.transitions, l, Lost);
  }

  predicate Passes(rows: seq<Transition>, s: Stage) {
    exists k :: 0 <= k < |rows| && rows[k].to == s
  }

  lemma PathOrder(rows: seq<Transition>, i: nat)
    requires LegalPath(rows) && i < 5
    ensures Passes(rows, Interested)
    ensures i > 0 && Passes(rows, FUNNEL_STAGES[i]) ==> Passes(rows, FUNNEL_STAGES[i - 1])
    ensures !(Passes(rows, Won) && Passes(rows, Lost))
  {
    assert rows[0].to == Interested;
    if k :| i > 0 && 0 <= k < |rows| && rows[k].to == FUNNEL_STAGES[i] {
      PathReachesInOrder(rows, k);
      PathReachesInOrder(rows, k - 1);
      assert rows[k - 1].to == FUNNEL_STAGES[i - 1];
    }
    if k, m :| 0 <= k < |rows| && 0 <= m < |rows| && rows[k].to == Won && rows[m].to == Lost {
      PathReachesInOrder(rows, k);
      PathReachesInOrder(rows, m);
      assert Allowed(rows[m - 1].to, rows[m].to);
      PathReachesInOrder(rows, m - 1);
    }
  }

  lemma RowReached(log: seq<Transition>, l: LeadId, s: Stage)
    ensures Reached(log, l, s) <==> Passes(RowsOf(log, l), s)
  {
    RowsAreTheLeads(log, l);
    var rows := RowsOf(log, l);
    if Reached(log, l, s) {
      var i :| 0 <= i < |log| && log[i].lead == l && log[i].to == s;
      assert log[i] in rows;
      var k :| 0 <= k < |rows| && rows[k] == log[i];
      assert rows[k].to == s;
    } else {
      forall k | 0 <= k < |rows| ensures rows[k].to != s {
        assert rows[k] in rows;
        var i :| 0 <= i < |log| && log[i] == rows[k];
      }
    }
  }

  lemma SubsetSize<T>(a: set<T>, b: set<T>)
    requires a <= b
    ensures |a| <= |b|
  {
    assert b == a + (b - a);
  }

  lemma FirstIsEveryone(db: Db, now: Time, cohort: set<LeadId>)
    requires Core(db, now) && forall l :: l in cohort ==> l < |db.leads|
    ensures ThatReached(db, cohort, Interested) == cohort
  {
    forall l | l in cohort ensures Reached(db.transitions, l, Interested) {
      ReachedInOrder(db, now, l, 0);
    }
  }

  /** Counts never increase along the funnel, so no percentage passes 100, and no lead is counted
    * both won and lost: for any filters at all. */
  lemma FunnelNarrows(db: Db, now: Time, agency: nat, f: Filters, i: nat)
    requires Core(db, now) && 1 <= i < 5
    ensures var r := FunnelReport(db, agency, f);
      && r.stages[i].reached <= r.stages[i - 1].reached <= r.stages[0].reached
      && (r.stages[i].fromPrev.Some? ==> r.stages[i].fromPrev.value <= 10000)
      && (r.stages[i].ofFirst.Some? ==> r.stages[i].ofFirst.value <= 10000)
      && r.stages[4].reached + r.lost <= r.stages[0].reached
  {
    var cohort := Cohort(db, agency, f);
    FirstIsEveryone(db, now, cohort);
    forall l | l in ThatReached(db, cohort, FUNNEL_STAGES[i])
      ensures l in ThatReached(db, cohort, FUNNEL_STAGES[i - 1])
    {
      ReachedInOrder(db, now, l, i);
    }
    SubsetSize(ThatReached(db, cohort, FUNNEL_STAGES[i]), ThatReached(db, cohort, FUNNEL_STAGES[i - 1]));
    SubsetSize(ThatReached(db, cohort, FUNNEL_STAGES[i]), cohort);
    SubsetSize(ThatReached(db, cohort, FUNNEL_STAGES[i - 1]), cohort);
    RoundingAgrees(CountAt(db, cohort, i), CountAt(db, cohort, i - 1));
    RoundingAgrees(CountAt(db, cohort, i), CountAt(db, cohort, 0));
    WonAndLostFit(db, now, cohort);
  }

  lemma WonAndLostFit(db: Db, now: Time, cohort: set<LeadId>)
    requires Core(db, now) && forall l :: l in cohort ==> l < |db.leads|
    ensures |ThatReached(db, cohort, Won)| + |ThatReached(db, cohort, Lost)| <= |cohort|
  {
    var won, lost := ThatReached(db, cohort, Won), ThatReached(db, cohort, Lost);
    forall l | l in won ensures l !in lost {
      ReachedInOrder(db, now, l, 0);
    }
    SubsetSize(won + lost, cohort);
    assert |won + lost| == |won| + |lost|;
  }

  // ------------------------------------------------------------ report and view

  lemma UnfilteredIsTheView(db: Db, now: Time, agency: nat, s: Stage)
    requires Core(db, now)
    ensures ThatReached(db, Cohort(db, agency, UNFILTERED), s) == ViewReached(db, agency, s)
  {
  }

  lemma ReportCounts(db: Db, now: Time, agency: nat, i: nat)
    requires Core(db, now) && i < 5
    ensures FunnelReport(db, agency, UNFILTERED).stages[i].reached == |ViewReached(db, agency, FUNNEL_STAGES[i])|
    ensures FunnelReport(db, agency, UNFILTERED).lost == |ViewReached(db, agency, Lost)|
  {
    FirstIsEveryone(db, now, Cohort(db, agency, UNFILTERED));
    UnfilteredIsTheView(db, now, agency, FUNNEL_STAGES[i]);
    UnfilteredIsTheView(db, now, agency, Lost);
  }

  /** A lead at a later stage is counted at the one before. */
  lemma LaterIsFewer(db: Db, now: Time, agency: nat, k: nat)
    requires Core(db, now) && 1 <= k < 5
    ensures ViewReached(db, agency, FUNNEL_STAGES[k]) <= ViewReached(db, agency, FUNNEL_STAGES[k - 1])
  {
    forall l | l in ViewReached(db, agency, FUNNEL_STAGES[k])
      ensures l in ViewReached(db, agency, FUNNEL_STAGES[k - 1])
    {
      ReachedInOrder(db, now, l, k);
    }
  }

  /** How far down the funnel anyone got, counting from stage i. */
  function Depth(db: Db, agency: nat, i: nat): nat
    requires i <= 5
    decreases 5 - i
  {
    if i == 5 || ViewReached(db, agency, FUNNEL_STAGES[i]) == {} then i else Depth(db, agency, i + 1)
  }

  function UpTo(i: nat, n: nat): seq<nat>
    decreases n - i
  {
    if i >= n then [] else [i] + UpTo(i + 1, n)
  }

  lemma {:induction false} UpToAt(i: nat, n: nat)
    requires i <= n
    ensures |UpTo(i, n)| == n - i && forall j :: 0 <= j < n - i ==> UpTo(i, n)[j] == i + j
    decreases n - i
  {
    if i < n {
      UpToAt(i + 1, n);
    }
  }

  function LostRow(db: Db, agency: nat): seq<nat> {
    if ViewReached(db, agency, Lost) == {} then [] else [5]
  }

  lemma {:induction false} EmptyFrom(db: Db, now: Time, agency: nat, i: nat)
    requires Core(db, now) && i <= 5
    requires i < 5 ==> ViewReached(db, agency, FUNNEL_STAGES[i]) == {}
    ensures Present(db, agency, i) == LostRow(db, agency)
    ensures forall k :: i <= k < 5 ==> ViewReached(db, agency, FUNNEL_STAGES[k]) == {}
    decreases 5 - i
  {
    if i == 5 {
      assert Present(db, agency, 6) == [];
    } else {
      if i < 4 {
        LaterIsFewer(db, now, agency, i + 1);
      }
      EmptyFrom(db, now, agency, i + 1);
    }
  }

  /** Once a stage is empty every later one is, so the present rows are the first stages of the
    * funnel with no gap, and LOST last if anyone was lost. */
  lemma {:induction false} PresentHasNoGap(db: Db, now: Time, agency: nat, i: nat)
    requires Core(db, now) && i <= 5
    ensures var n := Depth(db, agency, i);
      && i <= n <= 5 && Present(db, agency, i) == UpTo(i, n) + LostRow(db, agency)
      && (forall k :: i <= k < 5 ==> (ViewReached(db, agency, FUNNEL_STAGES[k]) != {} <==> k < n))
    decreases 5 - i
  {
    if i == 5 || ViewReached(db, agency, FUNNEL_STAGES[i]) == {} {
      EmptyFrom(db, now, agency, i);
    } else {
      PresentHasNoGap(db, now, agency, i + 1);
      assert Present(db, agency, i) == [i] + Present(db, agency, i + 1);
    }
  }

  /** The view has a row for a funnel stage exactly when the report counts someone there, at the
    * same place, and its last row is LOST exactly when the report counts someone lost. */
  lemma ViewRowsAreTheReached(db: Db, now: Time, agency: nat)
    requires Core(db, now)
    ensures var r := FunnelReport(db, agency, UNFILTERED);
      && (forall i :: 0 <= i < 5 ==>
            (r.stages[i].reached > 0 <==> i < |Present(db, agency, 0)| && Present(db, agency, 0)[i] == i))
      && (forall j :: 0 <= j < |Present(db, agency, 0)| ==>
            Present(db, agency, 0)[j] == j || Present(db, agency, 0)[j] == 5)
      && (r.lost > 0 <==> 5 in Present(db, agency, 0))
  {
    RowsInOrder(db, now, agency);
    ReportCounts(db, now, agency, 0);
    NonEmpty(ViewReached(db, agency, Lost));
    forall i | 0 <= i < 5
      ensures FunnelReport(db, agency, UNFILTERED).stages[i].reached > 0 <==> i < Depth(db, agency, 0)
    {
      ReachedUpToDepth(db, now, agency, i);
    }
    LostComesLast(Present(db, agency, 0), Depth(db, agency, 0), LostRow(db, agency));
  }

  lemma RowsInOrder(db: Db, now: Time, agency: nat)
    requires Core(db, now)
    ensures var (n, rows) := (Depth(db, agency, 0), Present(db, agency, 0));
      && n <= 5 && |rows| == n + |LostRow(db, agency)|
      && forall j :: 0 <= j < |rows| ==> rows[j] == if j < n then j else 5
  {
    PresentHasNoGap(db, now, agency, 0);
    UpToAt(0, Depth(db, agency, 0));
  }

  lemma ReachedUpToDepth(db: Db, now: Time, agency: nat, i: nat)
    requires Core(db, now) && i < 5
    ensures FunnelReport(db, agency, UNFILTERED).stages[i].reached > 0 <==> i < Depth(db, agency, 0)
  {
    PresentHasNoGap(db, now, agency, 0);
    ReportCounts(db, now, agency, i);
    NonEmpty(ViewReached(db, agency, FUNNEL_STAGES[i]));
  }

  lemma NonEmpty<T>(s: set<T>)
    ensures |s| > 0 <==> s != {}
  {
  }

  lemma LostComesLast(rows: seq<nat>, n: nat, lost: seq<nat>)
    requires n <= 5 && (lost == [] || lost == [5]) && |rows| == n + |lost|
    requires forall j :: 0 <= j < |rows| ==> rows[j] == if j < n then j else 5
    ensures 5 in rows <==> lost != []
    ensures forall i :: 0 <= i < 5 ==> (i < n <==> i < |rows| && rows[i] == i)
  {
    if lost != [] {
      assert rows[n] == 5;
    }
  }

  /** Where the view has a row, the report has the same count, and the two percentages agree to the
    * hundredth although one is computed exactly in Python and the other by lag() and round(). */
  lemma ViewIsTheReport(db: Db, now: Time, agency: nat, j: nat)
    requires Core(db, now) && j < |Present(db, agency, 0)|
    ensures var (c, r) := (Conversion(db, agency, j), FunnelReport(db, agency, UNFILTERED));
      if c.stage.Lost? then c.reached == r.lost && c.pct.None?
      else
        && j < 5 && c.stage == r.stages[j].stage && c.reached == r.stages[j].reached && c.pct == r.stages[j].fromPrev
        && (j > 0 ==> c.prev == Some(r.stages[j - 1].reached))
  {
    ViewRowsAreTheReached(db, now, agency);
    if Present(db, agency, 0)[j] < 5 {
      StageRowIsTheReport(db, now, agency, j);
    } else {
      ReportCounts(db, now, agency, 0);
    }
  }

  lemma StageRowIsTheReport(db: Db, now: Time, agency: nat, j: nat)
    requires Core(db, now) && j < |Present(db, agency, 0)| && j < 5 && Present(db, agency, 0)[j] == j
    ensures var (c, line) := (Conversion(db, agency, j), FunnelReport(db, agency, UNFILTERED).stages[j]);
      && c.stage == line.stage && c.reached == line.reached && c.pct == line.fromPrev
      && (j > 0 ==> c.prev == Some(FunnelReport(db, agency, UNFILTERED).stages[j - 1].reached))
  {
    ReportCounts(db, now, agency, j);
    assert BY_SORT_ORDER[j] == FUNNEL_STAGES[j] && !FUNNEL_STAGES[j].Lost?;
    if j > 0 {
      LagIsTheStageBefore(db, now, agency, j);
      ReportCounts(db, now, agency, j - 1);
      LineFromPrev(db, agency, j);
    }
  }

  lemma LineFromPrev(db: Db, agency: nat, j: nat)
    requires 0 < j < 5
    ensures var r := FunnelReport(db, agency, UNFILTERED);
      r.stages[j].fromPrev == Rounded(r.stages[j].reached, Some(r.stages[j - 1].reached))
  {
    var r := FunnelReport(db, agency, UNFILTERED);
    RoundingAgrees(r.stages[j].reached, r.stages[j - 1].reached);
  }

  lemma LagIsTheStageBefore(db: Db, now: Time, agency: nat, j: nat)
    requires Core(db, now) && 0 < j < |Present(db, agency, 0)| && Present(db, agency, 0)[j] < 5
    ensures j < 5 && Present(db, agency, 0)[j] == j && Present(db, agency, 0)[j - 1] == j - 1
  {
    PresentHasNoGap(db, now, agency, 0);
    UpToAt(0, Depth(db, agency, 0));
  }
}

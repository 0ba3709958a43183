/** What the funnel report counts, in full. */
module ReportOutcomes {
  import opened Domain
  import opened Store
  import opened PlainTerms
  import opened Analytics

  /** The day of the agents' calendar an instant falls on. */
  function DayOf(t: Time): int {
    (t - 18_000_000_000) / 86_400_000_000
  }

  /** A lead is in the cohort when its agency, its day of creation, its agent, its listing and that
    * listing's property and operation are those asked for, each only if it is asked for. */
  lemma CohortMeans(db: Db, agency: nat, f: Filters, l: LeadId)
    ensures l in Cohort(db, agency, f) <==>
      && Sees(db, agency, l) && db.leads[l].listing in db.listings
      && var (lead, listing) := (db.leads[l], db.listings[db.leads[l].listing]);
         && (f.createdFrom.Some? ==> f.createdFrom.value <= DayOf(lead.createdAt))
         && (f.createdTo.Some? ==> DayOf(lead.createdAt) <= f.createdTo.value)
         && (f.agent.Some? ==> lead.agent == f.agent.value)
         && (f.listing.Some? ==> lead.listing == f.listing.value)
         && (f.property.Some? ==> listing.property == f.property.value)
         && (f.operation.Some? ==> listing.operation == f.operation.value)
  {
    if Sees(db, agency, l) && db.leads[l].listing in db.listings {
      CohortDaysAreInclusive(f, db.leads[l].createdAt);
    }
  }

  /** The lead was moved to the stage at some time. */
  predicate WasAt(db: Db, l: LeadId, s: Stage) {
    exists i :: 0 <= i < |db.transitions| && db.transitions[i].lead == l && db.transitions[i].to == s
  }

  function WereAt(db: Db, agency: nat, f: Filters, s: Stage): set<LeadId> {
    set l | l in Cohort(db, agency, f) && WasAt(db, l, s)
  }

  lemma WereAtReached(db: Db, agency: nat, f: Filters, s: Stage)
    ensures ThatReached(db, Cohort(db, agency, f), s) == WereAt(db, agency, f, s)
  {
  }

  /** `p` hundredths of a percent are n out of `of`, to the nearest, halves up; none out of none. */
  predicate IsShare(p: Option<nat>, n: nat, of: nat) {
    if of == 0 then p == None
    else p.Some? && of * (2 * p.value - 1) <= 20_000 * n < of * (2 * p.value + 1)
  }

  lemma PercentIsShare(n: nat, of: nat)
    ensures IsShare(Percent(n, of), n, of)
  {
    if of > 0 {
      var (q, r) := (10_000 * n / of, 10_000 * n % of);
      assert 10_000 * n == of * q + r;
      var up := if 2 * r >= of then 1 else 0;
      assert Percent(n, of) == Some(q + up);
      assert of * (2 * (q + up) - 1) == 2 * (of * q) + of * (2 * up - 1);
      assert of * (2 * (q + up) + 1) == 2 * (of * q) + of * (2 * up + 1);
    }
  }

  /** The report: everyone of the cohort at INTERESTED, and at each later stage those that were at it;
    * each count as a share of the one before and of the first; and those that were at LOST. */
  lemma ReportMeans(db: Db, agency: nat, f: Filters, i: nat)
    requires i < 5
    ensures var r := FunnelReport(db, agency, f);
      var stage := [Interested, VisitScheduled, Visited, Negotiating, Won][i];
      && |r.stages| == 5 && r.stages[i].stage == stage
      && r.stages[i].reached == (if i == 0 then |Cohort(db, agency, f)| else |WereAt(db, agency, f, stage)|)
      && (if i == 0 then r.stages[i].fromPrev == None
          else IsShare(r.stages[i].fromPrev, r.stages[i].reached, r.stages[i - 1].reached))
      && IsShare(r.stages[i].ofFirst, r.stages[i].reached, r.stages[0].reached)
      && r.lost == |WereAt(db, agency, f, Lost)|
  {
    var cohort := Cohort(db, agency, f);
    WereAtReached(db, agency, f, FUNNEL_STAGES[i]);
    WereAtReached(db, agency, f, Lost);
    PercentIsShare(CountAt(db, cohort, i), CountAt(db, cohort, 0));
    if i > 0 {
      PercentIsShare(CountAt(db, cohort, i), CountAt(db, cohort, i - 1));
    }
  }
}

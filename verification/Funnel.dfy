/** The funnel: its legal edges (schemas.py), the trigger that caches a lead's stage from the
  * transition log (schema-2.sql), and what a legal log looks like. */
module Funnel {
  import opened Domain

  predicate Allowed(from: Stage, to: Stage) {
    match from
    case Interested => to.VisitScheduled? || to.Lost?
    case VisitScheduled => to.Visited? || to.Lost?
    case Visited => to.Negotiating? || to.Lost?
    case Negotiating => to.Won? || to.Lost?
    case Won => false
    case Lost => false
  }

  /** Position on the funnel; LOST is off it. */
  function Rank(s: Stage): nat {
    match s
    case Interested => 1
    case VisitScheduled => 2
    case Visited => 3
    case Negotiating => 4
    case Won => 5
    case Lost => 6
  }

  // ------------------------------------------------------------ the trigger

  /** The guard of core.sync_lead_stage: no logged row of this lead is newer than `at`. */
  predicate Newest(log: seq<Transition>, lead: LeadId, at: Time) {
    forall i :: 0 <= i < |log| && log[i].lead == lead ==> log[i].at <= at
  }

  /** The lead's cached stage after `row` has been inserted into `log`. The trigger runs after
    * the insert, so the maximum it compares with already includes the row itself. */
  function Trigger(stage: Stage, log: seq<Transition>, lead: LeadId, row: Transition): Stage {
    if row.lead == lead && Newest(log + [row], lead, row.at) then row.to else stage
  }

  function Cached(initial: Stage, log: seq<Transition>, lead: LeadId): Stage {
    if log == [] then initial
    else
      var before := log[..|log| - 1];
      Trigger(Cached(initial, before, lead), before, lead, log[|log| - 1])
  }

  /** Row `i` has the greatest changed_at of its lead's rows, and is the last inserted of those. */
  predicate LastOfNewest(log: seq<Transition>, lead: LeadId, i: int) {
    && 0 <= i < |log| && log[i].lead == lead
    && forall j :: 0 <= j < |log| && log[j].lead == lead ==>
         log[j].at < log[i].at || (log[j].at == log[i].at && j <= i)
  }

  lemma UnfiredTriggerKeepsTheNewest(before: seq<Transition>, lead: LeadId, row: Transition, i: int)
    requires !(row.lead == lead && Newest(before + [row], lead, row.at))
    ensures LastOfNewest(before + [row], lead, i) <==> LastOfNewest(before, lead, i)
  {
    var log := before + [row];
    assert forall j :: 0 <= j < |before| ==> log[j] == before[j];
    if LastOfNewest(before, lead, i) && row.lead == lead {
      var newer :| 0 <= newer < |log| && log[newer].lead == lead && log[newer].at > row.at;
      assert before[newer].at <= before[i].at;
    }
  }

  /** Whatever order rows arrive in, and however they are dated, the cache names the last-inserted
    * row among those with the greatest changed_at. */
  lemma {:induction false} CacheIsNewestRow(initial: Stage, log: seq<Transition>, lead: LeadId, i: int)
    requires LastOfNewest(log, lead, i)
    ensures Cached(initial, log, lead) == log[i].to
  {
    var n := |log| - 1;
    var before, row := log[..n], log[n];
    assert before + [row] == log;
    if row.lead == lead && Newest(log, lead, row.at) {
      assert i == n;
    } else {
      UnfiredTriggerKeepsTheNewest(before, lead, row, i);
      CacheIsNewestRow(initial, before, lead, i);
    }
  }

  /** A lead with a row has such a newest row; a lead with none keeps its default stage. */
  lemma {:induction false} CacheHasANewestRow(initial: Stage, log: seq<Transition>, lead: LeadId)
    ensures (exists i :: LastOfNewest(log, lead, i))
         || (RowsOf(log, lead) == [] && Cached(initial, log, lead) == initial)
  {
    if log != [] {
      var n := |log| - 1;
      var before, row := log[..n], log[n];
      assert before + [row] == log;
      CacheHasANewestRow(initial, before, lead);
      if row.lead == lead && Newest(log, lead, row.at) {
        assert LastOfNewest(log, lead, n);
      } else if i :| LastOfNewest(before, lead, i) {
        UnfiredTriggerKeepsTheNewest(before, lead, row, i);
      } else {
        RowsAreTheLeads(before, lead);
        assert row.lead != lead;
      }
    }
  }

  // ------------------------------------------------------------ a lead's own log

  function RowsOf(log: seq<Transition>, lead: LeadId): seq<Transition> {
    if log == [] then []
    else
      RowsOf(log[..|log| - 1], lead) + if log[|log| - 1].lead == lead then [log[|log| - 1]] else []
  }

  /** One legal path: it opens with none -> INTERESTED, every row leaves from where the one
    * before arrived, along an edge of the funnel. */
  ghost predicate LegalPath(rows: seq<Transition>) {
    && |rows| > 0
    && rows[0].from == None && rows[0].to == Interested
    && forall i :: 1 <= i < |rows| ==> rows[i].from == Some(rows[i - 1].to) && Allowed(rows[i - 1].to, rows[i].to)
  }

  predicate Reached(log: seq<Transition>, lead: LeadId, s: Stage) {
    exists i :: 0 <= i < |log| && log[i].lead == lead && log[i].to == s
  }

  lemma {:induction false} RowsAreTheLeads(log: seq<Transition>, lead: LeadId)
    ensures forall r :: r in RowsOf(log, lead) <==> r in log && r.lead == lead
  {
    if log != [] {
      RowsAreTheLeads(log[..|log| - 1], lead);
      assert log == log[..|log| - 1] + [log[|log| - 1]];
    }
  }

  /** A legal path only moves forward, so it is short: at most five rows. */
  lemma {:induction false} LegalPathIsShort(rows: seq<Transition>)
    requires LegalPath(rows)
    ensures |rows| <= 5
    ensures !rows[|rows| - 1].to.Lost? ==> |rows| == Rank(rows[|rows| - 1].to)
    ensures rows[|rows| - 1].to.Lost? ==> |rows| >= 2
  {
    if |rows| > 1 {
      assert Allowed(rows[|rows| - 2].to, rows[|rows| - 1].to);
      LegalPathIsShort(rows[..|rows| - 1]);
    }
  }

  /** On a legal path, reaching a stage means having been at every stage before it. */
  lemma {:induction false} PathReachesInOrder(rows: seq<Transition>, i: nat)
    requires LegalPath(rows) && i < |rows|
    ensures rows[i].to.Lost? ==> i == |rows| - 1
    ensures !rows[i].to.Lost? ==> Rank(rows[i].to) == i + 1
  {
    if i > 0 {
      PathReachesInOrder(rows, i - 1);
    }
    if i < |rows| - 1 {
      assert Allowed(rows[i].to, rows[i + 1].to);
    }
  }
}

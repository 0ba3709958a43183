/** The slot engine (services/availability.py): weekly rules become a 30-minute grid, busy time
  * is subtracted, and a start is offered when every cell the visit covers is free. */
module SlotEngine {
  import opened Domain

  const SLOT: Time := 30 * MINUTE

  // ------------------------------------------------------------ what a slot is

  predicate ValidOn(r: Rule, day: int) {
    && r.weekday == Weekday(day)
    && (r.validFrom.Some? ==> r.validFrom.value <= day)
    && (r.validTo.Some? ==> day <= r.validTo.value)
  }

  function Block(r: Rule, day: int): Interval {
    Interval(LocalMidnight(day) + r.startTime, LocalMidnight(day) + r.endTime)
  }

  function Cell(c: Time): Interval {
    Interval(c, c + SLOT)
  }

  /** `c` starts a whole cell of the grid anchored on the block's own start. */
  predicate CellOf(b: Interval, c: Time) {
    b.start <= c && c + SLOT <= b.end && (c - b.start) % SLOT == 0
  }

  /** Some rule publishes the cell at `c`, on the local day `c` falls in. */
  ghost predicate Published(rules: seq<Rule>, c: Time) {
    exists r :: r in rules && ValidOn(r, LocalDay(c)) && CellOf(Block(r, LocalDay(c)), c)
  }

  predicate Busy(busy: set<Interval>, span: Interval) {
    exists b :: b in busy && Overlaps(span, b)
  }

  ghost predicate FreeCell(rules: seq<Rule>, busy: set<Interval>, window: Interval, c: Time) {
    && Published(rules, c)
    && window.start <= c && c + SLOT <= window.end
    && !Busy(busy, Cell(c))
  }

  /** ceil(minutes / 30). */
  function Cells(minutes: int): int {
    (minutes + 29) / 30
  }

  function CellStart(s: Time, k: int): Time {
    s + k * SLOT
  }

  /** A visit of `minutes` may start at `s`: all its cells are free. The first cell is always
    * needed, even when `minutes` is not positive. */
  ghost predicate Fits(rules: seq<Rule>, busy: set<Interval>, window: Interval, minutes: int, s: Time) {
    && FreeCell(rules, busy, window, s)
    && forall k :: 1 <= k < Cells(minutes) ==> FreeCell(rules, busy, window, CellStart(s, k))
  }

  ghost predicate Offered(
    rules: seq<Rule>, busy: set<Interval>, window: Interval, minutes: int, notBefore: Option<Time>, s: Time)
  {
    Fits(rules, busy, window, minutes, s) && (notBefore.Some? ==> notBefore.value <= s)
  }

  predicate Increasing(s: seq<Time>) {
    forall i, j :: 0 <= i < j < |s| ==> s[i] < s[j]
  }

  /** `slots` lists exactly the offered starts, in order. */
  ghost predicate Lists(
    slots: seq<Time>, rules: seq<Rule>, busy: set<Interval>, window: Interval, minutes: int,
    notBefore: Option<Time>)
  {
    && Increasing(slots)
    && forall s :: s in slots <==> Offered(rules, busy, window, minutes, notBefore, s)
  }

  /** slot_is_available: the window is cut to exactly the visit. */
  ghost predicate Available(rules: seq<Rule>, busy: set<Interval>, start: Time, minutes: int) {
    Fits(rules, busy, Interval(start, VisitEnd(start, minutes)), minutes, start)
  }

  // ------------------------------------------------------------ expanding the rules

  function DayBlocks(rules: seq<Rule>, day: int): seq<Interval> {
    if rules == [] then []
    else
      (if ValidOn(rules[0], day) then [Block(rules[0], day)] else []) + DayBlocks(rules[1..], day)
  }

  function Blocks(rules: seq<Rule>, first: int, last: int): seq<Interval>
    decreases last - first
  {
    if first > last then [] else DayBlocks(rules, first) + Blocks(rules, first + 1, last)
  }

  lemma {:induction false} DayBlocksAppend(a: seq<Rule>, b: seq<Rule>, day: int)
    ensures DayBlocks(a + b, day) == DayBlocks(a, day) + DayBlocks(b, day)
  {
    if a == [] {
      assert a + b == b;
    } else {
      assert (a + b)[1..] == a[1..] + b;
      DayBlocksAppend(a[1..], b, day);
    }
  }

  lemma {:induction false} BlocksAppend(rules: seq<Rule>, first: int, last: int)
    requires first <= last + 1
    ensures Blocks(rules, first, last + 1) == Blocks(rules, first, last) + DayBlocks(rules, last + 1)
    decreases last - first + 1
  {
    if first <= last {
      BlocksAppend(rules, first + 1, last);
    } else {
      assert Blocks(rules, last + 2, last + 1) == [];
    }
  }

  lemma {:induction false} DayBlocksMembers(rules: seq<Rule>, day: int, b: Interval)
    ensures b in DayBlocks(rules, day) <==> exists r :: r in rules && ValidOn(r, day) && b == Block(r, day)
  {
    if rules != [] {
      DayBlocksMembers(rules[1..], day, b);
      assert rules == [rules[0]] + rules[1..];
    }
  }

  /** Every block comes from a rule valid on a day of the range, and every such block is there. */
  lemma {:induction false} BlocksMembers(rules: seq<Rule>, first: int, last: int, b: Interval)
    ensures b in Blocks(rules, first, last)
       <==> exists r, day :: r in rules && first <= day <= last && ValidOn(r, day) && b == Block(r, day)
    decreases last - first
  {
    if first <= last {
      DayBlocksMembers(rules, first, b);
      BlocksMembers(rules, first + 1, last, b);
      assert b in Blocks(rules, first, last) <==> b in DayBlocks(rules, first) || b in Blocks(rules, first + 1, last);
    }
  }

  /** expand_rules: one block per rule and valid local day, for every day the window touches. */
  method ExpandRules(rules: seq<Rule>, start: Time, end: Time) returns (blocks: seq<Interval>)
    ensures blocks == Blocks(rules, LocalDay(start), LocalDay(end))
  {
    blocks := [];
    var day := LocalDay(start);
    var lastDay := LocalDay(end);
    while day <= lastDay
      invariant blocks == Blocks(rules, LocalDay(start), day - 1)
      invariant LocalDay(start) <= day && (day <= lastDay + 1 || day == LocalDay(start))
      decreases lastDay - day
    {
      ghost var before := blocks;
      for i := 0 to |rules|
        invariant blocks == before + DayBlocks(rules[..i], day)
      {
        var rule := rules[i];
        assert rules[..i + 1] == rules[..i] + [rule];
        DayBlocksAppend(rules[..i], [rule], day);
        if rule.weekday != Weekday(day) {
          continue;
        }
        if rule.validFrom.Some? && day < rule.validFrom.value {
          continue;
        }
        if rule.validTo.Some? && day > rule.validTo.value {
          continue;
        }
        blocks := blocks + [Block(rule, day)];
      }
      assert rules[..|rules|] == rules;
      BlocksAppend(rules, LocalDay(start), day - 1);
      day := day + 1;
    }
  }

  lemma CellIsInItsDay(r: Rule, day: int, c: Time)
    requires CellOf(Block(r, day), c)
    ensures LocalDay(c) == day
  {
    assert day * DAY <= c + ZONE < day * DAY + DAY;
  }

  lemma DaysAreMonotone(a: Time, b: Time)
    requires a <= b
    ensures LocalDay(a) <= LocalDay(b)
  {
  }

  /** A cell inside the window belongs to an expanded block exactly when some rule publishes it:
    * expanding only the days the window touches loses nothing. */
  lemma ExpandedCells(rules: seq<Rule>, window: Interval, c: Time)
    requires window.start <= c && c + SLOT <= window.end
    ensures (exists b :: b in Blocks(rules, LocalDay(window.start), LocalDay(window.end)) && CellOf(b, c))
       <==> Published(rules, c)
  {
    var first, last := LocalDay(window.start), LocalDay(window.end);
    if b :| b in Blocks(rules, first, last) && CellOf(b, c) {
      BlocksMembers(rules, first, last, b);
      var r, day :| r in rules && first <= day <= last && ValidOn(r, day) && b == Block(r, day);
      CellIsInItsDay(r, day, c);
    }
    if Published(rules, c) {
      var r :| r in rules && ValidOn(r, LocalDay(c)) && CellOf(Block(r, LocalDay(c)), c);
      DaysAreMonotone(window.start, c);
      DaysAreMonotone(c, window.end);
      BlocksMembers(rules, first, last, Block(r, LocalDay(c)));
    }
  }

  // ------------------------------------------------------------ computing the slots

  /** Whether the cell at `c` survives the window and the busy time. */
  predicate Clear(busy: set<Interval>, window: Interval, c: Time) {
    window.start <= c && c + SLOT <= window.end && !Busy(busy, Cell(c))
  }

  method FreeCells(blocks: seq<Interval>, busy: set<Interval>, window: Interval) returns (free: set<Time>)
    ensures forall c :: c in free <==> Clear(busy, window, c) && exists b :: b in blocks && CellOf(b, c)
  {
    free := {};
    for i := 0 to |blocks|
      invariant forall c :: c in free <==> Clear(busy, window, c) && exists b :: b in blocks[..i] && CellOf(b, c)
    {
      var block := blocks[i];
      var cursor := block.start;
      ghost var before := free;
      while cursor + SLOT <= block.end
        invariant block.start <= cursor && (cursor - block.start) % SLOT == 0
        invariant forall c :: c in free <==> c in before || (CellOf(block, c) && c < cursor && Clear(busy, window, c))
        decreases block.end - cursor
      {
        var cell := Cell(cursor);
        if window.start <= cursor && cell.end <= window.end && !Busy(busy, cell) {
          free := free + {cursor};
        }
        forall c | CellOf(block, c) && cursor <= c < cursor + SLOT ensures c == cursor {
          assert (c - block.start) % SLOT == 0;
        }
        cursor := cursor + SLOT;
      }
      assert blocks[..i + 1] == blocks[..i] + [block];
    }
    assert blocks[..|blocks|] == blocks;
  }

  method Least(s: set<Time>, some: Time) returns (least: Time)
    requires some in s
    ensures least in s && forall t :: t in s ==> least <= t
  {
    least := some;
    var rest := s - {least};
    var done := false;
    while !done
      invariant least in s && rest <= s
      invariant forall t :: t in s && t !in rest ==> least <= t
      invariant done ==> forall t :: t !in rest
      decreases rest, !done
    {
      if t :| t in rest {
        least := if t < least then t else least;
        rest := rest - {t};
      } else {
        done := true;
      }
    }
  }

  method Sorted(s: set<Time>) returns (sorted: seq<Time>)
    ensures Increasing(sorted)
    ensures forall t :: t in sorted <==> t in s
  {
    sorted := [];
    var rest := s;
    var done := false;
    while !done
      invariant Increasing(sorted) && rest <= s
      invariant forall t :: t in s <==> t in sorted || t in rest
      invariant forall i, u :: 0 <= i < |sorted| && u in rest ==> sorted[i] < u
      invariant done ==> forall t :: t !in rest
      decreases rest, !done
    {
      if some :| some in rest {
        var t := Least(rest, some);
        rest := rest - {t};
        sorted := sorted + [t];
      } else {
        done := true;
      }
    }
  }

  /** Busy time outside the window meets no cell inside it. */
  lemma CuttingBusyTime(all: set<Interval>, cut: set<Interval>, window: Interval, c: Time)
    requires cut == set i | i in all && i.start < window.end && i.end > window.start
    requires window.start <= c && c + SLOT <= window.end
    ensures Busy(all, Cell(c)) <==> Busy(cut, Cell(c))
  {
    assert forall b :: b in all && Overlaps(Cell(c), b) ==> b in cut;
  }

  predicate RunIn(free: set<Time>, s: Time, cells: int) {
    forall k :: 1 <= k < cells ==> CellStart(s, k) in free
  }

  /** compute_slots. Rules, time off and visits are all cut to the window before anything else;
    * the result is nevertheless the one the uncut calendar defines. None is the 422 for a window
    * that does not run forwards. */
  method ComputeSlots(
      rules: seq<Rule>, timeOff: set<Interval>, visits: set<Interval>,
      window: Interval, minutes: int, notBefore: Option<Time>)
    returns (slots: Option<seq<Time>>)
    ensures slots.None? <==> window.start >= window.end
    ensures slots.Some? ==> Lists(slots.value, rules, visits + timeOff, window, minutes, notBefore)
  {
    if window.start >= window.end {
      return None;
    }
    var offs := set i | i in timeOff && i.start < window.end && i.end > window.start;
    var appts := set i | i in visits && i.start < window.end && i.end > window.start;
    var busy := appts + offs;
    var blocks := ExpandRules(rules, window.start, window.end);
    var free := FreeCells(blocks, busy, window);
    forall c ensures c in free <==> FreeCell(rules, visits + timeOff, window, c) {
      if window.start <= c && c + SLOT <= window.end {
        ExpandedCells(rules, window, c);
        CuttingBusyTime(visits + timeOff, busy, window, c);
      }
    }
    var cells := Cells(minutes);
    var fits := set s | s in free && (notBefore.None? || s >= notBefore.value) && RunIn(free, s, cells);
    var sorted := Sorted(fits);
    return Some(sorted);
  }

  /** The listing is one particular sequence: nothing about it is left to the order in which
    * rules, visits or time off come back from the database. */
  lemma {:induction false} ListingIsUnique(a: seq<Time>, b: seq<Time>)
    requires Increasing(a) && Increasing(b) && forall s :: s in a <==> s in b
    ensures a == b
    decreases |a|
  {
    assert |a| > 0 ==> a[0] in a && a[0] in b;
    assert |b| > 0 ==> b[0] in b && b[0] in a;
    if |a| > 0 {
      assert a[0] == b[0];
      forall s ensures s in a[1..] <==> s in b[1..] {
        assert s in a[1..] ==> s in a && s != a[0];
        assert s in b[1..] ==> s in b && s != b[0];
      }
      ListingIsUnique(a[1..], b[1..]);
    }
  }

  // ------------------------------------------------------------ what the engine promises

  /** The visit is covered: every instant of it is published time, even where the run of cells
    * stitches two blocks together, and no instant of it is busy. */
  lemma OfferedIsCovered(
      rules: seq<Rule>, busy: set<Interval>, window: Interval, minutes: int, s: Time, t: Time)
    requires Fits(rules, busy, window, minutes, s)
    requires s <= t < VisitEnd(s, minutes)
    ensures exists r, day :: r in rules && ValidOn(r, day) && Block(r, day).start <= t < Block(r, day).end
    ensures window.start <= t < window.end
    ensures forall b :: b in busy ==> !(b.start <= t < b.end)
  {
    var k := (t - s) / SLOT;
    var c := CellStart(s, k);
    assert c <= t < c + SLOT;
    assert 0 <= k < Cells(minutes);
    assert FreeCell(rules, busy, window, c);
    var r :| r in rules && ValidOn(r, LocalDay(c)) && CellOf(Block(r, LocalDay(c)), c);
    var day := LocalDay(c);
    assert Block(r, day).start <= t < Block(r, day).end;
    forall b | b in busy ensures !(b.start <= t < b.end) {
      assert !Overlaps(Cell(c), b);
    }
  }

  /** An offered visit overlaps no busy interval, as the booking check reads overlap. */
  lemma OfferedIsFree(
      rules: seq<Rule>, busy: set<Interval>, window: Interval, minutes: int, s: Time, b: Interval)
    requires Fits(rules, busy, window, minutes, s)
    requires b in busy && b.start < b.end
    ensures !Overlaps(Interval(s, VisitEnd(s, minutes)), b)
  {
    if Overlaps(Interval(s, VisitEnd(s, minutes)), b) {
      var t := if s < b.start then b.start else s;
      OfferedIsCovered(rules, busy, window, minutes, s, t);
    }
  }

  predicate Within(inner: Interval, outer: Interval) {
    outer.start <= inner.start && inner.end <= outer.end
  }

  /** The cells a visit starting at `s` needs, as one span. */
  function Run(s: Time, minutes: int): Interval {
    Interval(s, s + (if Cells(minutes) < 1 then 1 else Cells(minutes)) * SLOT)
  }

  /** Window independence: on a smaller window the engine offers exactly the starts it offers on
    * the larger one whose whole run of cells lies inside the smaller. */
  lemma WindowIndependence(
      rules: seq<Rule>, busy: set<Interval>, inner: Interval, outer: Interval, minutes: int,
      notBefore: Option<Time>, s: Time)
    requires Within(inner, outer)
    ensures Offered(rules, busy, inner, minutes, notBefore, s)
       <==> Offered(rules, busy, outer, minutes, notBefore, s) && Within(Run(s, minutes), inner)
  {
    if Offered(rules, busy, inner, minutes, notBefore, s) {
      var last := Cells(minutes) - 1;
      if last >= 1 {
        assert FreeCell(rules, busy, inner, CellStart(s, last));
      }
      forall k | 1 <= k < Cells(minutes) ensures FreeCell(rules, busy, outer, CellStart(s, k)) {
        assert FreeCell(rules, busy, inner, CellStart(s, k));
      }
    }
    if Offered(rules, busy, outer, minutes, notBefore, s) && Within(Run(s, minutes), inner) {
      forall k | 1 <= k < Cells(minutes) ensures FreeCell(rules, busy, inner, CellStart(s, k)) {
        assert FreeCell(rules, busy, outer, CellStart(s, k));
        assert (k + 1) * SLOT <= Cells(minutes) * SLOT;
      }
    }
  }

  /** The booking check against the listing: a listed start of any window that contains the visit
    * passes exactly when the duration is a whole number of cells. For any other duration the
    * window cut to the visit is too short for its last cell, and the check never passes. */
  lemma AvailableIffListed(rules: seq<Rule>, busy: set<Interval>, window: Interval, minutes: Minutes, s: Time)
    requires Within(Interval(s, VisitEnd(s, minutes)), window)
    ensures Available(rules, busy, s, minutes)
       <==> minutes % 30 == 0 && Offered(rules, busy, window, minutes, None, s)
  {
    var cut := Interval(s, VisitEnd(s, minutes));
    WindowIndependence(rules, busy, cut, window, minutes, None, s);
    if minutes % 30 == 0 {
      assert Run(s, minutes) == cut;
    } else {
      assert Cells(minutes) * 30 > minutes;
      assert Cells(minutes) * SLOT > minutes * MINUTE;
    }
  }

  /** GET /agents/{id}/slots says its list is exactly what a bot may book. For a 45-minute visit
    * it is not: a calendar open all morning lists 09:00, which the booking check refuses. */
  lemma ListedButNotBookable()
    ensures exists rules: seq<Rule>, window: Interval, s: Time ::
      && Within(Interval(s, VisitEnd(s, 45)), window)
      && Offered(rules, {}, window, 45, None, s)
      && !Available(rules, {}, s, 45)
  {
    var rule := Rule(0, 0, 9 * HOUR, 12 * HOUR, None, None);
    var s := LocalMidnight(0) + 9 * HOUR;
    var window := Interval(s, s + 3 * HOUR);
    assert LocalDay(s) == 0 && LocalDay(s + SLOT) == 0;
    assert CellOf(Block(rule, 0), s) && CellOf(Block(rule, 0), s + SLOT);
    assert rule in [rule];
    assert Published([rule], s) && Published([rule], s + SLOT);
    forall k | 1 <= k < Cells(45) ensures FreeCell([rule], {}, window, CellStart(s, k)) {
      assert k == 1;
    }
    assert Offered([rule], {}, window, 45, None, s);
    AvailableIffListed([rule], {}, window, 45, s);
  }
}

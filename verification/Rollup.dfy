/** Rolling daily rows up into months before they are pruned: the calendar, the two statements, and why no
    history is lost. */
module Rollup {
  import opened Model
  import opened Sets
  import opened Sorting

  // ----- the calendar -----

  /** Months count from January 1970, days from its first. */
  predicate Leap(year: int) { year % 4 == 0 && (year % 100 != 0 || year % 400 == 0) }

  function MonthLength(month: int): (n: int)
    ensures 28 <= n <= 31
  {
    var m := month % 12;
    if m == 1 then (if Leap(1970 + month / 12) then 29 else 28)
    else if m == 3 || m == 5 || m == 8 || m == 10 then 30
    else 31
  }

  function FirstDay(month: int): int
    decreases if month < 0 then -month else month
  {
    if month == 0 then 0
    else if month > 0 then FirstDay(month - 1) + MonthLength(month - 1)
    else FirstDay(month + 1) - MonthLength(month)
  }

  function LastDay(month: int): int { FirstDay(month + 1) - 1 }

  lemma MonthSpan(month: int)
    ensures FirstDay(month + 1) == FirstDay(month) + MonthLength(month)
  {
  }

  lemma {:induction false} MonthsInOrder(a: int, b: int)
    requires a <= b
    ensures FirstDay(a) + 28 * (b - a) <= FirstDay(b)
    decreases b - a
  {
    if a < b {
      MonthsInOrder(a, b - 1);
      MonthSpan(b - 1);
    }
  }

  const DAYS := [31, 28, 31, 30, 31, 30, 31, 31, 30, 31, 30, 31]

  /** The Gregorian calendar: a 29th of February in every fourth year but three of the hundredth ones in four. */
  lemma CalendarMeans(year: int, m: nat)
    requires m < 12
    ensures var day29 := (1970 + year) % 4 == 0 && ((1970 + year) % 100 == 0 ==> (1970 + year) % 400 == 0);
            && MonthLength(12 * year + m) == (if m == 1 && day29 then 29 else DAYS[m])
            && FirstDay(12 * (year + 1)) - FirstDay(12 * year) == (if day29 then 366 else 365)
  {
    LengthInYear(year, m);
    YearElapsed(year, 12);
    hide FirstDay, MonthLength;
  }

  lemma LengthInYear(year: int, m: nat)
    requires m < 12
    ensures MonthLength(12 * year + m) == if m == 1 && Leap(1970 + year) then 29 else DAYS[m]
  {
    assert (12 * year + m) % 12 == m && (12 * year + m) / 12 == year;
  }

  const BEFORE := [0, 31, 59, 90, 120, 151, 181, 212, 243, 273, 304, 334, 365]

  /** The days of the first m months of a year. */
  function Elapsed(m: nat, leap: bool): nat
    requires m <= 12
  {
    BEFORE[m] + (if leap && m >= 2 then 1 else 0)
  }

  lemma {:induction false} YearElapsed(year: int, m: nat)
    requires m <= 12
    ensures FirstDay(12 * year + m) == FirstDay(12 * year) + Elapsed(m, Leap(1970 + year))
  {
    if m > 0 {
      YearElapsed(year, m - 1);
      MonthSpan(12 * year + m - 1);
      LengthInYear(year, m - 1);
      hide FirstDay, MonthLength;
    }
  }

  predicate InMonth(day: int, month: int) { FirstDay(month) <= day <= LastDay(month) }

  lemma OneMonthOnly(day: int, a: int, b: int)
    requires InMonth(day, a) && InMonth(day, b)
    ensures a == b
  {
    if a < b { MonthsInOrder(a + 1, b); }
    if b < a { MonthsInOrder(b + 1, a); }
  }

  /** The month a day falls in, found by walking from one that starts no later. */
  function MonthFrom(day: int, month: int): (r: int)
    requires FirstDay(month) <= day
    ensures InMonth(day, r)
    decreases day - FirstDay(month)
  {
    MonthSpan(month);
    if day <= LastDay(month) then month else MonthFrom(day, month + 1)
  }

  lemma EarlyEnough(day: int)
    ensures FirstDay(if day < 0 then day else 0) <= day
  {
    if day < 0 { MonthsInOrder(day, 0); }
  }

  function MonthOf(day: int): (r: int)
    ensures InMonth(day, r)
  {
    EarlyEnough(day);
    MonthFrom(day, if day < 0 then day else 0)
  }

  // ----- monthRanges -----

  datatype Range = Range(month: int, from: int, to: int)

  function RangeOf(month: int): Range { Range(month, FirstDay(month), LastDay(month)) }

  /** The n months from lo on. */
  function Ranges(lo: int, n: nat): seq<Range> { seq(n, i => RangeOf(lo + i)) }

  function Touching(fromDay: int, toDay: int): seq<Range> {
    if toDay < fromDay then [] else Ranges(MonthOf(fromDay), MonthCount(fromDay, toDay))
  }

  function MonthCount(fromDay: int, toDay: int): nat
    requires fromDay <= toDay
  {
    MonthsOrdered(fromDay, toDay);
    MonthOf(toDay) - MonthOf(fromDay) + 1
  }

  lemma MonthsOrdered(a: int, b: int)
    requires a <= b
    ensures MonthOf(a) <= MonthOf(b)
  {
    if MonthOf(b) < MonthOf(a) { MonthsInOrder(MonthOf(b) + 1, MonthOf(a)); }
  }

  /** The cursor starts at the first of the month and advances a calendar month at a time. */
  method MonthRanges(fromDay: int, toDay: int) returns (out: seq<Range>)
    ensures out == Touching(fromDay, toDay)
  {
    out := [];
    if toDay < fromDay { return; }
    var lo := MonthOf(fromDay);
    var cursor := lo;
    MonthsOrdered(fromDay, toDay);
    while FirstDay(cursor) <= toDay
      invariant lo <= cursor <= MonthOf(toDay) + 1 && out == Ranges(lo, cursor - lo)
      decreases toDay - FirstDay(cursor)
    {
      MonthSpan(cursor);
      out := out + [Range(cursor, FirstDay(cursor), FirstDay(cursor + 1) - 1)];
      assert Ranges(lo, cursor + 1 - lo) == Ranges(lo, cursor - lo) + [RangeOf(cursor)];
      if cursor > MonthOf(toDay) { MonthsInOrder(MonthOf(toDay) + 1, cursor); }
      cursor := cursor + 1;
    }
    if cursor <= MonthOf(toDay) { MonthsInOrder(cursor, MonthOf(toDay)); }
  }

  /** The ranges are whole months, each starting the day after the one before it ends; together they cover the
      requested days and reach at most a month beyond them. */
  lemma RangesTile(fromDay: int, toDay: int)
    requires fromDay <= toDay
    ensures var rs := Touching(fromDay, toDay);
            && |rs| > 0 && rs[0].from <= fromDay && toDay <= rs[|rs| - 1].to
            && fromDay - rs[0].from <= 30 && rs[|rs| - 1].to - toDay <= 30
            && (forall i :: 0 <= i < |rs| ==> rs[i].from + 27 <= rs[i].to <= rs[i].from + 30)
            && (forall i :: 0 < i < |rs| ==> rs[i].from == rs[i - 1].to + 1)
  {
    hide FirstDay, MonthOf;
    MonthsOrdered(fromDay, toDay);
    var rs, lo := Touching(fromDay, toDay), MonthOf(fromDay);
    assert rs[0] == RangeOf(lo) && rs[|rs| - 1] == RangeOf(MonthOf(toDay));
    MonthSpan(lo);
    MonthSpan(MonthOf(toDay));
    forall i | 0 <= i < |rs| ensures rs[i].from + 27 <= rs[i].to <= rs[i].from + 30 {
      assert rs[i] == RangeOf(lo + i);
      MonthSpan(lo + i);
    }
    forall i | 0 < i < |rs| ensures rs[i].from == rs[i - 1].to + 1 {
      assert rs[i] == RangeOf(lo + i) && rs[i - 1] == RangeOf(lo + (i - 1)) && lo + (i - 1) + 1 == lo + i;
    }
  }

  // ----- the tables -----

  datatype Node = Node(systemId: string, id: int)

  datatype NodeDay = NodeDay(node: Node, day: int)

  datatype NodeMonth = NodeMonth(node: Node, month: int)

  type Monthly = map<NodeMonth, nat>

  function DaysIn(rows: set<NodeDay>, node: Node, month: int): set<NodeDay> {
    set r | r in rows && r.node == node && InMonth(r.day, month)
  }

  function NodesIn(rows: set<NodeDay>, month: int): set<Node> { set r | r in rows && InMonth(r.day, month) :: r.node }

  /** One month recomputed: every node with rows in it gets its count, whatever was there. */
  function Rolled(daily: set<NodeDay>, monthly: Monthly, month: int): Monthly {
    map k | k in monthly.Keys + (set n | n in NodesIn(daily, month) :: NodeMonth(n, month)) ::
      if k.month == month && k.node in NodesIn(daily, month) then |DaysIn(daily, k.node, month)| else monthly[k]
  }

  function RolledAll(daily: set<NodeDay>, monthly: Monthly, ranges: seq<Range>): Monthly {
    if ranges == [] then monthly
    else Rolled(daily, RolledAll(daily, monthly, ranges[..|ranges| - 1]), ranges[|ranges| - 1].month)
  }

  const ROLLUP_DAYS := 45
  const MAX_DAY_AGE := 15
  const MIN_DAY_AGE := 1

  // ----- runs -----

  /** rolled is the day of the last complete rollup (or the first day of operation), clock the latest day anything
      happened, and ever every node-day stored so far; only the first two fields are tables. */
  datatype State = State(daily: set<NodeDay>, monthly: Monthly, rolled: int, clock: int, ever: set<NodeDay>)

  function Fresh(today: int): State { State({}, map[], today, today, {}) }

  datatype Event =
    | Arrive(today: int, node: Node, day: int)
    | Pass(today: int, done: nat, prunes: bool)   // the rollup stops after done months; pruning may fail

  /** Rows are 1 to 15 days old, the clock does not go back, and a rollup completes at least every maxGap days. */
  predicate Enabled(s: State, e: Event, maxGap: int) {
    match e
    case Arrive(today, _, day) => s.clock <= today && today - MAX_DAY_AGE <= day <= today - MIN_DAY_AGE
    case Pass(today, done, _) =>
      s.clock <= today && (done >= |Touching(today - ROLLUP_DAYS, today)| ==> today - s.rolled <= maxGap)
  }

  function Apply(s: State, e: Event, retention: int): State {
    match e
    case Arrive(today, node, day) =>
      s.(daily := s.daily + {NodeDay(node, day)}, clock := today, ever := s.ever + {NodeDay(node, day)})
    case Pass(today, done, prunes) =>
      var ranges := Touching(today - ROLLUP_DAYS, today);
      if done < |ranges| then s.(monthly := RolledAll(s.daily, s.monthly, ranges[..done]), clock := today)
      else State(if retention > 0 && prunes then Pruned(s.daily, today - retention) else s.daily,
                 RolledAll(s.daily, s.monthly, ranges), today, today, s.ever)
  }

  function Pruned(daily: set<NodeDay>, olderThan: int): set<NodeDay> { set r | r in daily && r.day >= olderThan }

  // ----- no history is lost -----

  /** The month's row counts every day of it the node ever reported. */
  predicate Counted(s: State, node: Node, month: int) {
    DaysIn(s.ever, node, month) != {} ==>
      NodeMonth(node, month) in s.monthly && s.monthly[NodeMonth(node, month)] == |DaysIn(s.ever, node, month)|
  }

  /** Only days older than the retention behind the last complete rollup are gone, and every month that can no
      longer receive rows is counted in full. */
  ghost predicate Inv(s: State, retention: int) {
    && s.rolled <= s.clock && s.daily <= s.ever
    && (forall r :: r in s.ever && r !in s.daily ==> r.day < s.rolled - retention)
    && (forall n, m :: LastDay(m) + MAX_DAY_AGE < s.rolled ==> Counted(s, n, m))
  }

  lemma {:induction false} RolledAllAt(daily: set<NodeDay>, monthly: Monthly, ranges: seq<Range>, k: NodeMonth)
    ensures var touched := (exists r :: r in ranges && r.month == k.month) && k.node in NodesIn(daily, k.month);
            var after := RolledAll(daily, monthly, ranges);
            && (touched ==> k in after && after[k] == |DaysIn(daily, k.node, k.month)|)
            && (!touched ==> (k in after <==> k in monthly) && (k in monthly ==> after[k] == monthly[k]))
  {
    if ranges != [] {
      var init, last := ranges[..|ranges| - 1], ranges[|ranges| - 1];
      RolledAllAt(daily, monthly, init, k);
      assert forall r :: r in ranges <==> r in init || r == last;
    }
  }

  lemma HasDays(rows: set<NodeDay>, node: Node, month: int)
    ensures node in NodesIn(rows, month) <==> DaysIn(rows, node, month) != {}
  {
    if node in NodesIn(rows, month) {
      var r :| r in rows && InMonth(r.day, month) && r.node == node;
      assert r in DaysIn(rows, node, month);
    }
  }

  /** A month a rollup touches has all its days in the table: none of it was ever pruned. */
  lemma NoPartialMonth(s: State, today: int, retention: int, node: Node, month: int)
    requires Inv(s, retention) && retention >= 75 && s.clock <= today
    requires LastDay(month) >= today - ROLLUP_DAYS
    ensures DaysIn(s.daily, node, month) == DaysIn(s.ever, node, month)
  {
    MonthSpan(month);
  }

  lemma TouchedMonths(today: int, r: Range)
    requires r in Touching(today - ROLLUP_DAYS, today)
    ensures LastDay(r.month) >= today - ROLLUP_DAYS
  {
    var rs, lo := Touching(today - ROLLUP_DAYS, today), MonthOf(today - ROLLUP_DAYS);
    var i :| 0 <= i < |rs| && rs[i] == r;
    assert rs[i] == RangeOf(lo + i);
    MonthsInOrder(lo + 1, r.month + 1);
  }

  lemma TouchesMonth(today: int, month: int)
    requires today - ROLLUP_DAYS <= LastDay(month) < today
    ensures exists r :: r in Touching(today - ROLLUP_DAYS, today) && r.month == month
  {
    var lo := MonthOf(today - ROLLUP_DAYS);
    MonthsOrdered(today - ROLLUP_DAYS, today);
    if month < lo { MonthsInOrder(month + 1, lo); }
    if MonthOf(today) < month { MonthsInOrder(MonthOf(today) + 1, month); MonthSpan(month); }
    assert Touching(today - ROLLUP_DAYS, today)[month - lo] == RangeOf(month);
  }

  /** Recomputing any of the months in range gives a full count, and leaves the others alone. */
  lemma RollupCounts(s: State, today: int, retention: int, ranges: seq<Range>, node: Node, month: int)
    requires Inv(s, retention) && retention >= 75 && s.clock <= today
    requires forall r :: r in ranges ==> r in Touching(today - ROLLUP_DAYS, today)
    requires Counted(s, node, month) || exists r :: r in ranges && r.month == month
    ensures Counted(s.(monthly := RolledAll(s.daily, s.monthly, ranges)), node, month)
  {
    var k := NodeMonth(node, month);
    RolledAllAt(s.daily, s.monthly, ranges, k);
    if r :| r in ranges && r.month == month {
      TouchedMonths(today, r);
      NoPartialMonth(s, today, retention, node, month);
      HasDays(s.daily, node, month);
    }
  }

  lemma ArriveKeepsInv(s: State, today: int, node: Node, day: int, retention: int, maxGap: int)
    requires Inv(s, retention) && Enabled(s, Arrive(today, node, day), maxGap)
    ensures Inv(Apply(s, Arrive(today, node, day), retention), retention)
  {
    var s' := Apply(s, Arrive(today, node, day), retention);
    forall n, m | LastDay(m) + MAX_DAY_AGE < s'.rolled ensures Counted(s', n, m) {
      assert Counted(s, n, m);
      assert DaysIn(s'.ever, n, m) == DaysIn(s.ever, n, m);
    }
  }

  /** The 45 days a rollup looks back, the 15 a row may be late and the 30 between rollups fit exactly: a month
      either is still in reach of this rollup, or was in reach of the last one after its last row could arrive. */
  lemma RolledInTime(s: State, today: int, month: int)
    requires today - s.rolled <= 30 && LastDay(month) + MAX_DAY_AGE < today
    ensures LastDay(month) + MAX_DAY_AGE < s.rolled || today - ROLLUP_DAYS <= LastDay(month) < today
  {
  }

  lemma PassKeepsInv(s: State, today: int, done: nat, prunes: bool, retention: int)
    requires Inv(s, retention) && Enabled(s, Pass(today, done, prunes), 30) && retention >= 75
    ensures Inv(Apply(s, Pass(today, done, prunes), retention), retention)
  {
    hide Counted, Touching, RolledAll, InMonth;
    var s', ranges := Apply(s, Pass(today, done, prunes), retention), Touching(today - ROLLUP_DAYS, today);
    var did := if done < |ranges| then ranges[..done] else ranges;
    forall n, m | LastDay(m) + MAX_DAY_AGE < s'.rolled ensures Counted(s', n, m) {
      if done >= |ranges| {
        RolledInTime(s, today, m);
        if !(LastDay(m) + MAX_DAY_AGE < s.rolled) { TouchesMonth(today, m); }
      }
      RollupCounts(s, today, retention, did, n, m);
      CountedSame(s.(monthly := s'.monthly), s', n, m);
    }
  }

  lemma CountedSame(s: State, s': State, node: Node, month: int)
    requires s'.monthly == s.monthly && s'.ever == s.ever
    ensures Counted(s', node, month) == Counted(s, node, month)
  {
  }

  lemma StepKeepsInv(s: State, e: Event, retention: int)
    requires Inv(s, retention) && Enabled(s, e, 30) && retention >= 75
    ensures Inv(Apply(s, e, retention), retention)
  {
    hide Inv, Apply, Enabled;
    match e
    case Arrive(today, node, day) => ArriveKeepsInv(s, today, node, day, retention, 30);
    case Pass(today, done, prunes) => PassKeepsInv(s, today, done, prunes, retention);
  }

  ghost predicate IsRun(s: State, es: seq<Event>, retention: int, maxGap: int)
    decreases |es|, 0
  {
    es == [] || (IsRun(s, es[..|es| - 1], retention, maxGap)
                 && Enabled(Run(s, es[..|es| - 1], retention, maxGap), es[|es| - 1], maxGap))
  }

  ghost function Run(s: State, es: seq<Event>, retention: int, maxGap: int): State
    requires IsRun(s, es, retention, maxGap)
    decreases |es|, 1
  {
    if es == [] then s else Apply(Run(s, es[..|es| - 1], retention, maxGap), es[|es| - 1], retention)
  }

  lemma FreshHoldsInv(today: int, retention: int)
    ensures Inv(Fresh(today), retention)
  {
  }

  lemma {:induction false} RunKeepsInv(s: State, es: seq<Event>, retention: int)
    requires Inv(s, retention) && retention >= 75 && IsRun(s, es, retention, 30)
    ensures Inv(Run(s, es, retention, 30), retention)
  {
    hide Inv, Apply, Enabled;
    if es != [] {
      RunKeepsInv(s, es[..|es| - 1], retention);
      StepKeepsInv(Run(s, es[..|es| - 1], retention, 30), es[|es| - 1], retention);
    }
  }

  /** In every run with complete rollups at most 30 days apart and a retention of at least 75 days, every node-day
      that ever arrived is still in the daily table or counted, with the whole of its month, in the monthly one. */
  lemma NoHistoryIsLost(today: int, es: seq<Event>, retention: int, r: NodeDay)
    requires retention >= 75 && IsRun(Fresh(today), es, retention, 30)
    requires r in Run(Fresh(today), es, retention, 30).ever
    ensures var s := Run(Fresh(today), es, retention, 30);
            r in s.daily || (var k := NodeMonth(r.node, MonthOf(r.day));
                             k in s.monthly && s.monthly[k] == |DaysIn(s.ever, r.node, k.month)| > 0)
  {
    FreshHoldsInv(today, retention);
    RunKeepsInv(Fresh(today), es, retention);
    var s := Run(Fresh(today), es, retention, 30);
    if r !in s.daily {
      MonthSpan(MonthOf(r.day));
      assert Counted(s, r.node, MonthOf(r.day));
      assert r in DaysIn(s.ever, r.node, MonthOf(r.day));
    }
  }

  lemma ThreeMonthsAtMost(today: int)
    ensures |Touching(today - ROLLUP_DAYS, today)| <= 3
  {
    var lo, hi := MonthOf(today - ROLLUP_DAYS), MonthOf(today);
    MonthsOrdered(today - ROLLUP_DAYS, today);
    if lo < hi { MonthsInOrder(lo + 1, hi); }
  }

  /** A complete pass that does not reach back to k's month leaves its row as it was. */
  lemma OutOfReach(s: State, today: int, retention: int, k: NodeMonth)
    requires retention > 0 && LastDay(k.month) < today - ROLLUP_DAYS && k !in s.monthly
    ensures var s' := Apply(s, Pass(today, 3, true), retention);
            k !in s'.monthly && s'.daily == Pruned(s.daily, today - retention) && s'.rolled == s'.clock == today
            && s'.ever == s.ever
    ensures Enabled(s, Pass(today, 3, true), 31) <==> s.clock <= today <= s.rolled + 31
  {
    hide FirstDay, LastDay, RolledAll, MonthOf, Touching;
    ThreeMonthsAtMost(today);
    var ranges := Touching(today - ROLLUP_DAYS, today);
    RolledAllAt(s.daily, s.monthly, ranges, k);
    if r :| r in ranges && r.month == k.month { TouchedMonths(today, r); }
  }

  /** The 30 days are exact: with the next rollup 31 days after the last one, a row that arrived 15 days late is in
      reach of neither, so its month gets no row and the day itself is pruned later. */
  lemma AGapOf31LosesHistory(node: Node)
    ensures var es := [Arrive(45, node, 30), Pass(76, 3, true), Pass(107, 3, true)];
            && IsRun(Fresh(45), es, 75, 31)
            && var s := Run(Fresh(45), es, 75, 31);
               NodeDay(node, 30) in s.ever && NodeDay(node, 30) !in s.daily && NodeMonth(node, 0) !in s.monthly
  {
    hide Apply, Enabled, IsRun, Run;
    var k := NodeMonth(node, 0);
    MonthSpan(0);
    var s1 := LateArrival(node);
    var s2, s3 := Apply(s1, Pass(76, 3, true), 75), Apply(Apply(s1, Pass(76, 3, true), 75), Pass(107, 3, true), 75);
    OutOfReach(s1, 76, 75, k);
    OutOfReach(s2, 107, 75, k);
    NoSteps(Fresh(45), 75, 31);
    RunStep(Fresh(45), [], Arrive(45, node, 30), 75, 31);
    RunStep(Fresh(45), [] + [Arrive(45, node, 30)], Pass(76, 3, true), 75, 31);
    RunStep(Fresh(45), [] + [Arrive(45, node, 30)] + [Pass(76, 3, true)], Pass(107, 3, true), 75, 31);
    assert [] + [Arrive(45, node, 30)] + [Pass(76, 3, true)] + [Pass(107, 3, true)]
        == [Arrive(45, node, 30), Pass(76, 3, true), Pass(107, 3, true)];
  }

  /** A complete pass that reaches back to k's month counts the days still stored. */
  lemma InReach(s: State, today: int, retention: int, k: NodeMonth, r: NodeDay)
    requires retention > 0 && today - ROLLUP_DAYS <= LastDay(k.month) < today
    requires r in s.daily && r.node == k.node && InMonth(r.day, k.month)
    requires s.clock <= today <= s.rolled + 30
    ensures Enabled(s, Pass(today, 3, true), 30)
    ensures var s' := Apply(s, Pass(today, 3, true), retention);
            && k in s'.monthly && s'.monthly[k] == |DaysIn(s.daily, k.node, k.month)|
            && s'.daily == Pruned(s.daily, today - retention) && s'.rolled == s'.clock == today && s'.ever == s.ever
  {
    ThreeMonthsAtMost(today);
    TouchesMonth(today, k.month);
    RolledAllAt(s.daily, s.monthly, Touching(today - ROLLUP_DAYS, today), k);
  }

  /** January 1970: two of its days arrive, both are counted, and the table keeps 74 days. */
  function ShortRetention(node: Node): seq<Event> {
    [Arrive(15, node, 0), Arrive(31, node, 30), Pass(45, 3, true), Pass(75, 3, true), Pass(75, 3, true)]
  }

  lemma TwoDays(node: Node) returns (s: State)
    ensures var es := ShortRetention(node); IsRun(Fresh(15), es[..2], 74, 30) && s == Run(Fresh(15), es[..2], 74, 30)
    ensures s.daily == {NodeDay(node, 0), NodeDay(node, 30)} == s.ever && s.rolled == 15 && s.clock == 31
  {
    var es := ShortRetention(node);
    NoSteps(Fresh(15), 74, 30);
    assert es[..0] == [] && es[..1] == es[..0] + [Arrive(15, node, 0)] && es[..2] == es[..1] + [Arrive(31, node, 30)];
    RunStep(Fresh(15), es[..0], Arrive(15, node, 0), 74, 30);
    RunStep(Fresh(15), es[..1], Arrive(31, node, 30), 74, 30);
    s := Run(Fresh(15), es[..2], 74, 30);
  }

  /** The 75 days are exact: with a retention of 74, the first of two passes on the day a month of 31 days is last in
      reach prunes its first day, and the second overwrites the full count with a partial one. */
  lemma ARetentionOf74RecomputesAPartialMonth(node: Node)
    ensures var es := ShortRetention(node);
            && IsRun(Fresh(15), es, 74, 30)
            && var s, k := Run(Fresh(15), es, 74, 30), NodeMonth(node, 0);
               k in s.monthly && s.monthly[k] == 1 && |DaysIn(s.ever, node, 0)| == 2
  {
    var es, k, first, last := ShortRetention(node), NodeMonth(node, 0), NodeDay(node, 0), NodeDay(node, 30);
    JanuaryDays(node);
    hide Apply, Enabled, IsRun, Run, LastDay, InMonth, DaysIn;
    var s2 := TwoDays(node);
    assert es[..3] == es[..2] + [Pass(45, 3, true)] && es[..4] == es[..3] + [Pass(75, 3, true)];
    assert es == es[..4] + [Pass(75, 3, true)];
    InReach(s2, 45, 74, k, last);
    RunStep(Fresh(15), es[..2], Pass(45, 3, true), 74, 30);
    var s3 := Run(Fresh(15), es[..3], 74, 30);
    assert s3.daily == {first, last};
    InReach(s3, 75, 74, k, last);
    RunStep(Fresh(15), es[..3], Pass(75, 3, true), 74, 30);
    var s4 := Run(Fresh(15), es[..4], 74, 30);
    assert s4.daily == {last};
    InReach(s4, 75, 74, k, last);
    RunStep(Fresh(15), es[..4], Pass(75, 3, true), 74, 30);
  }

  lemma JanuaryDays(node: Node)
    ensures LastDay(0) == 30 && InMonth(30, 0)
    ensures var first, last := NodeDay(node, 0), NodeDay(node, 30);
            |DaysIn({last}, node, 0)| == 1 && |DaysIn({first, last}, node, 0)| == 2
  {
    var first, last := NodeDay(node, 0), NodeDay(node, 30);
    MonthSpan(0);
    assert FirstDay(0) == 0;
    assert DaysIn({last}, node, 0) == {last};
    assert DaysIn({first, last}, node, 0) == {first, last};
  }

  lemma NoSteps(s: State, retention: int, maxGap: int)
    ensures IsRun(s, [], retention, maxGap) && Run(s, [], retention, maxGap) == s
  {
  }

  lemma RunStep(s: State, es: seq<Event>, e: Event, retention: int, maxGap: int)
    requires IsRun(s, es, retention, maxGap) && Enabled(Run(s, es, retention, maxGap), e, maxGap)
    ensures IsRun(s, es + [e], retention, maxGap)
    ensures Run(s, es + [e], retention, maxGap) == Apply(Run(s, es, retention, maxGap), e, retention)
  {
    assert (es + [e])[..|es|] == es;
  }

  lemma LateArrival(node: Node) returns (s: State)
    ensures Enabled(Fresh(45), Arrive(45, node, 30), 31) && s == Apply(Fresh(45), Arrive(45, node, 30), 75)
    ensures s.daily == {NodeDay(node, 30)} == s.ever && s.monthly == map[] && s.rolled == s.clock == 45
  {
    s := Apply(Fresh(45), Arrive(45, node, 30), 75);
  }

  // ----- the store and the end of the pass -----

  class Store {
    var daily: set<NodeDay>
    var monthly: Monthly

    constructor ()
      ensures daily == {} && monthly == map[]
    {
      daily, monthly := {}, map[];
    }

    /** An upsert: a day reported again replaces its row. */
    method UpsertSizingDays(rows: seq<NodeDay>)
      modifies this`daily
      ensures daily == old(daily) + (set r | r in rows)
    {
      for i := 0 to |rows|
        invariant daily == old(daily) + (set r | r in rows[..i])
      {
        assert rows[..i + 1] == rows[..i] + [rows[i]];
        daily := daily + {rows[i]};
      }
      assert rows[..|rows|] == rows;
    }

    /** GROUP BY node over one month, then one upsert per node. */
    method RollMonth(m: Range)
      requires m == RangeOf(m.month)
      modifies this`monthly
      ensures monthly == Rolled(daily, old(monthly), m.month)
    {
      var rows := set r | r in daily && m.from <= r.day <= m.to;
      var nodes := set r | r in rows :: r.node;
      assert nodes == NodesIn(daily, m.month);
      var todo := nodes;
      while todo != {}
        invariant todo <= nodes
        invariant UpTo(daily, old(monthly), monthly, m.month, nodes - todo)
      {
        var n :| n in todo;
        var count := |set r | r in rows && r.node == n|;
        assert (set r | r in rows && r.node == n) == DaysIn(daily, n, m.month);
        monthly := monthly[NodeMonth(n, m.month) := count];
        todo := todo - {n};
      }
    }

    method RollupSizingMonthly(fromDay: int, toDay: int, done: nat)
      modifies this`monthly
      ensures var rs := Touching(fromDay, toDay);
              monthly == RolledAll(daily, old(monthly), if done < |rs| then rs[..done] else rs)
    {
      hide Touching, Rolled;
      var rs := MonthRanges(fromDay, toDay);
      RangesAreMonths(fromDay, toDay);
      var n := if done < |rs| then done else |rs|;
      for i := 0 to n
        invariant monthly == RolledAll(daily, old(monthly), rs[..i])
      {
        assert rs[..i + 1][..i] == rs[..i] && rs[i] in rs;
        RollMonth(rs[i]);
      }
      assert rs[..|rs|] == rs;
    }

    method PruneSizingDaily(olderThan: int)
      modifies this`daily
      ensures daily == Pruned(old(daily), olderThan)
    {
      daily := set r | r in daily && !(r.day < olderThan);
    }

    /** The last two steps of the pass: prune only after a complete rollup. done months succeed. */
    method Housekeep(today: int, retention: int, done: nat, prunes: bool, ghost s: State)
      requires s.daily == daily && s.monthly == monthly
      modifies this
      ensures var s' := Apply(s, Pass(today, done, prunes), retention); daily == s'.daily && monthly == s'.monthly
    {
      var rs := MonthRanges(today - ROLLUP_DAYS, today);
      RollupSizingMonthly(today - ROLLUP_DAYS, today, done);
      if done >= |rs| && retention > 0 && prunes {
        PruneSizingDaily(today - retention);
      }
    }
  }

  lemma RangesAreMonths(fromDay: int, toDay: int)
    ensures forall r :: r in Touching(fromDay, toDay) ==> r == RangeOf(r.month)
  {
    hide FirstDay;
    forall r | r in Touching(fromDay, toDay) ensures r == RangeOf(r.month) {
      var i :| 0 <= i < |Touching(fromDay, toDay)| && Touching(fromDay, toDay)[i] == r;
      assert r == RangeOf(MonthOf(fromDay) + i);
    }
  }

  /** monthly is was with the given nodes' counts for the month put in. */
  ghost predicate UpTo(daily: set<NodeDay>, was: Monthly, monthly: Monthly, month: int, nodes: set<Node>) {
    forall k :: (k in monthly <==> k in was || (k.month == month && k.node in nodes))
                && (k in monthly ==> monthly[k] == if k.month == month && k.node in nodes
                                                   then |DaysIn(daily, k.node, month)| else was[k])
  }
}

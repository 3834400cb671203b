/** A node's multi-day verdict, and what its hysteresis guarantees over successive passes. */
module Verdict {
  import opened Model
  import opened Sets
  import opened Sorting

  const MIN_DAYS_PRESENT := 14
  const UNDERSIZED_PRESSURE := 50.0
  const UNDERSIZED_DAYS := 7
  const AT_RISK_PRESSURE := 25.0
  const AT_RISK_DAYS := 14
  const HYSTERESIS_BAD_DAYS := 3

  datatype State = InsufficientData | Ok | AtRisk | Undersized

  /** One day of a node's history. */
  datatype DayScore = DayScore(day: int, pressure: Option<real>, topAxis: string)

  datatype Verdict = Verdict(state: State, topAxis: string, present: nat, bad: nat, risk: nat)

  predicate AtLeast(d: DayScore, p: real) { d.pressure.Some? && d.pressure.value >= p }

  predicate Bad(d: DayScore) { AtLeast(d, UNDERSIZED_PRESSURE) }

  function Present(days: seq<DayScore>): nat {
    if days == [] then 0 else Present(days[..|days| - 1]) + (if days[|days| - 1].pressure.Some? then 1 else 0)
  }

  function DaysAt(days: seq<DayScore>, p: real): nat {
    if days == [] then 0 else DaysAt(days[..|days| - 1], p) + (if AtLeast(days[|days| - 1], p) then 1 else 0)
  }

  function BadOn(days: seq<DayScore>, axis: string): nat {
    if days == [] then 0
    else BadOn(days[..|days| - 1], axis) + (if Bad(days[|days| - 1]) && days[|days| - 1].topAxis == axis then 1 else 0)
  }

  /** k of n with hysteresis. previous is the last stored state. */
  function StateOf(present: nat, bad: nat, risk: nat, previous: State, minDays: int): State {
    if present < minDays then InsufficientData
    else if bad >= UNDERSIZED_DAYS || (previous == Undersized && bad > HYSTERESIS_BAD_DAYS) then Undersized
    else if risk >= AT_RISK_DAYS then AtRisk
    else Ok
  }

  /** The axis that led on the most bad days, the first by name among equals; none without bad days. */
  predicate Leads(days: seq<DayScore>, axis: string) {
    if DaysAt(days, UNDERSIZED_PRESSURE) == 0 then axis == ""
    else BadOn(days, axis) > 0
         && forall d :: d in days && Bad(d) ==>
              BadOn(days, d.topAxis) < BadOn(days, axis)
              || (BadOn(days, d.topAxis) == BadOn(days, axis) && !StringLess(d.topAxis, axis))
  }

  ghost predicate Judged(days: seq<DayScore>, previous: State, minDays: int, v: Verdict) {
    && v.present == Present(days)
    && v.bad == DaysAt(days, UNDERSIZED_PRESSURE) && v.risk == DaysAt(days, AT_RISK_PRESSURE)
    && v.state == StateOf(v.present, v.bad, v.risk, previous, minDays)
    && if v.state.Undersized? || v.state.AtRisk? then Leads(days, v.topAxis) else v.topAxis == ""
  }

  // ----- the evaluation -----

  predicate LedOnce(days: seq<DayScore>, axis: string) { exists d :: d in days && Bad(d) && d.topAxis == axis }

  ghost predicate Counts(days: seq<DayScore>, axisBad: map<string, nat>) {
    && (forall a :: a in axisBad <==> LedOnce(days, a))
    && (forall a :: a in axisBad ==> axisBad[a] == BadOn(days, a) > 0)
    && (forall a :: a !in axisBad ==> BadOn(days, a) == 0)
  }

  lemma CountOne(days: seq<DayScore>, d: DayScore, axisBad: map<string, nat>)
    requires Counts(days, axisBad)
    ensures var n := if d.topAxis in axisBad then axisBad[d.topAxis] else 0;
            Counts(days + [d], if Bad(d) then axisBad[d.topAxis := n + 1] else axisBad)
  {
    var after := days + [d];
    assert after[..|after| - 1] == days;
    forall a ensures LedOnce(after, a) <==> LedOnce(days, a) || (Bad(d) && d.topAxis == a) {
      if Bad(d) && d.topAxis == a { assert d in after; }
      if x :| x in days && Bad(x) && x.topAxis == a { assert x in after; }
    }
  }

  method EvaluateVerdict(days: seq<DayScore>, previous: State, minDays: int) returns (v: Verdict)
    ensures Judged(days, previous, minDays, v)
  {
    hide Leads;
    var present, bad, risk := 0, 0, 0;
    var axisBad: map<string, nat> := map[];
    for i := 0 to |days|
      invariant present == Present(days[..i]) && bad == DaysAt(days[..i], UNDERSIZED_PRESSURE)
      invariant risk == DaysAt(days[..i], AT_RISK_PRESSURE)
      invariant Counts(days[..i], axisBad)
    {
      var d := days[i];
      assert days[..i + 1] == days[..i] + [d] && days[..i + 1][..i] == days[..i];
      CountOne(days[..i], d, axisBad);
      if d.pressure.None? { continue; }
      present := present + 1;
      if d.pressure.value >= AT_RISK_PRESSURE { risk := risk + 1; }
      if d.pressure.value >= UNDERSIZED_PRESSURE {
        bad := bad + 1;
        axisBad := axisBad[d.topAxis := (if d.topAxis in axisBad then axisBad[d.topAxis] else 0) + 1];
      }
    }
    assert days[..|days|] == days;
    var state := StateOf(present, bad, risk, previous, minDays);
    var axis := "";
    if state.Undersized? || state.AtRisk? { axis := DominantAxis(days, axisBad); }
    v := Verdict(state, axis, present, bad, risk);
  }

  lemma {:induction false} BadDaysShow(days: seq<DayScore>)
    ensures DaysAt(days, UNDERSIZED_PRESSURE) > 0 <==> exists d :: d in days && Bad(d)
  {
    if days != [] {
      var init, last := days[..|days| - 1], days[|days| - 1];
      BadDaysShow(init);
      assert last in days && forall d :: d in days <==> d in init || d == last;
    }
  }

  /** a does not lead before best does. */
  predicate Behind(days: seq<DayScore>, a: string, best: string) {
    BadOn(days, a) < BadOn(days, best) || (BadOn(days, a) == BadOn(days, best) && !StringLess(a, best))
  }

  ghost predicate LeadsAmong(days: seq<DayScore>, names: seq<string>, best: string, bestN: nat) {
    if names == [] then best == "" && bestN == 0
    else best in names && bestN == BadOn(days, best) > 0 && forall a :: a in names ==> Behind(days, a, best)
  }

  lemma LeadsNext(days: seq<DayScore>, names: seq<string>, best: string, bestN: nat, name: string)
    requires TotalOrder(StringLess) && LeadsAmong(days, names, best, bestN) && BadOn(days, name) > 0
    requires forall a :: a in names ==> StringLess(a, name)
    ensures if BadOn(days, name) > bestN then LeadsAmong(days, names + [name], name, BadOn(days, name))
            else LeadsAmong(days, names + [name], best, bestN)
  {
    hide BadOn;
    assert forall a :: a in names + [name] <==> a in names || a == name;
    assert !StringLess(name, name);
    if names != [] { assert StringLess(best, name) && !StringLess(name, best); }
  }

  /** Names in order, a later one only if it has more. */
  method DominantAxis(days: seq<DayScore>, axisBad: map<string, nat>) returns (best: string)
    requires Counts(days, axisBad)
    ensures Leads(days, best)
  {
    hide BadOn, LeadsAmong, Leads;
    StringLessTotal();
    var names := InOrder(axisBad.Keys, StringLess);
    best := "";
    var bestN := 0;
    NoneLeads(days);
    for i := 0 to |names|
      invariant LeadsAmong(days, names[..i], best, bestN)
    {
      assert names[..i + 1] == names[..i] + [names[i]] && names[i] in names;
      forall a | a in names[..i] ensures StringLess(a, names[i]) { var j :| 0 <= j < i && names[j] == a; }
      LeadsNext(days, names[..i], best, bestN, names[i]);
      if axisBad[names[i]] > bestN {
        best, bestN := names[i], axisBad[names[i]];
      }
    }
    assert names[..|names|] == names;
    Dominates(days, axisBad, names, best, bestN);
  }

  lemma NoneLeads(days: seq<DayScore>)
    ensures LeadsAmong(days, [], "", 0)
  {
  }

  lemma Dominates(days: seq<DayScore>, axisBad: map<string, nat>, names: seq<string>, best: string, bestN: nat)
    requires Counts(days, axisBad) && (forall a :: a in names <==> a in axisBad) && LeadsAmong(days, names, best, bestN)
    ensures Leads(days, best)
  {
    hide BadOn, DaysAt;
    BadDaysShow(days);
    forall d | d in days && Bad(d) ensures d.topAxis in names { assert LedOnce(days, d.topAxis); }
    if names != [] {
      assert LedOnce(days, names[0]);
    }
  }

  // ----- over successive passes -----

  /** The verdict state after each window, each pass reading the state the one before it stored. */
  ghost function StateAfter(first: State, windows: seq<seq<DayScore>>, minDays: int): State {
    if windows == [] then first
    else
      var days := windows[|windows| - 1];
      StateOf(Present(days), DaysAt(days, UNDERSIZED_PRESSURE), DaysAt(days, AT_RISK_PRESSURE),
              StateAfter(first, windows[..|windows| - 1], minDays), minDays)
  }

  /** Every window from i + 1 on has enough days and more than three bad ones. */
  ghost predicate StaysBad(windows: seq<seq<DayScore>>, minDays: int, i: nat) {
    forall j :: i <= j < |windows| ==>
      Present(windows[j]) >= minDays && DaysAt(windows[j], UNDERSIZED_PRESSURE) > HYSTERESIS_BAD_DAYS
  }

  /** Once undersized, a node with enough days present stays so while more than three of them are bad. */
  lemma {:induction false} UndersizedHolds(first: State, windows: seq<seq<DayScore>>, minDays: int, i: nat)
    requires i <= |windows| && StateAfter(first, windows[..i], minDays) == Undersized && StaysBad(windows, minDays, i)
    ensures StateAfter(first, windows, minDays) == Undersized
    decreases |windows|
  {
    if i == |windows| {
      assert windows[..i] == windows;
    } else {
      assert windows[..|windows| - 1][..i] == windows[..i];
      UndersizedHolds(first, windows[..|windows| - 1], minDays, i);
    }
  }

  ghost function BadDays(days: seq<DayScore>): set<int> { set d | d in days && Bad(d) :: d.day }

  /** A window holds one row per day. */
  ghost predicate OnePerDay(days: seq<DayScore>) {
    forall i, j :: 0 <= i < j < |days| ==> days[i].day != days[j].day
  }

  lemma {:induction false} BadDaysCounted(days: seq<DayScore>)
    requires OnePerDay(days)
    ensures |BadDays(days)| == DaysAt(days, UNDERSIZED_PRESSURE)
  {
    if days != [] {
      var init, last := days[..|days| - 1], days[|days| - 1];
      BadDaysCounted(init);
      assert forall d :: d in days <==> d in init || d == last;
      if Bad(last) {
        assert last.day !in BadDays(init);
        assert BadDays(days) == BadDays(init) + {last.day};
      } else {
        assert BadDays(days) == BadDays(init);
      }
    }
  }

  lemma StateStep(first: State, windows: seq<seq<DayScore>>, minDays: int, i: nat)
    requires i < |windows|
    ensures StateAfter(first, windows[..i + 1], minDays)
         == StateOf(Present(windows[i]), DaysAt(windows[i], UNDERSIZED_PRESSURE), DaysAt(windows[i], AT_RISK_PRESSURE),
                    StateAfter(first, windows[..i], minDays), minDays)
  {
    assert windows[..i + 1][..i] == windows[..i];
  }

  /** An undersized node released at one pass, with enough days present, and undersized again at a later one:
      between the two, at least four days turned bad. */
  lemma FlappingTakesFourDays(first: State, windows: seq<seq<DayScore>>, minDays: int, release: nat, flag: nat)
    requires release < flag < |windows| && OnePerDay(windows[release]) && OnePerDay(windows[flag])
    requires StateAfter(first, windows[..release], minDays) == Undersized
    requires Present(windows[release]) >= minDays && StateAfter(first, windows[..release + 1], minDays) != Undersized
    requires StateAfter(first, windows[..flag], minDays) != Undersized
    requires StateAfter(first, windows[..flag + 1], minDays) == Undersized
    ensures |BadDays(windows[release])| <= 3 && |BadDays(windows[flag])| >= 7
    ensures |BadDays(windows[flag]) - BadDays(windows[release])| >= 4
  {
    hide StateAfter, DaysAt, Present, BadDays;
    StateStep(first, windows, minDays, release);
    StateStep(first, windows, minDays, flag);
    BadDaysCounted(windows[release]);
    BadDaysCounted(windows[flag]);
    var before, after := BadDays(windows[release]), BadDays(windows[flag]);
    assert after == (after * before) + (after - before);
    SubsetSize(after * before, before);
  }
}

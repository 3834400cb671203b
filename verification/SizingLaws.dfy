/** The sizing numbers themselves: which days count, what each measurement is worth, and what a cohort holds. */
module SizingLaws {
  import opened Model
  import opened Sorting
  import opened Sets
  import P = Pressure
  import V = Verdict
  import C = Cohort

  // ----- the verdict on a node's days -----

  /** The days with a pressure of at least p. */
  function DaysFrom(days: seq<V.DayScore>, p: real): set<int> {
    set i | 0 <= i < |days| && days[i].pressure.Some? && days[i].pressure.value >= p
  }

  function Measured(days: seq<V.DayScore>): set<int> { set i | 0 <= i < |days| && days[i].pressure.Some? }

  /** The bad days on which the axis led. */
  function LedBy(days: seq<V.DayScore>, axis: string): set<int> {
    set i | i in DaysFrom(days, 50.0) && days[i].topAxis == axis
  }

  lemma CountsAreSizes(days: seq<V.DayScore>, p: real, axis: string)
    ensures V.Present(days) == |Measured(days)| && V.DaysAt(days, p) == |DaysFrom(days, p)|
    ensures V.BadOn(days, axis) == |LedBy(days, axis)|
  {
    PresentIsSize(days);
    DaysAtIsSize(days, p);
    BadOnIsSize(days, axis);
  }

  lemma {:induction false} PresentIsSize(days: seq<V.DayScore>)
    ensures V.Present(days) == |Measured(days)|
  {
    if days != [] {
      var init, n := days[..|days| - 1], |days| - 1;
      PresentIsSize(init);
      MeasuredGrow(days);
      hide Measured;
    }
  }

  lemma MeasuredGrow(days: seq<V.DayScore>)
    requires days != []
    ensures var init, n := days[..|days| - 1], |days| - 1;
            Measured(days) == Measured(init) + (if days[n].pressure.Some? then {n} else {}) && n !in Measured(init)
  {
  }

  lemma {:induction false} DaysAtIsSize(days: seq<V.DayScore>, p: real)
    ensures V.DaysAt(days, p) == |DaysFrom(days, p)|
  {
    if days != [] {
      var init, n := days[..|days| - 1], |days| - 1;
      DaysAtIsSize(init, p);
      DaysFromGrow(days, p);
      hide DaysFrom;
    }
  }

  lemma DaysFromGrow(days: seq<V.DayScore>, p: real)
    requires days != []
    ensures var init, n := days[..|days| - 1], |days| - 1;
            && DaysFrom(days, p) == DaysFrom(init, p) + (if V.AtLeast(days[n], p) then {n} else {})
            && n !in DaysFrom(init, p)
  {
  }

  lemma {:induction false} BadOnIsSize(days: seq<V.DayScore>, axis: string)
    ensures V.BadOn(days, axis) == |LedBy(days, axis)|
  {
    if days != [] {
      var init, n := days[..|days| - 1], |days| - 1;
      BadOnIsSize(init, axis);
      LedByGrow(days, axis);
      hide LedBy;
    }
  }

  lemma LedByGrow(days: seq<V.DayScore>, axis: string)
    requires days != []
    ensures var init, n := days[..|days| - 1], |days| - 1;
            var led := V.Bad(days[n]) && days[n].topAxis == axis;
            LedBy(days, axis) == LedBy(init, axis) + (if led then {n} else {}) && n !in LedBy(init, axis)
  {
    DaysFromGrow(days, 50.0);
  }

  /** Too few measured days are no verdict. With enough: undersized with seven bad ones, or while it was undersized
      with more than three; at risk otherwise with fourteen of at least half that pressure; and else ok. */
  lemma VerdictMeans(days: seq<V.DayScore>, previous: V.State, minDays: int, v: V.Verdict)
    requires V.Judged(days, previous, minDays, v)
    ensures var measured, bad, risk := |Measured(days)|, |DaysFrom(days, 50.0)|, |DaysFrom(days, 25.0)|;
            var undersized := bad >= 7 || (previous == V.Undersized && bad > 3);
            && v.present == measured && v.bad == bad && v.risk == risk
            && (v.state == V.InsufficientData <==> measured < minDays)
            && (v.state == V.Undersized <==> measured >= minDays && undersized)
            && (v.state == V.AtRisk <==> measured >= minDays && !undersized && risk >= 14)
            && (v.state == V.Ok <==> measured >= minDays && !undersized && risk < 14)
  {
    CountsAreSizes(days, 50.0, "");
    CountsAreSizes(days, 25.0, "");
  }

  /** The axis named led on the most bad days, and comes first by name among those that led on as many. */
  lemma TopAxisMeans(days: seq<V.DayScore>, previous: V.State, minDays: int, v: V.Verdict, i: int)
    requires V.Judged(days, previous, minDays, v) && i in DaysFrom(days, 50.0)
    ensures v.state == V.Undersized || v.state == V.AtRisk ==>
              && |LedBy(days, v.topAxis)| > 0 && |LedBy(days, days[i].topAxis)| <= |LedBy(days, v.topAxis)|
              && (|LedBy(days, days[i].topAxis)| == |LedBy(days, v.topAxis)|
                  ==> !StringLess(days[i].topAxis, v.topAxis))
    ensures v.state == V.Ok || v.state == V.InsufficientData ==> v.topAxis == ""
  {
    CountsAreSizes(days, 50.0, v.topAxis);
    CountsAreSizes(days, 50.0, days[i].topAxis);
    assert days[i] in days && V.Bad(days[i]) && DaysFrom(days, 50.0) != {};
    hide V.BadOn, V.DaysAt, V.Present, DaysFrom, LedBy, Measured, V.StateOf;
  }

  // ----- what one measurement is worth -----

  /** Nothing up to x0, c from x1 on, and in proportion between them. */
  predicate Rises(y: real, x: real, x0: real, x1: real, c: real) {
    if x <= x0 then y == 0.0 else if x >= x1 then y == c else y * (x1 - x0) == c * (x - x0)
  }

  lemma RampRises(x: real, x0: real, x1: real, c: real)
    requires x0 < x1
    ensures Rises(P.Ramp(x, x0, x1, c), x, x0, x1, c)
  {
    var d, q := x1 - x0, (x - x0) / (x1 - x0);
    P.Quotient(x - x0, d);
    assert q * d == x - x0;
    if x0 < x < x1 {
      assert P.Ramp(x, x0, x1, c) == c * q;
      Reorder(c, q, d);
    } else if x >= x1 {
      assert P.Clamp(q, 0.0, 1.0) == 1.0;
    } else {
      NotAbove(x - x0, d);
      assert P.Clamp(q, 0.0, 1.0) == 0.0;
    }
  }

  lemma Reorder(c: real, q: real, d: real)
    ensures c * q * d == c * (q * d)
  {
  }

  lemma NotAbove(a: real, d: real)
    requires a <= 0.0 && d > 0.0
    ensures a / d <= 0.0
  {
    P.Quotient(a, d);
  }

  /** Memory in use from 85 to 97 percent is worth up to 60, pages swapped in from 1 to 200 up to 60; processor from 80
      to 95 percent and load from 1 to 4 per core up to 40; waiting for disks from 5 to 40 percent up to 40. */
  lemma RampsMean(x: real)
    ensures Rises(P.RamTerm(x), x, 0.85, 0.97, 60.0) && Rises(P.SwapTerm(x), x, 1.0, 200.0, 60.0)
    ensures Rises(P.CpuTerm(x), x, 0.80, 0.95, 40.0) && Rises(P.LoadTerm(x), x, 1.0, 4.0, 40.0)
    ensures Rises(P.IoTerm(x), x, 0.05, 0.40, 40.0)
  {
    RampRises(x, 0.85, 0.97, 60.0);
    RampRises(x, 1.0, 200.0, 60.0);
    RampRises(x, 0.80, 0.95, 40.0);
    RampRises(x, 1.0, 4.0, 40.0);
    RampRises(x, 0.05, 0.40, 40.0);
    hide P.Ramp, Rises;
  }

  /** Any out-of-memory kill is worth 40 and up to 60 more from one to five of them; a filesystem from 85 to 97 percent
      full up to 70, and 100 from 98 on; one that will be full in less than 90 days up to 60, reached at 15. */
  lemma StepsMean(x: real)
    ensures x <= 0.0 ==> P.OomTerm(x) == 0.0
    ensures x > 0.0 ==> Rises(P.OomTerm(x) - 40.0, x, 1.0, 5.0, 60.0)
    ensures x < 0.98 ==> Rises(P.LevelTerm(x), x, 0.85, 0.97, 70.0)
    ensures x >= 0.98 ==> P.LevelTerm(x) == 100.0
    ensures Rises(P.TrendTerm(x), 90.0 - x, 0.0, 75.0, 60.0)
  {
    RampRises(x, 1.0, 5.0, 60.0);
    RampRises(x, 0.85, 0.97, 70.0);
    RampRises(90.0 - x, 0.0, 75.0, 60.0);
    hide P.Ramp, Rises;
  }

  /** v is the greatest of the terms that were measured, none if none was. */
  predicate IsMost(v: Option<real>, a: Option<real>, b: Option<real>, c: Option<real>) {
    && (v == None <==> a == None && b == None && c == None)
    && (v.Some? ==> (v == a || v == b || v == c)
                    && (a.Some? ==> a.value <= v.value) && (b.Some? ==> b.value <= v.value)
                    && (c.Some? ==> c.value <= v.value))
  }

  function At(v: Option<real>, f: real -> real): Option<real> { if v.Some? then Some(f(v.value)) else None }

  /** Each axis is the worst of its measurements; a disk full later than in 90 days is not one. */
  lemma AxesMean(n: P.NodeDay)
    ensures IsMost(P.Mem(n), At(n.ramUtil, P.RamTerm), At(n.swapIn, P.SwapTerm), At(n.oomKills, P.OomTerm))
    ensures IsMost(P.Cpu(n), At(n.cpuUtil, P.CpuTerm), At(n.load, P.LoadTerm), None)
    ensures P.Io(n) == At(n.ioWait, P.IoTerm)
    ensures IsMost(P.Disk(n), At(n.fsUsed, P.LevelTerm),
                   if n.fsDays.Some? && n.fsDays.value < 90.0 then Some(P.TrendTerm(n.fsDays.value)) else None, None)
  {
    hide P.RamTerm, P.SwapTerm, P.OomTerm, P.CpuTerm, P.LoadTerm, P.IoTerm, P.LevelTerm, P.TrendTerm;
  }

  /** The worst of four, in full, and half of the others, at most 100. */
  predicate Combines(v: real, worst: real, a: real, b: real, c: real, d: real) {
    && (worst == a || worst == b || worst == c || worst == d)
    && worst >= a && worst >= b && worst >= c && worst >= d
    && var sum := worst + 0.5 * (a + b + c + d - worst);
       v == if sum > 100.0 then 100.0 else sum
  }

  /** None for a node-day with too few samples or no known hardware, or nothing measured. */
  lemma PressureMeans(n: P.NodeDay)
    ensures P.PressureOf(n).Some? <==>
              && n.metricsPresent && n.coverage >= 0.80 && n.cpuCores >= 1 && n.memTotal > 0
              && (P.Mem(n).Some? || P.Cpu(n).Some? || P.Io(n).Some? || P.Disk(n).Some?)
    ensures P.PressureOf(n).Some? ==>
              Combines(P.PressureOf(n).value, P.Worst(n), P.Or0(P.Mem(n)), P.Or0(P.Cpu(n)), P.Or0(P.Io(n)),
                       P.Or0(P.Disk(n)))
  {
    P.AxesNotNegative(n);
    hide P.Mem, P.Cpu, P.Io, P.Disk;
  }

  /** A reason is given exactly for a measurement past where it starts to count. */
  lemma ReasonsMean(n: P.NodeDay, s: P.Score)
    requires P.Scores(n, s) && s.pressure.Some?
    ensures forall c :: c in s.reasons <==>
              || (c == "ram_headroom" && n.ramUtil.Some? && n.ramUtil.value > 0.85)
              || (c == "swap_in" && n.swapIn.Some? && n.swapIn.value > 1.0)
              || (c == "oom_kill" && n.oomKills.Some? && n.oomKills.value > 0.0)
              || (c == "cpu_util" && n.cpuUtil.Some? && n.cpuUtil.value > 0.80)
              || (c == "runqueue" && n.load.Some? && n.load.value > 1.0)
              || (c == "iowait" && n.ioWait.Some? && n.ioWait.value > 0.05)
              || (c == "fs_level" && n.fsUsed.Some? && n.fsUsed.value > 0.85)
              || (c == "fs_full" && n.fsUsed.Some? && n.fsUsed.value >= 0.98)
              || (c == "fs_trend" && n.fsDays.Some? && n.fsDays.value < 90.0)
  {
    FiredAre(s, n);
    FiredMean(n);
    hide *;
  }

  lemma FiredAre(s: P.Score, n: P.NodeDay)
    requires P.Scores(n, s) && s.pressure.Some?
    ensures forall c :: c in s.reasons <==> c in P.Fired(n)
  {
    hide P.Fired, P.IsTop, P.Mem, P.Cpu, P.Io, P.Disk;
  }

  lemma FiredMean(n: P.NodeDay)
    ensures forall c :: c in P.Fired(n) <==>
              || (c == "ram_headroom" && n.ramUtil.Some? && n.ramUtil.value > 0.85)
              || (c == "swap_in" && n.swapIn.Some? && n.swapIn.value > 1.0)
              || (c == "oom_kill" && n.oomKills.Some? && n.oomKills.value > 0.0)
              || (c == "cpu_util" && n.cpuUtil.Some? && n.cpuUtil.value > 0.80)
              || (c == "runqueue" && n.load.Some? && n.load.value > 1.0)
              || (c == "iowait" && n.ioWait.Some? && n.ioWait.value > 0.05)
              || (c == "fs_level" && n.fsUsed.Some? && n.fsUsed.value > 0.85)
              || (c == "fs_full" && n.fsUsed.Some? && n.fsUsed.value >= 0.98)
              || (c == "fs_trend" && n.fsDays.Some? && n.fsDays.value < 90.0)
  {
    assert forall c, holds, code :: c in P.Code(holds, code) <==> c == code && holds;
    hide P.Code;
  }

  /** The axis named is one of the worst, and the first of those in the order memory, processor, waiting, disk. */
  lemma TopIsFirstWorst(n: P.NodeDay, name: string)
    requires P.IsTop(n, name)
    ensures name == "mem" || name == "cpu" || name == "io" || name == "disk"
    ensures name == "cpu" ==> P.Mem(n).None? || P.Or0(P.Mem(n)) < P.Or0(P.Cpu(n))
    ensures name == "disk" ==> (P.Mem(n).None? || P.Or0(P.Mem(n)) < P.Or0(P.Disk(n)))
                               && (P.Cpu(n).None? || P.Or0(P.Cpu(n)) < P.Or0(P.Disk(n)))
                               && (P.Io(n).None? || P.Or0(P.Io(n)) < P.Or0(P.Disk(n)))
    ensures name == "mem" ==> P.Mem(n).Some? && (P.Disk(n).Some? ==> P.Disk(n).value <= P.Mem(n).value)
                              && (P.Cpu(n).Some? ==> P.Cpu(n).value <= P.Mem(n).value)
                              && (P.Io(n).Some? ==> P.Io(n).value <= P.Mem(n).value)
  {
    hide P.Mem, P.Cpu, P.Io, P.Disk;
    assert "mem"[0] == 'm' && "cpu"[0] == 'c' && "io"[0] == 'i' && "disk"[0] == 'd';
    var axes := P.Axes(n);
    assert axes[0] == ("mem", P.Mem(n)) && axes[1] == ("cpu", P.Cpu(n)) && axes[2] == ("io", P.Io(n));
    assert axes[3] == ("disk", P.Disk(n));
  }

  // ----- cohorts -----

  /** A node is left out if its hardware changed or it had no usable day; what it contributes is its 90th percentile,
      and it is censored at 90 percent of memory in use, or at any swapping in or out-of-memory kill. */
  lemma ReducedMeans(n: C.Node, d: C.Demand)
    requires C.Reduces(n, d)
    ensures d.eligible <==> !n.hardwareChanged && n.ramUsed != []
    ensures d.eligible ==> C.IsQuantile(n.ramUsed, 0.90, d.ramUsed)
                           && (n.cpuUsed != [] ==> C.IsQuantile(n.cpuUsed, 0.90, d.cpuUsed))
    ensures d.eligible && n.ramUtil != [] ==>
              exists u :: C.IsQuantile(n.ramUtil, 0.90, u)
                          && (d.censored <==> u >= 0.90 || n.maxSwapIn > 0.0 || n.maxOom > 0.0)
    ensures d.families == n.workloads.Keys
    ensures forall f :: f in d.business <==>
              && f in n.workloads
              && (f !in {"loki", "ldapproxy", "metrics", "crowdsec", "traefik", "openldap", "samba", "nethvoice-proxy"}
                  || (f == "samba" && (C.Metric(n.workloads[f], "shared_folders_count") > 0.0
                                       || C.Metric(n.workloads[f], "shared_folders") > 0.0)))
  {
    hide C.IsQuantile, C.Metric;
  }

  /** The positions of the nodes in a cohort: every eligible node that runs the family, and for a solo cohort only if
      that is all its business. */
  function Members(ds: seq<C.Demand>, id: C.Id): set<int> {
    set i | 0 <= i < |ds| && ds[i].eligible && id.key in ds[i].families
            && (id.kind == C.FamilySolo ==> ds[i].business == {id.key})
  }

  function Sampled(ds: seq<C.Demand>, id: C.Id): set<int> { set i | i in Members(ds, id) && !ds[i].censored }

  /** What the members that are not censored demand, in their order. */
  function Demanded(ds: seq<C.Demand>, id: C.Id, measure: C.Demand -> real): seq<real> {
    if ds == [] then []
    else
      var init, n := ds[..|ds| - 1], |ds| - 1;
      Demanded(init, id, measure) + (if n in Members(ds, id) && !ds[n].censored then [measure(ds[n])] else [])
  }

  /** A cohort counts its members, the censored ones apart, and holds the demand of each that is not censored. */
  lemma GatheredMeans(ds: seq<C.Demand>, id: C.Id)
    ensures var c := C.Gathered(ds, id);
            && c.nodes == |Members(ds, id)| && c.censored == |Members(ds, id)| - |Sampled(ds, id)|
            && c.ramUsed == Demanded(ds, id, (d: C.Demand) => d.ramUsed)
            && c.cpuUsed == Demanded(ds, id, (d: C.Demand) => d.cpuUsed)
            && c.installedRam == Demanded(ds, id, (d: C.Demand) => d.installedRam)
            && c.installedCores == Demanded(ds, id, (d: C.Demand) => d.installedCores)
            && (forall s :: s in c.systems <==> RunsIn(ds, id, s))
  {
    MembersCount(ds, id);
    SamplesMean(ds, id, (d: C.Demand) => d.ramUsed, (c: C.Cohort) => c.ramUsed);
    SamplesMean(ds, id, (d: C.Demand) => d.cpuUsed, (c: C.Cohort) => c.cpuUsed);
    SamplesMean(ds, id, (d: C.Demand) => d.installedRam, (c: C.Cohort) => c.installedRam);
    SamplesMean(ds, id, (d: C.Demand) => d.installedCores, (c: C.Cohort) => c.installedCores);
    forall s ensures s in C.Gathered(ds, id).systems <==> RunsIn(ds, id, s) { SystemsMean(ds, id, s); }
    hide *;
  }

  /** The system has a node in the cohort. */
  predicate RunsIn(ds: seq<C.Demand>, id: C.Id, systemId: string) {
    exists i :: i in Members(ds, id) && ds[i].systemId == systemId
  }

  lemma {:induction false} MembersCount(ds: seq<C.Demand>, id: C.Id)
    ensures var c := C.Gathered(ds, id);
            c.nodes == |Members(ds, id)| && c.censored == |Members(ds, id)| - |Sampled(ds, id)|
  {
    if ds != [] {
      var init, n := ds[..|ds| - 1], |ds| - 1;
      MembersCount(init, id);
      MembersGrow(ds, id);
      hide Members, Sampled;
    }
  }

  lemma MembersGrow(ds: seq<C.Demand>, id: C.Id)
    requires ds != []
    ensures var init, n := ds[..|ds| - 1], |ds| - 1;
            var enters := C.Enters(ds[n], id);
            && Members(ds, id) == Members(init, id) + (if enters then {n} else {}) && n !in Members(init, id)
            && Sampled(ds, id) == Sampled(init, id) + (if enters && !ds[n].censored then {n} else {})
            && n !in Sampled(init, id)
  {
  }

  lemma {:induction false} SamplesMean(ds: seq<C.Demand>, id: C.Id, measure: C.Demand -> real,
                                       column: C.Cohort -> seq<real>)
    requires column(C.NO_NODES) == []
    requires forall c: C.Cohort, d: C.Demand {:trigger column(C.With(c, d))} ::
               column(C.With(c, d)) == if d.censored then column(c) else column(c) + [measure(d)]
    ensures column(C.Gathered(ds, id)) == Demanded(ds, id, measure)
  {
    if ds != [] {
      var init, n := ds[..|ds| - 1], |ds| - 1;
      SamplesMean(init, id, measure, column);
      assert n in Members(ds, id) <==> C.Enters(ds[n], id);
      hide Members, C.With;
    }
  }

  lemma SystemsMean(ds: seq<C.Demand>, id: C.Id, s: string)
    ensures s in C.Gathered(ds, id).systems <==> RunsIn(ds, id, s)
  {
    C.CohortSystems(ds, id);
    hide C.Gathered;
    if RunsIn(ds, id, s) {
      var i :| i in Members(ds, id) && ds[i].systemId == s;
      assert ds[i] in ds && C.Enters(ds[i], id);
    }
    if s in C.Gathered(ds, id).systems {
      var d :| d in ds && C.Enters(d, id) && d.systemId == s;
      var i :| 0 <= i < |ds| && ds[i] == d;
      assert i in Members(ds, id);
    }
  }

  /** The floor: enough systems and enough nodes among the members. */
  lemma FloorMeans(rule: C.Rule, ds: seq<C.Demand>, id: C.Id)
    ensures C.Clears(rule, C.Gathered(ds, id))
       <==> |C.Gathered(ds, id).systems| >= rule.minDistinctSystems && |Members(ds, id)| >= rule.minNodes
  {
    MembersCount(ds, id);
    hide C.Gathered, Members;
  }

  /** A row: the 50th, 75th and 90th percentiles of what is used, the 50th and 90th of what is installed. */
  lemma RowMeans(id: C.Id, c: C.Cohort, r: C.Row)
    requires C.Summarizes(id, c, r)
    ensures r.id == id && r.nodes == c.nodes && r.systems == |c.systems| && r.censored == c.censored
    ensures c.ramUsed != [] ==> C.IsQuantile(c.ramUsed, 0.50, r.ramP50) && C.IsQuantile(c.ramUsed, 0.75, r.ramP75)
                                && C.IsQuantile(c.ramUsed, 0.90, r.ramP90)
    ensures c.cpuUsed != [] ==> C.IsQuantile(c.cpuUsed, 0.50, r.cpuP50) && C.IsQuantile(c.cpuUsed, 0.75, r.cpuP75)
                                && C.IsQuantile(c.cpuUsed, 0.90, r.cpuP90)
    ensures c.installedRam != [] ==> C.IsQuantile(c.installedRam, 0.50, r.installedRamP50)
                                     && C.IsQuantile(c.installedRam, 0.90, r.installedRamP90)
    ensures c.installedCores != [] ==> C.IsQuantile(c.installedCores, 0.50, r.installedCoresP50)
                                       && C.IsQuantile(c.installedCores, 0.90, r.installedCoresP90)
  {
    hide C.IsQuantile;
  }

  /** The family cohorts first, and then the solo ones, each by family name. */
  lemma RowsInOrder(a: C.Id, b: C.Id)
    ensures C.IdLess(a, b)
       <==> (a.kind == C.Family && b.kind == C.FamilySolo) || (a.kind == b.kind && StringLess(a.key, b.key))
  {
  }

  /** A quantile of sorted values: at a whole place the value there, and between two places in proportion. */
  lemma QuantileMeans(s: seq<real>, q: real, v: real, k: nat)
    requires C.IsSorted(s) && C.IsQuantile(s, q, v) && 0.0 <= q <= 1.0 && k < |s|
    requires var place := q * (|s| - 1) as real; k as real <= place < k as real + 1.0
    ensures var part := q * (|s| - 1) as real - k as real;
            if part == 0.0 then v == s[k] else k + 1 < |s| && v == s[k] * (1.0 - part) + s[k + 1] * part
  {
    var t :| C.IsSorted(t) && multiset(t) == multiset(s) && |t| == |s| && v == C.At(t, C.Position(|t|, q));
    C.SortedUnique(t, s);
    var place := C.Position(|s|, q);
    assert place == q * (|s| - 1) as real;
    assert place.Floor == k;
    hide C.IsQuantile, C.IsSorted, C.Position;
  }
}

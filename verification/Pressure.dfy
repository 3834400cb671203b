/** One node-day's pressure: ramps, axes and their combination, over the reals. */
module Pressure {
  import opened Model
  import opened Sets
  import opened Sorting

  const MIN_SAMPLE_COVERAGE := 0.80
  const MIN_CPU_CORES := 1
  const RAM_UTIL_KNEE := 0.85
  const RAM_UTIL_FULL := 0.97
  const MEM_CAP := 60.0
  const SWAP_IN_KNEE := 1.0
  const SWAP_IN_FULL := 200.0
  const OOM_BASE := 40.0
  const OOM_KILLS_MAX := 5.0
  const OOM_RAMP_CAP := 60.0
  const CPU_UTIL_KNEE := 0.80
  const CPU_UTIL_FULL := 0.95
  const LOAD_KNEE := 1.0
  const LOAD_FULL := 4.0
  const CPU_CAP := 40.0
  const IOWAIT_KNEE := 0.05
  const IOWAIT_FULL := 0.40
  const IO_CAP := 40.0
  const FS_LEVEL_KNEE := 0.85
  const FS_LEVEL_FULL := 0.97
  const FS_LEVEL_CAP := 70.0
  const FS_FULL := 0.98
  const FS_TREND_HORIZON := 90.0
  const FS_TREND_URGENT := 15.0
  const FS_TREND_CAP := 60.0
  const COMPOUND_FACTOR := 0.5
  const MAX_PRESSURE := 100.0

  /** A node-day as stored. None is not measured, which is not the same as zero. */
  datatype NodeDay = NodeDay(metricsPresent: bool, coverage: real, cpuCores: int, memTotal: int,
                             ramUtil: Option<real>, swapIn: Option<real>, oomKills: Option<real>,
                             cpuUtil: Option<real>, load: Option<real>, ioWait: Option<real>,
                             fsUsed: Option<real>, fsDays: Option<real>)

  datatype Score = Score(pressure: Option<real>, mem: Option<real>, cpu: Option<real>, io: Option<real>,
                         disk: Option<real>, topAxis: string, reasons: seq<string>)

  // ----- terms -----

  function MaxReal(a: real, b: real): real { if a < b then b else a }

  function MinReal(a: real, b: real): real { if b < a then b else a }

  function Clamp(x: real, lo: real, hi: real): real { MinReal(hi, MaxReal(lo, x)) }

  function Ramp(x: real, x0: real, x1: real, ceiling: real): real {
    if x1 <= x0 then (if x >= x1 then ceiling else 0.0)
    else ceiling * Clamp((x - x0) / (x1 - x0), 0.0, 1.0)
  }

  lemma Signs(x: real, d: real)
    requires d > 0.0
    ensures x > 0.0 <==> x * d > 0.0
    ensures x < 0.0 <==> x * d < 0.0
  {
  }

  lemma Quotient(a: real, d: real)
    requires d > 0.0
    ensures a / d * d == a
    ensures a / d > 0.0 <==> a > 0.0
    ensures a / d >= 1.0 <==> a >= d
  {
    var q := a / d;
    assert q * d == a;
    Signs(q, d);
    Signs(q - 1.0, d);
    assert (q - 1.0) * d == q * d - d;
  }

  lemma QuotientsInOrder(a: real, b: real, d: real)
    requires d > 0.0 && a <= b
    ensures a / d <= b / d
  {
    var q, r := a / d, b / d;
    assert q * d == a && r * d == b;
    Ordered(q, r, d);
  }

  lemma Ordered(q: real, r: real, d: real)
    requires d > 0.0 && q * d <= r * d
    ensures q <= r
  {
    Signs(q - r, d);
    assert (q - r) * d == q * d - r * d;
  }

  lemma ScaledUp(c: real, x: real, y: real)
    requires c > 0.0 && x <= y
    ensures x * c <= y * c
  {
    Signs(x - y, c);
    assert (x - y) * c == x * c - y * c;
  }

  /** Zero up to the knee, the ceiling from the full point on, never falling in between. */
  lemma RampShape(x: real, y: real, x0: real, x1: real, ceiling: real)
    requires x0 < x1 && ceiling > 0.0 && x <= y
    ensures 0.0 <= Ramp(x, x0, x1, ceiling) <= Ramp(y, x0, x1, ceiling) <= ceiling
    ensures Ramp(x, x0, x1, ceiling) > 0.0 <==> x > x0
    ensures x >= x1 ==> Ramp(x, x0, x1, ceiling) == ceiling
  {
    var d := x1 - x0;
    Quotient(x - x0, d);
    Quotient(y - x0, d);
    QuotientsInOrder(x - x0, y - x0, d);
    var a, b := Clamp((x - x0) / d, 0.0, 1.0), Clamp((y - x0) / d, 0.0, 1.0);
    assert 0.0 <= a <= b <= 1.0;
    Scaled(x, x0, x1, ceiling, a);
    Scaled(y, x0, x1, ceiling, b);
    ScaledUp(ceiling, 0.0, a);
    ScaledUp(ceiling, a, b);
    ScaledUp(ceiling, b, 1.0);
    Signs(a, ceiling);
  }

  lemma Scaled(x: real, x0: real, x1: real, ceiling: real, a: real)
    requires x0 < x1 && a == Clamp((x - x0) / (x1 - x0), 0.0, 1.0)
    ensures Ramp(x, x0, x1, ceiling) == a * ceiling
  {
  }

  // ----- axes -----

  function Apply(v: Option<real>, f: real -> real): Option<real> { if v.Some? then Some(f(v.value)) else None }

  function MaxTerm(a: Option<real>, b: Option<real>): Option<real> {
    if a.None? then b else if b.None? then a else Some(MaxReal(a.value, b.value))
  }

  function RamTerm(v: real): real { Ramp(v, RAM_UTIL_KNEE, RAM_UTIL_FULL, MEM_CAP) }

  function SwapTerm(v: real): real { Ramp(v, SWAP_IN_KNEE, SWAP_IN_FULL, MEM_CAP) }

  /** A step, then a ramp: a kill is proof. */
  function OomTerm(v: real): real { if v > 0.0 then OOM_BASE + Ramp(v, 1.0, OOM_KILLS_MAX, OOM_RAMP_CAP) else 0.0 }

  function CpuTerm(v: real): real { Ramp(v, CPU_UTIL_KNEE, CPU_UTIL_FULL, CPU_CAP) }

  function LoadTerm(v: real): real { Ramp(v, LOAD_KNEE, LOAD_FULL, CPU_CAP) }

  function IoTerm(v: real): real { Ramp(v, IOWAIT_KNEE, IOWAIT_FULL, IO_CAP) }

  function LevelTerm(v: real): real {
    if v >= FS_FULL then MAX_PRESSURE else Ramp(v, FS_LEVEL_KNEE, FS_LEVEL_FULL, FS_LEVEL_CAP)
  }

  function TrendTerm(v: real): real {
    Ramp(FS_TREND_HORIZON - v, 0.0, FS_TREND_HORIZON - FS_TREND_URGENT, FS_TREND_CAP)
  }

  /** A disk that fills beyond the horizon is no measurement at all. */
  function Near(v: Option<real>): Option<real> { if v.Some? && v.value < FS_TREND_HORIZON then v else None }

  function Mem(n: NodeDay): Option<real> {
    MaxTerm(MaxTerm(Apply(n.ramUtil, RamTerm), Apply(n.swapIn, SwapTerm)), Apply(n.oomKills, OomTerm))
  }

  function Cpu(n: NodeDay): Option<real> { MaxTerm(Apply(n.cpuUtil, CpuTerm), Apply(n.load, LoadTerm)) }

  function Io(n: NodeDay): Option<real> { Apply(n.ioWait, IoTerm) }

  function Disk(n: NodeDay): Option<real> { MaxTerm(Apply(n.fsUsed, LevelTerm), Apply(Near(n.fsDays), TrendTerm)) }

  function Or0(a: Option<real>): real { if a.Some? then a.value else 0.0 }

  function Total(n: NodeDay): real { Or0(Mem(n)) + Or0(Cpu(n)) + Or0(Io(n)) + Or0(Disk(n)) }

  function Worst(n: NodeDay): real {
    MaxReal(MaxReal(Or0(Mem(n)), Or0(Cpu(n))), MaxReal(Or0(Io(n)), Or0(Disk(n))))
  }

  predicate Measured(n: NodeDay) { Mem(n).Some? || Cpu(n).Some? || Io(n).Some? || Disk(n).Some? }

  /** The coverage gate: a node that was off is not a node under no pressure. */
  predicate Covered(n: NodeDay) {
    n.metricsPresent && n.coverage >= MIN_SAMPLE_COVERAGE && n.cpuCores >= MIN_CPU_CORES && n.memTotal > 0
  }

  function PressureOf(n: NodeDay): Option<real> {
    if Covered(n) && Measured(n)
    then Some(Clamp(Worst(n) + COMPOUND_FACTOR * (Total(n) - Worst(n)), 0.0, MAX_PRESSURE)) else None
  }

  // ----- reasons -----

  predicate Above(v: Option<real>, knee: real) { v.Some? && v.value > knee }

  function Code(c: bool, code: string): set<string> { if c then {code} else {} }

  function MemFired(n: NodeDay): set<string> {
    Code(Above(n.ramUtil, RAM_UTIL_KNEE), "ram_headroom") + Code(Above(n.swapIn, SWAP_IN_KNEE), "swap_in")
    + Code(Above(n.oomKills, 0.0), "oom_kill")
  }

  function CpuFired(n: NodeDay): set<string> {
    Code(Above(n.cpuUtil, CPU_UTIL_KNEE), "cpu_util") + Code(Above(n.load, LOAD_KNEE), "runqueue")
  }

  function IoFired(n: NodeDay): set<string> { Code(Above(n.ioWait, IOWAIT_KNEE), "iowait") }

  function DiskFired(n: NodeDay): set<string> {
    Code(Above(n.fsUsed, FS_LEVEL_KNEE), "fs_level") + Code(n.fsUsed.Some? && n.fsUsed.value >= FS_FULL, "fs_full")
    + Code(Near(n.fsDays).Some?, "fs_trend")
  }

  /** Which measurements are past their knees. */
  function Fired(n: NodeDay): set<string> { MemFired(n) + CpuFired(n) + IoFired(n) + DiskFired(n) }

  /** The axes in their fixed order. */
  function Axes(n: NodeDay): seq<(string, Option<real>)> {
    [("mem", Mem(n)), ("cpu", Cpu(n)), ("io", Io(n)), ("disk", Disk(n))]
  }

  /** The first of the measured axes that none exceeds. */
  predicate IsTop(n: NodeDay, name: string) {
    exists i :: 0 <= i < 4 && Axes(n)[i].0 == name && Axes(n)[i].1.Some?
                && (forall j :: 0 <= j < 4 && Axes(n)[j].1.Some? ==> Axes(n)[j].1.value <= Axes(n)[i].1.value)
                && (forall j :: 0 <= j < i && Axes(n)[j].1.Some? ==> Axes(n)[j].1.value < Axes(n)[i].1.value)
  }

  ghost predicate Scores(n: NodeDay, s: Score) {
    && s.pressure == PressureOf(n)
    && if !Covered(n) then s.reasons == ["insufficient_coverage"] && s.topAxis == ""
         && s.mem == None && s.cpu == None && s.io == None && s.disk == None
       else
         && (s.mem, s.cpu, s.io, s.disk) == (Mem(n), Cpu(n), Io(n), Disk(n))
         && if !Measured(n) then s.reasons == ["no_metrics"] && s.topAxis == ""
            else IsTop(n, s.topAxis) && StrictlySorted(s.reasons, StringLess)
                 && forall c :: c in s.reasons <==> c in Fired(n)
  }

  // ----- one term at a time -----

  /** A term is between 0 and its ceiling, positive exactly past its knee, and never falls as its input worsens. */
  lemma TermShapes(v: real, w: real)
    requires v <= w
    ensures 0.0 <= RamTerm(v) <= RamTerm(w) && (RamTerm(v) > 0.0 <==> v > RAM_UTIL_KNEE)
    ensures 0.0 <= SwapTerm(v) <= SwapTerm(w) && (SwapTerm(v) > 0.0 <==> v > SWAP_IN_KNEE)
    ensures 0.0 <= CpuTerm(v) <= CpuTerm(w) && (CpuTerm(v) > 0.0 <==> v > CPU_UTIL_KNEE)
    ensures 0.0 <= LoadTerm(v) <= LoadTerm(w) && (LoadTerm(v) > 0.0 <==> v > LOAD_KNEE)
    ensures 0.0 <= IoTerm(v) <= IoTerm(w) && (IoTerm(v) > 0.0 <==> v > IOWAIT_KNEE)
  {
    hide Ramp;
    RampShape(v, w, RAM_UTIL_KNEE, RAM_UTIL_FULL, MEM_CAP);
    RampShape(v, w, SWAP_IN_KNEE, SWAP_IN_FULL, MEM_CAP);
    RampShape(v, w, CPU_UTIL_KNEE, CPU_UTIL_FULL, CPU_CAP);
    RampShape(v, w, LOAD_KNEE, LOAD_FULL, CPU_CAP);
    RampShape(v, w, IOWAIT_KNEE, IOWAIT_FULL, IO_CAP);
  }

  lemma SteppedShapes(v: real, w: real)
    requires v <= w
    ensures 0.0 <= OomTerm(v) <= OomTerm(w) && (OomTerm(v) > 0.0 <==> v > 0.0)
    ensures 0.0 <= LevelTerm(v) <= LevelTerm(w) && (LevelTerm(v) > 0.0 <==> v > FS_LEVEL_KNEE)
    ensures w < FS_TREND_HORIZON ==> TrendTerm(v) >= TrendTerm(w) > 0.0
  {
    hide Ramp;
    RampShape(v, w, 1.0, OOM_KILLS_MAX, OOM_RAMP_CAP);
    RampShape(v, w, FS_LEVEL_KNEE, FS_LEVEL_FULL, FS_LEVEL_CAP);
    RampShape(FS_TREND_HORIZON - w, FS_TREND_HORIZON - v, 0.0, FS_TREND_HORIZON - FS_TREND_URGENT, FS_TREND_CAP);
  }

  // ----- the whole score -----

  /** At least as bad: measured wherever n is, and no better there. Less time until the disk is full is worse. */
  predicate AtLeast(a: Option<real>, b: Option<real>) { a.Some? ==> b.Some? && a.value <= b.value }

  predicate NoBetter(n: NodeDay, m: NodeDay) {
    && AtLeast(n.ramUtil, m.ramUtil) && AtLeast(n.swapIn, m.swapIn) && AtLeast(n.oomKills, m.oomKills)
    && AtLeast(n.cpuUtil, m.cpuUtil) && AtLeast(n.load, m.load) && AtLeast(n.ioWait, m.ioWait)
    && AtLeast(n.fsUsed, m.fsUsed)
    && (n.fsDays.Some? ==> m.fsDays.Some? && m.fsDays.value <= n.fsDays.value)
  }

  predicate AxisAtLeast(a: Option<real>, b: Option<real>) { a.Some? ==> b.Some? && 0.0 <= a.value <= b.value }

  predicate NotNegative(a: Option<real>) { a.Some? ==> a.value >= 0.0 }

  lemma AxesRise(n: NodeDay, m: NodeDay)
    requires NoBetter(n, m)
    ensures AxisAtLeast(Mem(n), Mem(m)) && AxisAtLeast(Cpu(n), Cpu(m)) && AxisAtLeast(Io(n), Io(m))
    ensures AxisAtLeast(Disk(n), Disk(m))
  {
    MemRises(n, m);
    CpuRises(n, m);
    DiskRises(n, m);
    if n.ioWait.Some? { TermShapes(n.ioWait.value, m.ioWait.value); }
  }

  lemma MemRises(n: NodeDay, m: NodeDay)
    requires NoBetter(n, m)
    ensures AxisAtLeast(Mem(n), Mem(m))
  {
    hide RamTerm, SwapTerm, OomTerm, MaxTerm;
    if n.ramUtil.Some? { TermShapes(n.ramUtil.value, m.ramUtil.value); }
    if n.swapIn.Some? { TermShapes(n.swapIn.value, m.swapIn.value); }
    if n.oomKills.Some? { SteppedShapes(n.oomKills.value, m.oomKills.value); }
    if m.ramUtil.Some? { TermShapes(m.ramUtil.value, m.ramUtil.value); }
    if m.swapIn.Some? { TermShapes(m.swapIn.value, m.swapIn.value); }
    if m.oomKills.Some? { SteppedShapes(m.oomKills.value, m.oomKills.value); }
    var r, s := Apply(n.ramUtil, RamTerm), Apply(n.swapIn, SwapTerm);
    var r', s' := Apply(m.ramUtil, RamTerm), Apply(m.swapIn, SwapTerm);
    MaxRises(r, s, r', s');
    MaxRises(MaxTerm(r, s), Apply(n.oomKills, OomTerm), MaxTerm(r', s'), Apply(m.oomKills, OomTerm));
  }

  lemma CpuRises(n: NodeDay, m: NodeDay)
    requires NoBetter(n, m)
    ensures AxisAtLeast(Cpu(n), Cpu(m))
  {
    hide CpuTerm, LoadTerm, MaxTerm;
    if n.cpuUtil.Some? { TermShapes(n.cpuUtil.value, m.cpuUtil.value); }
    if n.load.Some? { TermShapes(n.load.value, m.load.value); }
    if m.cpuUtil.Some? { TermShapes(m.cpuUtil.value, m.cpuUtil.value); }
    if m.load.Some? { TermShapes(m.load.value, m.load.value); }
    MaxRises(Apply(n.cpuUtil, CpuTerm), Apply(n.load, LoadTerm), Apply(m.cpuUtil, CpuTerm), Apply(m.load, LoadTerm));
  }

  lemma DiskRises(n: NodeDay, m: NodeDay)
    requires NoBetter(n, m)
    ensures AxisAtLeast(Disk(n), Disk(m))
  {
    hide LevelTerm, TrendTerm, MaxTerm;
    if n.fsUsed.Some? { SteppedShapes(n.fsUsed.value, m.fsUsed.value); }
    if m.fsUsed.Some? { SteppedShapes(m.fsUsed.value, m.fsUsed.value); }
    if n.fsDays.Some? { SteppedShapes(m.fsDays.value, n.fsDays.value); }
    if m.fsDays.Some? { SteppedShapes(m.fsDays.value, m.fsDays.value); }
    MaxRises(Apply(n.fsUsed, LevelTerm), Apply(Near(n.fsDays), TrendTerm),
             Apply(m.fsUsed, LevelTerm), Apply(Near(m.fsDays), TrendTerm));
  }

  lemma MaxRises(a: Option<real>, b: Option<real>, c: Option<real>, d: Option<real>)
    requires AxisAtLeast(a, c) && AxisAtLeast(b, d) && NotNegative(c) && NotNegative(d)
    ensures AxisAtLeast(MaxTerm(a, b), MaxTerm(c, d)) && NotNegative(MaxTerm(c, d))
  {
  }

  lemma AxesNotNegative(n: NodeDay)
    ensures NotNegative(Mem(n)) && NotNegative(Cpu(n)) && NotNegative(Io(n)) && NotNegative(Disk(n))
  {
    AxesRise(n, n);
  }

  lemma WorstAndTotalRise(n: NodeDay, m: NodeDay)
    requires NoBetter(n, m)
    ensures Worst(n) <= Worst(m) && Total(n) <= Total(m) && (Measured(n) ==> Measured(m))
  {
    hide Mem, Cpu, Io, Disk, NoBetter;
    AxesRise(n, m);
    AxesNotNegative(m);
    OrZeroRises(Mem(n), Mem(m));
    OrZeroRises(Cpu(n), Cpu(m));
    OrZeroRises(Io(n), Io(m));
    OrZeroRises(Disk(n), Disk(m));
    MaxRealRises(Or0(Mem(n)), Or0(Cpu(n)), Or0(Mem(m)), Or0(Cpu(m)));
    MaxRealRises(Or0(Io(n)), Or0(Disk(n)), Or0(Io(m)), Or0(Disk(m)));
    MaxRealRises(MaxReal(Or0(Mem(n)), Or0(Cpu(n))), MaxReal(Or0(Io(n)), Or0(Disk(n))),
                 MaxReal(Or0(Mem(m)), Or0(Cpu(m))), MaxReal(Or0(Io(m)), Or0(Disk(m))));
    hide Or0, NotNegative, MaxReal;
  }

  lemma MaxRealRises(a: real, b: real, c: real, d: real)
    requires a <= c && b <= d
    ensures MaxReal(a, b) <= MaxReal(c, d)
  {
  }

  lemma OrZeroRises(a: Option<real>, b: Option<real>)
    requires AxisAtLeast(a, b) && NotNegative(b)
    ensures Or0(a) <= Or0(b)
  {
  }

  /** Direction is fixed: worsening any measurements, or adding some, never lowers the pressure. */
  lemma PressureIsMonotone(n: NodeDay, m: NodeDay)
    requires NoBetter(n, m) && Covered(m)
    ensures PressureOf(n).Some? ==> PressureOf(m).Some? && PressureOf(n).value <= PressureOf(m).value
  {
    WorstAndTotalRise(n, m);
    hide Worst, Total, Measured, NoBetter;
  }

  /** Between 0 and 100, and never below the worst axis, which counts up to 100. */
  lemma PressureBounds(n: NodeDay)
    ensures PressureOf(n).Some? <==> Covered(n) && Measured(n)
    ensures PressureOf(n).Some? ==> MinReal(Worst(n), MAX_PRESSURE) <= PressureOf(n).value <= MAX_PRESSURE
    ensures PressureOf(n).Some? ==> 0.0 <= PressureOf(n).value
  {
    hide Mem, Cpu, Io, Disk;
    AxesNotNegative(n);
  }

  lemma AxesPositive(n: NodeDay)
    ensures (Or0(Mem(n)) > 0.0 || Or0(Cpu(n)) > 0.0 || Or0(Io(n)) > 0.0 || Or0(Disk(n)) > 0.0) <==> Fired(n) != {}
  {
    hide Mem, Cpu, Io, Disk, MemFired, CpuFired, IoFired, DiskFired;
    MemFires(n);
    CpuFires(n);
    IoFires(n);
    DiskFires(n);
    assert Fired(n) == {} <==> MemFired(n) == {} && CpuFired(n) == {} && IoFired(n) == {} && DiskFired(n) == {};
  }

  lemma Union3(a: set<string>, b: set<string>, c: set<string>)
    ensures a + b + c == {} <==> a == {} && b == {} && c == {}
  {
    assert a <= a + b + c && b <= a + b + c && c <= a + b + c;
  }

  lemma CodeShows(c: bool, code: string)
    ensures Code(c, code) != {} <==> c
  {
  }

  lemma MemFires(n: NodeDay)
    ensures Or0(Mem(n)) > 0.0 <==> MemFired(n) != {}
  {
    hide RamTerm, SwapTerm, OomTerm, Code;
    if n.ramUtil.Some? { TermShapes(n.ramUtil.value, n.ramUtil.value); }
    if n.swapIn.Some? { TermShapes(n.swapIn.value, n.swapIn.value); }
    if n.oomKills.Some? { SteppedShapes(n.oomKills.value, n.oomKills.value); }
    CodeShows(Above(n.ramUtil, RAM_UTIL_KNEE), "ram_headroom");
    CodeShows(Above(n.swapIn, SWAP_IN_KNEE), "swap_in");
    CodeShows(Above(n.oomKills, 0.0), "oom_kill");
    Union3(Code(Above(n.ramUtil, RAM_UTIL_KNEE), "ram_headroom"), Code(Above(n.swapIn, SWAP_IN_KNEE), "swap_in"),
           Code(Above(n.oomKills, 0.0), "oom_kill"));
  }

  lemma CpuFires(n: NodeDay)
    ensures Or0(Cpu(n)) > 0.0 <==> CpuFired(n) != {}
  {
    hide CpuTerm, LoadTerm, Code;
    if n.cpuUtil.Some? { TermShapes(n.cpuUtil.value, n.cpuUtil.value); }
    if n.load.Some? { TermShapes(n.load.value, n.load.value); }
    CodeShows(Above(n.cpuUtil, CPU_UTIL_KNEE), "cpu_util");
    CodeShows(Above(n.load, LOAD_KNEE), "runqueue");
    Union3(Code(Above(n.cpuUtil, CPU_UTIL_KNEE), "cpu_util"), Code(Above(n.load, LOAD_KNEE), "runqueue"), {});
  }

  lemma IoFires(n: NodeDay)
    ensures Or0(Io(n)) > 0.0 <==> IoFired(n) != {}
  {
    hide IoTerm, Code;
    if n.ioWait.Some? { TermShapes(n.ioWait.value, n.ioWait.value); }
    CodeShows(Above(n.ioWait, IOWAIT_KNEE), "iowait");
  }

  lemma DiskFires(n: NodeDay)
    ensures Or0(Disk(n)) > 0.0 <==> DiskFired(n) != {}
  {
    hide LevelTerm, TrendTerm, Code;
    if n.fsUsed.Some? { SteppedShapes(n.fsUsed.value, n.fsUsed.value); }
    if n.fsDays.Some? { SteppedShapes(n.fsDays.value, n.fsDays.value); }
    CodeShows(Above(n.fsUsed, FS_LEVEL_KNEE), "fs_level");
    CodeShows(n.fsUsed.Some? && n.fsUsed.value >= FS_FULL, "fs_full");
    CodeShows(Near(n.fsDays).Some?, "fs_trend");
    Union3(Code(Above(n.fsUsed, FS_LEVEL_KNEE), "fs_level"),
           Code(n.fsUsed.Some? && n.fsUsed.value >= FS_FULL, "fs_full"),
           Code(Near(n.fsDays).Some?, "fs_trend"));
  }

  /** A pressure is positive exactly when some reason fired. */
  lemma PressureHasReasons(n: NodeDay, s: Score)
    requires Scores(n, s) && s.pressure.Some?
    ensures s.pressure.value > 0.0 <==> s.reasons != []
  {
    hide Mem, Cpu, Io, Disk, Fired;
    AxesNotNegative(n);
    AxesPositive(n);
    if s.reasons != [] { assert s.reasons[0] in s.reasons && s.reasons[0] in Fired(n); }
    else { assert forall c :: c !in Fired(n); assert Fired(n) == {}; }
  }

  // ----- the evaluation -----

  /** The greatest of one axis's terms, remembering whether any was measured at all. */
  class Axis {
    var max: real
    var measured: bool

    ghost function Seen(): Option<real>
      reads this
    {
      if measured then Some(max) else None
    }

    constructor ()
      ensures Seen() == None && max == 0.0
    {
      max, measured := 0.0, false;
    }

    method Consider(p: real)
      requires p >= 0.0 && (!measured ==> max == 0.0)
      modifies this
      ensures measured && Seen() == MaxTerm(old(Seen()), Some(p))
    {
      measured := true;
      if p > max { max := p; }
    }

    method Value() returns (v: Option<real>)
      ensures v == Seen()
    {
      v := if measured then Some(max) else None;
    }
  }

  method EvaluateMem(n: NodeDay) returns (v: Option<real>, fired: set<string>)
    ensures v == Mem(n) && fired == MemFired(n)
  {
    hide RamTerm, SwapTerm, OomTerm;
    var mem := new Axis();
    fired := {};
    if n.ramUtil.Some? {
      TermShapes(n.ramUtil.value, n.ramUtil.value);
      var p := RamTerm(n.ramUtil.value);
      mem.Consider(p);
      if p > 0.0 { fired := fired + {"ram_headroom"}; }
    }
    if n.swapIn.Some? {
      TermShapes(n.swapIn.value, n.swapIn.value);
      var p := SwapTerm(n.swapIn.value);
      mem.Consider(p);
      if p > 0.0 { fired := fired + {"swap_in"}; }
    }
    if n.oomKills.Some? {
      SteppedShapes(n.oomKills.value, n.oomKills.value);
      var p := OomTerm(n.oomKills.value);
      mem.Consider(p);
      if p > 0.0 { fired := fired + {"oom_kill"}; }
    }
    v := mem.Value();
  }

  method EvaluateCpu(n: NodeDay) returns (v: Option<real>, fired: set<string>)
    ensures v == Cpu(n) && fired == CpuFired(n)
  {
    hide CpuTerm, LoadTerm;
    var cpu := new Axis();
    fired := {};
    if n.cpuUtil.Some? {
      TermShapes(n.cpuUtil.value, n.cpuUtil.value);
      var p := CpuTerm(n.cpuUtil.value);
      cpu.Consider(p);
      if p > 0.0 { fired := fired + {"cpu_util"}; }
    }
    if n.load.Some? {
      TermShapes(n.load.value, n.load.value);
      var p := LoadTerm(n.load.value);
      cpu.Consider(p);
      if p > 0.0 { fired := fired + {"runqueue"}; }
    }
    v := cpu.Value();
  }

  method EvaluateIo(n: NodeDay) returns (v: Option<real>, fired: set<string>)
    ensures v == Io(n) && fired == IoFired(n)
  {
    hide IoTerm;
    var io := new Axis();
    fired := {};
    if n.ioWait.Some? {
      TermShapes(n.ioWait.value, n.ioWait.value);
      var p := IoTerm(n.ioWait.value);
      io.Consider(p);
      if p > 0.0 { fired := fired + {"iowait"}; }
    }
    v := io.Value();
  }

  method EvaluateDisk(n: NodeDay) returns (v: Option<real>, fired: set<string>)
    ensures v == Disk(n) && fired == DiskFired(n)
  {
    hide Ramp;
    var disk := new Axis();
    fired := {};
    if n.fsUsed.Some? {
      var used := n.fsUsed.value;
      RampShape(used, used, FS_LEVEL_KNEE, FS_LEVEL_FULL, FS_LEVEL_CAP);
      var p := Ramp(used, FS_LEVEL_KNEE, FS_LEVEL_FULL, FS_LEVEL_CAP);
      disk.Consider(p);
      if p > 0.0 { fired := fired + {"fs_level"}; }
      if used >= FS_FULL {
        disk.Consider(MAX_PRESSURE);
        fired := fired + {"fs_full"};
      }
    }
    if n.fsDays.Some? && n.fsDays.value < FS_TREND_HORIZON {
      var days := n.fsDays.value;
      RampShape(FS_TREND_HORIZON - days, FS_TREND_HORIZON - days, 0.0, FS_TREND_HORIZON - FS_TREND_URGENT,
                FS_TREND_CAP);
      var p := Ramp(FS_TREND_HORIZON - days, 0.0, FS_TREND_HORIZON - FS_TREND_URGENT, FS_TREND_CAP);
      disk.Consider(p);
      if p > 0.0 { fired := fired + {"fs_trend"}; }
    }
    v := disk.Value();
  }

  /** Sum, worst and first worst of the measured axes. */
  method Combine(axes: seq<(string, Option<real>)>) returns (sum: real, worst: real, top: string, measured: nat)
    requires |axes| == 4 && forall i :: 0 <= i < 4 ==> axes[i].0 != "" && NotNegative(axes[i].1)
    ensures sum == Or0(axes[0].1) + Or0(axes[1].1) + Or0(axes[2].1) + Or0(axes[3].1)
    ensures worst == MaxReal(MaxReal(Or0(axes[0].1), Or0(axes[1].1)), MaxReal(Or0(axes[2].1), Or0(axes[3].1)))
    ensures measured > 0 <==> exists i :: 0 <= i < 4 && axes[i].1.Some?
    ensures measured == 0 ==> top == ""
    ensures measured > 0 ==> exists i :: FirstWorst(axes, 4, i) && axes[i].0 == top
  {
    sum, worst, top, measured := 0.0, 0.0, "", 0;
    ghost var at := 0;
    for i := 0 to 4
      invariant sum == Prefix(axes, i)
      invariant worst >= 0.0 && forall j :: 0 <= j < i ==> Or0(axes[j].1) <= worst
      invariant measured > 0 <==> exists j :: 0 <= j < i && axes[j].1.Some?
      invariant measured == 0 ==> top == "" && worst == 0.0
      invariant measured > 0 ==> FirstWorst(axes, i, at) && axes[at].0 == top && axes[at].1.value == worst
    {
      match axes[i].1
      case None =>
      case Some(v) =>
        measured := measured + 1;
        sum := sum + v;
        if v > worst || top == "" {
          worst, top, at := v, axes[i].0, i;
        }
    }
    assert Prefix(axes, 2) == Or0(axes[0].1) + Or0(axes[1].1);
    assert Prefix(axes, 4) == Prefix(axes, 2) + Or0(axes[2].1) + Or0(axes[3].1);
    assert measured > 0 ==> FirstWorst(axes, 4, at);
  }

  function Prefix(axes: seq<(string, Option<real>)>, n: nat): real
    requires n <= |axes|
  {
    if n == 0 then 0.0 else Prefix(axes, n - 1) + Or0(axes[n - 1].1)
  }

  predicate FirstWorst(axes: seq<(string, Option<real>)>, n: nat, i: int) {
    && 0 <= i < n <= |axes| && axes[i].1.Some?
    && (forall j :: 0 <= j < n && axes[j].1.Some? ==> axes[j].1.value <= axes[i].1.value)
    && (forall j :: 0 <= j < i && axes[j].1.Some? ==> axes[j].1.value < axes[i].1.value)
  }

  method Evaluate(n: NodeDay) returns (s: Score)
    ensures Scores(n, s)
  {
    hide Mem, Cpu, Io, Disk, MemFired, CpuFired, IoFired, DiskFired, Scores, IsTop, Worst, Total, Measured;
    if !n.metricsPresent || n.coverage < MIN_SAMPLE_COVERAGE || n.cpuCores < MIN_CPU_CORES || n.memTotal <= 0 {
      Unscored(n);
      return Score(None, None, None, None, None, "", ["insufficient_coverage"]);
    }
    var mem, memFired := EvaluateMem(n);
    var cpu, cpuFired := EvaluateCpu(n);
    var io, ioFired := EvaluateIo(n);
    var disk, diskFired := EvaluateDisk(n);
    var fired := memFired + cpuFired + ioFired + diskFired;
    AxesNotNegative(n);
    var axes := [("mem", mem), ("cpu", cpu), ("io", io), ("disk", disk)];
    var sum, worst, top, measured := Combine(axes);
    MeasuredAxes(n, axes);
    if measured == 0 {
      Unscored(n);
      return Score(None, mem, cpu, io, disk, "", ["no_metrics"]);
    }
    StringLessTotal();
    var reasons := InOrder(fired, StringLess);
    s := Score(Some(Clamp(worst + COMPOUND_FACTOR * (sum - worst), 0.0, MAX_PRESSURE)), mem, cpu, io, disk, top,
               reasons);
    TopIsTop(n, axes, top);
    Scored(n, sum, worst, top, reasons);
  }

  lemma Unscored(n: NodeDay)
    ensures !Covered(n) ==> Scores(n, Score(None, None, None, None, None, "", ["insufficient_coverage"]))
    ensures Covered(n) && !Measured(n) ==> Scores(n, Score(None, Mem(n), Cpu(n), Io(n), Disk(n), "", ["no_metrics"]))
  {
    hide Mem, Cpu, Io, Disk, IsTop, Fired;
  }

  lemma Scored(n: NodeDay, sum: real, worst: real, top: string, reasons: seq<string>)
    requires Covered(n) && Measured(n) && sum == Total(n) && worst == Worst(n) && IsTop(n, top)
    requires StrictlySorted(reasons, StringLess) && forall c :: c in reasons <==> c in Fired(n)
    ensures Scores(n, Score(Some(Clamp(worst + COMPOUND_FACTOR * (sum - worst), 0.0, MAX_PRESSURE)),
                            Mem(n), Cpu(n), Io(n), Disk(n), top, reasons))
  {
    hide Mem, Cpu, Io, Disk, IsTop, Fired, Total, Worst, Measured, Covered, Clamp;
  }

  lemma MeasuredAxes(n: NodeDay, axes: seq<(string, Option<real>)>)
    requires axes == Axes(n)
    ensures Measured(n) <==> exists i :: 0 <= i < 4 && axes[i].1.Some?
    ensures Total(n) == Or0(axes[0].1) + Or0(axes[1].1) + Or0(axes[2].1) + Or0(axes[3].1)
    ensures Worst(n) == MaxReal(MaxReal(Or0(axes[0].1), Or0(axes[1].1)), MaxReal(Or0(axes[2].1), Or0(axes[3].1)))
  {
    hide Mem, Cpu, Io, Disk;
    assert axes[0].1 == Mem(n) && axes[1].1 == Cpu(n) && axes[2].1 == Io(n) && axes[3].1 == Disk(n);
  }

  lemma TopIsTop(n: NodeDay, axes: seq<(string, Option<real>)>, top: string)
    requires axes == Axes(n) && exists i :: FirstWorst(axes, 4, i) && axes[i].0 == top
    ensures IsTop(n, top)
  {
    hide Mem, Cpu, Io, Disk;
  }
}

/** Fleet cohorts: quantiles, the two keyings, censoring and the publication floor. */
module Cohort {
  import opened Model
  import opened Sets
  import opened Sorting

  // ----- quantiles -----

  predicate RealLess(a: real, b: real) { a < b }

  lemma RealLessWeak()
    ensures WeakOrder(RealLess)
  {
  }

  function Clamp01(q: real): real { if q < 0.0 then 0.0 else if q > 1.0 then 1.0 else q }

  /** Linear interpolation between the two neighbours of position pos. */
  function At(s: seq<real>, pos: real): real
    requires |s| > 0 && 0.0 <= pos <= (|s| - 1) as real
  {
    var lo := pos.Floor;
    var frac := pos - lo as real;
    if frac == 0.0 then s[lo] else s[lo] * (1.0 - frac) + s[lo + 1] * frac
  }

  function Position(n: nat, q: real): (pos: real)
    requires n > 0
    ensures 0.0 <= pos <= (n - 1) as real
  {
    Scale(Clamp01(q), (n - 1) as real);
    Clamp01(q) * (n - 1) as real
  }

  lemma Scale(q: real, n: real)
    requires 0.0 <= q <= 1.0 && n >= 0.0
    ensures 0.0 <= q * n <= n
  {
    NonNegative(q, n);
    NonNegative(1.0 - q, n);
    assert (1.0 - q) * n == n - q * n;
  }

  ghost predicate IsSorted(s: seq<real>) { forall i, j :: 0 <= i <= j < |s| ==> s[i] <= s[j] }

  /** The value at q of whatever sorted arrangement the values have. */
  ghost predicate IsQuantile(values: seq<real>, q: real, v: real) {
    values != []
    && exists s :: IsSorted(s) && multiset(s) == multiset(values) && |s| == |values| && v == At(s, Position(|s|, q))
  }

  method Quantile(values: seq<real>, q: real) returns (v: Option<real>)
    ensures v.None? <==> values == []
    ensures v.Some? ==> IsQuantile(values, q, v.value)
  {
    if |values| == 0 { return None; }
    RealLessWeak();
    var sorted := Sort(values, RealLess);
    MembersOfPermutation(values, sorted);
    SortedByIsSorted(sorted);
    var pos := Position(|sorted|, q);
    if |sorted| == 1 {
      assert pos == 0.0;
      return Some(sorted[0]);
    }
    var lo := pos.Floor;
    var hi := if pos == lo as real then lo else lo + 1;
    if lo == hi { return Some(sorted[lo]); }
    var frac := pos - lo as real;
    return Some(sorted[lo] * (1.0 - frac) + sorted[hi] * frac);
  }

  lemma SortedByIsSorted(s: seq<real>)
    requires SortedBy(s, RealLess)
    ensures IsSorted(s)
  {
    forall i, j | 0 <= i <= j < |s| ensures s[i] <= s[j] { assert i < j ==> !RealLess(s[j], s[i]); }
  }

  lemma {:induction false} SortedUnique(a: seq<real>, b: seq<real>)
    requires IsSorted(a) && IsSorted(b) && multiset(a) == multiset(b)
    ensures a == b
  {
    MembersOfPermutation(a, b);
    if a != [] {
      SameLast(a, b);
      var a', b', x := a[..|a| - 1], b[..|b| - 1], a[|a| - 1];
      assert a == a' + [x] && b == b' + [x];
      Cancel(a', b', x);
      SortedUnique(a', b');
    }
  }

  lemma Cancel(a: seq<real>, b: seq<real>, x: real)
    requires multiset(a + [x]) == multiset(b + [x])
    ensures multiset(a) == multiset(b)
  {
    assert multiset(a + [x]) - multiset{x} == multiset(a) && multiset(b + [x]) - multiset{x} == multiset(b);
  }

  lemma SameLast(a: seq<real>, b: seq<real>)
    requires IsSorted(a) && IsSorted(b) && a != [] && |a| == |b| && forall x :: x in a <==> x in b
    ensures a[|a| - 1] == b[|b| - 1]
  {
    var x, y := a[|a| - 1], b[|b| - 1];
    assert x in a && y in b;
    var i :| 0 <= i < |b| && b[i] == x;
    var j :| 0 <= j < |a| && a[j] == y;
  }

  /** Independent of input order: any two arrangements of the same values have the same quantiles. */
  lemma QuantileIgnoresOrder(values: seq<real>, values': seq<real>, q: real, v: real, v': real)
    requires multiset(values) == multiset(values') && IsQuantile(values, q, v) && IsQuantile(values', q, v')
    ensures v == v'
  {
    var s :| IsSorted(s) && multiset(s) == multiset(values) && |s| == |values| && v == At(s, Position(|s|, q));
    var s' :| IsSorted(s') && multiset(s') == multiset(values') && |s'| == |values'| && v' == At(s', Position(|s'|, q));
    SortedUnique(s, s');
  }

  lemma Mix(a: real, b: real, f: real)
    requires a <= b && 0.0 <= f <= 1.0
    ensures a <= a * (1.0 - f) + b * f <= b
  {
    var d := b - a;
    assert a * (1.0 - f) + b * f == a + d * f;
    NonNegative(d, f);
    NonNegative(d, 1.0 - f);
    assert d * (1.0 - f) == d - d * f;
  }

  lemma MixRises(a: real, b: real, f: real, g: real)
    requires a <= b && f <= g
    ensures a * (1.0 - f) + b * f <= a * (1.0 - g) + b * g
  {
    var d, e := b - a, g - f;
    NonNegative(d, e);
    assert a * (1.0 - g) + b * g - (a * (1.0 - f) + b * f) == d * e;
  }

  lemma AtBetween(s: seq<real>, pos: real)
    requires |s| > 0 && 0.0 <= pos <= (|s| - 1) as real && IsSorted(s)
    ensures s[pos.Floor] <= At(s, pos)
    ensures pos > pos.Floor as real ==> At(s, pos) <= s[pos.Floor + 1]
    ensures pos == pos.Floor as real ==> At(s, pos) == s[pos.Floor]
  {
    var lo, frac := pos.Floor, pos - pos.Floor as real;
    if frac > 0.0 { Mix(s[lo], s[lo + 1], frac); }
  }

  lemma AtRises(s: seq<real>, p: real, r: real)
    requires |s| > 0 && 0.0 <= p <= r <= (|s| - 1) as real && IsSorted(s)
    ensures At(s, p) <= At(s, r)
  {
    AtBetween(s, p);
    AtBetween(s, r);
    var lo := p.Floor;
    if lo == r.Floor {
      if p == lo as real {
      } else {
        MixRises(s[lo], s[lo + 1], p - lo as real, r - lo as real);
      }
    } else {
      assert lo + 1 <= r.Floor;
      assert s[lo] <= s[r.Floor];
      if p > lo as real { assert s[lo + 1] <= s[r.Floor]; }
    }
  }

  lemma ScaleRises(a: real, b: real, m: real)
    requires a <= b && m >= 0.0
    ensures a * m <= b * m
  {
    var d := b - a;
    NonNegative(d, m);
    assert d * m == b * m - a * m;
  }

  lemma NonNegative(x: real, y: real)
    requires x >= 0.0 && y >= 0.0
    ensures x * y >= 0.0
  {
  }

  lemma PositionRises(n: nat, q: real, r: real)
    requires n > 0 && q <= r
    ensures Position(n, q) <= Position(n, r)
  {
    var m := (n - 1) as real;
    assert Position(n, q) == Clamp01(q) * m && Position(n, r) == Clamp01(r) * m;
    ScaleRises(Clamp01(q), Clamp01(r), m);
    hide Position;
  }

  /** Monotone in q, and always between the least and the greatest value. */
  lemma QuantileRises(values: seq<real>, q: real, r: real, v: real, w: real)
    requires q <= r && IsQuantile(values, q, v) && IsQuantile(values, r, w)
    ensures v <= w
  {
    var s :| IsSorted(s) && multiset(s) == multiset(values) && |s| == |values| && v == At(s, Position(|s|, q));
    var s' :| IsSorted(s') && multiset(s') == multiset(values) && |s'| == |values| && w == At(s', Position(|s'|, r));
    SortedUnique(s, s');
    PositionRises(|s|, q, r);
    AtRises(s, Position(|s|, q), Position(|s|, r));
  }

  lemma QuantileBetween(values: seq<real>, q: real, v: real)
    requires IsQuantile(values, q, v)
    ensures exists x, y :: x in values && y in values && x <= v <= y
  {
    var s :| IsSorted(s) && multiset(s) == multiset(values) && |s| == |values| && v == At(s, Position(|s|, q));
    MembersOfPermutation(values, s);
    var pos := Position(|s|, q);
    AtBetween(s, pos);
    var lo := pos.Floor;
    assert s[lo] in values;
    if pos > lo as real {
      assert s[lo + 1] in values;
      assert s[lo] <= v <= s[lo + 1];
    } else {
      assert s[lo] <= v <= s[lo];
    }
  }

  // ----- nodes -----

  const NODE_REDUCE_QUANTILE := 0.90
  const CENSOR_RAM_UTIL := 0.90
  const PLATFORM: set<string> := 
    {"loki", "ldapproxy", "metrics", "crowdsec", "traefik", "openldap", "samba", "nethvoice-proxy"}

  type Workload = map<string, real>

  /** A node folded over the window. */
  datatype Node = Node(systemId: string, hardwareChanged: bool, ramUsed: seq<real>, cpuUsed: seq<real>,
                       ramUtil: seq<real>,
                       maxSwapIn: real, maxOom: real, installedRam: real, installedCores: real,
                       workloads: map<string, Workload>)

  function Metric(w: Workload, name: string): real { if name in w then w[name] else 0.0 }

  /** samba with shares configured is a workload somebody chose. */
  predicate IsPlatform(family: string, w: Workload) {
    family in PLATFORM
    && !(family == "samba" && (Metric(w, "shared_folders_count") > 0.0 || Metric(w, "shared_folders") > 0.0))
  }

  function Business(workloads: map<string, Workload>): set<string> {
    set f | f in workloads && !IsPlatform(f, workloads[f])
  }

  predicate Censored(ramUtil: real, swapIn: real, oom: real) { ramUtil >= CENSOR_RAM_UTIL || swapIn > 0.0 || oom > 0.0 }

  /** What one node contributes: one number per measure, however many days it reported. */
  datatype Demand = Demand(systemId: string, eligible: bool, families: set<string>, business: set<string>,
                           censored: bool,
                           ramUsed: real, cpuUsed: real, installedRam: real, installedCores: real)

  ghost predicate IsReduced(daily: seq<real>, v: real) {
    if daily == [] then v == 0.0 else IsQuantile(daily, NODE_REDUCE_QUANTILE, v)
  }

  ghost predicate Reduces(n: Node, d: Demand) {
    && d.systemId == n.systemId && d.eligible == (!n.hardwareChanged && n.ramUsed != [])
    && d.families == n.workloads.Keys && d.business == Business(n.workloads)
    && (d.eligible ==>
          && IsReduced(n.ramUsed, d.ramUsed) && IsReduced(n.cpuUsed, d.cpuUsed)
          && (exists u :: IsReduced(n.ramUtil, u) && d.censored == Censored(u, n.maxSwapIn, n.maxOom))
          && d.installedRam == n.installedRam && d.installedCores == n.installedCores)
  }

  method ReduceNode(daily: seq<real>) returns (v: real)
    ensures IsReduced(daily, v)
  {
    var q := Quantile(daily, NODE_REDUCE_QUANTILE);
    v := if q.Some? then q.value else 0.0;
  }

  method Reduce(n: Node) returns (d: Demand)
    ensures Reduces(n, d)
  {
    hide IsReduced;
    var families, business := n.workloads.Keys, Business(n.workloads);
    if n.hardwareChanged || |n.ramUsed| == 0 {
      return Demand(n.systemId, false, families, business, false, 0.0, 0.0, 0.0, 0.0);
    }
    var ramUsed := ReduceNode(n.ramUsed);
    var cpuUsed := ReduceNode(n.cpuUsed);
    var ramUtil := ReduceNode(n.ramUtil);
    d := Demand(n.systemId, true, families, business, Censored(ramUtil, n.maxSwapIn, n.maxOom), ramUsed, cpuUsed,
                n.installedRam, n.installedCores);
  }

  // ----- cohorts -----

  datatype Kind = Family | FamilySolo

  datatype Id = Id(kind: Kind, key: string)

  datatype Cohort = Cohort(nodes: nat, systems: set<string>, censored: nat, ramUsed: seq<real>, cpuUsed: seq<real>,
                           installedRam: seq<real>, installedCores: seq<real>)

  const NO_NODES := Cohort(0, {}, 0, [], [], [], [])

  /** A node is in the cohort of every family it runs, and in a solo one only if that family is its whole business. */
  predicate Enters(d: Demand, id: Id) {
    d.eligible && id.key in d.families && (id.kind == FamilySolo ==> d.business == {id.key})
  }

  function With(c: Cohort, d: Demand): Cohort {
    var counted := c.(nodes := c.nodes + 1, systems := c.systems + {d.systemId});
    if d.censored then counted.(censored := c.censored + 1)
    else counted.(ramUsed := c.ramUsed + [d.ramUsed], cpuUsed := c.cpuUsed + [d.cpuUsed],
                  installedRam := c.installedRam + [d.installedRam],
                  installedCores := c.installedCores + [d.installedCores])
  }

  function Gathered(ds: seq<Demand>, id: Id): Cohort {
    if ds == [] then NO_NODES
    else
      var c := Gathered(ds[..|ds| - 1], id);
      if Enters(ds[|ds| - 1], id) then With(c, ds[|ds| - 1]) else c
  }

  /** Every node of a cohort is either censored or sampled, and sampled in all four measures. */
  lemma {:induction false} CohortConserves(ds: seq<Demand>, id: Id)
    ensures var c := Gathered(ds, id);
            && c.nodes == c.censored + |c.ramUsed|
            && |c.ramUsed| == |c.cpuUsed| == |c.installedRam| == |c.installedCores|
            && |c.systems| <= c.nodes
  {
    if ds != [] {
      var init, last := ds[..|ds| - 1], ds[|ds| - 1];
      CohortConserves(init, id);
      OneMore(Gathered(init, id).systems, last.systemId);
    }
  }

  lemma OneMore(s: set<string>, x: string)
    ensures |s + {x}| <= |s| + 1
  {
  }

  /** The floor counts each system once, however many of its nodes are in the cohort. */
  lemma {:induction false} CohortSystems(ds: seq<Demand>, id: Id)
    ensures Gathered(ds, id).systems == (set d | d in ds && Enters(d, id) :: d.systemId)
  {
    if ds != [] {
      var init, last := ds[..|ds| - 1], ds[|ds| - 1];
      CohortSystems(init, id);
      SystemsGrow(init, last, id);
      assert ds == init + [last];
    }
  }

  lemma SystemsGrow(init: seq<Demand>, last: Demand, id: Id)
    ensures (set d | d in init + [last] && Enters(d, id) :: d.systemId)
         == (set d | d in init && Enters(d, id) :: d.systemId) + (if Enters(last, id) then {last.systemId} else {})
  {
    var before := set d | d in init && Enters(d, id) :: d.systemId;
    var after := set d | d in init + [last] && Enters(d, id) :: d.systemId;
    forall s | s in before ensures s in after {
      var d :| d in init && Enters(d, id) && d.systemId == s;
      assert d in init + [last];
    }
    if Enters(last, id) { assert last in init + [last]; }
  }

  /** A node is in at most one solo cohort. */
  lemma OneSoloCohort(d: Demand, a: string, b: string)
    requires Enters(d, Id(FamilySolo, a)) && Enters(d, Id(FamilySolo, b))
    ensures a == b
  {
    assert a in d.business && b in d.business;
  }

  type Cohorts = map<Id, Cohort>

  ghost predicate Gathers(cohorts: Cohorts, ds: seq<Demand>) {
    forall id :: GathersAt(cohorts, ds, id)
  }

  ghost predicate GathersAt(cohorts: Cohorts, ds: seq<Demand>, id: Id) {
    if exists d :: d in ds && Enters(d, id) then id in cohorts && cohorts[id] == Gathered(ds, id)
    else id !in cohorts && Gathered(ds, id) == NO_NODES
  }

  function Added(cohorts: Cohorts, id: Id, d: Demand): Cohorts {
    cohorts[id := With(if id in cohorts then cohorts[id] else NO_NODES, d)]
  }

  /** The node has been added to the cohorts of the families seen so far. */
  ghost predicate AddedFor(before: Cohorts, after: Cohorts, d: Demand, seen: set<string>) {
    forall id: Id :: if id.key in seen && Enters(d, id)
                 then id in after && after[id] == With(if id in before then before[id] else NO_NODES, d)
                 else (id in after <==> id in before) && (id in before ==> after[id] == before[id])
  }

  method AddNode(cohorts0: Cohorts, d: Demand) returns (cohorts: Cohorts)
    requires d.eligible
    ensures AddedFor(cohorts0, cohorts, d, d.families)
  {
    hide With;
    StringLessTotal();
    var business := InOrder(d.business, StringLess);
    var families := InOrder(d.families, StringLess);
    cohorts := cohorts0;
    for i := 0 to |families|
      invariant AddedFor(cohorts0, cohorts, d, Elements(families[..i]))
    {
      var family := families[i];
      assert family in families && families[..i + 1] == families[..i] + [family];
      StrictIsDistinct(families, StringLess);
      TakenByPosition(families, i, i);
      ghost var before, seen := cohorts, Elements(families[..i]);
      cohorts := Added(cohorts, Id(Family, family), d);
      var solo := |business| == 1 && business[0] == family;
      SoloByList(d, business, family);
      if solo { cohorts := Added(cohorts, Id(FamilySolo, family), d); }
      AddedOne(cohorts0, before, cohorts, d, seen, family, solo);
      assert Elements(families[..i + 1]) == seen + {family};
    }
    assert families[..|families|] == families;
    assert Elements(families[..|families|]) == d.families;
  }

  lemma SoloByList(d: Demand, business: seq<string>, family: string)
    requires StrictlySorted(business, StringLess) && forall f :: f in business <==> f in d.business
    ensures (|business| == 1 && business[0] == family) <==> d.business == {family}
  {
    StringLessTotal();
    StrictIsDistinct(business, StringLess);
    if |business| == 1 {
      assert business[0] in business;
    } else if |business| > 1 {
      assert business[0] in business && business[1] in business && business[0] != business[1];
    }
    if d.business == {family} { assert family in business; }
  }

  lemma AddedOne(cohorts0: Cohorts, before: Cohorts, after: Cohorts, d: Demand, seen: set<string>, family: string,
                 solo: bool)
    requires d.eligible && AddedFor(cohorts0, before, d, seen) && family !in seen && family in d.families
    requires solo <==> d.business == {family}
    requires var once := Added(before, Id(Family, family), d);
             after == if solo then Added(once, Id(FamilySolo, family), d) else once
    ensures AddedFor(cohorts0, after, d, seen + {family})
  {
    hide With;
  }

  lemma GathersNext(before: Cohorts, after: Cohorts, ds: seq<Demand>, d: Demand)
    requires Gathers(before, ds) && if d.eligible then AddedFor(before, after, d, d.families) else after == before
    ensures Gathers(after, ds + [d])
  {
    hide With;
    forall id ensures GathersAt(after, ds + [d], id) {
      assert GathersAt(before, ds, id);
      assert (ds + [d])[..|ds|] == ds;
      if Enters(d, id) { assert d in ds + [d]; }
      if e :| e in ds && Enters(e, id) { assert e in ds + [d]; }
    }
  }

  /** Every node counted once, in every cohort it belongs to and no other. */
  method Gather(nodes: seq<Node>) returns (cohorts: Cohorts, ghost ds: seq<Demand>)
    ensures |ds| == |nodes| && forall i :: 0 <= i < |nodes| ==> Reduces(nodes[i], ds[i])
    ensures Gathers(cohorts, ds)
  {
    hide Reduces, AddedFor, Gathers;
    cohorts, ds := map[], [];
    NoneGathered();
    for i := 0 to |nodes|
      invariant |ds| == i && forall j :: 0 <= j < i ==> Reduces(nodes[j], ds[j])
      invariant Gathers(cohorts, ds)
    {
      var d := Reduce(nodes[i]);
      ghost var before := cohorts;
      if d.eligible { cohorts := AddNode(cohorts, d); }
      GathersNext(before, cohorts, ds, d);
      ds := ds + [d];
    }
  }

  lemma NoneGathered()
    ensures Gathers(map[], [])
  {
  }

  // ----- publication -----

  datatype Rule = Rule(minDistinctSystems: int, minNodes: int)

  datatype Row = Row(id: Id, nodes: nat, systems: nat, censored: nat, ramP50: real, ramP75: real, ramP90: real,
                     cpuP50: real, cpuP75: real, cpuP90: real, installedRamP50: real, installedRamP90: real,
                     installedCoresP50: real, installedCoresP90: real)

  predicate Clears(rule: Rule, c: Cohort) { |c.systems| >= rule.minDistinctSystems && c.nodes >= rule.minNodes }

  ghost predicate QuantileOr0(values: seq<real>, q: real, v: real) {
    if values == [] then v == 0.0 else IsQuantile(values, q, v)
  }

  ghost predicate Summarizes(id: Id, c: Cohort, r: Row) {
    && r.id == id && r.nodes == c.nodes && r.systems == |c.systems| && r.censored == c.censored
    && QuantileOr0(c.ramUsed, 0.50, r.ramP50)
    && QuantileOr0(c.ramUsed, 0.75, r.ramP75)
    && QuantileOr0(c.ramUsed, 0.90, r.ramP90)
    && QuantileOr0(c.cpuUsed, 0.50, r.cpuP50)
    && QuantileOr0(c.cpuUsed, 0.75, r.cpuP75)
    && QuantileOr0(c.cpuUsed, 0.90, r.cpuP90)
    && QuantileOr0(c.installedRam, 0.50, r.installedRamP50)
    && QuantileOr0(c.installedRam, 0.90, r.installedRamP90)
    && QuantileOr0(c.installedCores, 0.50, r.installedCoresP50)
    && QuantileOr0(c.installedCores, 0.90, r.installedCoresP90)
  }

  method Quantile0(values: seq<real>, q: real) returns (v: real)
    ensures QuantileOr0(values, q, v)
  {
    var r := Quantile(values, q);
    v := if r.Some? then r.value else 0.0;
  }

  method Summarize(id: Id, c: Cohort) returns (r: Row)
    ensures Summarizes(id, c, r)
  {
    hide QuantileOr0;
    var ram50 := Quantile0(c.ramUsed, 0.50);
    var ram75 := Quantile0(c.ramUsed, 0.75);
    var ram90 := Quantile0(c.ramUsed, 0.90);
    var cpu50 := Quantile0(c.cpuUsed, 0.50);
    var cpu75 := Quantile0(c.cpuUsed, 0.75);
    var cpu90 := Quantile0(c.cpuUsed, 0.90);
    var inst50 := Quantile0(c.installedRam, 0.50);
    var inst90 := Quantile0(c.installedRam, 0.90);
    var cores50 := Quantile0(c.installedCores, 0.50);
    var cores90 := Quantile0(c.installedCores, 0.90);
    r := Row(id, c.nodes, |c.systems|, c.censored, ram50, ram75, ram90, cpu50, cpu75, cpu90, inst50, inst90, cores50,
             cores90);
  }

  predicate IdLess(a: Id, b: Id) {
    if a.kind != b.kind then a.kind == Family else StringLess(a.key, b.key)
  }

  lemma IdLessTotal()
    ensures TotalOrder(IdLess)
  {
    StringLessTotal();
    forall x: Id, y: Id | x != y ensures IdLess(x, y) || IdLess(y, x) {
      assert x.key != y.key ==> StringLess(x.key, y.key) || StringLess(y.key, x.key);
    }
  }

  ghost predicate RowOk(cohorts: Cohorts, rule: Rule, r: Row) {
    r.id in cohorts && Clears(rule, cohorts[r.id]) && Summarizes(r.id, cohorts[r.id], r)
  }

  predicate HasRow(rows: seq<Row>, id: Id) { exists r :: r in rows && r.id == id }

  /** rows publish the cohorts named in ids: one ordered row for each that clears the floor. */
  ghost predicate Publishes(cohorts: Cohorts, rule: Rule, ids: seq<Id>, rows: seq<Row>) {
    && (forall i :: 0 <= i < |rows| ==> rows[i].id in ids && RowOk(cohorts, rule, rows[i]))
    && (forall id :: id in ids && id in cohorts && Clears(rule, cohorts[id]) ==> HasRow(rows, id))
    && (forall i, j :: 0 <= i < j < |rows| ==> IdLess(rows[i].id, rows[j].id))
  }

  /** One row per cohort that clears the floor, in order; nothing below it is published. */
  method PublishCohorts(cohorts: Cohorts, rule: Rule) returns (rows: seq<Row>)
    ensures forall r :: r in rows
                        ==> r.id in cohorts && Clears(rule, cohorts[r.id]) && Summarizes(r.id, cohorts[r.id], r)
    ensures forall id :: id in cohorts && Clears(rule, cohorts[id]) ==> exists r :: r in rows && r.id == id
    ensures forall i, j :: 0 <= i < j < |rows| ==> IdLess(rows[i].id, rows[j].id)
  {
    hide Summarizes, Clears, IdLess;
    IdLessTotal();
    var ids := InOrder(cohorts.Keys, IdLess);
    rows := [];
    for i := 0 to |ids|
      invariant Publishes(cohorts, rule, ids[..i], rows)
    {
      var id := ids[i];
      assert id in ids && ids[..i + 1] == ids[..i] + [id];
      if Clears(rule, cohorts[id]) {
        var row := Summarize(id, cohorts[id]);
        SummaryId(id, cohorts[id], row);
        PublishOne(cohorts, rule, ids, i, rows, row);
        rows := rows + [row];
      }
    }
    assert ids[..|ids|] == ids;
  }

  lemma PublishOne(cohorts: Cohorts, rule: Rule, ids: seq<Id>, i: nat, rows: seq<Row>, row: Row)
    requires i < |ids| && StrictlySorted(ids, IdLess) && Publishes(cohorts, rule, ids[..i], rows)
    requires row.id == ids[i] && RowOk(cohorts, rule, row)
    ensures Publishes(cohorts, rule, ids[..i + 1], rows + [row])
  {
    hide RowOk, Clears, IdLess, HasRow;
    var id, after := ids[i], rows + [row];
    assert ids[..i + 1] == ids[..i] + [id];
    ComesAfter(ids, i, rows);
    forall k ensures HasRow(after, k) <==> HasRow(rows, k) || k == id { OneMoreRow(rows, row, k); }
  }

  lemma ComesAfter(ids: seq<Id>, i: nat, rows: seq<Row>)
    requires i < |ids| && StrictlySorted(ids, IdLess)
    requires forall x :: 0 <= x < |rows| ==> rows[x].id in ids[..i]
    ensures forall x :: 0 <= x < |rows| ==> IdLess(rows[x].id, ids[i])
  {
  }

  lemma OneMoreRow(rows: seq<Row>, row: Row, id: Id)
    ensures HasRow(rows + [row], id) <==> HasRow(rows, id) || id == row.id
  {
    var after := rows + [row];
    assert row in after && forall r :: r in rows ==> r in after;
  }

  lemma SummaryId(id: Id, c: Cohort, r: Row)
    requires Summarizes(id, c, r)
    ensures r.id == id
  {
  }

  lemma QuantilesRise(values: seq<real>, q: real, r: real, v: real, w: real)
    requires q <= r && QuantileOr0(values, q, v) && QuantileOr0(values, r, w)
    ensures v <= w
  {
    if values != [] { QuantileRises(values, q, r, v, w); }
  }

  /** Every published row is in order, and accounts for all of its nodes. */
  lemma PublishedRowsAreOrdered(ds: seq<Demand>, id: Id, r: Row)
    requires Summarizes(id, Gathered(ds, id), r)
    ensures r.ramP50 <= r.ramP75 <= r.ramP90 && r.cpuP50 <= r.cpuP75 <= r.cpuP90
    ensures r.installedRamP50 <= r.installedRamP90 && r.installedCoresP50 <= r.installedCoresP90
    ensures r.nodes == r.censored + |Gathered(ds, id).ramUsed| && r.systems <= r.nodes
  {
    hide QuantileOr0, Gathered;
    var c := Gathered(ds, id);
    CohortConserves(ds, id);
    QuantilesRise(c.ramUsed, 0.50, 0.75, r.ramP50, r.ramP75);
    QuantilesRise(c.ramUsed, 0.75, 0.90, r.ramP75, r.ramP90);
    QuantilesRise(c.cpuUsed, 0.50, 0.75, r.cpuP50, r.cpuP75);
    QuantilesRise(c.cpuUsed, 0.75, 0.90, r.cpuP75, r.cpuP90);
    QuantilesRise(c.installedRam, 0.50, 0.90, r.installedRamP50, r.installedRamP90);
    QuantilesRise(c.installedCores, 0.50, 0.90, r.installedCoresP50, r.installedCoresP90);
  }
}

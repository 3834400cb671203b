/** The verdict cache: two separately capped LRU tiers, and what every run of its operations keeps. */
module Cache {
  import opened Model
  import opened Sorting

  const DEFAULT_MAX_POSITIVE_ENTRIES := 8192
  const DEFAULT_MAX_NEGATIVE_ENTRIES := 4096

  datatype Entry = Entry(ok: bool, forbidden: bool, systemId: string, expiresAt: int)

  datatype Cached = Cached(key: string, e: Entry)

  // ----- one tier: a list of entries, the most recently used first -----

  type Tier = seq<Cached>

  function Position(tier: Tier, key: string): (r: Option<nat>)
    ensures r.None? ==> forall i :: 0 <= i < |tier| ==> tier[i].key != key
    ensures r.Some? ==> r.value < |tier| && tier[r.value].key == key
                        && forall i :: 0 <= i < r.value ==> tier[i].key != key
  {
    if tier == [] then None
    else if tier[0].key == key then Some(0)
    else match Position(tier[1..], key)
         case None => None
         case Some(i) => Some(i + 1)
  }

  predicate Has(tier: Tier, key: string) { Position(tier, key).Some? }

  function EntryOf(tier: Tier, key: string): Entry
    requires Has(tier, key)
  {
    tier[Position(tier, key).value].e
  }

  function Without(tier: Tier, key: string): Tier {
    match Position(tier, key)
    case None => tier
    case Some(i) => tier[..i] + tier[i + 1..]
  }

  function Touched(tier: Tier, key: string): Tier {
    if Has(tier, key) then [Cached(key, EntryOf(tier, key))] + Without(tier, key) else tier
  }

  function Evicted(tier: Tier, max: int): Tier {
    if 0 <= max < |tier| then tier[..max] else tier
  }

  function Stored(tier: Tier, max: int, key: string, e: Entry): Tier {
    if Has(tier, key) then [Cached(key, e)] + Without(tier, key) else Evicted([Cached(key, e)] + tier, max)
  }

  ghost predicate DistinctKeys(tier: Tier) {
    forall i, j :: 0 <= i < j < |tier| ==> tier[i].key != tier[j].key
  }

  lemma HasIffAt(tier: Tier, key: string)
    ensures Has(tier, key) <==> exists i :: 0 <= i < |tier| && tier[i].key == key
  {
  }

  lemma PositionOf(tier: Tier, i: nat)
    requires DistinctKeys(tier) && i < |tier|
    ensures Position(tier, tier[i].key) == Some(i)
  {
  }

  // ----- the cache -----

  datatype State = State(maxPos: int, maxNeg: int, pos: Tier, neg: Tier)

  datatype Op = Lookup(key: string) | Store(key: string, e: Entry) | SetLimits(maxPositive: int, maxNegative: int)

  function CapOr(n: int, default: int): int { if n <= 0 then default else n }

  function New(maxPositive: int, maxNegative: int): State {
    State(CapOr(maxPositive, DEFAULT_MAX_POSITIVE_ENTRIES), CapOr(maxNegative, DEFAULT_MAX_NEGATIVE_ENTRIES), [], [])
  }

  /** What get finds: the positive tier is asked first. */
  function Found(s: State, key: string): Option<Entry> {
    if Has(s.pos, key) then Some(EntryOf(s.pos, key))
    else if Has(s.neg, key) then Some(EntryOf(s.neg, key))
    else None
  }

  function Apply(s: State, op: Op): State {
    match op
    case Lookup(key) =>
      if Has(s.pos, key) then s.(pos := Touched(s.pos, key)) else s.(neg := Touched(s.neg, key))
    case Store(key, e) =>
      if e.ok then s.(neg := Without(s.neg, key), pos := Stored(s.pos, s.maxPos, key, e))
      else s.(pos := Without(s.pos, key), neg := Stored(s.neg, s.maxNeg, key, e))
    case SetLimits(p, n) =>
      var maxPos := CapOr(p, DEFAULT_MAX_POSITIVE_ENTRIES);
      var maxNeg := CapOr(n, DEFAULT_MAX_NEGATIVE_ENTRIES);
      State(maxPos, maxNeg, Evicted(s.pos, maxPos), Evicted(s.neg, maxNeg))
  }

  function Run(s: State, ops: seq<Op>): State {
    if ops == [] then s else Apply(Run(s, ops[..|ops| - 1]), ops[|ops| - 1])
  }

  lemma RunStep(s: State, ops: seq<Op>, op: Op)
    ensures Run(s, ops + [op]) == Apply(Run(s, ops), op)
  {
    assert (ops + [op])[..|ops|] == ops;
  }

  // ----- the shape every run keeps -----

  ghost predicate TierOk(tier: Tier, max: int, ok: bool) {
    && 0 < max && |tier| <= max && DistinctKeys(tier)
    && forall i :: 0 <= i < |tier| ==> tier[i].e.ok == ok
  }

  /** Caps hold, keys are distinct, each tier holds only its own verdicts, and no key is in both. */
  ghost predicate Wf(s: State) {
    && TierOk(s.pos, s.maxPos, true)
    && TierOk(s.neg, s.maxNeg, false)
    && forall i, j :: 0 <= i < |s.pos| && 0 <= j < |s.neg| ==> s.pos[i].key != s.neg[j].key
  }

  lemma WithoutTier(tier: Tier, key: string, max: int, ok: bool)
    requires TierOk(tier, max, ok)
    ensures TierOk(Without(tier, key), max, ok) && !Has(Without(tier, key), key)
    ensures Has(tier, key) ==> |Without(tier, key)| < max
    ensures forall k :: k != key ==> (Has(Without(tier, key), k) <==> Has(tier, k))
    ensures forall k :: k != key && Has(tier, k) ==> EntryOf(Without(tier, key), k) == EntryOf(tier, k)
  {
    if Has(tier, key) {
      var p := Position(tier, key).value;
      var w := Without(tier, key);
      forall k | k != key
        ensures Has(w, k) <==> Has(tier, k)
        ensures Has(tier, k) ==> EntryOf(w, k) == EntryOf(tier, k)
      {
        if Has(tier, k) {
          var i := Position(tier, k).value;
          PositionOf(w, if i < p then i else i - 1);
        }
      }
    }
  }

  lemma UntouchedTier(tier: Tier, key: string)
    ensures !Has(tier, key) ==> Touched(tier, key) == tier
  {
  }

  lemma TouchedTier(tier: Tier, key: string, max: int, ok: bool)
    requires TierOk(tier, max, ok)
    ensures TierOk(Touched(tier, key), max, ok)
    ensures forall k :: Has(Touched(tier, key), k) <==> Has(tier, k)
    ensures forall k :: Has(tier, k) ==> EntryOf(Touched(tier, key), k) == EntryOf(tier, k)
  {
    if Has(tier, key) {
      WithoutTier(tier, key, max, ok);
      PutInFront(Without(tier, key), key, EntryOf(tier, key), max, ok);
    }
  }

  lemma PutInFront(tier: Tier, key: string, e: Entry, max: int, ok: bool)
    requires TierOk(tier, max, ok) && !Has(tier, key) && e.ok == ok
    ensures var t := [Cached(key, e)] + tier;
            && DistinctKeys(t) && (forall i :: 0 <= i < |t| ==> t[i].e.ok == ok)
            && Has(t, key) && EntryOf(t, key) == e
            && (forall k :: k != key ==> (Has(t, k) <==> Has(tier, k)))
            && (forall k :: k != key && Has(tier, k) ==> EntryOf(t, k) == EntryOf(tier, k))
  {
    var t := [Cached(key, e)] + tier;
    assert t[1..] == tier;
  }

  lemma EvictedTier(tier: Tier, max: int)
    requires DistinctKeys(tier) && max > 0
    ensures DistinctKeys(Evicted(tier, max)) && |Evicted(tier, max)| <= max
    ensures forall k :: Has(Evicted(tier, max), k)
                        ==> Has(tier, k) && EntryOf(Evicted(tier, max), k) == EntryOf(tier, k)
    ensures forall i :: 0 <= i < |tier| && i < max ==> Has(Evicted(tier, max), tier[i].key)
  {
    forall k | Has(Evicted(tier, max), k) ensures Has(tier, k) && EntryOf(Evicted(tier, max), k) == EntryOf(tier, k) {
      PositionOf(tier, Position(Evicted(tier, max), k).value);
    }
    forall i | 0 <= i < |tier| && i < max ensures Has(Evicted(tier, max), tier[i].key) {
      PositionOf(Evicted(tier, max), i);
    }
  }

  lemma StoredTier(tier: Tier, key: string, e: Entry, max: int)
    requires TierOk(tier, max, e.ok)
    ensures TierOk(Stored(tier, max, key, e), max, e.ok)
    ensures Has(Stored(tier, max, key, e), key) && EntryOf(Stored(tier, max, key, e), key) == e
    ensures forall k :: k != key && Has(Stored(tier, max, key, e), k)
                        ==> Has(tier, k) && EntryOf(Stored(tier, max, key, e), k) == EntryOf(tier, k)
  {
    if Has(tier, key) {
      WithoutTier(tier, key, max, e.ok);
      PutInFront(Without(tier, key), key, e, max, e.ok);
    } else {
      PutInFront(tier, key, e, max, e.ok);
      EvictedTier([Cached(key, e)] + tier, max);
      PositionOf(Stored(tier, max, key, e), 0);
    }
  }

  lemma DisjointIffHas(a: Tier, b: Tier)
    ensures (forall i, j :: 0 <= i < |a| && 0 <= j < |b| ==> a[i].key != b[j].key)
       <==> forall k :: Has(a, k) ==> !Has(b, k)
  {
    forall i, j | 0 <= i < |a| && 0 <= j < |b| && a[i].key == b[j].key ensures Has(a, a[i].key) && Has(b, a[i].key) {
      HasIffAt(a, a[i].key);
      HasIffAt(b, a[i].key);
    }
  }

  lemma StepKeepsWf(s: State, op: Op)
    requires Wf(s)
    ensures Wf(Apply(s, op))
  {
    var s' := Apply(s, op);
    DisjointIffHas(s.pos, s.neg);
    DisjointIffHas(s'.pos, s'.neg);
    match op
    case Lookup(key) =>
      TouchedTier(s.pos, key, s.maxPos, true);
      TouchedTier(s.neg, key, s.maxNeg, false);
    case Store(key, e) =>
      WithoutTier(s.pos, key, s.maxPos, true);
      WithoutTier(s.neg, key, s.maxNeg, false);
      if e.ok { StoredTier(s.pos, key, e, s.maxPos); } else { StoredTier(s.neg, key, e, s.maxNeg); }
    case SetLimits(p, n) =>
      EvictedTier(s.pos, s'.maxPos);
      EvictedTier(s.neg, s'.maxNeg);
  }

  lemma {:induction false} RunKeepsWf(s: State, ops: seq<Op>)
    requires Wf(s)
    ensures Wf(Run(s, ops))
  {
    if ops != [] {
      RunKeepsWf(s, ops[..|ops| - 1]);
      StepKeepsWf(Run(s, ops[..|ops| - 1]), ops[|ops| - 1]);
    }
  }

  // ----- what is found is the latest verdict stored -----

  function LatestStore(ops: seq<Op>, key: string): Option<Entry> {
    if ops == [] then None
    else
      match ops[|ops| - 1]
      case Store(k, e) => if k == key then Some(e) else LatestStore(ops[..|ops| - 1], key)
      case _ => LatestStore(ops[..|ops| - 1], key)
  }

  /** From an empty cache, neither tier ever answers with a superseded verdict. */
  lemma {:induction false} FoundIsLatest(start: State, ops: seq<Op>, key: string)
    requires Wf(start) && start.pos == [] && start.neg == []
    ensures var r := Found(Run(start, ops), key); r.Some? ==> r == LatestStore(ops, key)
  {
    if ops != [] {
      var init, op := ops[..|ops| - 1], ops[|ops| - 1];
      RunKeepsWf(start, init);
      FoundIsLatest(start, init, key);
      StepFound(Run(start, init), op, key);
    }
  }

  lemma StepFound(s: State, op: Op, key: string)
    requires Wf(s)
    ensures op.Store? && op.key == key ==> Found(Apply(s, op), key) == Some(op.e)
    ensures !(op.Store? && op.key == key) && Found(Apply(s, op), key).Some?
            ==> Found(Apply(s, op), key) == Found(s, key)
    ensures op.Lookup? ==> Found(Apply(s, op), key) == Found(s, key)
  {
    hide DistinctKeys, Without, Touched, Stored, Evicted, Position, Has, EntryOf;
    var s' := Apply(s, op);
    DisjointIffHas(s.pos, s.neg);
    match op
    case Lookup(k) =>
      TouchedTier(s.pos, k, s.maxPos, true);
      TouchedTier(s.neg, k, s.maxNeg, false);
    case Store(k, e) =>
      WithoutTier(s.pos, k, s.maxPos, true);
      WithoutTier(s.neg, k, s.maxNeg, false);
      if e.ok { StoredTier(s.pos, k, e, s.maxPos); } else { StoredTier(s.neg, k, e, s.maxNeg); }
    case SetLimits(p, n) =>
      EvictedTier(s.pos, s'.maxPos);
      EvictedTier(s.neg, s'.maxNeg);
  }

  lemma PositiveIsOk(s: State, key: string)
    requires Wf(s) && Has(s.pos, key)
    ensures Found(s, key) == Some(EntryOf(s.pos, key)) && EntryOf(s.pos, key).ok
  {
    HasIffAt(s.pos, key);
  }

  // ----- recency -----

  predicate Uses(op: Op, key: string) { (op.Lookup? && op.key == key) || (op.Store? && op.key == key) }

  /** One past the index of the last operation on key; 0 if there is none. */
  function LastUse(ops: seq<Op>, key: string): nat {
    if ops == [] then 0
    else if Uses(ops[|ops| - 1], key) then |ops| else LastUse(ops[..|ops| - 1], key)
  }

  ghost predicate ByLastUse(tier: Tier, ops: seq<Op>) {
    forall i, j :: 0 <= i < j < |tier| ==> LastUse(ops, tier[i].key) > LastUse(ops, tier[j].key)
  }

  lemma {:induction false} LastUseBound(ops: seq<Op>, key: string)
    ensures LastUse(ops, key) <= |ops|
  {
    if ops != [] { LastUseBound(ops[..|ops| - 1], key); }
  }

  lemma UnusedKeepsOrder(tier: Tier, ops: seq<Op>, op: Op)
    requires ByLastUse(tier, ops) && forall i :: 0 <= i < |tier| ==> !Uses(op, tier[i].key)
    ensures ByLastUse(tier, ops + [op])
  {
    assert (ops + [op])[..|ops|] == ops;
    assert forall i :: 0 <= i < |tier| ==> LastUse(ops + [op], tier[i].key) == LastUse(ops, tier[i].key);
  }

  lemma UsedGoesFirst(tier: Tier, ops: seq<Op>, op: Op, c: Cached)
    requires ByLastUse(tier, ops) && Uses(op, c.key) && forall i :: 0 <= i < |tier| ==> !Uses(op, tier[i].key)
    ensures ByLastUse([c] + tier, ops + [op])
  {
    UnusedKeepsOrder(tier, ops, op);
    assert (ops + [op])[..|ops|] == ops;
    forall i | 0 <= i < |tier| ensures LastUse(ops + [op], tier[i].key) <= |ops| {
      LastUseBound(ops, tier[i].key);
    }
  }

  lemma NotUsed(tier: Tier, op: Op, key: string)
    requires !Has(tier, key) && forall k :: Uses(op, k) ==> k == key
    ensures forall i :: 0 <= i < |tier| ==> !Uses(op, tier[i].key)
  {
  }

  lemma TouchKeepsOrder(tier: Tier, ops: seq<Op>, op: Op, key: string, max: int, ok: bool)
    requires TierOk(tier, max, ok) && ByLastUse(tier, ops) && op == Lookup(key)
    ensures ByLastUse(Touched(tier, key), ops + [op])
  {
    WithoutTier(tier, key, max, ok);
    NotUsed(Without(tier, key), op, key);
    if Has(tier, key) {
      UsedGoesFirst(Without(tier, key), ops, op, Cached(key, EntryOf(tier, key)));
    } else {
      UnusedKeepsOrder(tier, ops, op);
    }
  }

  lemma StoreKeepsOrder(tier: Tier, ops: seq<Op>, key: string, e: Entry, max: int)
    requires TierOk(tier, max, e.ok) && ByLastUse(tier, ops)
    ensures ByLastUse(Stored(tier, max, key, e), ops + [Store(key, e)])
  {
    WithoutTier(tier, key, max, e.ok);
    NotUsed(Without(tier, key), Store(key, e), key);
    UsedGoesFirst(Without(tier, key), ops, Store(key, e), Cached(key, e));
  }

  lemma RemoveKeepsOrder(tier: Tier, ops: seq<Op>, key: string, e: Entry, max: int, ok: bool)
    requires TierOk(tier, max, ok) && ByLastUse(tier, ops)
    ensures ByLastUse(Without(tier, key), ops + [Store(key, e)])
  {
    WithoutTier(tier, key, max, ok);
    NotUsed(Without(tier, key), Store(key, e), key);
    UnusedKeepsOrder(Without(tier, key), ops, Store(key, e));
  }

  /** Both tiers are ordered by last use: what a cap drops is what was used longest ago. */
  lemma {:induction false} OrderedByLastUse(maxPos: int, maxNeg: int, ops: seq<Op>)
    ensures var s := Run(New(maxPos, maxNeg), ops); ByLastUse(s.pos, ops) && ByLastUse(s.neg, ops)
  {
    assert ByLastUse([], ops);
    if ops != [] {
      hide ByLastUse, Apply;
      var init, op := ops[..|ops| - 1], ops[|ops| - 1];
      var s := Run(New(maxPos, maxNeg), init);
      RunKeepsWf(New(maxPos, maxNeg), init);
      OrderedByLastUse(maxPos, maxNeg, init);
      OrderStep(s, init, op);
      assert ops == init + [op];
    }
  }

  lemma OrderStep(s: State, ops: seq<Op>, op: Op)
    requires Wf(s) && ByLastUse(s.pos, ops) && ByLastUse(s.neg, ops)
    ensures ByLastUse(Apply(s, op).pos, ops + [op]) && ByLastUse(Apply(s, op).neg, ops + [op])
  {
    hide ByLastUse, TierOk, Touched, Stored, Without, Evicted;
    match op
    case Lookup(key) =>
      DisjointIffHas(s.pos, s.neg);
      if Has(s.pos, key) {
        TouchKeepsOrder(s.pos, ops, op, key, s.maxPos, true);
        NotUsed(s.neg, op, key);
        UnusedKeepsOrder(s.neg, ops, op);
      } else {
        TouchKeepsOrder(s.neg, ops, op, key, s.maxNeg, false);
        NotUsed(s.pos, op, key);
        UnusedKeepsOrder(s.pos, ops, op);
      }
    case Store(key, e) =>
      if e.ok {
        StoreKeepsOrder(s.pos, ops, key, e, s.maxPos);
        RemoveKeepsOrder(s.neg, ops, key, e, s.maxNeg, false);
      } else {
        StoreKeepsOrder(s.neg, ops, key, e, s.maxNeg);
        RemoveKeepsOrder(s.pos, ops, key, e, s.maxPos, true);
      }
    case SetLimits(p, n) =>
      PrefixKeepsOrder(s.pos, ops, op, Apply(s, op).maxPos);
      PrefixKeepsOrder(s.neg, ops, op, Apply(s, op).maxNeg);
  }

  lemma PrefixKeepsOrder(tier: Tier, ops: seq<Op>, op: Op, max: int)
    requires ByLastUse(tier, ops) && op.SetLimits?
    ensures ByLastUse(Evicted(tier, max), ops + [op])
  {
    UnusedKeepsOrder(tier, ops, op);
  }

  // ----- isolation of the positive tier -----

  predicate About(op: Op, keys: set<string>) {
    match op
    case Lookup(k) => k in keys
    case Store(k, _) => k in keys
    case SetLimits(_, _) => true
  }

  /** The run without its operations on other keys. */
  function Erased(ops: seq<Op>, keys: set<string>): seq<Op> {
    if ops == [] then []
    else
      var init := Erased(ops[..|ops| - 1], keys);
      if About(ops[|ops| - 1], keys) then init + [ops[|ops| - 1]] else init
  }

  /** keys holds every key that some operation stores a positive verdict for. */
  ghost predicate HoldsPositives(ops: seq<Op>, keys: set<string>) {
    forall i :: 0 <= i < |ops| && ops[i].Store? && ops[i].e.ok ==> ops[i].key in keys
  }

  ghost predicate KeysIn(tier: Tier, keys: set<string>) {
    forall i :: 0 <= i < |tier| ==> tier[i].key in keys
  }

  /** The positive tier's next state depends on nothing but itself, its cap and the operation. */
  function PosStep(pos: Tier, maxPos: int, op: Op): (Tier, int) {
    match op
    case Lookup(key) => (Touched(pos, key), maxPos)
    case Store(key, e) => (if e.ok then Stored(pos, maxPos, key, e) else Without(pos, key), maxPos)
    case SetLimits(p, _) =>
      (Evicted(pos, CapOr(p, DEFAULT_MAX_POSITIVE_ENTRIES)), CapOr(p, DEFAULT_MAX_POSITIVE_ENTRIES))
  }

  lemma PosStepKeys(pos: Tier, maxPos: int, op: Op, keys: set<string>)
    requires KeysIn(pos, keys) && (op.Store? && op.e.ok ==> op.key in keys)
    ensures KeysIn(PosStep(pos, maxPos, op).0, keys)
    ensures !About(op, keys) ==> PosStep(pos, maxPos, op) == (pos, maxPos)
  {
    if !About(op, keys) {
      assert !Has(pos, op.key);
    }
  }

  lemma PosOfApply(s: State, op: Op)
    ensures (Apply(s, op).pos, Apply(s, op).maxPos) == PosStep(s.pos, s.maxPos, op)
  {
    if op.Lookup? { UntouchedTier(s.pos, op.key); }
  }

  /** Two runs: erasing every operation on keys that never get a positive verdict, however many they
      are, leaves the positive tier as it was, contents and recency order alike. */
  lemma {:induction false} NegativesNeverPushOutPositives(maxPos: int, maxNeg: int, ops: seq<Op>, keys: set<string>)
    requires HoldsPositives(ops, keys)
    ensures var s, t := Run(New(maxPos, maxNeg), ops), Run(New(maxPos, maxNeg), Erased(ops, keys));
            s.pos == t.pos && s.maxPos == t.maxPos && KeysIn(s.pos, keys)
  {
    assert KeysIn([], keys);
    if ops != [] {
      var init, op := ops[..|ops| - 1], ops[|ops| - 1];
      hide Touched, Stored, Without, Evicted, KeysIn;
      assert HoldsPositives(init, keys);
      NegativesNeverPushOutPositives(maxPos, maxNeg, init, keys);
      var s, t := Run(New(maxPos, maxNeg), init), Run(New(maxPos, maxNeg), Erased(init, keys));
      PosStepKeys(s.pos, s.maxPos, op, keys);
      PosOfApply(s, op);
      PosOfApply(t, op);
      RunStep(New(maxPos, maxNeg), Erased(init, keys), op);
    }
  }

  // ----- how long a positive verdict stays -----

  /** The operations use no positive key outside others, besides key itself. */
  ghost predicate OnlyThesePositives(s: State, ops: seq<Op>, key: string, others: set<string>) {
    forall i :: 0 <= i < |ops| ==>
      match ops[i]
      case Lookup(k) => k == key || k in others || !Has(s.pos, k)
      case Store(k, e) => if e.ok then k == key || k in others else k != key
      case SetLimits(_, _) => false
  }

  /** Everything more recent than key in the tier is one of others. */
  ghost predicate Ahead(pos: Tier, key: string, others: set<string>) {
    && Has(pos, key)
    && forall i :: 0 <= i < Position(pos, key).value ==> pos[i].key in others
  }

  /** A positive verdict just used survives any run, of any length and with any number of rejected
      keys, in which fewer than maxPos other positive keys are used and it is not itself rejected. */
  lemma {:induction false} PositiveSurvives(s: State, ops: seq<Op>, key: string, others: set<string>)
    requires Wf(s) && s.pos != [] && s.pos[0].key == key
    requires key !in others && |others| < s.maxPos
    requires OnlyThesePositives(s, ops, key, others)
    ensures Has(Run(s, ops).pos, key)
    ensures Ahead(Run(s, ops).pos, key, others) && Run(s, ops).maxPos == s.maxPos
    ensures forall k :: Has(Run(s, ops).pos, k) ==> Has(s.pos, k) || k in others
  {
    if ops == [] {
      PositionOf(s.pos, 0);
    } else {
      var init, op := ops[..|ops| - 1], ops[|ops| - 1];
      assert forall i :: 0 <= i < |init| ==> init[i] == ops[i];
      PositiveSurvives(s, init, key, others);
      RunKeepsWf(s, init);
      SurviveStep(Run(s, init), op, key, others);
    }
  }

  lemma SurviveStep(s: State, op: Op, key: string, others: set<string>)
    requires Wf(s) && Ahead(s.pos, key, others) && |others| < s.maxPos && !op.SetLimits?
    requires op.Lookup? ==> op.key == key || op.key in others || !Has(s.pos, op.key)
    requires op.Store? ==> if op.e.ok then op.key == key || op.key in others else op.key != key
    ensures Ahead(Apply(s, op).pos, key, others)
    ensures forall k :: Has(Apply(s, op).pos, k) ==> Has(s.pos, k) || (op.Store? && op.e.ok && k == op.key)
  {
    hide Position, Ahead;
    var w := Without(s.pos, op.key);
    WithoutTier(s.pos, op.key, s.maxPos, true);
    if op.key != key { WithoutAhead(s.pos, op.key, key, others); }
    match op
    case Lookup(k) =>
      TouchedTier(s.pos, k, s.maxPos, true);
      if Has(s.pos, k) { FrontAhead(w, Cached(k, EntryOf(s.pos, k)), key, others); }
    case Store(k, e) =>
      if e.ok {
        StoredTier(s.pos, k, e, s.maxPos);
        FrontAhead(w, Cached(k, e), key, others);
        if !Has(s.pos, k) { CapAhead([Cached(k, e)] + s.pos, key, others, s.maxPos); }
      }
  }

  lemma WithoutAhead(pos: Tier, k: string, key: string, others: set<string>)
    requires DistinctKeys(pos) && Ahead(pos, key, others) && k != key
    ensures Ahead(Without(pos, k), key, others)
  {
    if Has(pos, k) {
      var p, i := Position(pos, k).value, Position(pos, key).value;
      PositionOf(Without(pos, k), if i < p then i else i - 1);
    }
  }

  lemma FrontAhead(w: Tier, c: Cached, key: string, others: set<string>)
    requires c.key == key || (c.key in others && Ahead(w, key, others))
    ensures Ahead([c] + w, key, others)
  {
    assert ([c] + w)[1..] == w;
  }

  lemma CapAhead(pos: Tier, key: string, others: set<string>, max: int)
    requires DistinctKeys(pos) && Ahead(pos, key, others) && |others| < max
    ensures Ahead(Evicted(pos, max), key, others)
  {
    var p := Position(pos, key).value;
    var ahead := set i | 0 <= i < p :: pos[i].key;
    assert ahead <= others;
    AheadCount(pos, p);
    SubsetSize(ahead, others);
    PositionOf(Evicted(pos, max), p);
  }

  lemma {:induction false} AheadCount(pos: Tier, p: nat)
    requires DistinctKeys(pos) && p <= |pos|
    ensures |set i | 0 <= i < p :: pos[i].key| == p
  {
    if p > 0 {
      AheadCount(pos, p - 1);
      assert (set i | 0 <= i < p :: pos[i].key) == (set i | 0 <= i < p - 1 :: pos[i].key) + {pos[p - 1].key};
    }
  }

  // ----- the linked list and the map -----

  /** What a list element holds; it carries its own key so eviction can delete the map entry. */
  class LruNode {
    const key: string
    var e: Entry

    constructor (key: string, e: Entry)
      ensures this.key == key && this.e == e
    {
      this.key := key;
      this.e := e;
    }
  }

  ghost function ContentOf(ll: seq<LruNode>): (tier: Tier)
    reads ll
    ensures |tier| == |ll|
  {
    seq(|ll|, i requires 0 <= i < |ll| reads ll => Cached(ll[i].key, ll[i].e))
  }

  /** The list and the map agree: every node is mapped by its own key, and nothing else is. */
  ghost predicate InStep(ll: seq<LruNode>, items: map<string, LruNode>) {
    && (forall i, j :: 0 <= i < j < |ll| ==> ll[i].key != ll[j].key)
    && (forall i :: 0 <= i < |ll| ==> ll[i].key in items && items[ll[i].key] == ll[i])
    && (forall k :: k in items ==> items[k] in ll && items[k].key == k)
  }

  lemma NodeAt(ll: seq<LruNode>, items: map<string, LruNode>, key: string)
    requires InStep(ll, items)
    ensures key in items <==> Has(ContentOf(ll), key)
    ensures key in items ==> items[key] in ll && items[key].key == key && EntryOf(ContentOf(ll), key) == items[key].e
    ensures key in items ==> Without(ContentOf(ll), key) == ContentOf(Detached(ll, items[key]))
  {
    var c := ContentOf(ll);
    assert DistinctKeys(c);
    if key in items {
      var i :| 0 <= i < |ll| && ll[i] == items[key];
      PositionOf(c, i);
      DetachedAt(ll, i);
      ContentDetached(ll, i);
    }
  }

  lemma ContentPrefix(ll: seq<LruNode>, n: nat)
    requires n <= |ll|
    ensures ContentOf(ll[..n]) == ContentOf(ll)[..n]
  {
  }

  /** Entries change only through their nodes. */
  twostate lemma ContentSame(ll: seq<LruNode>)
    requires forall n :: n in ll ==> old(n.e) == n.e
    ensures ContentOf(ll) == old(ContentOf(ll))
  {
    assert forall i :: 0 <= i < |ll| ==> ll[i] in ll;
  }

  lemma ContentDetached(ll: seq<LruNode>, i: nat)
    requires i < |ll|
    ensures ContentOf(ll[..i] + ll[i + 1..]) == ContentOf(ll)[..i] + ContentOf(ll)[i + 1..]
  {
  }

  function Detached(ll: seq<LruNode>, el: LruNode): seq<LruNode> {
    if ll == [] then [] else if ll[0] == el then ll[1..] else [ll[0]] + Detached(ll[1..], el)
  }

  lemma {:induction false} DetachedAt(ll: seq<LruNode>, i: nat)
    requires i < |ll| && forall j :: 0 <= j < i ==> ll[j] != ll[i]
    ensures Detached(ll, ll[i]) == ll[..i] + ll[i + 1..]
  {
    if i > 0 {
      assert ll[1..][i - 1] == ll[i];
      DetachedAt(ll[1..], i - 1);
      assert ll[1..][..i - 1] == ll[1..i] && ll[1..][i..] == ll[i + 1..];
      assert ll[..i] == [ll[0]] + ll[1..i];
    }
  }

  lemma DetachedInStep(ll: seq<LruNode>, items: map<string, LruNode>, el: LruNode)
    requires InStep(ll, items) && el in ll
    ensures InStep(Detached(ll, el), items - {el.key})
    ensures forall n :: n in Detached(ll, el) <==> n in ll && n != el
  {
    var i :| 0 <= i < |ll| && ll[i] == el;
    DetachedAt(ll, i);
    SpliceInStep(ll, items, i);
    DetachedMembers(ll, i);
  }

  lemma SpliceInStep(ll: seq<LruNode>, items: map<string, LruNode>, i: nat)
    requires InStep(ll, items) && i < |ll|
    ensures InStep(ll[..i] + ll[i + 1..], items - {ll[i].key})
  {
    var d := ll[..i] + ll[i + 1..];
    var kept := items - {ll[i].key};
    forall x, y | 0 <= x < y < |d| ensures d[x].key != d[y].key {
      assert d[x] == ll[if x < i then x else x + 1] && d[y] == ll[if y < i then y else y + 1];
    }
    forall x | 0 <= x < |d| ensures d[x].key in kept && kept[d[x].key] == d[x] {
      assert d[x] == ll[if x < i then x else x + 1];
    }
    forall k | k in kept ensures kept[k] in d && kept[k].key == k {
      var j :| 0 <= j < |ll| && ll[j] == items[k];
      assert d[if j < i then j else j - 1] == ll[j];
    }
  }

  lemma DetachedMembers(ll: seq<LruNode>, i: nat)
    requires i < |ll| && forall x, y :: 0 <= x < y < |ll| ==> ll[x].key != ll[y].key
    ensures forall n :: n in ll[..i] + ll[i + 1..] <==> n in ll && n != ll[i]
  {
    var d := ll[..i] + ll[i + 1..];
    forall n | n in ll && n != ll[i] ensures n in d {
      var j :| 0 <= j < |ll| && ll[j] == n;
      assert d[if j < i then j else j - 1] == n;
    }
  }

  lemma ContentCons(el: LruNode, rest: seq<LruNode>)
    ensures ContentOf([el] + rest) == [Cached(el.key, el.e)] + ContentOf(rest)
  {
  }

  lemma AttachedInStep(ll: seq<LruNode>, items: map<string, LruNode>, el: LruNode)
    requires InStep(ll, items) && el.key !in items
    ensures InStep([el] + ll, items[el.key := el])
  {
  }

  class LruTier {
    var max: int
    var ll: seq<LruNode>  // the front is the most recently used
    var items: map<string, LruNode>

    ghost predicate Valid()
      reads this
    {
      max > 0 && InStep(ll, items)
    }

    ghost function Content(): Tier
      reads this, ll
    {
      ContentOf(ll)
    }

    constructor (max: int)
      requires max > 0
      ensures Valid() && ll == [] && this.max == max
      ensures Content() == []
    {
      this.max := max;
      ll := [];
      items := map[];
    }

    method Get(key: string) returns (e: Entry, found: bool)
      requires Valid()
      modifies this
      ensures Valid() && max == old(max)
      ensures found == Has(old(Content()), key) && (found ==> e == EntryOf(old(Content()), key))
      ensures Content() == Touched(old(Content()), key)
      ensures forall n :: n in ll ==> n in old(ll)
    {
      NodeAt(ll, items, key);
      if key !in items { return Entry(false, false, "", 0), false; }
      hide InStep, ContentOf, Detached, Without, EntryOf;
      var el := items[key];
      ContentCons(el, Detached(ll, el));
      MoveToFront(el);
      return el.e, true;
    }

    method MoveToFront(el: LruNode)
      requires Valid() && el in ll
      modifies this
      ensures Valid() && max == old(max) && items == old(items)
      ensures ll == [el] + Detached(old(ll), el)
      ensures forall n :: n in ll <==> n in old(ll)
    {
      DetachedInStep(ll, items, el);
      ll := Detached(ll, el);
      AttachedInStep(ll, items - {el.key}, el);
      ll := [el] + ll;
      assert (items - {el.key})[el.key := el] == items;
    }

    method Remove(key: string)
      requires Valid()
      modifies this
      ensures Valid() && max == old(max)
      ensures Content() == Without(old(Content()), key)
      ensures forall n :: n in ll ==> n in old(ll)
    {
      NodeAt(ll, items, key);
      if key in items {
        DetachedInStep(ll, items, items[key]);
        ll := Detached(ll, items[key]);
        items := items - {key};
      }
    }

    method Set(key: string, e: Entry)
      requires Valid()
      modifies this, ll
      ensures Valid() && max == old(max)
      ensures Content() == Stored(old(Content()), max, key, e)
      ensures forall n :: n in ll ==> n in old(ll) || fresh(n)
    {
      NodeAt(ll, items, key);
      if key in items {
        var el := items[key];
        hide InStep, ContentOf, Detached, Without, EntryOf;
        DetachedInStep(ll, items, el);
        ghost var rest := Detached(ll, el);
        MoveToFront(el);
        el.e := e;
        assert el !in rest;
        ContentSame(rest);
        ContentCons(el, rest);
      } else {
        Push(key, e);
        Evict();
      }
    }

    method Push(key: string, e: Entry)
      requires Valid() && key !in items
      modifies this
      ensures Valid() && max == old(max)
      ensures Content() == [Cached(key, e)] + old(Content())
      ensures forall n :: n in ll ==> n in old(ll) || fresh(n)
    {
      hide InStep, ContentOf;
      var node := new LruNode(key, e);
      AttachedInStep(ll, items, node);
      ContentCons(node, ll);
      items := items[key := node];
      ll := [node] + ll;
    }

    method Evict()
      requires Valid()
      modifies this
      ensures Valid() && max == old(max)
      ensures Content() == Evicted(old(Content()), max)
      ensures forall n :: n in ll ==> n in old(ll)
    {
      hide InStep, ContentOf;
      ghost var all := ll;
      while |ll| > max
        invariant Valid() && max == old(max)
        invariant |ll| <= |all| && ll == all[..|ll|]
        invariant |all| <= max ==> |ll| == |all|
        invariant |all| > max ==> |ll| >= max
      {
        var oldest := ll[|ll| - 1];
        BackInStep(ll, items);
        ll := ll[..|ll| - 1];
        items := items - {oldest.key};
      }
      ContentPrefix(all, |ll|);
    }
  }

  lemma BackInStep(ll: seq<LruNode>, items: map<string, LruNode>)
    requires InStep(ll, items) && ll != []
    ensures InStep(ll[..|ll| - 1], items - {ll[|ll| - 1].key})
  {
    DetachedInStep(ll, items, ll[|ll| - 1]);
    DetachedAt(ll, |ll| - 1);
  }

  /** The cache: every method is one critical section of its mutex. */
  class VerdictCache {
    const pos: LruTier
    const neg: LruTier
    ghost const start: State   // the state newCache left
    ghost var ops: seq<Op>     // every operation since, in the order the mutex was taken

    ghost function Current(): State
      reads this, pos, pos.ll, neg, neg.ll
    {
      State(pos.max, neg.max, pos.Content(), neg.Content())
    }

    ghost predicate Valid()
      reads this, pos, pos.ll, neg, neg.ll
    {
      && pos != neg && pos.Valid() && neg.Valid()
      && (forall n :: n in pos.ll ==> n !in neg.ll)
      && Wf(start) && start.pos == [] && start.neg == []
      && Current() == Run(start, ops)
    }

    constructor (maxPositive: int, maxNegative: int)
      ensures Valid() && ops == [] && start == New(maxPositive, maxNegative)
      ensures fresh(pos) && fresh(neg)
    {
      start := New(maxPositive, maxNegative);
      ops := [];
      pos := new LruTier(CapOr(maxPositive, DEFAULT_MAX_POSITIVE_ENTRIES));
      neg := new LruTier(CapOr(maxNegative, DEFAULT_MAX_NEGATIVE_ENTRIES));
    }

    method SetLimits(maxPositive: int, maxNegative: int)
      requires Valid()
      modifies this, pos, neg
      ensures Valid() && ops == old(ops) + [Op.SetLimits(maxPositive, maxNegative)]
      ensures Current() == Apply(old(Current()), Op.SetLimits(maxPositive, maxNegative))
      ensures forall n :: n in pos.ll ==> n in old(pos.ll)
      ensures forall n :: n in neg.ll ==> n in old(neg.ll)
    {
      hide Evicted, ContentOf, InStep, Wf;
      pos.max := CapOr(maxPositive, DEFAULT_MAX_POSITIVE_ENTRIES);
      neg.max := CapOr(maxNegative, DEFAULT_MAX_NEGATIVE_ENTRIES);
      pos.Evict();
      neg.Evict();
      assert Current() == Apply(old(Current()), Op.SetLimits(maxPositive, maxNegative));
      assert forall n :: n in pos.ll ==> n !in neg.ll;
      hide Apply, Run, CapOr;
      RunStep(start, ops, Op.SetLimits(maxPositive, maxNegative));
      ops := ops + [Op.SetLimits(maxPositive, maxNegative)];
    }

    /** The entry for key, if any, and whether it is still within its TTL. A read counts as a use. */
    method Get(key: string, now: int) returns (e: Entry, fresh_: bool, found: bool)
      requires Valid()
      modifies this, pos, neg
      ensures Valid() && ops == old(ops) + [Lookup(key)]
      ensures Current() == Apply(old(Current()), Lookup(key))
      ensures Found(old(Current()), key) == if found then Some(e) else None
      ensures fresh_ == (found && now < e.expiresAt)
      ensures forall n :: n in pos.ll ==> n in old(pos.ll)
      ensures forall n :: n in neg.ll ==> n in old(neg.ll)
    {
      hide ContentOf, InStep, Wf, Touched, Position, EntryOf;
      UntouchedTier(pos.Content(), key);
      e, found := pos.Get(key);
      if !found {
        e, found := neg.Get(key);
      }
      fresh_ := found && now < e.expiresAt;
      RunStep(start, ops, Lookup(key));
      ops := ops + [Lookup(key)];
    }

    method Set(key: string, e: Entry)
      requires Valid()
      modifies this, pos, neg, pos.ll, neg.ll
      ensures Valid() && ops == old(ops) + [Store(key, e)]
      ensures Current() == Apply(old(Current()), Store(key, e))
      ensures forall n :: n in pos.ll ==> n in old(pos.ll) || fresh(n)
      ensures forall n :: n in neg.ll ==> n in old(neg.ll) || fresh(n)
    {
      hide Stored, Without, InStep, Wf, ContentOf;
      if e.ok { StoreIn(pos, neg, key, e); } else { StoreIn(neg, pos, key, e); }
      RunStep(start, ops, Store(key, e));
      ops := ops + [Store(key, e)];
    }

    /** Remove the key from the one tier, then set it in the other. */
    static method StoreIn(tier: LruTier, other: LruTier, key: string, e: Entry)
      requires tier != other && tier.Valid() && other.Valid() && forall n :: n in tier.ll ==> n !in other.ll
      modifies tier, other, tier.ll
      ensures tier.Valid() && other.Valid() && forall n :: n in tier.ll ==> n !in other.ll
      ensures tier.max == old(tier.max) && other.max == old(other.max)
      ensures tier.Content() == Stored(old(tier.Content()), tier.max, key, e)
      ensures other.Content() == Without(old(other.Content()), key)
      ensures forall n :: n in tier.ll ==> n in old(tier.ll) || fresh(n)
      ensures forall n :: n in other.ll ==> n in old(other.ll)
    {
      hide Stored, Without, InStep;
      other.Remove(key);
      label Removed:
      tier.Set(key, e);
      ContentSame@Removed(other.ll);
    }
  }
}

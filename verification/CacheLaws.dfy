/** One operation on the verdict cache, said of the two lists themselves. */
module CacheLaws {
  import opened Model
  import C = Cache

  /** The key is nowhere in the list, or at exactly this place. */
  predicate Absent(tier: C.Tier, key: string) { forall i :: 0 <= i < |tier| ==> tier[i].key != key }

  predicate At(tier: C.Tier, key: string, i: int) { 0 <= i < |tier| && tier[i].key == key }

  /** The list without the entry at place i. */
  function Cut(tier: C.Tier, i: int): C.Tier
    requires 0 <= i < |tier|
  {
    tier[..i] + tier[i + 1..]
  }

  /** A new entry goes in front; it pushes out the one used longest ago only if the list is full and had none for the
      key. */
  ghost predicate Holds(tier: C.Tier, after: C.Tier, max: int, key: string, e: C.Entry)
    requires |tier| <= max && 0 < max
  {
    && (Absent(tier, key) ==> after == [C.Cached(key, e)] + (if |tier| < max then tier else tier[..max - 1]))
    && (forall i :: At(tier, key, i) ==> after == [C.Cached(key, e)] + Cut(tier, i))
  }

  /** The key's entry, if there is one, is gone, and nothing else. */
  ghost predicate Loses(tier: C.Tier, after: C.Tier, key: string) {
    && (Absent(tier, key) ==> after == tier)
    && (forall i :: At(tier, key, i) ==> after == Cut(tier, i))
  }

  /** The key's entry, if there is one, comes to the front. */
  ghost predicate Fronts(tier: C.Tier, after: C.Tier, key: string) {
    && (Absent(tier, key) ==> after == tier)
    && (forall i :: At(tier, key, i) ==> after == [tier[i]] + Cut(tier, i))
  }

  lemma PlaceOf(tier: C.Tier, key: string)
    requires C.DistinctKeys(tier)
    ensures Absent(tier, key) <==> C.Position(tier, key).None?
    ensures forall i :: At(tier, key, i) ==> C.Position(tier, key) == Some(i)
  {
    forall i | At(tier, key, i) ensures C.Position(tier, key) == Some(i) { C.PositionOf(tier, i); }
  }

  lemma StoredHolds(tier: C.Tier, max: int, ok: bool, key: string, e: C.Entry)
    requires C.TierOk(tier, max, ok)
    ensures Holds(tier, C.Stored(tier, max, key, e), max, key, e)
  {
    PlaceOf(tier, key);
    var put := [C.Cached(key, e)] + tier;
    assert |tier| >= max ==> put[..max] == [C.Cached(key, e)] + tier[..max - 1];
    hide C.Position, Absent;
  }

  lemma WithoutLoses(tier: C.Tier, key: string)
    requires C.DistinctKeys(tier)
    ensures Loses(tier, C.Without(tier, key), key)
  {
    PlaceOf(tier, key);
    hide C.Position, Absent;
  }

  lemma TouchedFronts(tier: C.Tier, key: string)
    requires C.DistinctKeys(tier)
    ensures Fronts(tier, C.Touched(tier, key), key)
  {
    PlaceOf(tier, key);
    hide C.Position, Absent;
  }

  /** Storing puts the verdict in front of its own list and takes it out of the other one. */
  lemma StoreMeans(s: C.State, key: string, e: C.Entry)
    requires C.Wf(s)
    ensures var t := C.Apply(s, C.Store(key, e));
            && t.maxPos == s.maxPos && t.maxNeg == s.maxNeg
            && (e.ok ==> Holds(s.pos, t.pos, s.maxPos, key, e) && Loses(s.neg, t.neg, key))
            && (!e.ok ==> Holds(s.neg, t.neg, s.maxNeg, key, e) && Loses(s.pos, t.pos, key))
  {
    StoredHolds(s.pos, s.maxPos, true, key, e);
    StoredHolds(s.neg, s.maxNeg, false, key, e);
    WithoutLoses(s.pos, key);
    WithoutLoses(s.neg, key);
    hide C.Stored, C.Without, Holds, Loses;
  }

  /** Looking a key up forgets nothing, and makes its entry the one used last. */
  lemma LookupMeans(s: C.State, key: string)
    requires C.Wf(s)
    ensures var t := C.Apply(s, C.Lookup(key));
            t.maxPos == s.maxPos && t.maxNeg == s.maxNeg && Fronts(s.pos, t.pos, key) && Fronts(s.neg, t.neg, key)
  {
    PlaceOf(s.pos, key);
    PlaceOf(s.neg, key);
    TouchedFronts(s.pos, key);
    TouchedFronts(s.neg, key);
    if i :| At(s.pos, key, i) { assert Absent(s.neg, key); }
    hide C.Touched, C.Position, Absent, C.TierOk;
  }

  /** A limit that is not positive is the default, and the entries past a limit are dropped from the end. */
  lemma LimitsMean(s: C.State, maxPositive: int, maxNegative: int)
    requires C.Wf(s)
    ensures var t := C.Apply(s, C.SetLimits(maxPositive, maxNegative));
            && t.maxPos == (if maxPositive > 0 then maxPositive else 8192)
            && t.maxNeg == (if maxNegative > 0 then maxNegative else 4096)
            && t.pos == (if |s.pos| > t.maxPos then s.pos[..t.maxPos] else s.pos)
            && t.neg == (if |s.neg| > t.maxNeg then s.neg[..t.maxNeg] else s.neg)
    ensures var t := C.New(maxPositive, maxNegative);
            && t.maxPos == (if maxPositive > 0 then maxPositive else 8192)
            && t.maxNeg == (if maxNegative > 0 then maxNegative else 4096)
  {
  }

  /** An entry is found exactly if one of the lists has it. */
  lemma FoundMeans(s: C.State, key: string, e: C.Entry)
    requires C.Wf(s)
    ensures C.Found(s, key) == Some(e) <==> C.Cached(key, e) in s.pos || C.Cached(key, e) in s.neg
  {
    PlaceOf(s.pos, key);
    PlaceOf(s.neg, key);
    if C.Cached(key, e) in s.pos {
      var i :| 0 <= i < |s.pos| && s.pos[i] == C.Cached(key, e);
      assert At(s.pos, key, i);
    }
    if C.Cached(key, e) in s.neg {
      var i :| 0 <= i < |s.neg| && s.neg[i] == C.Cached(key, e);
      assert At(s.neg, key, i) && Absent(s.pos, key);
    }
    hide C.Position, Absent;
  }
}

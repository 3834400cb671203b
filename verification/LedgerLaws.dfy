/** What the ledger's memory holds after a window and what is told from it, said of the rows and the lines. */
module LedgerLaws {
  import opened Model
  import opened Sets
  import L = Ledger

  // ----- what a row holds -----

  /** The lines of the window that fall on this row: same family, same canonical text. */
  function Falling(canon: Canon, systemId: string, ts: seq<Template>, k: L.TemplateKey): set<int> {
    set i | 0 <= i < |ts| && systemId == k.systemId && ModuleFamily(ts[i].moduleId) == k.family
            && canon(k.family, ts[i].text) == k.key
  }

  function Dated(time: int, now: int): int { if time == 0 then now else time }

  /** How many messages those lines stand for. */
  function Messages(canon: Canon, systemId: string, ts: seq<Template>, k: L.TemplateKey): int {
    if ts == [] then 0
    else
      var init, n := ts[..|ts| - 1], |ts| - 1;
      Messages(canon, systemId, init, k) + (if n in Falling(canon, systemId, ts, k) then ts[n].count else 0)
  }

  lemma FallingGrow(canon: Canon, systemId: string, ts: seq<Template>, k: L.TemplateKey)
    requires ts != []
    ensures var init, n := ts[..|ts| - 1], |ts| - 1;
            && Falling(canon, systemId, ts, k)
               == Falling(canon, systemId, init, k) + (if L.RowKey(canon, systemId, ts[n]) == k then {n} else {})
            && n !in Falling(canon, systemId, init, k)
  {
  }

  /** A row is there if it was before or a line falls on it; without such a line it stays as it was. */
  lemma {:induction false} RowsMean(canon: Canon, old_: L.Templates, systemId: string, ts: seq<Template>, now: int,
                                    k: L.TemplateKey)
    ensures var new_, lines := L.UpsertedAll(canon, old_, systemId, ts, now), Falling(canon, systemId, ts, k);
            && (k in new_ <==> k in old_ || lines != {})
            && (lines == {} ==> Messages(canon, systemId, ts, k) == 0 && (k in old_ ==> new_[k] == old_[k]))
            && (k in new_ ==>
                  new_[k].total == (if k in old_ then old_[k].total else 0) + Messages(canon, systemId, ts, k))
  {
    if ts != [] {
      RowsMean(canon, old_, systemId, ts[..|ts| - 1], now, k);
      FallingGrow(canon, systemId, ts, k);
      hide Falling, L.RowKey;
    }
  }

  /** The wording, priority and category are those of the last line. */
  lemma {:induction false} WordingMeans(canon: Canon, old_: L.Templates, systemId: string, ts: seq<Template>, now: int,
                                        k: L.TemplateKey, i: int)
    requires var lines := Falling(canon, systemId, ts, k); i in lines && forall j :: j in lines ==> j <= i
    ensures var new_ := L.UpsertedAll(canon, old_, systemId, ts, now);
            && k in new_ && new_[k].text == ts[i].text && new_[k].priority == ts[i].priority
            && new_[k].category == ts[i].category
  {
    var init, n := ts[..|ts| - 1], |ts| - 1;
    FallingGrow(canon, systemId, ts, k);
    if i < n {
      WordingMeans(canon, old_, systemId, init, now, k, i);
      assert n !in Falling(canon, systemId, ts, k);
    }
    hide Falling, L.RowKey;
  }

  /** The first sighting is the one there was, or else the first line's. */
  lemma {:induction false} FirstSeenMeans(canon: Canon, old_: L.Templates, systemId: string, ts: seq<Template>,
                                          now: int, k: L.TemplateKey, i: int)
    requires var lines := Falling(canon, systemId, ts, k); i in lines && forall j :: j in lines ==> i <= j
    ensures var new_ := L.UpsertedAll(canon, old_, systemId, ts, now);
            k in new_ && new_[k].firstSeen == if k in old_ then old_[k].firstSeen else Dated(ts[i].firstSeen, now)
  {
    var init, n := ts[..|ts| - 1], |ts| - 1;
    FallingGrow(canon, systemId, ts, k);
    RowsMean(canon, old_, systemId, init, now, k);
    if i < n {
      assert i in Falling(canon, systemId, init, k);
      FirstSeenMeans(canon, old_, systemId, init, now, k, i);
    } else {
      assert Falling(canon, systemId, init, k) == {};
    }
    hide Falling, L.RowKey;
  }

  /** The last sighting is the latest there is, of the row's own and of the lines'. */
  lemma {:induction false} LastSeenMeans(canon: Canon, old_: L.Templates, systemId: string, ts: seq<Template>, now: int,
                                         k: L.TemplateKey)
    requires k in L.UpsertedAll(canon, old_, systemId, ts, now)
    ensures var lines := Falling(canon, systemId, ts, k);
            var last := L.UpsertedAll(canon, old_, systemId, ts, now)[k].lastSeen;
            && (k in old_ ==> old_[k].lastSeen <= last)
            && (forall i :: i in lines ==> Dated(ts[i].lastSeen, now) <= last)
            && ((k in old_ && last == old_[k].lastSeen) || exists i :: i in lines && last == Dated(ts[i].lastSeen, now))
  {
    if ts != [] {
      var init, n := ts[..|ts| - 1], |ts| - 1;
      FallingGrow(canon, systemId, ts, k);
      RowsMean(canon, old_, systemId, init, now, k);
      if k in L.UpsertedAll(canon, old_, systemId, init, now) { LastSeenMeans(canon, old_, systemId, init, now, k); }
      assert forall i :: i in Falling(canon, systemId, init, k) ==> 0 <= i < n && init[i] == ts[i];
      hide Falling, L.RowKey;
    }
  }

  // ----- what is told of them -----

  /** A row of the system that answers to the key: its family, a NUL, and its text canonicalized once more. */
  predicate Answers(canon: Canon, systemId: string, k: L.TemplateKey, key: string) {
    k.systemId == systemId && key == ModuleFamily(k.family) + ['\0'] + canon(ModuleFamily(k.family), k.key)
  }

  /** A key is known since n if a row that answers to it was last seen then, after the epoch, and none was later. */
  lemma KnownMeans(canon: Canon, templates: L.Templates, systemId: string, key: string)
    ensures var known := L.Known(canon, templates, systemId);
            && (key in known <==>
                  exists k :: k in templates && Answers(canon, systemId, k, key) && templates[k].lastSeen > 0)
            && (key in known ==>
                  && (exists k :: k in templates && Answers(canon, systemId, k, key)
                                  && templates[k].lastSeen == known[key])
                  && (forall k :: k in templates && Answers(canon, systemId, k, key)
                                  ==> templates[k].lastSeen <= known[key]))
  {
    var known := L.Known(canon, templates, systemId);
    L.KnownIsGreatest(canon, templates, systemId, key);
    forall k ensures L.KnownKey(canon, k) == key && k.systemId == systemId <==> Answers(canon, systemId, k, key) {}
    if key in known {
      var k :| k in templates && L.Tells(canon, templates, systemId, k, key) && templates[k].lastSeen == known[key];
      assert Answers(canon, systemId, k, key);
    }
    forall k | k in templates && Answers(canon, systemId, k, key) && templates[k].lastSeen > 0
      ensures key in known && templates[k].lastSeen <= known[key]
    {
      assert L.Tells(canon, templates, systemId, k, key);
      assert templates[k].lastSeen in L.Times(canon, templates, systemId, key);
    }
    hide L.Known, L.Times, L.KnownKey, Answers;
  }
}

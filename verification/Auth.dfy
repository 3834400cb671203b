/** Forward authentication: a credential is checked upstream, and definitive answers are replayed from
    the cache, stale ones included when the upstream cannot be reached. */
module Auth {
  import opened Model
  import Cache

  // ----- credentials -----

  const COLON: char := ':'
  const BASIC := "Basic "

  datatype Credential = Credential(service: string, systemId: string, secret: string)

  datatype Malformed = NoHeader | NoDelimiter | NotBasic | BadBase64 | NoColon

  datatype Parsed = Parsed(systemId: string, secret: string) | Refused(why: Malformed)

  /** ParseBasic, over whatever base64 decoding does. */
  function ParseBasic(header: string, decode: string -> Option<string>): (r: Parsed)
    ensures r.Parsed? ==> COLON !in r.systemId && BASIC <= header
                          && decode(header[|BASIC|..]) == Some(r.systemId + [COLON] + r.secret)
  {
    if header == "" then Refused(NoHeader)
    else if !(BASIC <= header) then Refused(if ' ' !in header then NoDelimiter else NotBasic)
    else
      match decode(header[|BASIC|..])
      case None => Refused(BadBase64)
      case Some(text) =>
        match Cut(text, COLON)
        case None => Refused(NoColon)
        case Some(p) => Parsed(p.0, p.1)
  }

  /** Every credential whose system id has no colon is read back from its own header. */
  lemma ParseRoundTrip(systemId: string, secret: string, encode: string -> string, decode: string -> Option<string>)
    requires COLON !in systemId
    requires forall x :: decode(encode(x)) == Some(x)
    ensures ParseBasic(BASIC + encode(systemId + [COLON] + secret), decode) == Parsed(systemId, secret)
  {
    var header := BASIC + encode(systemId + [COLON] + secret);
    assert header[|BASIC|..] == encode(systemId + [COLON] + secret);
    CutOfJoin(systemId, secret, COLON);
  }

  // ----- the cache key -----

  /** What is hashed into the cache key; the keyed hash is taken as injective on it. */
  function PreImage(c: Credential): string {
    c.service + [NUL] + c.systemId + [COLON] + c.secret
  }

  /** A service name has no NUL, and a parsed system id no colon. */
  predicate Clean(c: Credential) { NUL !in c.service && COLON !in c.systemId }

  lemma PreImageInjective(a: Credential, b: Credential)
    requires Clean(a) && Clean(b) && PreImage(a) == PreImage(b)
    ensures a == b
  {
    var x, y := a.systemId + [COLON] + a.secret, b.systemId + [COLON] + b.secret;
    assert PreImage(a) == a.service + [NUL] + x && PreImage(b) == b.service + [NUL] + y;
    CutOfJoin(a.service, x, NUL);
    CutOfJoin(b.service, y, NUL);
    CutOfJoin(a.systemId, a.secret, COLON);
    CutOfJoin(b.systemId, b.secret, COLON);
  }

  /** Were a service name allowed a NUL, two different checks would share a key. */
  lemma NulInServiceCollides(x: string, y: string, systemId: string, secret: string)
    ensures var a := Credential(x + [NUL] + y, systemId, secret);
            var b := Credential(x, y + [NUL] + systemId, secret);
            a != b && PreImage(a) == PreImage(b)
  {
    assert |x + [NUL] + y| > |x|;
    var a, b := Credential(x + [NUL] + y, systemId, secret), Credential(x, y + [NUL] + systemId, secret);
    assert PreImage(a) == x + [NUL] + y + [NUL] + systemId + [COLON] + secret;
    assert PreImage(b) == x + [NUL] + y + [NUL] + systemId + [COLON] + secret;
  }

  // ----- verdicts -----

  /** What the upstream says: three definitive answers, or none. */
  datatype Answer = Valid | Invalid | Forbidden | Unavailable

  datatype Verdict = Accept(systemId: string) | InvalidCredentials | NotEntitled | ValidatorUnavailable

  /** The status of the upstream's response, if there was one. Anything unexpected is no verdict on the credential. */
  function AnswerOf(status: Option<int>): Answer {
    if status == Some(200) then Valid
    else if status == Some(401) then Invalid
    else if status == Some(403) then Forbidden
    else Unavailable
  }

  function VerdictOf(a: Answer, systemId: string): Verdict {
    match a
    case Valid => Accept(systemId)
    case Invalid => InvalidCredentials
    case Forbidden => NotEntitled
    case Unavailable => ValidatorUnavailable
  }

  function OutcomeFromEntry(e: Cache.Entry): Verdict {
    if e.ok then Accept(e.systemId) else if e.forbidden then NotEntitled else InvalidCredentials
  }

  /** The verdict that goes with an upstream status, whichever way it was reached. */
  predicate Follows(v: Verdict, status: Option<int>, systemId: string) {
    && (v.Accept? <==> status == Some(200)) && (v.Accept? ==> v.systemId == systemId)
    && (v.InvalidCredentials? <==> status == Some(401))
    && (v.NotEntitled? <==> status == Some(403))
    && (v.ValidatorUnavailable? <==> status != Some(200) && status != Some(401) && status != Some(403))
  }

  lemma VerdictFollows(status: Option<int>, systemId: string)
    ensures Follows(VerdictOf(AnswerOf(status), systemId), status, systemId)
  {
  }

  lemma Unanswered(status: Option<int>, systemId: string)
    requires AnswerOf(status).Unavailable?
    ensures Follows(ValidatorUnavailable, status, systemId)
  {
  }

  // ----- history -----

  /** A definitive status, and until when it is fresh. */
  datatype Recorded = Recorded(c: Credential, status: int, until: int)

  /** The last definitive answer recorded for exactly this service, system id and secret. */
  function Latest(answers: seq<Recorded>, c: Credential): Option<Recorded> {
    if answers == [] then None
    else if answers[|answers| - 1].c == c then Some(answers[|answers| - 1])
    else Latest(answers[..|answers| - 1], c)
  }

  ghost predicate Matches(stored: Option<Cache.Entry>, answer: Option<Recorded>, systemId: string) {
    match (stored, answer)
    case (None, None) => true
    case (Some(e), Some(r)) => Follows(OutcomeFromEntry(e), Some(r.status), systemId) && e.expiresAt == r.until
    case _ => false
  }

  /** The cache's history and the answers' history tell the same story about every clean credential. */
  ghost predicate Linked(ops: seq<Cache.Op>, answers: seq<Recorded>) {
    forall c :: Clean(c) ==> Matches(Cache.LatestStore(ops, PreImage(c)), Latest(answers, c), c.systemId)
  }

  lemma LinkedOtherOp(ops: seq<Cache.Op>, answers: seq<Recorded>, op: Cache.Op)
    requires Linked(ops, answers) && !op.Store?
    ensures Linked(ops + [op], answers)
  {
    assert (ops + [op])[..|ops|] == ops;
  }

  lemma LinkedRecord(ops: seq<Cache.Op>, answers: seq<Recorded>, r: Recorded, e: Cache.Entry)
    requires Linked(ops, answers) && Clean(r.c)
    requires Follows(OutcomeFromEntry(e), Some(r.status), r.c.systemId) && e.expiresAt == r.until
    ensures Linked(ops + [Cache.Store(PreImage(r.c), e)], answers + [r])
  {
    var ops', answers' := ops + [Cache.Store(PreImage(r.c), e)], answers + [r];
    assert ops'[..|ops|] == ops && answers'[..|answers|] == answers;
    forall d | Clean(d) ensures Matches(Cache.LatestStore(ops', PreImage(d)), Latest(answers', d), d.systemId) {
      if PreImage(d) == PreImage(r.c) { PreImageInjective(r.c, d); }
    }
  }

  /** Whatever the cache holds in its positive tier was last answered 200. */
  lemma PositivesWereAccepted(start: Cache.State, ops: seq<Cache.Op>, answers: seq<Recorded>, c: Credential)
    requires Cache.Wf(start) && start.pos == [] && start.neg == [] && Linked(ops, answers) && Clean(c)
    requires Cache.Has(Cache.Run(start, ops).pos, PreImage(c))
    ensures Latest(answers, c).Some? && Latest(answers, c).value.status == 200
  {
    var s, key := Cache.Run(start, ops), PreImage(c);
    Cache.RunKeepsWf(start, ops);
    Cache.FoundIsLatest(start, ops, key);
    Cache.PositiveIsOk(s, key);
    assert Matches(Cache.LatestStore(ops, key), Latest(answers, c), c.systemId);
  }

  class ForwardAuth {
    var positiveTtl: int
    var negativeTtl: int
    var maxPositiveEntries: int
    var maxNegativeEntries: int
    const cache: Cache.VerdictCache
    ghost var answers: seq<Recorded>

    ghost predicate Valid()
      reads this, cache, cache.pos, cache.neg, cache.pos.ll, cache.neg.ll
    {
      && cache.Valid()
      && Linked(cache.ops, answers)
    }

    constructor ()
      ensures Valid() && answers == [] && positiveTtl == 300_000 && negativeTtl == 30_000
      ensures maxPositiveEntries == 8192 && maxNegativeEntries == 4096
      ensures fresh(cache) && fresh(cache.pos) && fresh(cache.neg)
    {
      positiveTtl, negativeTtl := 300_000, 30_000;
      maxPositiveEntries, maxNegativeEntries := Cache.DEFAULT_MAX_POSITIVE_ENTRIES, Cache.DEFAULT_MAX_NEGATIVE_ENTRIES;
      cache := new Cache.VerdictCache(0, 0);
      answers := [];
    }

    /** Reading the cache, at any moment and after any interleaving of other calls, can only replay the
        latest answer recorded for this very credential. */
    method Lookup(c: Credential, now: int) returns (e: Cache.Entry, isFresh: bool, found: bool)
      requires Valid() && Clean(c)
      modifies cache, cache.pos, cache.neg
      ensures Valid() && answers == old(answers)
      ensures Cache.Found(old(cache.Current()), PreImage(c)) == if found then Some(e) else None
      ensures isFresh == (found && now < e.expiresAt)
      ensures found ==> Latest(answers, c).Some?
                        && Follows(OutcomeFromEntry(e), Some(Latest(answers, c).value.status), c.systemId)
                        && e.expiresAt == Latest(answers, c).value.until
      ensures Cache.Found(cache.Current(), PreImage(c)) == Cache.Found(old(cache.Current()), PreImage(c))
      ensures forall n :: n in cache.pos.ll ==> n in old(cache.pos.ll)
      ensures forall n :: n in cache.neg.ll ==> n in old(cache.neg.ll)
    {
      ghost var before := cache.ops;
      Cache.FoundIsLatest(cache.start, before, PreImage(c));
      Cache.RunKeepsWf(cache.start, before);
      Cache.StepFound(cache.Current(), Cache.Lookup(PreImage(c)), PreImage(c));
      e, isFresh, found := cache.Get(PreImage(c), now);
      LinkedOtherOp(before, answers, Cache.Lookup(PreImage(c)));
      assert Matches(Cache.LatestStore(before, PreImage(c)), Latest(answers, c), c.systemId);
    }

    /** Recording one definitive answer: 200 on the positive tier's time, 401 and 403 on the negative one's. */
    method Record(c: Credential, status: int, now: int)
      requires Valid() && Clean(c) && !AnswerOf(Some(status)).Unavailable?
      modifies this`answers, cache, cache.pos, cache.neg, cache.pos.ll, cache.neg.ll
      ensures Valid()
      ensures answers == old(answers) + [Recorded(c, status, now + if status == 200 then positiveTtl else negativeTtl)]
      ensures Cache.Found(cache.Current(), PreImage(c)).Some?
    {
      hide Cache.Apply, Cache.Found, Cache.Wf, Linked;
      var e := match AnswerOf(Some(status))
        case Valid => Cache.Entry(true, false, c.systemId, now + positiveTtl)
        case Invalid => Cache.Entry(false, false, "", now + negativeTtl)
        case _ => Cache.Entry(false, true, "", now + negativeTtl);
      ghost var ops0, r := cache.ops, Recorded(c, status, e.expiresAt);
      Cache.RunKeepsWf(cache.start, ops0);
      Cache.StepFound(cache.Current(), Cache.Store(PreImage(c), e), PreImage(c));
      cache.Set(PreImage(c), e);
      LinkedRecord(ops0, answers, r, e);
      answers := answers + [r];
    }

    /** The result of one check of c, given what the cache held for it. */
    twostate predicate Checked(c: Credential, hit: Option<Cache.Entry>, status: Option<int>, now: int, later: int,
                               v: Verdict, fromCache: bool)
      reads this
    {
      var definitive := status == Some(200) || status == Some(401) || status == Some(403);
      && (fromCache <==> hit.Some? && (now < hit.value.expiresAt || !definitive))
      && (fromCache ==> answers == old(answers) && Latest(answers, c).Some?
                        && hit.value.expiresAt == Latest(answers, c).value.until
                        && Follows(v, Some(Latest(answers, c).value.status), c.systemId))
      && (!fromCache ==> Follows(v, status, c.systemId))
      && (!fromCache && !definitive ==> answers == old(answers))
      && (!fromCache && definitive ==>
            answers == old(answers) + [Recorded(c, status.value, later + if status.value == 200 then positiveTtl
                                                                         else negativeTtl)])
    }

    /** A fresh entry answers without the upstream; a definitive answer is recorded and returned; with
        no answer a stale entry is replayed, and only without one is the validator unavailable. */
    method Check(c: Credential, status: Option<int>, now: int, later: int) returns (v: Verdict, fromCache: bool)
      requires Valid() && Clean(c)
      modifies this`answers, cache, cache.pos, cache.neg, cache.pos.ll, cache.neg.ll
      ensures Valid()
      ensures Checked(c, Cache.Found(old(cache.Current()), PreImage(c)), status, now, later, v, fromCache)
    {
      VerdictFollows(status, c.systemId);
      hide Cache.Found, Cache.Wf, Cache.Run, Cache.Apply, Linked, Follows, VerdictOf, OutcomeFromEntry, PreImage;
      hide Latest, Clean;
      var e, isFresh, found := Lookup(c, now);
      if found && isFresh {
        return OutcomeFromEntry(e), true;
      }
      var upstream := AnswerOf(status);
      if upstream.Unavailable? {
        e, isFresh, found := Lookup(c, later);
        if found { return OutcomeFromEntry(e), true; }
        Unanswered(status, c.systemId);
        return ValidatorUnavailable, false;
      }
      Record(c, status.value, later);
      return VerdictOf(upstream, c.systemId), false;
    }

    /** status is what the upstream would answer this request, now when it arrives and later when that is known. */
    method Validate(header: string, service: string, decode: string -> Option<string>, status: Option<int>,
                    now: int, later: int)
      returns (v: Verdict, fromCache: bool)
      requires Valid() && NUL !in service
      modifies this`answers, cache, cache.pos, cache.neg, cache.pos.ll, cache.neg.ll
      ensures Valid()
      ensures match ParseBasic(header, decode)
              case Refused(_) => v == InvalidCredentials && !fromCache && answers == old(answers)
              case Parsed(systemId, secret) =>
                var c := Credential(service, systemId, secret);
                var limits := Cache.SetLimits(maxPositiveEntries, maxNegativeEntries);
                Checked(c, Cache.Found(Cache.Apply(old(cache.Current()), limits), PreImage(c)), status, now, later, v,
                        fromCache)
    {
      hide Cache.Apply, Cache.Found, Cache.Wf, Linked;
      match ParseBasic(header, decode)
      case Refused(_) => return InvalidCredentials, false;
      case Parsed(systemId, secret) =>
        LinkedOtherOp(cache.ops, answers, Cache.SetLimits(maxPositiveEntries, maxNegativeEntries));
        cache.SetLimits(maxPositiveEntries, maxNegativeEntries);
        v, fromCache := Check(Credential(service, systemId, secret), status, now, later);
    }

    /** Only credentials last answered 200 sit in the positive tier. */
    lemma PositiveTierIsAccepted(c: Credential)
      requires Valid() && Clean(c) && Cache.Has(cache.Current().pos, PreImage(c))
      ensures Latest(answers, c).Some? && Latest(answers, c).value.status == 200
    {
      PositivesWereAccepted(cache.start, cache.ops, answers, c);
    }
  }
}

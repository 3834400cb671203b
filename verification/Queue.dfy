/** The bundle queue: publishers and workers interleaving around a mutex-guarded in-flight set and a
    bounded channel. */
module Queue {
  import opened Model

  datatype Window = Window(systemId: string, start: int)

  function WindowOf(b: Bundle): Window { Window(b.systemId, b.start) }

  /** What one goroutine is in the middle of. A publisher is Idle, Claimed or Refused; a worker is Idle,
      Handling or Exited. */
  datatype Task = Idle | Claimed(b: Bundle) | Refused(b: Bundle) | Handling(b: Bundle) | Exited

  /** sent and done are history: what entered the channel, and what was fully handled. */
  datatype State = State(capacity: nat, inflight: set<Window>, buffer: seq<Bundle>, closed: bool,
                         publishers: seq<Task>, workers: seq<Task>, sent: seq<Bundle>, done: seq<Bundle>)

  function AtLeastOne(n: int): nat { if n < 1 then 1 else n }

  function New(capacity: int, publishers: nat, workers: int): State {
    State(AtLeastOne(capacity), {}, [], false, seq(publishers, _ => Idle), seq(AtLeastOne(workers), _ => Idle), [], [])
  }

  // ----- atomic steps -----

  datatype Event =
    | Claim(p: nat, b: Bundle)  // Publish's first critical section
    | Send(p: nat)              // the non-blocking send
    | GiveUp(p: nat)            // release after a full channel; Publish answers ErrFull
    | Receive(k: nat)
    | Finish(k: nat)            // the deferred release, after the handler returned
    | Close
    | Exit(k: nat)              // the worker's range loop ends

  /** No Publish starts, or is between its claim and its send, once the queue is closed. */
  predicate Enabled(s: State, e: Event) {
    match e
    case Claim(p, _) => p < |s.publishers| && s.publishers[p].Idle? && !s.closed
    case Send(p) => p < |s.publishers| && s.publishers[p].Claimed?
    case GiveUp(p) => p < |s.publishers| && s.publishers[p].Refused?
    case Receive(k) => k < |s.workers| && s.workers[k].Idle? && s.buffer != []
    case Finish(k) => k < |s.workers| && s.workers[k].Handling?
    case Close => !s.closed && forall p :: 0 <= p < |s.publishers| ==> !s.publishers[p].Claimed?
    case Exit(k) => k < |s.workers| && s.workers[k].Idle? && s.closed && s.buffer == []
  }

  function Apply(s: State, e: Event): State
    requires Enabled(s, e)
  {
    match e
    case Claim(p, b) =>
      if WindowOf(b) in s.inflight then s
      else s.(inflight := s.inflight + {WindowOf(b)}, publishers := s.publishers[p := Claimed(b)])
    case Send(p) =>
      var b := s.publishers[p].b;
      if |s.buffer| < s.capacity
      then s.(buffer := s.buffer + [b], sent := s.sent + [b], publishers := s.publishers[p := Idle])
      else s.(publishers := s.publishers[p := Refused(b)])
    case GiveUp(p) =>
      s.(inflight := s.inflight - {WindowOf(s.publishers[p].b)}, publishers := s.publishers[p := Idle])
    case Receive(k) => s.(buffer := s.buffer[1..], workers := s.workers[k := Handling(s.buffer[0])])
    case Finish(k) =>
      var b := s.workers[k].b;
      s.(inflight := s.inflight - {WindowOf(b)}, workers := s.workers[k := Idle], done := s.done + [b])
    case Close => s.(closed := true)
    case Exit(k) => s.(workers := s.workers[k := Exited])
  }

  ghost predicate IsRun(s: State, es: seq<Event>)
    decreases |es|, 0
  {
    es == [] || (IsRun(s, es[..|es| - 1]) && Enabled(Run(s, es[..|es| - 1]), es[|es| - 1]))
  }

  ghost function Run(s: State, es: seq<Event>): State
    requires IsRun(s, es)
    decreases |es|, 1
  {
    if es == [] then s else Apply(Run(s, es[..|es| - 1]), es[|es| - 1])
  }

  // ----- who holds which window -----

  predicate Holds(t: Task, w: Window) {
    match t
    case Claimed(b) => WindowOf(b) == w
    case Refused(b) => WindowOf(b) == w
    case Handling(b) => WindowOf(b) == w
    case _ => false
  }

  function One(c: bool): nat { if c then 1 else 0 }

  /** How many of the tasks hold w. */
  function Held(ts: seq<Task>, w: Window): nat {
    if ts == [] then 0 else One(Holds(ts[0], w)) + Held(ts[1..], w)
  }

  /** How many buffered bundles are for w. */
  function Buffered(bs: seq<Bundle>, w: Window): nat {
    if bs == [] then 0 else One(WindowOf(bs[0]) == w) + Buffered(bs[1..], w)
  }

  /** How many workers are handling b. */
  function Handled(ts: seq<Task>, b: Bundle): nat {
    if ts == [] then 0 else One(ts[0] == Handling(b)) + Handled(ts[1..], b)
  }

  /** The in-flight set is the disjoint union of the windows claimed (sent or refused not yet settled),
      buffered, and being handled: each has exactly one holder, and no other window has any. */
  ghost predicate AccountedAt(s: State, w: Window) {
    Held(s.publishers, w) + Buffered(s.buffer, w) + Held(s.workers, w) == One(w in s.inflight)
  }

  ghost predicate Accounted(s: State) {
    forall w :: AccountedAt(s, w)
  }

  /** Which tasks are in which of the program's places. */
  ghost predicate Shaped(s: State) {
    && |s.buffer| <= s.capacity && s.capacity >= 1
    && (forall p :: 0 <= p < |s.publishers| ==> !s.publishers[p].Handling? && !s.publishers[p].Exited?)
    && (forall k :: 0 <= k < |s.workers| ==> !s.workers[k].Claimed? && !s.workers[k].Refused?)
    && (forall k :: 0 <= k < |s.workers| && s.workers[k].Exited? ==> s.closed && s.buffer == [])
    && (s.closed ==> forall p :: 0 <= p < |s.publishers| ==> !s.publishers[p].Claimed?)
  }

  /** The buffer is the end of what was sent. */
  ghost predicate Tailed(s: State) {
    |s.buffer| <= |s.sent| && s.sent[|s.sent| - |s.buffer|..] == s.buffer
  }

  ghost predicate TracedAt(s: State, b: Bundle)
    requires |s.buffer| <= |s.sent|
  {
    multiset(s.sent[..|s.sent| - |s.buffer|])[b] == multiset(s.done)[b] + Handled(s.workers, b)
  }

  /** The buffer is what was sent last, and everything sent before it was handled or is being handled. */
  ghost predicate Traced(s: State) {
    && Tailed(s)
    && forall b :: TracedAt(s, b)
  }

  ghost predicate Inv(s: State) { Accounted(s) && Shaped(s) && Traced(s) }

  lemma {:induction false} HeldUpdate(ts: seq<Task>, i: nat, t: Task, w: Window)
    requires i < |ts|
    ensures Held(ts[i := t], w) + One(Holds(ts[i], w)) == Held(ts, w) + One(Holds(t, w))
  {
    var us := ts[i := t];
    if i == 0 {
      assert us[1..] == ts[1..];
    } else {
      HeldUpdate(ts[1..], i - 1, t, w);
      assert us[1..] == ts[1..][i - 1 := t];
    }
  }

  lemma {:induction false} HandledUpdate(ts: seq<Task>, i: nat, t: Task, b: Bundle)
    requires i < |ts|
    ensures Handled(ts[i := t], b) + One(ts[i] == Handling(b)) == Handled(ts, b) + One(t == Handling(b))
  {
    var us := ts[i := t];
    if i == 0 {
      assert us[1..] == ts[1..];
    } else {
      HandledUpdate(ts[1..], i - 1, t, b);
      assert us[1..] == ts[1..][i - 1 := t];
    }
  }

  lemma {:induction false} BufferedAppend(bs: seq<Bundle>, b: Bundle, w: Window)
    ensures Buffered(bs + [b], w) == Buffered(bs, w) + One(WindowOf(b) == w)
  {
    if bs == [] {
      assert bs + [b] == [b] && [b][1..] == [];
    } else {
      BufferedAppend(bs[1..], b, w);
      assert (bs + [b])[1..] == bs[1..] + [b];
    }
  }

  lemma {:induction false} HeldContains(ts: seq<Task>, i: nat, w: Window)
    requires i < |ts| && Holds(ts[i], w)
    ensures Held(ts, w) >= 1
  {
    if i > 0 { HeldContains(ts[1..], i - 1, w); }
  }

  lemma {:induction false} HeldTwice(ts: seq<Task>, i: nat, j: nat, w: Window)
    requires i < j < |ts| && Holds(ts[i], w) && Holds(ts[j], w)
    ensures Held(ts, w) >= 2
  {
    if i == 0 { HeldContains(ts[1..], j - 1, w); } else { HeldTwice(ts[1..], i - 1, j - 1, w); }
  }

  lemma {:induction false} BufferedContains(bs: seq<Bundle>, i: nat)
    requires i < |bs|
    ensures Buffered(bs, WindowOf(bs[i])) >= 1
  {
    if i > 0 { BufferedContains(bs[1..], i - 1); }
  }

  lemma {:induction false} BufferedTwice(bs: seq<Bundle>, i: nat, j: nat)
    requires i < j < |bs| && WindowOf(bs[i]) == WindowOf(bs[j])
    ensures Buffered(bs, WindowOf(bs[i])) >= 2
  {
    if i == 0 {
      BufferedContains(bs[1..], j - 1);
    } else {
      BufferedTwice(bs[1..], i - 1, j - 1);
    }
  }

  lemma {:induction false} IdleHoldNothing(ts: seq<Task>, w: Window)
    requires forall i :: 0 <= i < |ts| ==> ts[i].Idle? || ts[i].Exited?
    ensures Held(ts, w) == 0
  {
    if ts != [] { IdleHoldNothing(ts[1..], w); }
  }

  lemma {:induction false} IdleHandleNothing(ts: seq<Task>, b: Bundle)
    requires forall i :: 0 <= i < |ts| ==> ts[i].Idle? || ts[i].Exited?
    ensures Handled(ts, b) == 0
  {
    if ts != [] { IdleHandleNothing(ts[1..], b); }
  }

  /** Nobody has done anything yet. */
  ghost predicate Fresh(s: State) {
    && s.inflight == {} && s.buffer == [] && !s.closed && s.sent == [] && s.done == [] && s.capacity >= 1
    && (forall p :: 0 <= p < |s.publishers| ==> s.publishers[p].Idle?)
    && (forall k :: 0 <= k < |s.workers| ==> s.workers[k].Idle?)
  }

  lemma FreshAccounts(s: State, w: Window)
    requires Fresh(s)
    ensures AccountedAt(s, w)
  {
    IdleHoldNothing(s.publishers, w);
    IdleHoldNothing(s.workers, w);
  }

  lemma FreshTraces(s: State, b: Bundle)
    requires Fresh(s)
    ensures TracedAt(s, b)
  {
    IdleHandleNothing(s.workers, b);
    assert s.sent[..0] == [];
  }

  lemma NewHoldsInv(capacity: int, publishers: nat, workers: int)
    ensures Inv(New(capacity, publishers, workers))
    ensures New(capacity, publishers, workers).capacity == if capacity >= 1 then capacity else 1
    ensures |New(capacity, publishers, workers).workers| == if workers >= 1 then workers else 1
  {
    var s := New(capacity, publishers, workers);
    assert Fresh(s) && s.sent[0..] == s.buffer;
    forall w ensures AccountedAt(s, w) { FreshAccounts(s, w); }
    forall b ensures TracedAt(s, b) { FreshTraces(s, b); }
    hide AccountedAt, TracedAt;
  }

  lemma StepKeepsAccounted(s: State, e: Event)
    requires Inv(s) && Enabled(s, e)
    ensures Accounted(Apply(s, e))
  {
    var s' := Apply(s, e);
    forall w ensures AccountedAt(s', w) {
      assert AccountedAt(s, w);
      StepAccounts(s, e, w);
    }
  }

  /** A step moves at most one holder of w, and changes the in-flight set to match. */
  lemma StepAccounts(s: State, e: Event, w: Window)
    requires AccountedAt(s, w) && Enabled(s, e)
    ensures AccountedAt(Apply(s, e), w)
  {
    match e
    case Claim(p, b) => HeldUpdate(s.publishers, p, Claimed(b), w);
    case Send(p) => SendAccounts(s, p, w);
    case GiveUp(p) => GiveUpAccounts(s, p, w);
    case Receive(k) => HeldUpdate(s.workers, k, Handling(s.buffer[0]), w);
    case Finish(k) => FinishAccounts(s, k, w);
    case Close =>
    case Exit(k) => HeldUpdate(s.workers, k, Exited, w);
  }

  lemma SendAccounts(s: State, p: nat, w: Window)
    requires AccountedAt(s, w) && Enabled(s, Send(p))
    ensures AccountedAt(Apply(s, Send(p)), w)
  {
    hide Held, Buffered;
    var b := s.publishers[p].b;
    HeldUpdate(s.publishers, p, Idle, w);
    HeldUpdate(s.publishers, p, Refused(b), w);
    BufferedAppend(s.buffer, b, w);
  }

  lemma GiveUpAccounts(s: State, p: nat, w: Window)
    requires AccountedAt(s, w) && Enabled(s, GiveUp(p))
    ensures AccountedAt(Apply(s, GiveUp(p)), w)
  {
    hide Held, Buffered;
    HeldUpdate(s.publishers, p, Idle, w);
    if Holds(s.publishers[p], w) { HeldContains(s.publishers, p, w); }
  }

  lemma FinishAccounts(s: State, k: nat, w: Window)
    requires AccountedAt(s, w) && Enabled(s, Finish(k))
    ensures AccountedAt(Apply(s, Finish(k)), w)
  {
    hide Held, Buffered;
    HeldUpdate(s.workers, k, Idle, w);
    if Holds(s.workers[k], w) { HeldContains(s.workers, k, w); }
  }

  lemma StepKeepsShaped(s: State, e: Event)
    requires Shaped(s) && Enabled(s, e)
    ensures Shaped(Apply(s, e))
  {
  }

  /** Taking the oldest buffered bundle, or adding one, leaves the buffer the end of what was sent. */
  lemma TailAfter(sent: seq<Bundle>, buffer: seq<Bundle>, b: Bundle)
    requires |buffer| <= |sent| && sent[|sent| - |buffer|..] == buffer
    ensures buffer != [] ==> sent[|sent| - |buffer[1..]|..] == buffer[1..]
    ensures (sent + [b])[|sent + [b]| - |buffer + [b]|..] == buffer + [b]
  {
    var n := |sent| - |buffer|;
    if buffer != [] { assert sent[n..][1..] == sent[n + 1..]; }
    assert (sent + [b])[n..] == sent[n..] + [b];
  }

  lemma StepKeepsTail(s: State, e: Event)
    requires Tailed(s) && Enabled(s, e)
    ensures Tailed(Apply(s, e))
  {
    if e.Receive? {
      ReceiveKeepsTail(s, e.k);
    } else if e.Send? {
      SendKeepsTail(s, e.p);
    } else {
      hide Tailed;
      var s' := Apply(s, e);
      assert s'.sent == s.sent && s'.buffer == s.buffer;
      SameTail(s, s');
    }
  }

  lemma SameTail(s: State, s': State)
    requires Tailed(s) && s'.sent == s.sent && s'.buffer == s.buffer
    ensures Tailed(s')
  {
  }

  lemma ReceiveKeepsTail(s: State, k: nat)
    requires Tailed(s) && Enabled(s, Receive(k))
    ensures Tailed(Apply(s, Receive(k)))
  {
    TailAfter(s.sent, s.buffer, s.buffer[0]);
  }

  lemma SendKeepsTail(s: State, p: nat)
    requires Tailed(s) && Enabled(s, Send(p))
    ensures Tailed(Apply(s, Send(p)))
  {
    TailAfter(s.sent, s.buffer, s.publishers[p].b);
  }

  lemma StepTraces(s: State, e: Event, b: Bundle)
    requires Tailed(s) && TracedAt(s, b) && Enabled(s, e) && Tailed(Apply(s, e))
    ensures TracedAt(Apply(s, e), b)
  {
    match e
    case Receive(k) => ReceiveTraces(s, k, b);
    case Finish(k) => HandledUpdate(s.workers, k, Idle, b);
    case Exit(k) => HandledUpdate(s.workers, k, Exited, b);
    case Send(p) => SendTraces(s, p, b);
    case _ =>
  }

  lemma StepKeepsTraced(s: State, e: Event)
    requires Traced(s) && Enabled(s, e)
    ensures Traced(Apply(s, e))
  {
    hide Handled, TracedAt, Apply, Enabled;
    StepKeepsTail(s, e);
    forall b ensures TracedAt(Apply(s, e), b) {
      assert TracedAt(s, b);
      StepTraces(s, e, b);
    }
  }

  lemma SendTraces(s: State, p: nat, b: Bundle)
    requires |s.buffer| <= |s.sent| && TracedAt(s, b) && Enabled(s, Send(p))
    ensures TracedAt(Apply(s, Send(p)), b)
  {
    var s' := Apply(s, Send(p));
    assert s'.sent[..|s'.sent| - |s'.buffer|] == s.sent[..|s.sent| - |s.buffer|];
  }

  lemma ReceiveTraces(s: State, k: nat, b: Bundle)
    requires Tailed(s) && Enabled(s, Receive(k))
    requires TracedAt(s, b)
    ensures TracedAt(Apply(s, Receive(k)), b)
  {
    hide Handled;
    var n := |s.sent| - |s.buffer|;
    assert s.sent[..n + 1] == s.sent[..n] + [s.buffer[0]];
    HandledUpdate(s.workers, k, Handling(s.buffer[0]), b);
  }

  lemma StepKeepsInv(s: State, e: Event)
    requires Inv(s) && Enabled(s, e)
    ensures Inv(Apply(s, e))
  {
    StepKeepsAccounted(s, e);
    StepKeepsShaped(s, e);
    StepKeepsTraced(s, e);
  }

  /** Every interleaving of publishers and workers, of any length, keeps the accounting. */
  lemma {:induction false} RunKeepsInv(s: State, es: seq<Event>)
    requires Inv(s) && IsRun(s, es)
    ensures Inv(Run(s, es))
  {
    if es != [] {
      RunKeepsInv(s, es[..|es| - 1]);
      StepKeepsInv(Run(s, es[..|es| - 1]), es[|es| - 1]);
    }
  }

  // ----- what the invariant gives -----

  /** In every interleaving no two workers handle one window, none is buffered while it is handled, and
      none is buffered twice. */
  lemma NeverTwice(s: State)
    requires Accounted(s)
    ensures forall i, j :: 0 <= i < j < |s.workers| && s.workers[i].Handling? && s.workers[j].Handling?
                           ==> WindowOf(s.workers[i].b) != WindowOf(s.workers[j].b)
    ensures forall i, j :: 0 <= i < |s.workers| && s.workers[i].Handling? && 0 <= j < |s.buffer|
                           ==> WindowOf(s.workers[i].b) != WindowOf(s.buffer[j])
    ensures forall i, j :: 0 <= i < j < |s.buffer| ==> WindowOf(s.buffer[i]) != WindowOf(s.buffer[j])
  {
    forall i, j | 0 <= i < j < |s.workers| && s.workers[i].Handling? && s.workers[j].Handling?
      ensures WindowOf(s.workers[i].b) != WindowOf(s.workers[j].b) {
      TwoWorkersTwoWindows(s, i, j);
    }
    forall i, j | 0 <= i < |s.workers| && s.workers[i].Handling? && 0 <= j < |s.buffer|
      ensures WindowOf(s.workers[i].b) != WindowOf(s.buffer[j]) {
      HandledNotBuffered(s, i, j);
    }
    forall i, j | 0 <= i < j < |s.buffer| ensures WindowOf(s.buffer[i]) != WindowOf(s.buffer[j]) {
      BufferedOnce(s, i, j);
    }
  }

  lemma TwoWorkersTwoWindows(s: State, i: nat, j: nat)
    requires Accounted(s) && i < j < |s.workers| && s.workers[i].Handling? && s.workers[j].Handling?
    ensures WindowOf(s.workers[i].b) != WindowOf(s.workers[j].b)
  {
    var w := WindowOf(s.workers[i].b);
    assert AccountedAt(s, w);
    if WindowOf(s.workers[j].b) == w { HeldTwice(s.workers, i, j, w); }
  }

  lemma HandledNotBuffered(s: State, i: nat, j: nat)
    requires Accounted(s) && i < |s.workers| && s.workers[i].Handling? && j < |s.buffer|
    ensures WindowOf(s.workers[i].b) != WindowOf(s.buffer[j])
  {
    var w := WindowOf(s.workers[i].b);
    assert AccountedAt(s, w);
    HeldContains(s.workers, i, w);
    BufferedContains(s.buffer, j);
  }

  lemma BufferedOnce(s: State, i: nat, j: nat)
    requires Accounted(s) && i < j < |s.buffer|
    ensures WindowOf(s.buffer[i]) != WindowOf(s.buffer[j])
  {
    var w := WindowOf(s.buffer[i]);
    assert AccountedAt(s, w);
    if WindowOf(s.buffer[j]) == w { BufferedTwice(s.buffer, i, j); }
  }

  /** Every bundle that entered the channel was handled, is being handled, or waits, each exactly once. */
  lemma EverySentBundleOnce(s: State, b: Bundle)
    requires Traced(s)
    ensures multiset(s.sent)[b] == multiset(s.done)[b] + Handled(s.workers, b) + multiset(s.buffer)[b]
  {
    var n := |s.sent| - |s.buffer|;
    assert TracedAt(s, b);
    assert s.sent == s.sent[..n] + s.sent[n..];
  }

  /** Once every worker has exited and no publisher is mid-call, nothing is buffered, nothing is in
      flight, and everything that entered the channel was handled exactly once. */
  lemma AfterStop(s: State)
    requires Inv(s) && |s.workers| > 0
    requires forall k :: 0 <= k < |s.workers| ==> s.workers[k].Exited?
    requires forall p :: 0 <= p < |s.publishers| ==> s.publishers[p].Idle?
    ensures s.buffer == [] && s.inflight == {} && multiset(s.done) == multiset(s.sent)
  {
    assert s.workers[0].Exited?;
    forall w ensures w !in s.inflight {
      assert AccountedAt(s, w);
      IdleHoldNothing(s.publishers, w);
      IdleHoldNothing(s.workers, w);
    }
    forall b: Bundle ensures multiset(s.sent)[b] == multiset(s.done)[b] {
      EverySentBundleOnce(s, b);
      IdleHandleNothing(s.workers, b);
    }
  }

  // ----- what a duplicate's success rests on -----

  /** Publisher p's own next step is not among es. */
  predicate Waits(es: seq<Event>, p: nat) { forall i :: 0 <= i < |es| ==> es[i] != Send(p) && es[i] != GiveUp(p) }

  predicate Between(t: Task) { t.Claimed? || t.Refused? }

  lemma OtherStep(s: State, e: Event, p: nat)
    requires Inv(s) && Enabled(s, e) && e != Send(p) && e != GiveUp(p)
    requires p < |s.publishers| && Between(s.publishers[p])
    ensures var s', w := Apply(s, e), WindowOf(s.publishers[p].b);
            && p < |s'.publishers| && s'.publishers[p] == s.publishers[p] && s'.capacity == s.capacity
            && Buffered(s'.sent, w) == Buffered(s.sent, w)
  {
    hide Held, Inv, Buffered;
    var w := WindowOf(s.publishers[p].b);
    if e.Send? {
      SoleHolder(s, p, e.p);
      BufferedAppend(s.sent, s.publishers[e.p].b, w);
    }
  }

  lemma SoleHolder(s: State, p: nat, q: nat)
    requires Inv(s) && p < |s.publishers| && q < |s.publishers| && p != q
    requires Between(s.publishers[p]) && Between(s.publishers[q])
    ensures WindowOf(s.publishers[p].b) != WindowOf(s.publishers[q].b)
  {
    hide Shaped, Traced;
    var w := WindowOf(s.publishers[p].b);
    assert AccountedAt(s, w);
    if WindowOf(s.publishers[q].b) == w {
      HeldTwice(s.publishers, if p < q then p else q, if p < q then q else p, w);
    }
  }

  /** While p waits it keeps its window to itself: whatever the others do, nothing is sent for it. */
  lemma {:induction false} HolderWaits(s: State, es: seq<Event>, p: nat)
    requires Inv(s) && IsRun(s, es) && Waits(es, p)
    requires p < |s.publishers| && Between(s.publishers[p])
    ensures var t, w := Run(s, es), WindowOf(s.publishers[p].b);
            && Inv(t) && p < |t.publishers| && t.publishers[p] == s.publishers[p] && t.capacity == s.capacity
            && Buffered(t.sent, w) == Buffered(s.sent, w) && Buffered(t.buffer, w) == 0 && w in t.inflight
  {
    var w := WindowOf(s.publishers[p].b);
    RunKeepsInv(s, es);
    if es != [] {
      assert Waits(es[..|es| - 1], p) && es[|es| - 1] != Send(p) && es[|es| - 1] != GiveUp(p);
      HolderWaits(s, es[..|es| - 1], p);
      OtherStep(Run(s, es[..|es| - 1]), es[|es| - 1], p);
    }
    HeldContains(Run(s, es).publishers, p, w);
    assert AccountedAt(Run(s, es), w);
  }

  /** Publisher q re-sends a window publisher p has claimed and not yet sent: q is answered success and nothing
      changes. Then anything may happen before p sends; the window q was told about is queued if and only if the
      channel has room at that moment. */
  lemma DuplicateRidesOnTheClaim(s: State, p: nat, q: nat, b: Bundle, es: seq<Event>)
    requires Inv(s) && !s.closed && p < |s.publishers| && q < |s.publishers|
    requires s.publishers[p].Claimed? && s.publishers[q].Idle? && WindowOf(s.publishers[p].b) == WindowOf(b)
    requires IsRun(s, es) && Waits(es, p)
    ensures Enabled(s, Claim(q, b)) && Apply(s, Claim(q, b)) == s
    ensures var t, w := Run(s, es), WindowOf(b);
            && Enabled(t, Send(p))
            && var u := Apply(t, Send(p)); var room := |t.buffer| < t.capacity;
               && u.sent == (if room then t.sent + [s.publishers[p].b] else t.sent)
               && Buffered(u.buffer, w) == One(room)
               && Buffered(u.sent, w) == Buffered(s.sent, w) + One(room)
               && (!room ==> Inv(u) && p < |u.publishers| && u.publishers[p] == Refused(s.publishers[p].b))
  {
    var t, w := Run(s, es), WindowOf(b);
    HeldContains(s.publishers, p, w);
    assert AccountedAt(s, w);
    HolderWaits(s, es, p);
    StepKeepsInv(t, Send(p));
    hide Inv, Buffered, Held;
    BufferedAppend(t.buffer, s.publishers[p].b, w);
    BufferedAppend(t.sent, s.publishers[p].b, w);
  }

  /** A refused publisher gives up, whatever happens first: then its window is neither queued nor in flight, and
      nothing was sent for it. */
  lemma RefusedLeavesNoTrace(s: State, p: nat, es: seq<Event>)
    requires Inv(s) && p < |s.publishers| && s.publishers[p].Refused?
    requires IsRun(s, es) && Waits(es, p)
    ensures var t, w := Run(s, es), WindowOf(s.publishers[p].b);
            && Enabled(t, GiveUp(p))
            && var u := Apply(t, GiveUp(p));
               w !in u.inflight && Buffered(u.buffer, w) == 0 && Buffered(u.sent, w) == Buffered(s.sent, w)
  {
    HolderWaits(s, es, p);
  }

  lemma RunMore(s: State, es: seq<Event>, e: Event)
    requires IsRun(s, es) && Enabled(Run(s, es), e)
    ensures IsRun(s, es + [e]) && Run(s, es + [e]) == Apply(Run(s, es), e)
  {
    assert (es + [e])[..|es|] == es;
  }

  /** Three publishers on a queue of one place. 0 fills it; 1 claims another window, whose duplicate 2 is answered
      success; 1 is refused. */
  function LostRun(b0: Bundle, b1: Bundle, b2: Bundle): seq<Event> {
    [Claim(0, b0), Send(0), Claim(1, b1), Claim(2, b2), Send(1), GiveUp(1), Receive(0), Finish(0)]
  }

  /** The queue after the first n steps of that run. */
  function LostState(b0: Bundle, b1: Bundle, n: nat): State {
    var w0, w1 := WindowOf(b0), WindowOf(b1);
    match n
    case 0 => State(1, {}, [], false, [Idle, Idle, Idle], [Idle], [], [])
    case 1 => State(1, {w0}, [], false, [Claimed(b0), Idle, Idle], [Idle], [], [])
    case 2 => State(1, {w0}, [b0], false, [Idle, Idle, Idle], [Idle], [b0], [])
    case 3 => State(1, {w0, w1}, [b0], false, [Idle, Claimed(b1), Idle], [Idle], [b0], [])
    case 4 => State(1, {w0, w1}, [b0], false, [Idle, Claimed(b1), Idle], [Idle], [b0], [])
    case 5 => State(1, {w0, w1}, [b0], false, [Idle, Refused(b1), Idle], [Idle], [b0], [])
    case 6 => State(1, {w0}, [b0], false, [Idle, Idle, Idle], [Idle], [b0], [])
    case 7 => State(1, {w0}, [], false, [Idle, Idle, Idle], [Handling(b0)], [b0], [])
    case _ => State(1, {}, [], false, [Idle, Idle, Idle], [Idle], [b0], [b0])
  }

  /** From a new queue: every call has returned, 2 was told its window is being analysed, the queue is idle again
      and nothing was ever done for that window. */
  lemma ADuplicateIsLost(b0: Bundle, b1: Bundle, b2: Bundle)
    requires WindowOf(b0) != WindowOf(b1) == WindowOf(b2)
    ensures var s, es := New(1, 3, 1), LostRun(b0, b1, b2);
            && IsRun(s, es[..3]) && IsRun(s, es[..4]) && IsRun(s, es)
            && WindowOf(b2) in Run(s, es[..3]).inflight && Run(s, es[..4]) == Run(s, es[..3])
            && Run(s, es) == s.(sent := [b0], done := [b0])
  {
    LostRunIs(b0, b1, b2, 3);
    LostRunIs(b0, b1, b2, 4);
    LostRunIs(b0, b1, b2, 8);
    NewIsFirst(b0, b1);
    var es := LostRun(b0, b1, b2);
    assert es[..8] == es;
    hide Run, IsRun, New, LostRun;
  }

  lemma NewIsFirst(b0: Bundle, b1: Bundle)
    ensures New(1, 3, 1) == LostState(b0, b1, 0)
  {
  }

  lemma {:induction false} LostRunIs(b0: Bundle, b1: Bundle, b2: Bundle, n: nat)
    requires WindowOf(b0) != WindowOf(b1) == WindowOf(b2) && n <= 8
    ensures var s, es := New(1, 3, 1), LostRun(b0, b1, b2); IsRun(s, es[..n]) && Run(s, es[..n]) == LostState(b0, b1, n)
  {
    hide New, LostState, Enabled, Apply;
    var es := LostRun(b0, b1, b2);
    if n == 0 {
      NewIsFirst(b0, b1);
    } else {
      LostRunIs(b0, b1, b2, n - 1);
      LostStep(b0, b1, b2, n - 1);
      assert es[..n] == es[..n - 1] + [es[n - 1]];
      RunMore(New(1, 3, 1), es[..n - 1], es[n - 1]);
    }
  }

  lemma LostStep(b0: Bundle, b1: Bundle, b2: Bundle, n: nat)
    requires WindowOf(b0) != WindowOf(b1) == WindowOf(b2) && n < 8
    ensures Enabled(LostState(b0, b1, n), LostRun(b0, b1, b2)[n])
    ensures Apply(LostState(b0, b1, n), LostRun(b0, b1, b2)[n]) == LostState(b0, b1, n + 1)
  {
    var s, e := LostState(b0, b1, n), LostRun(b0, b1, b2)[n];
    var after := LostState(b0, b1, n + 1);
    if n < 4 { assert Enabled(s, e) && Apply(s, e) == after; } else { LostLaterStep(b0, b1, b2, n); }
  }

  lemma LostLaterStep(b0: Bundle, b1: Bundle, b2: Bundle, n: nat)
    requires WindowOf(b0) != WindowOf(b1) == WindowOf(b2) && 4 <= n < 8
    ensures Enabled(LostState(b0, b1, n), LostRun(b0, b1, b2)[n])
    ensures Apply(LostState(b0, b1, n), LostRun(b0, b1, b2)[n]) == LostState(b0, b1, n + 1)
  {
    var s, e := LostState(b0, b1, n), LostRun(b0, b1, b2)[n];
    assert Enabled(s, e) && Apply(s, e) == LostState(b0, b1, n + 1);
  }

  // ----- draining terminates -----

  function Busy(t: Task): nat { if t.Exited? then 0 else if t.Handling? then 2 else 1 }

  function BusySum(ts: seq<Task>): nat { if ts == [] then 0 else Busy(ts[0]) + BusySum(ts[1..]) }

  /** Work left once the queue is closed. */
  function Remaining(s: State): nat { 2 * |s.buffer| + BusySum(s.workers) }

  lemma {:induction false} BusyUpdate(ts: seq<Task>, i: nat, t: Task)
    requires i < |ts|
    ensures BusySum(ts[i := t]) + Busy(ts[i]) == BusySum(ts) + Busy(t)
  {
    var us := ts[i := t];
    if i == 0 {
      assert us[1..] == ts[1..];
    } else {
      BusyUpdate(ts[1..], i - 1, t);
      assert us[1..] == ts[1..][i - 1 := t];
    }
  }

  /** The step a worker takes next in a closed queue. */
  function WorkerStep(s: State, k: nat): Event
    requires k < |s.workers|
  {
    if s.workers[k].Handling? then Finish(k) else if s.buffer != [] then Receive(k) else Exit(k)
  }

  /** A closed queue is never stuck: any worker still running can step, and each step leaves less to do. */
  lemma DrainProgress(s: State, k: nat)
    requires Inv(s) && s.closed && k < |s.workers| && !s.workers[k].Exited?
    ensures Enabled(s, WorkerStep(s, k))
    ensures var s' := Apply(s, WorkerStep(s, k));
            Remaining(s') < Remaining(s) && s'.closed && |s'.workers| == |s.workers| && s'.publishers == s.publishers
            && s'.sent == s.sent
  {
    BusyUpdate(s.workers, k, Apply(s, WorkerStep(s, k)).workers[k]);
  }

  // ----- the queue itself -----

  datatype Answer = Accepted | Full

  /** The in-flight set and the channel, with where each calling goroutine is. sent and done are history.
      Each small method is one atomic step; Publish, Process and Stop put them together. */
  class Queue {
    const capacity: nat
    var inflight: set<Window>
    var ch: seq<Bundle>
    var closed: bool
    var publishers: seq<Task>
    var workers: seq<Task>
    ghost var sent: seq<Bundle>
    ghost var done: seq<Bundle>

    ghost function View(): State
      reads this
    {
      State(capacity, inflight, ch, closed, publishers, workers, sent, done)
    }

    ghost predicate Valid()
      reads this
    {
      Inv(View())
    }

    constructor (size: int, callers: nat, count: int)
      ensures View() == New(size, callers, count) && Valid()
    {
      capacity := AtLeastOne(size);
      inflight, ch, closed := {}, [], false;
      publishers := seq(callers, _ => Idle);
      workers := seq(AtLeastOne(count), _ => Idle);
      sent, done := [], [];
      new;
      NewHoldsInv(size, callers, count);
    }

    method Release(w: Window)
      modifies this`inflight
      ensures inflight == old(inflight) - {w}
    {
      inflight := inflight - {w};
    }

    method Claim(p: nat, b: Bundle) returns (duplicate: bool)
      requires Valid() && Enabled(View(), Event.Claim(p, b))
      modifies this`inflight, this`publishers
      ensures Valid() && View() == Apply(old(View()), Event.Claim(p, b))
      ensures duplicate == (WindowOf(b) in old(inflight))
    {
      StepKeepsInv(View(), Event.Claim(p, b));
      duplicate := WindowOf(b) in inflight;
      if !duplicate {
        inflight := inflight + {WindowOf(b)};
        publishers := publishers[p := Claimed(b)];
      }
    }

    method TrySend(p: nat) returns (ok: bool)
      requires Valid() && Enabled(View(), Send(p))
      modifies this`ch, this`publishers, this`sent
      ensures Valid() && View() == Apply(old(View()), Send(p))
      ensures ok == (|old(ch)| < capacity)
    {
      StepKeepsInv(View(), Send(p));
      var b := publishers[p].b;
      ok := |ch| < capacity;
      if ok {
        ch, sent := ch + [b], sent + [b];
        publishers := publishers[p := Idle];
      } else {
        publishers := publishers[p := Refused(b)];
      }
    }

    method GiveUp(p: nat)
      requires Valid() && Enabled(View(), Event.GiveUp(p))
      modifies this`inflight, this`publishers
      ensures Valid() && View() == Apply(old(View()), Event.GiveUp(p))
    {
      StepKeepsInv(View(), Event.GiveUp(p));
      Release(WindowOf(publishers[p].b));
      publishers := publishers[p := Idle];
    }

    /** With no other step in between: a refused bundle leaves no trace, an accepted one is in flight, and
        it is queued unless its window was in flight already. */
    method Publish(p: nat, b: Bundle) returns (answer: Answer)
      requires Valid() && Enabled(View(), Event.Claim(p, b))
      modifies this`inflight, this`ch, this`publishers, this`sent
      ensures Valid() && publishers == old(publishers)
      ensures answer == Full <==> WindowOf(b) !in old(inflight) && |old(ch)| == capacity
      ensures answer == Full ==> View() == old(View())
      ensures answer == Accepted ==> WindowOf(b) in inflight
      ensures answer == Accepted ==>
                if WindowOf(b) in old(inflight) then View() == old(View())
                else ch == old(ch) + [b] && sent == old(sent) + [b] && inflight == old(inflight) + {WindowOf(b)}
    {
      ghost var was := publishers;
      var duplicate := Claim(p, b);
      if duplicate { return Accepted; }
      var ok := TrySend(p);
      if ok {
        assert publishers == was;
        return Accepted;
      }
      GiveUp(p);
      assert publishers == was;
      return Full;
    }

    method Receive(k: nat) returns (b: Bundle)
      requires Valid() && Enabled(View(), Event.Receive(k))
      modifies this`ch, this`workers
      ensures Valid() && View() == Apply(old(View()), Event.Receive(k)) && b == old(ch)[0]
    {
      StepKeepsInv(View(), Event.Receive(k));
      b := ch[0];
      ch := ch[1..];
      workers := workers[k := Handling(b)];
    }

    /** The handler has returned, with or without an error; the deferred release runs. */
    method Finish(k: nat)
      requires Valid() && Enabled(View(), Event.Finish(k))
      modifies this`inflight, this`workers, this`done
      ensures Valid() && View() == Apply(old(View()), Event.Finish(k))
    {
      StepKeepsInv(View(), Event.Finish(k));
      Release(WindowOf(workers[k].b));
      done := done + [workers[k].b];
      workers := workers[k := Idle];
    }

    /** Whatever worker k does next in a closed queue. */
    method Move(k: nat)
      requires Valid() && closed && k < |workers| && !workers[k].Exited?
      modifies this`inflight, this`ch, this`workers, this`done
      ensures Valid() && View() == Apply(old(View()), WorkerStep(old(View()), k))
    {
      if workers[k].Handling? {
        Finish(k);
      } else if ch != [] {
        var _ := Receive(k);
      } else {
        StepKeepsInv(View(), Exit(k));
        workers := workers[k := Exited];
      }
    }

    /** However the workers interleave, draining ends; then nothing is buffered or in flight, and what was
        ever sent was handled, each bundle exactly once. */
    method Stop()
      requires Valid() && !closed && |workers| > 0
      requires forall p :: 0 <= p < |publishers| ==> publishers[p].Idle?
      modifies this
      ensures Valid() && closed && ch == [] && inflight == {}
      ensures sent == old(sent) && multiset(done) == multiset(sent)
    {
      StepKeepsInv(View(), Close);
      closed := true;
      while exists k: nat :: k < |workers| && !workers[k].Exited?
        invariant Valid() && closed && |workers| == old(|workers|)
        invariant publishers == old(publishers) && sent == old(sent)
        decreases Remaining(View())
      {
        var k: nat :| k < |workers| && !workers[k].Exited?;
        DrainProgress(View(), k);
        Move(k);
      }
      AfterStop(View());
    }
  }
}

/** At-least-once delivery: the HTTP client retries a request that is not
    idempotent, over a link that loses requests and answers. */
module Delivery {
  import opened Numbers
  import opened Options
  import opened Lists
  import opened Updates
  import opened RetryLoops
  import opened Storage
  import opened Transports

  datatype Body = One(metric: Metrics) | Many(metrics: seq<Metrics>)

  type ErrorCode = c: int | c != 200 witness 400

  /** What happens to one POST: it is lost, turned away before the handler, or
      handled, with the answer arriving or lost. */
  datatype Fate = Lost | TurnedAway(code: ErrorCode) | Arrives(answered: bool, io: WriteOutcome)

  /** How many metrics of a batch come before the first nil payload. */
  function Readable(ms: seq<Metrics>): (n: nat)
    ensures n <= |ms|
    ensures forall i :: 0 <= i < n ==> HttpUpdate(ms[i]).Some?
    ensures n < |ms| ==> HttpUpdate(ms[n]).None?
  {
    if ms == [] || HttpUpdate(ms[0]).None? then 0 else 1 + Readable(ms[1..])
  }

  /** The updates one handling of the body makes. */
  function Effect(b: Body): seq<Update> {
    var ms := if b.One? then [b.metric] else b.metrics;
    seq(Readable(ms), i requires 0 <= i < Readable(ms) => HttpUpdate(ms[i]).value)
  }

  function Repeat<T>(us: seq<T>, n: nat): seq<T> {
    if n == 0 then [] else Repeat(us, n - 1) + us
  }

  lemma {:induction false} ReadUpTo(ms: seq<Metrics>, n: nat)
    requires n <= Readable(ms)
    ensures |HttpUpdates(ms, n)| == n
    ensures forall i :: 0 <= i < n ==> HttpUpdates(ms, n)[i] == HttpUpdate(ms[i]).value
  {
    if n > 0 {
      ReadUpTo(ms, n - 1);
    }
  }

  /** A server with both maps reads a batch up to the first nil payload. */
  lemma EffectOf(ms: seq<Metrics>, n: nat)
    requires PanicsAfter(n, ms, false, false)
    ensures n == Readable(ms) && HttpUpdates(ms, n) == Effect(Many(ms))
  {
    assert forall i :: 0 <= i < Readable(ms) ==> HttpUpdate(ms[i]).Some?;
    HandledUpToMeans(n, ms, false, false);
    assert n == Readable(ms);
    ReadUpTo(ms, n);
  }

  lemma ReplayUpToOne(st: Store, us: seq<Update>)
    requires |us| <= 1
    ensures Replay(st, us) == if us == [] then st else Apply(st, us[0])
  {
    if us != [] {
      assert us[..0] == [];
    }
  }

  /** What a handler answers to the body; a batch is turned down for its failed
      saves, which a healthy database does not have. */
  predicate Replies(body: Body, reply: Reply, healthy: bool) {
    match body
    case One(m) =>
      reply == if m.value.None? && m.delta.None? then Status(400)
               else if HttpUpdate(m).None? then Aborted
               else Status(200)
    case Many(ms) =>
      if Readable(ms) < |ms| then reply == Aborted
      else reply == Status(200) || (!healthy && reply == Status(400))
  }

  /** No payload is missing. */
  predicate Sound(body: Body) {
    match body
    case One(m) => HttpUpdate(m).Some?
    case Many(ms) => Readable(ms) == |ms|
  }

  /** What the client can see of one POST. */
  predicate Answers(f: Fate, body: Body, healthy: bool, a: Attempt<int>) {
    match f
    case Lost => a.Bad?
    case TurnedAway(code) => a == Good(code)
    case Arrives(answered, _) =>
      if answered then Replies(body, if a.Good? then Status(a.res) else Aborted, healthy) else a.Bad?
  }

  /** The attempts of a call that meet the fates from the given one on; times
      of them arrive. */
  predicate Attempts(fate: nat -> Fate, from: nat, body: Body, healthy: bool, trail: seq<Attempt<int>>, times: int)
    decreases |trail|
  {
    if trail == [] then times == 0
    else
      var k := |trail| - 1;
      && Answers(fate(from + k), body, healthy, trail[k])
      && Attempts(fate, from, body, healthy, trail[..k], if fate(from + k).Arrives? then times - 1 else times)
  }

  lemma OneMoreAttempt(fate: nat -> Fate, from: nat, body: Body, healthy: bool, trail: seq<Attempt<int>>, times: int,
                       a: Attempt<int>)
    requires Attempts(fate, from, body, healthy, trail, times) && Answers(fate(from + |trail|), body, healthy, a)
    ensures Attempts(fate, from, body, healthy, trail + [a],
                     if fate(from + |trail|).Arrives? then times + 1 else times)
  {
    assert (trail + [a])[..|trail|] == trail;
  }

  /** How many of n attempts arrive. */
  function ArrivalsIn(fate: nat -> Fate, from: nat, n: nat): nat {
    if n == 0 then 0 else ArrivalsIn(fate, from, n - 1) + if fate(from + n - 1).Arrives? then 1 else 0
  }

  /** So at most as many arrive as are made, and an answer 200 to the last one
      shows that it arrived. */
  lemma {:induction false} AttemptsBound(fate: nat -> Fate, from: nat, body: Body, healthy: bool,
                                         trail: seq<Attempt<int>>, times: int)
    requires Attempts(fate, from, body, healthy, trail, times)
    ensures 0 <= times == ArrivalsIn(fate, from, |trail|) <= |trail|
    ensures trail != [] && trail[|trail| - 1] == Good(200) ==> times >= 1
    ensures forall k :: 0 <= k < |trail| ==> Answers(fate(from + k), body, healthy, trail[k])
    decreases |trail|
  {
    if trail != [] {
      var k := |trail| - 1;
      AttemptsBound(fate, from, body, healthy, trail[..k], if fate(from + k).Arrives? then times - 1 else times);
    }
  }

  // ---------------------------------------------------------------- one call

  /** A call made these attempts, of which times arrived: it went on until one was
      answered or most were made, and succeeded iff the last was answered 200. */
  ghost predicate IsCallOf(fate: nat -> Fate, from: nat, body: Body, healthy: bool, trail: seq<Attempt<int>>,
                           times: int, ok: bool, most: nat)
  {
    && Attempts(fate, from, body, healthy, trail, times)
    && |trail| <= most && (forall k :: 0 <= k < |trail| - 1 ==> trail[k].Bad?)
    && (|trail| < most ==> trail != [] && trail[|trail| - 1].Good?)
    && (ok <==> trail != [] && trail[|trail| - 1] == Good(200))
  }

  /** The client hears of the attempt. */
  predicate Answered(f: Fate) {
    f.TurnedAway? || (f.Arrives? && f.answered)
  }

  predicate AnsweredAt(fate: nat -> Fate, from: nat, k: nat) {
    Answered(fate(from + k))
  }

  /** The first answered attempt from there on. */
  predicate FirstAnswer(fate: nat -> Fate, from: nat, k: nat) {
    AnsweredAt(fate, from, k) && forall j :: 0 <= j < k ==> !AnsweredAt(fate, from, j)
  }

  /** No save can turn the call down: the single-metric handler does not look. */
  predicate Indifferent(body: Body, healthy: bool) {
    Sound(body) && (body.One? || healthy)
  }

  /** With a sound body, and a healthy server if it is a batch, the fates decide a
      call: it succeeds iff the first answered attempt is one of its most attempts and
      arrives, no attempt is made after it, and all are made if there is none among
      them. */
  lemma FatesDecide(fate: nat -> Fate, from: nat, body: Body, healthy: bool, trail: seq<Attempt<int>>, times: int,
                    ok: bool, most: nat)
    requires IsCallOf(fate, from, body, healthy, trail, times, ok, most) && Indifferent(body, healthy)
    ensures ok <==> exists k :: 0 <= k < most && FirstAnswer(fate, from, k) && fate(from + k).Arrives?
    ensures forall k: nat :: k < most && FirstAnswer(fate, from, k) ==> |trail| == k + 1
    ensures (forall k: nat :: k < most ==> !FirstAnswer(fate, from, k)) ==> |trail| == most
    ensures times == ArrivalsIn(fate, from, |trail|)
  {
    AttemptsBound(fate, from, body, healthy, trail, times);
    var n := |trail| - 1;
    forall k | 0 <= k < |trail| ensures trail[k].Good? <==> AnsweredAt(fate, from, k) {
      SoundAnswer(fate(from + k), body, healthy, trail[k]);
    }
    if trail != [] {
      SoundAnswer(fate(from + n), body, healthy, trail[n]);
      if trail[n].Good? {
        assert FirstAnswer(fate, from, n);
      }
    }
    assert forall k: nat :: k < |trail| && FirstAnswer(fate, from, k) ==> k == n;
  }

  lemma SoundAnswer(f: Fate, body: Body, healthy: bool, a: Attempt<int>)
    requires Answers(f, body, healthy, a) && Indifferent(body, healthy)
    ensures a.Good? <==> Answered(f)
    ensures a == Good(200) <==> f.Arrives? && f.answered
  {
  }

  class Link {
    const handler: Handler
    const fate: nat -> Fate
    var used: nat   // requests made

    constructor (handler: Handler, fate: nat -> Fate)
      ensures this.handler == handler && this.fate == fate && used == 0
    {
      this.handler, this.fate, used := handler, fate, 0;
    }

    ghost predicate Healthy() {
      handler.ms.Healthy()
    }

    ghost function Footprint(): set<object> {
      handler.ms.Frame() + {this, handler.ms.disk}
    }

    method Handle(body: Body, io: WriteOutcome) returns (reply: Reply)
      requires BothMade(handler.ms)
      modifies handler.ms.Frame(), handler.ms.disk
      ensures BothMade(handler.ms) && Replies(body, reply, Healthy())
      ensures handler.ms.Contents() == Replay(old(handler.ms.Contents()), Effect(body))
    {
      match body
      case One(m) =>
        reply := handler.UpdateMetrics(m, io);
        assert Readable([m]) == if HttpUpdate(m).Some? then 1 else 0;
        ReplayUpToOne(old(handler.ms.Contents()), Effect(body));
      case Many(ms) =>
        var errs;
        ghost var saves;
        reply, errs, saves := handler.UpdateMetricsBatch(ms);
        HttpServeStore(old(handler.ms.View()), ms, saves);
        EffectOf(ms, |saves|);
    }

    method Post(body: Body) returns (a: Attempt<int>)
      requires BothMade(handler.ms)
      modifies Footprint()
      ensures BothMade(handler.ms) && used == old(used) + 1
      ensures Answers(fate(old(used)), body, Healthy(), a)
      ensures handler.ms.Contents() ==
        if fate(old(used)).Arrives? then Replay(old(handler.ms.Contents()), Effect(body))
        else old(handler.ms.Contents())
    {
      var f := fate(used);
      used := used + 1;
      match f
      case Lost =>
        a := Bad(OtherError("request lost"));
      case TurnedAway(code) =>
        a := Good(code);
      case Arrives(answered, io) =>
        var reply := Handle(body, io);
        a := if reply.Status? && answered then Good(reply.code) else Bad(OtherError("no answer"));
    }
  }

  const MAX_RETRY: int := 3

  /** The store after the body was handled so many times. */
  function HandledTimes(st: Store, body: Body, times: nat): Store {
    if times == 0 then st else Replay(HandledTimes(st, body, times - 1), Effect(body))
  }

  lemma {:induction false} HandledTimesIs(st: Store, body: Body, times: nat)
    ensures HandledTimes(st, body, times) == Replay(st, Repeat(Effect(body), times))
  {
    if times > 0 {
      HandledTimesIs(st, body, times - 1);
      ReplayConcat(st, Repeat(Effect(body), times - 1), Effect(body));
    }
  }

  /** What the loop knows when its calls so far, trail, have all failed. */
  ghost predicate AllFailed(trail: seq<Attempt<int>>, base: int, step: int, slept: seq<int>, last: Option<Failure>)
    decreases |trail|
  {
    if trail == [] then slept == [] && last == None
    else
      var k := |trail| - 1;
      && |slept| == |trail| && trail[k].Bad?
      && last == Some(trail[k].failure) && slept[k] == base + step * k
      && AllFailed(trail[..k], base, step, slept[..k], LastFailure(trail[..k]))
  }

  lemma {:induction false} AllFailedMeans(trail: seq<Attempt<int>>, base: int, step: int, slept: seq<int>,
                                          last: Option<Failure>)
    requires AllFailed(trail, base, step, slept, last)
    ensures forall k :: 0 <= k < |trail| ==> trail[k].Bad?
    ensures last == LastFailure(trail) && slept == Delays(base, step, |trail|)
    decreases |trail|
  {
    if trail != [] {
      var k := |trail| - 1;
      AllFailedMeans(trail[..k], base, step, slept[..k], LastFailure(trail[..k]));
      assert slept == slept[..k] + [slept[k]];
    }
  }

  lemma OneMoreFailure(trail: seq<Attempt<int>>, base: int, step: int, slept: seq<int>, last: Option<Failure>,
                       a: Attempt<int>, delay: int)
    requires AllFailed(trail, base, step, slept, last) && a.Bad? && delay == base + step * |trail|
    ensures AllFailed(trail + [a], base, step, slept + [delay], Some(a.failure))
  {
    AllFailedMeans(trail, base, step, slept, last);
    assert (trail + [a])[..|trail|] == trail && (slept + [delay])[..|trail|] == slept;
  }

  lemma FirstSuccess(trail: seq<Attempt<int>>, attempts: int, base: int, step: int, slept: seq<int>,
                     last: Option<Failure>, a: Attempt<int>)
    requires AllFailed(trail, base, step, slept, last) && a.Good? && |trail| < attempts
    ensures RetryAccount(trail + [a], attempts, base, step, slept, Returned(a.res))
  {
    AllFailedMeans(trail, base, step, slept, last);
  }

  lemma NoSuccess(trail: seq<Attempt<int>>, attempts: int, base: int, step: int, slept: seq<int>, last: Option<Failure>)
    requires AllFailed(trail, base, step, slept, last) && |trail| == AtLeastZero(attempts)
    ensures RetryAccount(trail, attempts, base, step, slept, GaveUp(After(attempts, last)))
  {
    AllFailedMeans(trail, base, step, slept, last);
  }

  /** Trail and times so far, and what the server holds. */
  ghost predicate Tried(link: Link, st: Store, from: nat, body: Body, trail: seq<Attempt<int>>, times: nat)
    reads link, link.handler.ms
  {
    && BothMade(link.handler.ms) && link.used == from + |trail|
    && Attempts(link.fate, from, body, link.Healthy(), trail, times)
    && link.handler.ms.Contents() == HandledTimes(st, body, times)
  }

  lemma HandledOnceMore(st: Store, body: Body, times: nat)
    ensures HandledTimes(st, body, times + 1) == Replay(HandledTimes(st, body, times), Effect(body))
  {
  }

  /** One more attempt. */
  method Try(link: Link, body: Body, ghost st: Store, ghost from: nat, ghost trail: seq<Attempt<int>>, ghost times: nat)
    returns (a: Attempt<int>, ghost times': nat)
    requires Tried(link, st, from, body, trail, times)
    modifies link.Footprint()
    ensures Tried(link, st, from, body, trail + [a], times')
  {
    ghost var arrives := link.fate(from + |trail|).Arrives?;
    HandledOnceMore(st, body, times);
    a := link.Post(body);
    OneMoreAttempt(link.fate, from, body, link.Healthy(), trail, times, a);
    times' := if arrives then times + 1 else times;
  }

  /** The retry loop of the client around Post, sleeping after every failure,
      the last one included. */
  method Retry(attempts: int, base: int, step: int, link: Link, body: Body)
    returns (v: Verdict<int>, slept: seq<int>, ghost trail: seq<Attempt<int>>, ghost times: nat)
    requires BothMade(link.handler.ms)
    modifies link.Footprint()
    ensures BothMade(link.handler.ms) && link.used == old(link.used) + |trail|
    ensures RetryAccount(trail, attempts, base, step, slept, v)
    ensures Attempts(link.fate, old(link.used), body, link.Healthy(), trail, times)
    ensures link.handler.ms.Contents() == HandledTimes(old(link.handler.ms.Contents()), body, times)
  {
    ghost var st, from := link.handler.ms.Contents(), link.used;
    trail, slept, times := [], [], 0;
    var last: Option<Failure> := None;
    var i := 1;
    while i <= attempts
      invariant 1 <= i && (i <= attempts + 1 || i == 1) && |trail| == i - 1
      invariant Tried(link, st, from, body, trail, times)
      invariant AllFailed(trail, base, step, slept, last)
    {
      var a;
      a, times := Try(link, body, st, from, trail, times);
      if a.Good? {
        FirstSuccess(trail, attempts, base, step, slept, last, a);
        trail := trail + [a];
        v := Returned(a.res);
        return;
      }
      var delay := base + step * (i - 1);
      OneMoreFailure(trail, base, step, slept, last, a, delay);
      trail, slept, last, i := trail + [a], slept + [delay], Some(a.failure), i + 1;
    }
    NoSuccess(trail, attempts, base, step, slept, last);
    v := GaveUp(After(attempts, last));
  }

  /** What the account of the loop says of the call. */
  lemma AccountOfCall(fate: nat -> Fate, from: nat, body: Body, healthy: bool, trail: seq<Attempt<int>>, times: nat,
                      maxRetry: int, slept: seq<int>, v: Verdict<int>)
    requires RetryAccount(trail, maxRetry, 1 * SECOND, 2 * SECOND, slept, v)
    requires Attempts(fate, from, body, healthy, trail, times)
    ensures IsCallOf(fate, from, body, healthy, trail, times, v == Returned(200), AtLeastZero(maxRetry))
    ensures times <= |trail| && (v == Returned(200) ==> times >= 1)
    ensures |slept| == if trail != [] && trail[|trail| - 1].Good? then |trail| - 1 else |trail|
    ensures forall i :: 0 <= i < |slept| ==> slept[i] == (1 + 2 * i) * 1_000_000_000
  {
    AttemptsBound(fate, from, body, healthy, trail, times);
    DelaysAt(1 * SECOND, 2 * SECOND, if v.Returned? then |trail| - 1 else |trail|);
  }

  /** One call of the client: it goes on until an attempt is answered, and
      succeeds iff that answer was 200; then the body was handled at least once, and
      in any case at most maxRetry times, namely for each attempt that arrived. It
      sleeps for 1, 3, 5 and more seconds after its failures. */
  method SendRequest(link: Link, body: Body, maxRetry: int)
    returns (ok: bool, slept: seq<int>, ghost trail: seq<Attempt<int>>, ghost times: nat)
    requires BothMade(link.handler.ms)
    modifies link.Footprint()
    ensures BothMade(link.handler.ms) && link.used == old(link.used) + |trail|
    ensures link.handler.ms.Contents() == HandledTimes(old(link.handler.ms.Contents()), body, times)
    ensures IsCallOf(link.fate, old(link.used), body, link.Healthy(), trail, times, ok, AtLeastZero(maxRetry))
    ensures times <= |trail| <= AtLeastZero(maxRetry)
    ensures ok ==> times >= 1
    ensures |slept| == if trail != [] && trail[|trail| - 1].Good? then |trail| - 1 else |trail|
    ensures forall i :: 0 <= i < |slept| ==> slept[i] == (1 + 2 * i) * 1_000_000_000
  {
    var v;
    v, slept, trail, times := Retry(maxRetry, 1 * SECOND, 2 * SECOND, link, body);
    AccountOfCall(link.fate, link.used - |trail|, body, link.Healthy(), trail, times, maxRetry, slept, v);
    ok := v == Returned(200);
  }

  // ---------------------------------------------------------------- many calls

  /** What the calls hold, each as often as times says. */
  function Expand<T>(calls: seq<seq<T>>, times: seq<nat>): seq<T>
    requires |calls| == |times|
  {
    if calls == [] then []
    else
      var n := |calls| - 1;
      Expand(calls[..n], times[..n]) + Repeat(calls[n], times[n])
  }

  function Once(k: nat): seq<nat> {
    seq(k, _ => 1)
  }

  function Effects(bodies: seq<Body>): seq<seq<Update>> {
    seq(|bodies|, i requires 0 <= i < |bodies| => Effect(bodies[i]))
  }

  /** The store after the calls, each handled so many times. */
  function Delivered(st: Store, bodies: seq<Body>, times: seq<nat>): Store
    requires |bodies| == |times|
  {
    if bodies == [] then st
    else
      var k := |bodies| - 1;
      HandledTimes(Delivered(st, bodies[..k], times[..k]), bodies[k], times[k])
  }

  lemma DeliveredOneMore(st: Store, bodies: seq<Body>, times: seq<nat>, body: Body, n: nat)
    requires |bodies| == |times|
    ensures Delivered(st, bodies + [body], times + [n]) == HandledTimes(Delivered(st, bodies, times), body, n)
  {
    assert (bodies + [body])[..|bodies|] == bodies && (times + [n])[..|bodies|] == times;
  }

  lemma {:induction false} DeliveredIs(st: Store, bodies: seq<Body>, times: seq<nat>)
    requires |bodies| == |times|
    ensures Delivered(st, bodies, times) == Replay(st, Expand(Effects(bodies), times))
  {
    if bodies != [] {
      var k := |bodies| - 1;
      DeliveredIs(st, bodies[..k], times[..k]);
      HandledTimesIs(Delivered(st, bodies[..k], times[..k]), bodies[k], times[k]);
      assert Effects(bodies)[..k] == Effects(bodies[..k]);
      ReplayConcat(st, Expand(Effects(bodies[..k]), times[..k]), Repeat(Effect(bodies[k]), times[k]));
    }
  }

  /** The calls with these bodies were made one after the other, from attempt
      from up to attempt upto. */
  ghost predicate InSequence(fate: nat -> Fate, from: nat, bodies: seq<Body>, healthy: bool,
                             trails: seq<seq<Attempt<int>>>, times: seq<nat>, oks: seq<bool>, upto: int)
    decreases |bodies|
  {
    && |trails| == |times| == |oks| == |bodies|
    && if bodies == [] then upto == from
       else
         var k := |bodies| - 1;
         var start := upto - |trails[k]|;
         && start >= from
         && IsCallOf(fate, start, bodies[k], healthy, trails[k], times[k], oks[k], 3)
         && InSequence(fate, from, bodies[..k], healthy, trails[..k], times[..k], oks[..k], start)
  }

  lemma OneMoreCall(fate: nat -> Fate, from: nat, bodies: seq<Body>, healthy: bool, trails: seq<seq<Attempt<int>>>,
                    times: seq<nat>, oks: seq<bool>, upto: nat, body: Body, trail: seq<Attempt<int>>, n: nat, ok: bool)
    requires InSequence(fate, from, bodies, healthy, trails, times, oks, upto) && from <= upto
    requires IsCallOf(fate, upto, body, healthy, trail, n, ok, 3)
    ensures InSequence(fate, from, bodies + [body], healthy, trails + [trail], times + [n], oks + [ok], upto + |trail|)
  {
    var k := |bodies|;
    assert (bodies + [body])[..k] == bodies && (trails + [trail])[..k] == trails;
    assert (times + [n])[..k] == times && (oks + [ok])[..k] == oks;
  }

  /** A link that turns nothing away and answers one of any three attempts. */
  ghost predicate Responsive(fate: nat -> Fate) {
    forall k: nat ::
      !fate(k).TurnedAway? && (Answered(fate(k)) || Answered(fate(k + 1)) || Answered(fate(k + 2)))
  }

  lemma ResponsiveCall(fate: nat -> Fate, from: nat, body: Body, healthy: bool, trail: seq<Attempt<int>>, times: int,
                       ok: bool)
    requires IsCallOf(fate, from, body, healthy, trail, times, ok, 3)
    requires Indifferent(body, healthy) && Responsive(fate)
    ensures ok
  {
    FatesDecide(fate, from, body, healthy, trail, times, ok, 3);
    assert Answered(fate(from)) || Answered(fate(from + 1)) || Answered(fate(from + 2));
    var k := if Answered(fate(from)) then 0 else if Answered(fate(from + 1)) then 1 else 2;
    assert FirstAnswer(fate, from, k) && !fate(from + k).TurnedAway?;
  }

  /** Over such a link every sound call succeeds, a batch to a healthy server. */
  lemma {:induction false} ResponsiveSucceeds(fate: nat -> Fate, from: nat, bodies: seq<Body>, healthy: bool,
                                              trails: seq<seq<Attempt<int>>>, times: seq<nat>, oks: seq<bool>,
                                              upto: int)
    requires InSequence(fate, from, bodies, healthy, trails, times, oks, upto) && Responsive(fate)
    requires forall i :: 0 <= i < |bodies| ==> Indifferent(bodies[i], healthy)
    ensures forall i :: 0 <= i < |oks| ==> oks[i]
    decreases |bodies|
  {
    if bodies != [] {
      var k := |bodies| - 1;
      var start := upto - |trails[k]|;
      ResponsiveCall(fate, start, bodies[k], healthy, trails[k], times[k], oks[k]);
      ResponsiveSucceeds(fate, from, bodies[..k], healthy, trails[..k], times[..k], oks[..k], start);
    }
  }

  /** Each call arrived at most three times, and at least once if it succeeded. */
  predicate FewTimes(times: seq<nat>, oks: seq<bool>) {
    |times| == |oks| && forall i :: 0 <= i < |times| ==> (if oks[i] then 1 else 0) <= times[i] <= 3
  }

  lemma FewTimesMore(times: seq<nat>, oks: seq<bool>, n: nat, ok: bool)
    requires FewTimes(times, oks) && (if ok then 1 else 0) <= n <= 3
    ensures FewTimes(times + [n], oks + [ok])
  {
  }

  /** The next call of a sender whose calls so far are these. */
  method SendNext(link: Link, body: Body, ghost from: nat, ghost bodies: seq<Body>,
                  ghost trails: seq<seq<Attempt<int>>>, ghost times: seq<nat>, ghost oks: seq<bool>)
    returns (ok: bool, ghost trail: seq<Attempt<int>>, ghost n: nat)
    requires BothMade(link.handler.ms) && from <= link.used
    requires InSequence(link.fate, from, bodies, link.Healthy(), trails, times, oks, link.used)
    modifies link.Footprint()
    ensures BothMade(link.handler.ms) && from <= link.used && (if ok then 1 else 0) <= n <= 3
    ensures InSequence(link.fate, from, bodies + [body], link.Healthy(), trails + [trail], times + [n], oks + [ok],
                       link.used)
    ensures link.handler.ms.Contents() == HandledTimes(old(link.handler.ms.Contents()), body, n)
  {
    ghost var upto := link.used;
    var slept;
    ok, slept, trail, n := SendRequest(link, body, MAX_RETRY);
    OneMoreCall(link.fate, from, bodies, link.Healthy(), trails, times, oks, upto, body, trail, n, ok);
  }

  /** One sequential sender: call after call. */
  method SendAll(link: Link, bodies: seq<Body>)
    returns (oks: seq<bool>, ghost trails: seq<seq<Attempt<int>>>, ghost times: seq<nat>)
    requires BothMade(link.handler.ms)
    modifies link.Footprint()
    ensures BothMade(link.handler.ms) && |oks| == |times| == |bodies|
    ensures InSequence(link.fate, old(link.used), bodies, link.Healthy(), trails, times, oks, link.used)
    ensures FewTimes(times, oks)
    ensures link.handler.ms.Contents() == Delivered(old(link.handler.ms.Contents()), bodies, times)
  {
    oks, trails, times := [], [], [];
    ghost var st, from := link.handler.ms.Contents(), link.used;
    for i := 0 to |bodies|
      invariant BothMade(link.handler.ms) && |oks| == |times| == i && from <= link.used
      invariant InSequence(link.fate, from, bodies[..i], link.Healthy(), trails, times, oks, link.used)
      invariant FewTimes(times, oks)
      invariant link.handler.ms.Contents() == Delivered(st, bodies[..i], times)
    {
      var ok;
      ghost var trail, n;
      ok, trail, n := SendNext(link, bodies[i], from, bodies[..i], trails, times, oks);
      FewTimesMore(times, oks, n, ok);
      DeliveredOneMore(st, bodies[..i], times, bodies[i], n);
      TakeOneMore(bodies, i);
      oks, trails, times := oks + [ok], trails + [trail], times + [n];
    }
    assert bodies[..|bodies|] == bodies;
  }

  /** The deltas for n, call by call, times how often the call was handled. */
  function WeightedSum(calls: seq<seq<Update>>, times: seq<nat>, n: string): int
    requires |calls| == |times|
  {
    if calls == [] then 0
    else
      var k := |calls| - 1;
      WeightedSum(calls[..k], times[..k], n) + times[k] * DeltaSum(calls[k], n)
  }

  lemma {:induction false} RepeatedSum(us: seq<Update>, k: nat, n: string)
    ensures DeltaSum(Repeat(us, k), n) == k * DeltaSum(us, n)
  {
    if k > 0 {
      RepeatedSum(us, k - 1, n);
      DeltaSumConcat(Repeat(us, k - 1), us, n);
      assert k * DeltaSum(us, n) == (k - 1) * DeltaSum(us, n) + DeltaSum(us, n);
    }
  }

  lemma {:induction false} ExpandedSum(calls: seq<seq<Update>>, times: seq<nat>, n: string)
    requires |calls| == |times|
    ensures DeltaSum(Expand(calls, times), n) == WeightedSum(calls, times, n)
  {
    if calls != [] {
      var k := |calls| - 1;
      ExpandedSum(calls[..k], times[..k], n);
      RepeatedSum(calls[k], times[k], n);
      DeltaSumConcat(Expand(calls[..k], times[..k]), Repeat(calls[k], times[k]), n);
    }
  }

  /** A counter ends as the sum of delta times handlings. */
  lemma DeliveredCounter(s: Store, calls: seq<seq<Update>>, times: seq<nat>, n: string)
    requires |calls| == |times|
    ensures CounterOf(Replay(s, Expand(calls, times)), n) == Wrap64(CounterOf(s, n) + WeightedSum(calls, times, n))
  {
    CounterFold(s, Expand(calls, times), n);
    ExpandedSum(calls, times, n);
  }

  /** Retrying can only inflate a counter of non-negative deltas, up to most
      times; it reaches what exactly-once delivery gives if no call is lost. */
  lemma {:induction false} RetriesInflate(calls: seq<seq<Update>>, times: seq<nat>, n: string, most: nat)
    requires |calls| == |times|
    requires forall i :: 0 <= i < |calls| ==> DeltaSum(calls[i], n) >= 0 && times[i] <= most
    ensures 0 <= WeightedSum(calls, times, n) <= most * WeightedSum(calls, Once(|calls|), n)
    ensures (forall i :: 0 <= i < |times| ==> times[i] >= 1) ==>
      WeightedSum(calls, Once(|calls|), n) <= WeightedSum(calls, times, n)
  {
    if calls != [] {
      var k := |calls| - 1;
      var d, t := DeltaSum(calls[k], n), times[k];
      RetriesInflate(calls[..k], times[..k], n, most);
      assert Once(|calls|)[..k] == Once(k);
      assert Once(|calls|)[k] * d == d;
      var w := WeightedSum(calls[..k], Once(k), n);
      Squeeze(t, most, d);
      Distribute(most, w, d);
    }
  }

  lemma Distribute(a: int, b: int, c: int)
    ensures a * (b + c) == a * b + a * c
  {
  }

  lemma Squeeze(t: nat, most: nat, d: int)
    requires t <= most && d >= 0
    ensures 0 <= t * d <= most * d && (t >= 1 ==> d <= t * d)
  {
    assert most * d == t * d + (most - t) * d;
    assert t >= 1 ==> t * d == d + (t - 1) * d;
  }

  lemma GaugesFollowGauges(s: Store, s': Store, us: seq<Update>)
    requires s.gauges == s'.gauges
    ensures Replay(s, us).gauges == Replay(s', us).gauges
  {
    forall n
      ensures n in Replay(s, us).gauges <==> n in Replay(s', us).gauges
      ensures n in Replay(s, us).gauges ==> Replay(s, us).gauges[n] == Replay(s', us).gauges[n]
    {
      GaugeIsLastWrite(s, us, n);
      GaugeIsLastWrite(s', us, n);
    }
  }

  lemma GaugesOnceMore(s: Store, us: seq<Update>)
    ensures Replay(Replay(s, us), us).gauges == Replay(s, us).gauges
  {
    var a, b := Replay(s, us), Replay(Replay(s, us), us);
    forall n
      ensures n in a.gauges <==> n in b.gauges
      ensures n in a.gauges ==> a.gauges[n] == b.gauges[n]
    {
      GaugeIsLastWrite(s, us, n);
      GaugeIsLastWrite(a, us, n);
    }
  }

  lemma {:induction false} GaugesRepeat(s: Store, us: seq<Update>, k: nat)
    requires k >= 1
    ensures Replay(s, Repeat(us, k)).gauges == Replay(s, us).gauges
  {
    if k == 1 {
      assert Repeat(us, 1) == Repeat(us, 0) + us == us;
    } else {
      GaugesRepeat(s, us, k - 1);
      ReplayConcat(s, Repeat(us, k - 1), us);
      GaugesFollowGauges(Replay(s, Repeat(us, k - 1)), Replay(s, us), us);
      GaugesOnceMore(s, us);
    }
  }

  /** When every call is handled at least once, the gauges end as if each had
      been handled exactly once. */
  lemma {:induction false} DeliveredGauges(s: Store, calls: seq<seq<Update>>, times: seq<nat>)
    requires |calls| == |times|
    requires forall i :: 0 <= i < |times| ==> times[i] >= 1
    ensures Replay(s, Expand(calls, times)).gauges == Replay(s, Expand(calls, Once(|calls|))).gauges
  {
    if calls != [] {
      var k := |calls| - 1;
      var a, b := Expand(calls[..k], times[..k]), Expand(calls[..k], Once(k));
      DeliveredGauges(s, calls[..k], times[..k]);
      assert Once(|calls|)[..k] == Once(k);
      ReplayConcat(s, a, Repeat(calls[k], times[k]));
      ReplayConcat(s, b, Repeat(calls[k], 1));
      GaugesRepeat(Replay(s, a), calls[k], times[k]);
      GaugesRepeat(Replay(s, b), calls[k], 1);
      GaugesFollowGauges(Replay(s, a), Replay(s, b), calls[k]);
    }
  }
}

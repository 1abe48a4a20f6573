/** `DoWithContext`: the retry loop around the shared circuit breaker. */
module HttpClient {
  import opened Prelude
  import opened HttpBreaker

  datatype Reply = Status(code: int) | NetworkError

  /** What one attempt meets: what other callers do to the breaker before and during it, the reply and
      how long it took, the backoff after it, and whether the context ends during that backoff. */
  datatype Attempt = Attempt(before: seq<Event>, during: seq<Event>, reply: Reply, took: nat, wait: nat, cancelled: bool)

  datatype Result = Answer(code: int) | Refused | Cancelled | Exceeded

  /** `own` is what this call did to the breaker, in order; `sent` counts the requests that went out. */
  datatype Course = Course(b: Breaker, result: Result, sent: nat, own: seq<Event>)

  predicate Succeeds(reply: Reply) {
    reply.Status? && reply.code < 500 && reply.code != 429
  }

  function Meanwhile(cfg: Config, b: Breaker, es: seq<Event>): Breaker {
    if es == [] then b else Step(cfg, Meanwhile(cfg, b, es[..|es| - 1]), es[|es| - 1])
  }

  function Before(sent: nat, own: seq<Event>, rest: Course): Course {
    Course(rest.b, rest.result, sent + rest.sent, own + rest.own)
  }

  /** The breaker after one attempt, with the others before and during it. */
  function AfterAttempt(cfg: Config, b: Breaker, a: Attempt, now: int): Breaker {
    var b0 := Meanwhile(cfg, b, a.before);
    if !Admits(cfg, b0, now) then b0 else
      var b1 := Meanwhile(cfg, AfterAllow(cfg, b0, now), a.during);
      if Succeeds(a.reply) then AfterSuccess(cfg, b1) else AfterFailure(cfg, b1, now + a.took)
  }

  /** How an attempt ends the call, if it does: a refusal, an answer, or the end of the context. */
  function EndAfter(cfg: Config, b: Breaker, a: Attempt, now: int, isLast: bool): Option<Result> {
    if !Admits(cfg, Meanwhile(cfg, b, a.before), now) then Some(Refused)
    else if Succeeds(a.reply) then Some(Answer(a.reply.code))
    else if !isLast && a.cancelled then Some(Cancelled)
    else None
  }

  /** What this call does to the breaker in an attempt that ends like that. */
  function OwnPart(a: Attempt, now: int, end: Option<Result>): seq<Event> {
    if end == Some(Refused) then [Allow(now)]
    else [Allow(now), if end.Some? && end.value.Answer? then Success else Failure(now + a.took)]
  }

  function Sent(end: Option<Result>): nat {
    if end == Some(Refused) then 0 else 1
  }

  /** The call from its `k`-th attempt on. */
  function Attempts(cfg: Config, maxRetries: int, b: Breaker, now: int, x: seq<Attempt>, k: nat): Course
    requires maxRetries < |x|
    decreases maxRetries + 1 - k
  {
    if k > maxRetries then Course(b, Exceeded, 0, []) else
      var end := EndAfter(cfg, b, x[k], now, k == maxRetries);
      var b', own := AfterAttempt(cfg, b, x[k], now), OwnPart(x[k], now, end);
      if end.Some? then Course(b', end.value, Sent(end), own)
      else Before(1, own, Attempts(cfg, maxRetries, b', now + x[k].took + x[k].wait, x, k + 1))
  }

  // ---------------------------------------------------------------- who did what to the breaker

  /** An event on the breaker, and whether this call is its cause. */
  datatype Entry = Entry(mine: bool, e: Event)

  /** The entries are the events es in their order, this call's among them are `own`, the rest `others`. */
  ghost predicate Interleaves(log: seq<Entry>, es: seq<Event>, own: seq<Event>, others: seq<Event>)
    decreases |log|
  {
    if log == [] then es == own == others == [] else
      && es != [] && es[0] == log[0].e
      && if log[0].mine then own != [] && own[0] == es[0] && Interleaves(log[1..], es[1..], own[1..], others)
         else others != [] && others[0] == es[0] && Interleaves(log[1..], es[1..], own, others[1..])
  }

  lemma {:induction false} InterleavesMore(log: seq<Entry>, es: seq<Event>, own: seq<Event>, others: seq<Event>, x: Entry)
    requires Interleaves(log, es, own, others)
    ensures Interleaves(log + [x], es + [x.e], if x.mine then own + [x.e] else own, if x.mine then others else others + [x.e])
    decreases |log|
  {
    if log == [] {
      assert (log + [x])[1..] == [] && (es + [x.e])[1..] == [] && [x.e][1..] == [];
    } else {
      assert (log + [x])[1..] == log[1..] + [x] && (es + [x.e])[1..] == es[1..] + [x.e];
      if log[0].mine {
        InterleavesMore(log[1..], es[1..], own[1..], others, x);
        assert (own + [x.e])[1..] == own[1..] + [x.e];
      } else {
        InterleavesMore(log[1..], es[1..], own, others[1..], x);
        assert (others + [x.e])[1..] == others[1..] + [x.e];
      }
    }
  }

  /** What the others do to the breaker before and during the first n attempts. */
  function Foreign(x: seq<Attempt>, n: nat): seq<Event>
    requires n <= |x|
  {
    if n == 0 then [] else Foreign(x, n - 1) + (x[n - 1].before + x[n - 1].during)
  }

  /** What the others did until the call ended after `sent` requests. */
  function ForeignUntil(x: seq<Attempt>, sent: nat, result: Result): seq<Event>
    requires sent <= |x| && (result.Refused? ==> sent < |x|)
  {
    if result.Refused? then Foreign(x, sent) + x[sent].before else Foreign(x, sent)
  }

  /** The k-th attempt comes next, and the call will end as `all` says. */
  predicate OnTrack(cfg: Config, maxRetries: int, b: Breaker, now: int, x: seq<Attempt>, k: nat,
      own: seq<Event>, others: seq<Event>, all: Course)
    requires maxRetries < |x|
  {
    && k <= |x| && others == Foreign(x, k)
    && all == Before(k, own, Attempts(cfg, maxRetries, b, now, x, k))
  }

  /** The call ended as `all` says. */
  predicate Ended(b: Breaker, x: seq<Attempt>, result: Result, sent: nat, own: seq<Event>, others: seq<Event>, all: Course) {
    && sent <= |x| && (result.Refused? ==> sent < |x|)
    && all == Course(b, result, sent, own)
    && others == ForeignUntil(x, sent, result)
  }

  class Client {
    const breaker: CircuitBreaker
    const maxRetries: int

    /** The log and the fields of the breaker when the call began, and whose the entries have been since. */
    ghost var start: seq<Event>
    ghost var first: Breaker
    ghost var log: seq<Entry>
    ghost var own: seq<Event>
    ghost var others: seq<Event>

    /** The breaker is what everything that happened to it since the call began makes of it, and of that
        this call did `own` and the others did `others`. */
    ghost predicate Valid()
      reads this, breaker
    {
      && start <= breaker.log
      && breaker.Model() == Meanwhile(breaker.config, first, breaker.log[|start|..])
      && Interleaves(log, breaker.log[|start|..], own, others)
    }

    constructor (breaker: CircuitBreaker, maxRetries: int)
      ensures this.breaker == breaker && this.maxRetries == maxRetries
    {
      this.breaker, this.maxRetries := breaker, maxRetries;
    }

    ghost method Note(x: Entry)
      requires |start| < |breaker.log| && start <= breaker.log && breaker.log[|breaker.log| - 1] == x.e
      requires Interleaves(log, breaker.log[|start|..|breaker.log| - 1], own, others)
      requires breaker.Model()
        == Step(breaker.config, Meanwhile(breaker.config, first, breaker.log[|start|..|breaker.log| - 1]), x.e)
      modifies this
      ensures Valid() && start == old(start) && first == old(first)
      ensures own == (if x.mine then old(own) + [x.e] else old(own))
      ensures others == (if x.mine then old(others) else old(others) + [x.e])
    {
      hide Interleaves, Step;
      InterleavesMore(log, breaker.log[|start|..|breaker.log| - 1], own, others, x);
      ghost var es := breaker.log[|start|..|breaker.log| - 1];
      assert breaker.log[|start|..] == es + [x.e] && (es + [x.e])[..|es|] == es;
      log := log + [x];
      if x.mine {
        own := own + [x.e];
      } else {
        others := others + [x.e];
      }
    }

    method Allow(now: int) returns (ok: bool)
      requires Valid()
      modifies this, breaker
      ensures Valid() && start == old(start) && first == old(first) && own == old(own) + [Event.Allow(now)] && others == old(others)
      ensures ok == Admits(breaker.config, old(breaker.Model()), now)
      ensures breaker.Model() == AfterAllow(breaker.config, old(breaker.Model()), now)
    {
      ok := breaker.Allow(now);
      assert breaker.log[|start|..|breaker.log| - 1] == old(breaker.log)[|start|..];
      Note(Entry(true, Event.Allow(now)));
    }

    method RecordSuccess()
      requires Valid()
      modifies this, breaker
      ensures Valid() && start == old(start) && first == old(first) && own == old(own) + [Success] && others == old(others)
      ensures breaker.Model() == AfterSuccess(breaker.config, old(breaker.Model()))
    {
      breaker.RecordSuccess();
      assert breaker.log[|start|..|breaker.log| - 1] == old(breaker.log)[|start|..];
      Note(Entry(true, Success));
    }

    method RecordFailure(now: int)
      requires Valid()
      modifies this, breaker
      ensures Valid() && start == old(start) && first == old(first) && own == old(own) + [Failure(now)] && others == old(others)
      ensures breaker.Model() == AfterFailure(breaker.config, old(breaker.Model()), now)
    {
      breaker.RecordFailure(now);
      assert breaker.log[|start|..|breaker.log| - 1] == old(breaker.log)[|start|..];
      Note(Entry(true, Failure(now)));
    }

    method Other(e: Event)
      requires Valid()
      modifies this, breaker
      ensures Valid() && start == old(start) && first == old(first) && own == old(own) && others == old(others) + [e]
      ensures breaker.Model() == Step(breaker.config, old(breaker.Model()), e)
    {
      match e {
        case Allow(at) => var _ := breaker.Allow(at);
        case Success => breaker.RecordSuccess();
        case Failure(at) => breaker.RecordFailure(at);
      }
      assert breaker.log[|start|..|breaker.log| - 1] == old(breaker.log)[|start|..];
      Note(Entry(false, e));
    }

    method Others(es: seq<Event>)
      requires Valid()
      modifies this, breaker
      ensures Valid() && start == old(start) && first == old(first) && own == old(own) && others == old(others) + es
      ensures breaker.Model() == Meanwhile(breaker.config, old(breaker.Model()), es)
    {
      for i := 0 to |es|
        invariant Valid() && start == old(start) && first == old(first) && own == old(own) && others == old(others) + es[..i]
        invariant breaker.Model() == Meanwhile(breaker.config, old(breaker.Model()), es[..i])
      {
        assert es[..i + 1][..i] == es[..i] && es[..i + 1] == es[..i] + [es[i]];
        Other(es[i]);
      }
      assert es[..|es|] == es;
    }

    ghost method Begin()
      modifies this
      ensures Valid() && start == breaker.log && first == breaker.Model() && own == others == []
    {
      start, first, log, own, others := breaker.log, breaker.Model(), [], [], [];
      assert breaker.log[|start|..] == [];
    }

    /** One attempt, with the others before and during it. */
    method Try(a: Attempt, now: int, isLast: bool) returns (end: Option<Result>)
      requires Valid()
      modifies this, breaker
      ensures Valid() && start == old(start) && first == old(first)
      ensures end == EndAfter(breaker.config, old(breaker.Model()), a, now, isLast)
      ensures breaker.Model() == AfterAttempt(breaker.config, old(breaker.Model()), a, now)
      ensures own == old(own) + OwnPart(a, now, end)
      ensures end == Some(Refused) <==> !Admits(breaker.config, Meanwhile(breaker.config, old(breaker.Model()), a.before), now)
      ensures end != Some(Refused) ==>
        if a.reply.Status? && a.reply.code < 500 && a.reply.code != 429
        then own == old(own) + [Event.Allow(now), Success] && end == Some(Answer(a.reply.code))
        else (
          && own == old(own) + [Event.Allow(now), Failure(now + a.took)]
          && end == if !isLast && a.cancelled then Some(Cancelled) else None)
      ensures others == old(others) + if end == Some(Refused) then a.before else a.before + a.during
    {
      hide Interleaves, Meanwhile, Step;
      Others(a.before);
      var ok := Allow(now);
      if !ok {
        return Some(Refused);
      }
      Others(a.during);
      assert others == old(others) + (a.before + a.during);
      if Succeeds(a.reply) {
        RecordSuccess();
        return Some(Answer(a.reply.code));
      }
      RecordFailure(now + a.took);
      end := if !isLast && a.cancelled then Some(Cancelled) else None;
    }

    method Turn(x: seq<Attempt>, now: int, k: nat, ghost all: Course) returns (end: Option<Result>)
      requires Valid() && k <= maxRetries < |x|
      requires OnTrack(breaker.config, maxRetries, breaker.Model(), now, x, k, own, others, all)
      modifies this, breaker
      ensures Valid() && start == old(start) && first == old(first)
      ensures end.None? ==>
        OnTrack(breaker.config, maxRetries, breaker.Model(), now + x[k].took + x[k].wait, x, k + 1, own, others, all)
      ensures end.Some? ==> Ended(breaker.Model(), x, end.value, k + Sent(end), own, others, all)
    {
      ghost var b, did, seen := breaker.Model(), own, others;
      end := Try(x[k], now, k == maxRetries);
      TurnFits(breaker.config, maxRetries, b, now, x, k, did, seen, all, end, breaker.Model(), own, others);
    }

    method Loop(x: seq<Attempt>, at: int, ghost all: Course) returns (result: Result, sent: nat)
      requires Valid() && maxRetries < |x|
      requires OnTrack(breaker.config, maxRetries, breaker.Model(), at, x, 0, own, others, all)
      modifies this, breaker
      ensures Valid() && start == old(start) && first == old(first)
      ensures Ended(breaker.Model(), x, result, sent, own, others, all)
    {
      hide Attempts, OnTrack, Ended, Foreign, Interleaves, Meanwhile;
      sent := 0;
      var now := at;
      while sent <= maxRetries
        invariant sent <= Max(0, maxRetries + 1)
        invariant Valid() && start == old(start) && first == old(first)
        invariant OnTrack(breaker.config, maxRetries, breaker.Model(), now, x, sent, own, others, all)
        decreases maxRetries - sent
      {
        var end := Turn(x, now, sent, all);
        if end.Some? {
          return end.value, sent + Sent(end);
        }
        now := now + x[sent].took + x[sent].wait;
        sent := sent + 1;
      }
      NoAttemptIsLeft(breaker.config, maxRetries, breaker.Model(), now, x, sent, own, others, all);
      result := Exceeded;
    }

    /** Retries until an answer, a refusal, the end of the context, or the last retry.  The breaker ends as
        the others' events and this call's, interleaved, make it; this call's are exactly one record for
        each admitted attempt, and the others' are all there in their order. */
    method DoWithContext(at: int, x: seq<Attempt>) returns (result: Result, sent: nat)
      requires maxRetries < |x|
      modifies this, breaker
      ensures Valid() && start == old(breaker.log) && first == old(breaker.Model())
      ensures Course(breaker.Model(), result, sent, own)
        == Attempts(breaker.config, maxRetries, old(breaker.Model()), at, x, 0)
      ensures Recorded(x, at, 0, maxRetries, own, sent, result)
      ensures sent <= |x| && (result.Refused? ==> sent < |x|) && others == ForeignUntil(x, sent, result)
    {
      EveryAttemptIsRecordedOnce(breaker.config, maxRetries, breaker.Model(), at, x, 0);
      Begin();
      result, sent := Loop(x, at, Attempts(breaker.config, maxRetries, breaker.Model(), at, x, 0));
    }
  }

  lemma AttemptsNext(cfg: Config, maxRetries: int, b: Breaker, now: int, x: seq<Attempt>, k: nat, own: seq<Event>)
    requires k <= maxRetries < |x|
    ensures var end := EndAfter(cfg, b, x[k], now, k == maxRetries);
      var b', part := AfterAttempt(cfg, b, x[k], now), OwnPart(x[k], now, end);
      Before(k, own, Attempts(cfg, maxRetries, b, now, x, k)) ==
        if end.Some? then Course(b', end.value, k + Sent(end), own + part)
        else Before(k + 1, own + part, Attempts(cfg, maxRetries, b', now + x[k].took + x[k].wait, x, k + 1))
  {
    var end := EndAfter(cfg, b, x[k], now, k == maxRetries);
    var b', part := AfterAttempt(cfg, b, x[k], now), OwnPart(x[k], now, end);
    if end.None? {
      var rest := Attempts(cfg, maxRetries, b', now + x[k].took + x[k].wait, x, k + 1);
      assert own + (part + rest.own) == own + part + rest.own;
    }
  }

  /** One attempt from a call that is on its track leaves it there, or ends it where the track ends. */
  lemma TurnFits(cfg: Config, maxRetries: int, b: Breaker, now: int, x: seq<Attempt>, k: nat, own: seq<Event>,
      others: seq<Event>, all: Course, end: Option<Result>, b': Breaker, own': seq<Event>, others': seq<Event>)
    requires k <= maxRetries < |x| && OnTrack(cfg, maxRetries, b, now, x, k, own, others, all)
    requires end == EndAfter(cfg, b, x[k], now, k == maxRetries) && b' == AfterAttempt(cfg, b, x[k], now)
    requires own' == own + OwnPart(x[k], now, end)
    requires others' == others + if end == Some(Refused) then x[k].before else x[k].before + x[k].during
    ensures if end.Some? then Ended(b', x, end.value, k + Sent(end), own', others', all)
      else OnTrack(cfg, maxRetries, b', now + x[k].took + x[k].wait, x, k + 1, own', others', all)
  {
    AttemptsNext(cfg, maxRetries, b, now, x, k, own);
  }

  lemma NoAttemptIsLeft(cfg: Config, maxRetries: int, b: Breaker, now: int, x: seq<Attempt>, k: nat,
      own: seq<Event>, others: seq<Event>, all: Course)
    requires maxRetries < k <= |x| && OnTrack(cfg, maxRetries, b, now, x, k, own, others, all)
    ensures Ended(b, x, Exceeded, k, own, others, all)
  {
    assert own + [] == own;
  }

  // ---------------------------------------------------------------- one record per admitted attempt

  /** When the n-th attempt after the k-th begins. */
  function BeginOf(now: int, x: seq<Attempt>, k: nat, n: nat): int
    requires k + n <= |x|
    decreases n
  {
    if n == 0 then now else BeginOf(now + x[k].took + x[k].wait, x, k + 1, n - 1)
  }

  /** An attempt's admission and its one record: a success for an answer below 500 that is not 429, which
      ends the call, and a failure for everything else. */
  predicate IsRecord(a: Attempt, begin: int, admission: Event, record: Event, isLast: bool, result: Result) {
    && admission == Allow(begin)
    && (if a.reply.Status? && a.reply.code < 500 && a.reply.code != 429
        then record == Success && isLast && result == Answer(a.reply.code)
        else record == Failure(begin + a.took))
  }

  /** `own` holds admission and record of each request sent, from the k-th attempt on.  Failures end the call
      only if the context ends in the backoff or the retries are used up; a refused call ends with an
      admission that was not given. */
  predicate Recorded(x: seq<Attempt>, now: int, k: nat, maxRetries: int, own: seq<Event>, sent: nat, result: Result) {
    && k + sent <= |x| && |own| == 2 * sent + (if result.Refused? then 1 else 0)
    && (result.Refused? ==> own[2 * sent] == Allow(BeginOf(now, x, k, sent)))
    && (forall i :: 0 <= i < sent ==>
          IsRecord(x[k + i], BeginOf(now, x, k, i), own[2 * i], own[2 * i + 1], i == sent - 1, result))
    && match result
       case Answer(code) => sent > 0 && x[k + sent - 1].reply == Status(code) && code < 500 && code != 429
       case Cancelled => sent > 0 && x[k + sent - 1].cancelled && k + sent <= maxRetries
       case Exceeded => sent == Max(0, maxRetries + 1 - k)
       case Refused => k + sent <= maxRetries
  }

  lemma AttemptIsRecorded(cfg: Config, b: Breaker, x: seq<Attempt>, now: int, k: nat, maxRetries: int)
    requires k <= maxRetries < |x|
    ensures var end := EndAfter(cfg, b, x[k], now, k == maxRetries); var part := OwnPart(x[k], now, end);
      if end.Some? then Recorded(x, now, k, maxRetries, part, Sent(end), end.value)
      else (
        && part == [Allow(now), Failure(now + x[k].took)]
        && !(x[k].reply.Status? && x[k].reply.code < 500 && x[k].reply.code != 429))
  {
  }

  lemma RecordedMore(x: seq<Attempt>, now: int, k: nat, maxRetries: int, own: seq<Event>, sent: nat, result: Result)
    requires k <= maxRetries < |x| && !(x[k].reply.Status? && x[k].reply.code < 500 && x[k].reply.code != 429)
    requires Recorded(x, now + x[k].took + x[k].wait, k + 1, maxRetries, own, sent, result)
    ensures Recorded(x, now, k, maxRetries, [Allow(now), Failure(now + x[k].took)] + own, sent + 1, result)
  {
    var all, later := [Allow(now), Failure(now + x[k].took)] + own, now + x[k].took + x[k].wait;
    forall i | 0 < i < sent + 1
      ensures IsRecord(x[k + i], BeginOf(now, x, k, i), all[2 * i], all[2 * i + 1], i == sent, result)
    {
      assert all[2 * i] == own[2 * (i - 1)] && all[2 * i + 1] == own[2 * (i - 1) + 1];
      assert BeginOf(now, x, k, i) == BeginOf(later, x, k + 1, i - 1) && x[k + i] == x[(k + 1) + (i - 1)];
    }
    if result.Refused? {
      assert all[2 * (sent + 1)] == own[2 * sent];
    }
  }

  /** Every admitted attempt is recorded exactly once, whatever the other callers do: as the success that it
      is answered with, or as a failure that is retried. */
  lemma {:induction false} EveryAttemptIsRecordedOnce(cfg: Config, maxRetries: int, b: Breaker, now: int, x: seq<Attempt>, k: nat)
    requires maxRetries < |x| && k <= |x|
    ensures var o := Attempts(cfg, maxRetries, b, now, x, k);
      Recorded(x, now, k, maxRetries, o.own, o.sent, o.result) && o.sent <= Max(0, maxRetries + 1 - k)
    decreases maxRetries + 1 - k
  {
    hide AfterAttempt, EndAfter, OwnPart, Recorded;
    if k <= maxRetries {
      var b', t := AfterAttempt(cfg, b, x[k], now), now + x[k].took + x[k].wait;
      EveryAttemptIsRecordedOnce(cfg, maxRetries, b', t, x, k + 1);
      var rest, end := Attempts(cfg, maxRetries, b', t, x, k + 1), EndAfter(cfg, b, x[k], now, k == maxRetries);
      AttemptIsRecorded(cfg, b, x, now, k, maxRetries);
      if end.None? {
        RecordedMore(x, now, k, maxRetries, rest.own, rest.sent, rest.result);
      }
    } else {
      NothingIsRecorded(x, now, k, maxRetries);
    }
  }

  lemma NothingIsRecorded(x: seq<Attempt>, now: int, k: nat, maxRetries: int)
    requires maxRetries < k <= |x|
    ensures Recorded(x, now, k, maxRetries, [], 0, Exceeded)
  {
  }

  // ---------------------------------------------------------------- alone, with everything failing

  ghost predicate AllFailAlone(cfg: Config, x: seq<Attempt>) {
    forall k :: 0 <= k < |x| ==>
      && x[k].before == [] && x[k].during == [] && !x[k].cancelled && x[k].wait <= cfg.timeout
      && (x[k].reply.Status? ==> x[k].reply.code >= 500 || x[k].reply.code == 429)
  }

  lemma {:induction false} FailingAloneFrom(cfg: Config, maxRetries: int, b: Breaker, now: int, x: seq<Attempt>, k: nat)
    requires AllFailAlone(cfg, x) && k <= maxRetries + 1 <= |x|
    requires b.state.Closed? && b.failures < cfg.maxFailures
    ensures var o := Attempts(cfg, maxRetries, b, now, x, k); var left := maxRetries + 1 - k; var room := cfg.maxFailures - b.failures;
      && o.sent == Min(left, room)
      && (o.b.state.Open? <==> left >= room)
      && o.result == (if left > room then Refused else Exceeded)
    decreases maxRetries + 1 - k
  {
    if k <= maxRetries {
      var t := now + x[k].took;
      var b2 := AfterFailure(cfg, b, t);
      assert AfterAttempt(cfg, b, x[k], now) == b2;
      if b2.state.Closed? {
        FailingAloneFrom(cfg, maxRetries, b2, t + x[k].wait, x, k + 1);
      } else if k < maxRetries {
        assert Meanwhile(cfg, b2, x[k + 1].before) == b2;
      }
    }
  }

  /** Alone from a closed breaker with f recorded failures, all attempts failing: the call sends as many
      requests as retries or the breaker allow, whichever is less, and opens the breaker exactly when
      the retries reach that far. */
  lemma FailingAlone(cfg: Config, maxRetries: int, b: Breaker, now: int, x: seq<Attempt>)
    requires AllFailAlone(cfg, x) && 0 <= maxRetries < |x|
    requires b.state.Closed? && b.failures < cfg.maxFailures
    ensures var o := Attempts(cfg, maxRetries, b, now, x, 0);
      && o.sent == Min(maxRetries + 1, cfg.maxFailures - b.failures)
      && (o.b.state.Open? <==> maxRetries + 1 >= cfg.maxFailures - b.failures)
      && (o.result.Refused? <==> maxRetries + 1 > cfg.maxFailures - b.failures)
  {
    FailingAloneFrom(cfg, maxRetries, b, now, x, 0);
  }
}

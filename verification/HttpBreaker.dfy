/** The circuit breaker of the outbound HTTP client, against the log of what was recorded on it. */
module HttpBreaker {
  import opened Prelude

  datatype State = Closed | Open | HalfOpen

  datatype Config = Config(maxFailures: int, timeout: int, halfOpenMax: int, successThreshold: int)

  datatype Breaker = Breaker(state: State, failures: int, successes: int, lastFailure: int, halfOpenReqs: int)

  const NEW := Breaker(Closed, 0, 0, 0, 0)

  // ---------------------------------------------------------------- the three operations

  function Admits(cfg: Config, b: Breaker, now: int): bool {
    match b.state
    case Closed => true
    case Open => now - b.lastFailure > cfg.timeout
    case HalfOpen => b.halfOpenReqs < cfg.halfOpenMax
  }

  function AfterAllow(cfg: Config, b: Breaker, now: int): Breaker {
    if !Admits(cfg, b, now) then b else
      match b.state
      case Closed => b
      case Open => b.(state := HalfOpen, halfOpenReqs := 0, successes := 0)
      case HalfOpen => b.(halfOpenReqs := b.halfOpenReqs + 1)
  }

  function AfterSuccess(cfg: Config, b: Breaker): Breaker {
    match b.state
    case HalfOpen =>
      if b.successes + 1 >= cfg.successThreshold then Breaker(Closed, 0, 0, b.lastFailure, 0)
      else b.(successes := b.successes + 1)
    case Closed => b.(failures := 0)
    case Open => b
  }

  function AfterFailure(cfg: Config, b: Breaker, now: int): Breaker {
    var b' := b.(failures := b.failures + 1, lastFailure := now);
    match b.state
    case Closed => if b'.failures >= cfg.maxFailures then b'.(state := Open) else b'
    case HalfOpen => b'.(state := Open, halfOpenReqs := 0, successes := 0)
    case Open => b'
  }

  class CircuitBreaker {
    const config: Config
    var state: State
    var failures: int
    var successes: int
    var lastFailure: int
    var halfOpenReqs: int

    /** What was asked of and recorded on the breaker so far. */
    ghost var log: seq<Event>

    /** The fields are what the log makes of a new breaker. */
    ghost predicate Valid()
      reads this
    {
      Model() == Play(config, log)
    }

    ghost function Model(): Breaker
      reads this
    {
      Breaker(state, failures, successes, lastFailure, halfOpenReqs)
    }

    constructor (config: Config)
      ensures this.config == config && Model() == NEW && Valid() && log == []
    {
      this.config := config;
      state, failures, successes, lastFailure, halfOpenReqs, log := Closed, 0, 0, 0, 0, [];
    }

    method Allow(now: int) returns (ok: bool)
      modifies this
      ensures (old(Valid()) ==> Valid()) && log == old(log) + [Event.Allow(now)]
      ensures ok == Admits(config, old(Model()), now)
      ensures Model() == AfterAllow(config, old(Model()), now)
    {
      ghost var before := Model();
      match state {
        case Closed =>
          ok := true;
        case Open =>
          ok := now - lastFailure > config.timeout;
          if ok {
            state := HalfOpen;
            halfOpenReqs := 0;
            successes := 0;
          }
        case HalfOpen =>
          ok := halfOpenReqs < config.halfOpenMax;
          if ok {
            halfOpenReqs := halfOpenReqs + 1;
          }
      }
      LogGoesOn(config, before, Model(), log, Event.Allow(now));
      log := log + [Event.Allow(now)];
    }

    method RecordSuccess()
      modifies this
      ensures (old(Valid()) ==> Valid()) && log == old(log) + [Success]
      ensures Model() == AfterSuccess(config, old(Model()))
    {
      ghost var before := Model();
      match state {
        case HalfOpen =>
          successes := successes + 1;
          if successes >= config.successThreshold {
            state := Closed;
            failures := 0;
            successes := 0;
            halfOpenReqs := 0;
          }
        case Closed =>
          failures := 0;
        case Open =>
      }
      LogGoesOn(config, before, Model(), log, Success);
      log := log + [Success];
    }

    method RecordFailure(now: int)
      modifies this
      ensures (old(Valid()) ==> Valid()) && log == old(log) + [Failure(now)]
      ensures Model() == AfterFailure(config, old(Model()), now)
    {
      ghost var before := Model();
      failures := failures + 1;
      lastFailure := now;
      match state {
        case Closed =>
          if failures >= config.maxFailures {
            state := Open;
          }
        case HalfOpen =>
          state := Open;
          halfOpenReqs := 0;
          successes := 0;
        case Open =>
      }
      LogGoesOn(config, before, Model(), log, Failure(now));
      log := log + [Failure(now)];
    }

    /** Execute, for a function whose outcome at time `end` is `failed`: it is called exactly when admitted,
        and then one record of its outcome follows the admission. */
    method Execute(start: int, end: int, failed: bool) returns (called: bool)
      modifies this
      ensures (old(Valid()) ==> Valid()) && called == Admits(config, old(Model()), start)
      ensures log == old(log) + [Event.Allow(start)] + if !called then [] else [if failed then Failure(end) else Success]
      ensures !called ==> Model() == old(Model())
    {
      called := Allow(start);
      if !called {
        return;
      }
      if failed {
        RecordFailure(end);
      } else {
        RecordSuccess();
      }
    }
  }

  // ---------------------------------------------------------------- runs, and what their log says

  datatype Event = Allow(at: int) | Success | Failure(at: int)

  function Step(cfg: Config, b: Breaker, e: Event): Breaker {
    match e
    case Allow(at) => AfterAllow(cfg, b, at)
    case Success => AfterSuccess(cfg, b)
    case Failure(at) => AfterFailure(cfg, b, at)
  }

  /** The breaker after a run of events on a new one. */
  function Play(cfg: Config, es: seq<Event>): Breaker {
    if es == [] then NEW else Step(cfg, Play(cfg, es[..|es| - 1]), es[|es| - 1])
  }

  lemma LogGoesOn(cfg: Config, b: Breaker, b': Breaker, log: seq<Event>, e: Event)
    requires b' == Step(cfg, b, e)
    ensures b == Play(cfg, log) ==> b' == Play(cfg, log + [e])
  {
    PlayNext(cfg, log, e);
  }

  /** How many failures were recorded since the last recorded success. */
  function TrailingFailures(es: seq<Event>): nat {
    if es == [] then 0 else
      var front := TrailingFailures(es[..|es| - 1]);
      match es[|es| - 1]
      case Allow(_) => front
      case Success => 0
      case Failure(_) => front + 1
  }

  /** When the latest failure was recorded. */
  function LatestFailure(es: seq<Event>): Option<int> {
    if es == [] then None else
      match es[|es| - 1]
      case Failure(at) => Some(at)
      case _ => LatestFailure(es[..|es| - 1])
  }

  /** The counters are functions of the log: while closed the breaker knows the trailing failure run,
      which is below the limit, and a breaker that is not closed remembers the latest failure. */
  lemma {:induction false} CountersFollowTheLog(cfg: Config, es: seq<Event>)
    ensures var b := Play(cfg, es);
      && (b.state.Closed? ==> b.failures == TrailingFailures(es) < Max(1, cfg.maxFailures))
      && (LatestFailure(es).Some? ==> b.lastFailure == LatestFailure(es).value)
      && (!b.state.Closed? ==> LatestFailure(es).Some?)
      && (b.state.HalfOpen? ==> 0 <= b.halfOpenReqs <= Max(0, cfg.halfOpenMax))
      && (b.state.HalfOpen? ==> 0 <= b.successes < Max(1, cfg.successThreshold))
  {
    if es != [] {
      CountersFollowTheLog(cfg, es[..|es| - 1]);
    }
  }

  lemma PlayNext(cfg: Config, es: seq<Event>, e: Event)
    ensures Play(cfg, es + [e]) == Step(cfg, Play(cfg, es), e)
  {
    assert (es + [e])[..|es|] == es;
  }

  /** The breaker opens on a recorded failure only: out of closed on the one that makes the trailing run
      reach the limit, out of half-open on any. */
  lemma OpensExactlyOn(cfg: Config, es: seq<Event>, e: Event)
    requires !Play(cfg, es).state.Open?
    ensures Play(cfg, es + [e]).state.Open? <==>
      e.Failure? && (Play(cfg, es).state.HalfOpen? || TrailingFailures(es + [e]) == Max(1, cfg.maxFailures))
  {
    PlayNext(cfg, es, e);
    CountersFollowTheLog(cfg, es);
    assert (es + [e])[..|es|] == es;
  }

  /** While open, a call is admitted exactly when more than the timeout passed since the latest recorded
      failure, and only an admission ends the open state; recorded outcomes do not. */
  lemma OpenWaitsForTheTimeout(cfg: Config, es: seq<Event>, e: Event)
    requires Play(cfg, es).state.Open?
    ensures LatestFailure(es).Some?
    ensures forall now :: Admits(cfg, Play(cfg, es), now) <==> now > LatestFailure(es).value + cfg.timeout
    ensures !Play(cfg, es + [e]).state.Open? <==> e.Allow? && e.at > LatestFailure(es).value + cfg.timeout
  {
    PlayNext(cfg, es, e);
    CountersFollowTheLog(cfg, es);
  }

  /** The successes recorded since the admission that made the breaker half-open. */
  function SuccessesSinceProbe(cfg: Config, es: seq<Event>): nat {
    if es == [] || !Play(cfg, es).state.HalfOpen? || !Play(cfg, es[..|es| - 1]).state.HalfOpen? then 0
    else SuccessesSinceProbe(cfg, es[..|es| - 1]) + if es[|es| - 1].Success? then 1 else 0
  }

  lemma {:induction false} HalfOpenCountsSuccesses(cfg: Config, es: seq<Event>)
    requires Play(cfg, es).state.HalfOpen?
    ensures Play(cfg, es).successes == SuccessesSinceProbe(cfg, es)
  {
    if Play(cfg, es[..|es| - 1]).state.HalfOpen? {
      HalfOpenCountsSuccesses(cfg, es[..|es| - 1]);
    }
  }

  /** The breaker closes exactly on the success that completes SuccessThreshold of them since it became
      half-open; no failure has been recorded in between. */
  lemma ClosesExactlyOn(cfg: Config, es: seq<Event>, e: Event)
    requires !Play(cfg, es).state.Closed?
    ensures Play(cfg, es + [e]).state.Closed? <==>
      Play(cfg, es).state.HalfOpen? && e.Success? && SuccessesSinceProbe(cfg, es) + 1 >= cfg.successThreshold
    ensures Play(cfg, es + [e]).state.Closed? ==> Play(cfg, es + [e]).failures == TrailingFailures(es + [e]) == 0
  {
    PlayNext(cfg, es, e);
    if Play(cfg, es).state.HalfOpen? {
      HalfOpenCountsSuccesses(cfg, es);
    }
    assert (es + [e])[..|es|] == es;
  }
}

/** Many callers share one breaker: calls admitted in one state may be recorded in another.  Each call
    in flight carries the half-open episode that admitted it, if any. */
module HttpTraffic {
  import opened Prelude
  import opened HttpBreaker

  /** `tags` maps the calls in flight to the episode that admitted them; `admitted` counts the calls
      admitted in the current episode. */
  datatype Traffic = Traffic(b: Breaker, now: int, tags: map<nat, Option<nat>>, next: nat, episode: nat, admitted: nat)

  datatype Move = Tick(seconds: nat) | Ask | Land(id: nat, ok: bool)

  function Quiet(now: int): Traffic {
    Traffic(NEW, now, map[], 0, 0, 0)
  }

  /** A refused caller goes away, an admitted one is in flight until its outcome is recorded. */
  function Go(cfg: Config, n: Traffic, m: Move): Traffic {
    match m
    case Tick(seconds) => n.(now := n.now + seconds)
    case Ask =>
      if !Admits(cfg, n.b, n.now) then n else
        var b := AfterAllow(cfg, n.b, n.now);
        var opens := n.b.state.Open?;
        var episode := if opens then n.episode + 1 else n.episode;
        var tag := if b.state.HalfOpen? then Some(episode) else None;
        n.(b := b, tags := n.tags[n.next := tag], next := n.next + 1, episode := episode,
           admitted := if opens then 1 else if b.state.HalfOpen? then n.admitted + 1 else n.admitted)
    case Land(id, ok) =>
      if id !in n.tags then n else
        n.(b := if ok then AfterSuccess(cfg, n.b) else AfterFailure(cfg, n.b, n.now), tags := n.tags - {id})
  }

  ghost function Flow(cfg: Config, n: Traffic, ms: seq<Move>): Traffic
    decreases |ms|
  {
    if ms == [] then n else Flow(cfg, Go(cfg, n, ms[0]), ms[1..])
  }

  ghost predicate Reachable(cfg: Config, n: Traffic) {
    exists now: int, ms: seq<Move> :: n == Flow(cfg, Quiet(now), ms)
  }

  // ---------------------------------------------------------------- what every move keeps

  /** Calls of the current half-open episode that are not recorded yet. */
  ghost function Unrecorded(n: Traffic): set<nat> {
    set id | id in n.tags && n.tags[id] == Some(n.episode)
  }

  ghost predicate Inv(cfg: Config, n: Traffic) {
    && (forall id :: id in n.tags ==> id < n.next && (n.tags[id].Some? ==> n.tags[id].value <= n.episode))
    && (n.b.state.HalfOpen? ==>
          && 0 <= n.b.halfOpenReqs <= Max(0, cfg.halfOpenMax)
          && n.admitted == n.b.halfOpenReqs + 1
          && 0 <= n.b.successes < Max(1, cfg.successThreshold)
          && n.admitted <= n.b.successes + |Unrecorded(n)|)
  }

  lemma AskKeeps(cfg: Config, n: Traffic)
    requires Inv(cfg, n)
    ensures Inv(cfg, Go(cfg, n, Ask))
  {
    var n' := Go(cfg, n, Ask);
    if n.b.state.HalfOpen? && n' != n {
      assert Unrecorded(n') == Unrecorded(n) + {n.next};
    } else if n.b.state.Open? && n' != n {
      assert Unrecorded(n') == {n.next};
    }
  }

  lemma LandKeeps(cfg: Config, n: Traffic, id: nat, ok: bool)
    requires Inv(cfg, n)
    ensures Inv(cfg, Go(cfg, n, Land(id, ok)))
  {
    var n' := Go(cfg, n, Land(id, ok));
    if id in n.tags {
      assert Unrecorded(n') == Unrecorded(n) - {id};
    }
  }

  lemma {:induction false} FlowKeeps(cfg: Config, n: Traffic, ms: seq<Move>)
    requires Inv(cfg, n)
    ensures Inv(cfg, Flow(cfg, n, ms))
    decreases |ms|
  {
    if ms != [] {
      match ms[0] {
        case Tick(seconds) => assert Unrecorded(Go(cfg, n, ms[0])) == Unrecorded(n);
        case Ask => AskKeeps(cfg, n);
        case Land(id, ok) => LandKeeps(cfg, n, id, ok);
      }
      FlowKeeps(cfg, Go(cfg, n, ms[0]), ms[1..]);
    }
  }

  lemma ReachableIsSafe(cfg: Config)
    ensures forall n :: Reachable(cfg, n) ==> Inv(cfg, n)
  {
    forall n | Reachable(cfg, n)
      ensures Inv(cfg, n)
    {
      var now: int, ms: seq<Move> :| n == Flow(cfg, Quiet(now), ms);
      FlowKeeps(cfg, Quiet(now), ms);
    }
  }

  // ---------------------------------------------------------------- admissions and the wedge

  /** One half-open episode admits the call that starts it and at most HalfOpenMaxRequests more. */
  lemma EpisodeAdmitsFewCalls(cfg: Config, n: Traffic)
    requires Reachable(cfg, n) && n.b.state.HalfOpen?
    ensures 1 <= n.admitted <= Max(0, cfg.halfOpenMax) + 1
  {
    ReachableIsSafe(cfg);
  }

  /** Half-open, refusing, and nothing in flight that could change that. */
  predicate Wedged(cfg: Config, n: Traffic) {
    n.b.state.HalfOpen? && !Admits(cfg, n.b, n.now) && n.tags == map[]
  }

  /** A wedged breaker refuses forever: no move, and no amount of time, changes it. */
  lemma {:induction false} WedgedForever(cfg: Config, n: Traffic, ms: seq<Move>)
    requires Wedged(cfg, n)
    ensures var n' := Flow(cfg, n, ms); (n'.b, n'.tags, Admits(cfg, n'.b, n'.now)) == (n.b, map[], false)
    decreases |ms|
  {
    if ms != [] {
      WedgedForever(cfg, Go(cfg, n, ms[0]), ms[1..]);
    }
  }

  /** With a success threshold a single episode can meet, a half-open breaker that refuses is waiting
      for a call of this very episode. */
  lemma RefusingMeansWaiting(cfg: Config, n: Traffic)
    requires cfg.successThreshold <= Max(0, cfg.halfOpenMax) + 1
    requires Reachable(cfg, n) && n.b.state.HalfOpen? && !Admits(cfg, n.b, n.now)
    ensures exists id :: id in n.tags && n.tags[id] == Some(n.episode)
  {
    ReachableIsSafe(cfg);
    assert |Unrecorded(n)| > 0;
    var id :| id in Unrecorded(n);
  }

  // ---------------------------------------------------------------- runs that lead to the wedge

  lemma {:induction false} FlowSplits(cfg: Config, n: Traffic, a: seq<Move>, b: seq<Move>)
    ensures Flow(cfg, n, a + b) == Flow(cfg, Flow(cfg, n, a), b)
    decreases |a|
  {
    if a == [] {
      assert a + b == b;
    } else {
      assert (a + b)[1..] == a[1..] + b;
      FlowSplits(cfg, Go(cfg, n, a[0]), a[1..], b);
    }
  }

  lemma ReachableGoesOn(cfg: Config, n: Traffic, m: Move)
    requires Reachable(cfg, n)
    ensures Reachable(cfg, Go(cfg, n, m))
  {
    var now: int, ms: seq<Move> :| n == Flow(cfg, Quiet(now), ms);
    FlowSplits(cfg, Quiet(now), ms, [m]);
    assert Flow(cfg, n, [m]) == Flow(cfg, Go(cfg, n, m), []);
    assert Go(cfg, n, m) == Flow(cfg, Quiet(now), ms + [m]);
  }

  /** Failing calls, one after the other, open a closed breaker. */
  lemma {:induction false} FailuresOpen(cfg: Config, n: Traffic)
    requires Reachable(cfg, n) && n.b.state.Closed? && n.tags == map[]
    ensures exists n' :: Reachable(cfg, n') && n'.b.state.Open? && n'.tags == map[]
    decreases cfg.maxFailures - n.b.failures
  {
    ReachableGoesOn(cfg, n, Ask);
    var n1 := Go(cfg, n, Ask);
    ReachableGoesOn(cfg, n1, Land(n.next, false));
    var n2 := Go(cfg, n1, Land(n.next, false));
    if !n2.b.state.Open? {
      FailuresOpen(cfg, n2);
    }
  }

  /** Successful calls, one after the other, use up a half-open episode without closing the breaker. */
  lemma {:induction false} SuccessesWedge(cfg: Config, n: Traffic)
    requires cfg.successThreshold > Max(0, cfg.halfOpenMax) + 1
    requires Reachable(cfg, n) && n.b.state.HalfOpen? && n.tags == map[]
    requires n.b.successes == n.b.halfOpenReqs + 1 && n.b.halfOpenReqs <= Max(0, cfg.halfOpenMax)
    ensures exists n' :: Reachable(cfg, n') && Wedged(cfg, n')
    decreases cfg.halfOpenMax - n.b.halfOpenReqs
  {
    if Admits(cfg, n.b, n.now) {
      ReachableGoesOn(cfg, n, Ask);
      var n1 := Go(cfg, n, Ask);
      ReachableGoesOn(cfg, n1, Land(n.next, true));
      SuccessesWedge(cfg, Go(cfg, n1, Land(n.next, true)));
    }
  }

  lemma WedgeIsReached(cfg: Config)
    requires cfg.successThreshold > Max(0, cfg.halfOpenMax) + 1
    ensures exists n :: Reachable(cfg, n) && Wedged(cfg, n)
  {
    assert Quiet(0) == Flow(cfg, Quiet(0), []);
    FailuresOpen(cfg, Quiet(0));
    var n :| Reachable(cfg, n) && n.b.state.Open? && n.tags == map[];
    var wait := Tick(Max(0, n.b.lastFailure + cfg.timeout + 1 - n.now));
    ReachableGoesOn(cfg, n, wait);
    n := Go(cfg, n, wait);
    ReachableGoesOn(cfg, n, Ask);
    var id := n.next;
    n := Go(cfg, n, Ask);
    ReachableGoesOn(cfg, n, Land(id, true));
    SuccessesWedge(cfg, Go(cfg, n, Land(id, true)));
  }

  /** The breaker can get stuck half-open for good exactly when its success threshold is higher than
      the number of calls an episode admits. */
  lemma CanWedgeIff(cfg: Config)
    ensures (exists n :: Reachable(cfg, n) && Wedged(cfg, n)) <==> cfg.successThreshold > Max(0, cfg.halfOpenMax) + 1
  {
    if cfg.successThreshold > Max(0, cfg.halfOpenMax) + 1 {
      WedgeIsReached(cfg);
    } else {
      forall n | Reachable(cfg, n) ensures !Wedged(cfg, n) {
        if Wedged(cfg, n) {
          RefusingMeansWaiting(cfg, n);
        }
      }
    }
  }
}

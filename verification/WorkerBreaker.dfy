/** The worker's circuit breaker: one circuit per job type, started with no stored states. */
module WorkerBreaker {
  import opened Prelude

  /** Zero is the empty string a circuit starts with; it is none of the three named states. */
  datatype State = Zero | Closed | Open | HalfOpen

  datatype Config = Config(failureThreshold: int, successThreshold: int, timeout: int)

  const DEFAULT := Config(5, 3, 30)

  datatype Circuit = Circuit(state: State, failures: nat, successes: nat, openedAt: int)

  const FRESH := Circuit(Zero, 0, 0, 0)

  type States = map<string, Circuit>

  // ---------------------------------------------------------------- the operations on one circuit

  function Lookup(states: States, typ: string): Circuit {
    if typ in states then states[typ] else FRESH
  }

  predicate Admits(cfg: Config, c: Circuit, now: int) {
    c.state.Open? ==> now - c.openedAt > cfg.timeout
  }

  function Allowed(cfg: Config, c: Circuit, now: int): Circuit {
    if c.state.Open? && Admits(cfg, c, now) then c.(state := HalfOpen) else c
  }

  function Succeeded(cfg: Config, c: Circuit): Circuit {
    var c' := c.(successes := c.successes + 1, failures := 0);
    if c.state.HalfOpen? && c'.successes >= cfg.successThreshold then c'.(state := Closed, openedAt := 0) else c'
  }

  function Failed(cfg: Config, c: Circuit, now: int): Circuit {
    var c' := c.(failures := c.failures + 1, successes := 0);
    if c'.failures >= cfg.failureThreshold then c'.(state := Open, openedAt := now) else c'
  }

  class CircuitBreaker {
    const config: Config
    var states: States

    constructor (config: Config)
      ensures states == map[]
      ensures this.config == if config.failureThreshold == 0 then Config(5, 3, 30) else config
    {
      this.config := if config.failureThreshold == 0 then DEFAULT else config;
      states := map[];
    }

    method Allow(jobType: string, now: int) returns (ok: bool)
      modifies this
      ensures ok == Admits(config, Lookup(old(states), jobType), now)
      ensures states == Step(config, old(states), Event(jobType, Ask(now)))
    {
      if jobType !in states {
        return true;
      }
      var c := states[jobType];
      assert states[jobType := c] == states;
      match c.state {
        case Open =>
          if now - c.openedAt > config.timeout {
            states := states[jobType := c.(state := HalfOpen)];
            return true;
          }
          return false;
        case _ =>
          return true;
      }
    }

    method RecordSuccess(jobType: string)
      modifies this
      ensures states == Step(config, old(states), Event(jobType, Success))
    {
      if jobType !in states {
        states := states[jobType := FRESH];
      }
      var c := states[jobType];
      c := c.(successes := c.successes + 1, failures := 0);
      if c.state.HalfOpen? && c.successes >= config.successThreshold {
        c := c.(state := Closed, openedAt := 0);
      }
      states := states[jobType := c];
    }

    method RecordFailure(jobType: string, now: int)
      modifies this
      ensures states == Step(config, old(states), Event(jobType, Failure(now)))
    {
      if jobType !in states {
        states := states[jobType := FRESH];
      }
      var c := states[jobType];
      c := c.(failures := c.failures + 1, successes := 0);
      if c.failures >= config.failureThreshold {
        c := c.(state := Open, openedAt := now);
      }
      states := states[jobType := c];
    }
  }

  // ---------------------------------------------------------------- runs, and what their log says

  datatype Op = Ask(at: int) | Success | Failure(at: int)

  datatype Event = Event(typ: string, op: Op)

  function Step(cfg: Config, states: States, e: Event): States {
    var c := Lookup(states, e.typ);
    match e.op
    case Ask(at) => if e.typ in states then states[e.typ := Allowed(cfg, c, at)] else states
    case Success => states[e.typ := Succeeded(cfg, c)]
    case Failure(at) => states[e.typ := Failed(cfg, c, at)]
  }

  function Play(cfg: Config, es: seq<Event>): States {
    if es == [] then map[] else Step(cfg, Play(cfg, es[..|es| - 1]), es[|es| - 1])
  }

  /** The failures of a type recorded since its last success, and the other way around. */
  function FailureRun(es: seq<Event>, typ: string): nat {
    if es == [] then 0 else
      var last := es[|es| - 1];
      var front := FailureRun(es[..|es| - 1], typ);
      if last.typ != typ || last.op.Ask? then front else if last.op.Failure? then front + 1 else 0
  }

  function SuccessRun(es: seq<Event>, typ: string): nat {
    if es == [] then 0 else
      var last := es[|es| - 1];
      var front := SuccessRun(es[..|es| - 1], typ);
      if last.typ != typ || last.op.Ask? then front else if last.op.Success? then front + 1 else 0
  }

  /** When the circuit of a type was last told to open: its latest failure that made or found the run
      as long as the threshold. */
  function LastTrip(cfg: Config, es: seq<Event>, typ: string): Option<int> {
    if es == [] then None else
      var last := es[|es| - 1];
      if last.typ == typ && last.op.Failure? && FailureRun(es, typ) >= cfg.failureThreshold then Some(last.op.at)
      else LastTrip(cfg, es[..|es| - 1], typ)
  }

  /** Per type, the counters are the trailing runs of the log.  A circuit that is neither open nor
      half-open has a failure run below the threshold, and an open one remembers its last trip. */
  lemma {:induction false} CountersAreTrailingRuns(cfg: Config, es: seq<Event>, typ: string)
    ensures var c := Lookup(Play(cfg, es), typ);
      && c.failures == FailureRun(es, typ)
      && c.successes == SuccessRun(es, typ)
      && (c.state.Zero? || c.state.Closed? ==> c.failures < Max(1, cfg.failureThreshold))
      && (c.state.Open? ==> LastTrip(cfg, es, typ) == Some(c.openedAt))
      && (typ !in Play(cfg, es) ==> FailureRun(es, typ) == SuccessRun(es, typ) == 0)
  {
    if es != [] {
      CountersAreTrailingRuns(cfg, es[..|es| - 1], typ);
    }
  }

  lemma PlayNext(cfg: Config, es: seq<Event>, e: Event)
    ensures Play(cfg, es + [e]) == Step(cfg, Play(cfg, es), e)
  {
    assert (es + [e])[..|es|] == es;
  }

  /** A circuit that was never tripped or has closed opens on the failure that completes the run; a
      half-open one only on a failure that finds the run complete, so a single failure after a success
      leaves it half-open unless the threshold is one. */
  lemma OpensExactlyOn(cfg: Config, es: seq<Event>, e: Event, typ: string)
    requires !Lookup(Play(cfg, es), typ).state.Open?
    ensures var c := Lookup(Play(cfg, es), typ); var c' := Lookup(Play(cfg, es + [e]), typ);
      && (c'.state.Open? <==> e.typ == typ && e.op.Failure? && FailureRun(es + [e], typ) >= cfg.failureThreshold)
      && (c'.state.Open? && !c.state.HalfOpen? ==> FailureRun(es + [e], typ) == Max(1, cfg.failureThreshold))
  {
    PlayNext(cfg, es, e);
    CountersAreTrailingRuns(cfg, es, typ);
    CountersAreTrailingRuns(cfg, es + [e], typ);
  }

  /** It closes exactly on the success that makes the success run of a half-open circuit long enough. */
  lemma ClosesExactlyOn(cfg: Config, es: seq<Event>, e: Event, typ: string)
    requires !Lookup(Play(cfg, es), typ).state.Closed?
    ensures Lookup(Play(cfg, es + [e]), typ).state.Closed? <==>
      && Lookup(Play(cfg, es), typ).state.HalfOpen?
      && e.typ == typ && e.op.Success? && SuccessRun(es + [e], typ) >= cfg.successThreshold
  {
    PlayNext(cfg, es, e);
    CountersAreTrailingRuns(cfg, es + [e], typ);
  }

  /** A job type is refused exactly while its circuit is open and the timeout since the last trip has
      not passed; every other circuit, the untouched one included, admits without limit. */
  lemma RefusesExactlyWhileOpen(cfg: Config, es: seq<Event>, typ: string, now: int)
    ensures var c := Lookup(Play(cfg, es), typ);
      !Admits(cfg, c, now) <==>
        c.state.Open? && LastTrip(cfg, es, typ).Some? && now <= LastTrip(cfg, es, typ).value + cfg.timeout
  {
    CountersAreTrailingRuns(cfg, es, typ);
  }

  function Only(es: seq<Event>, typ: string): seq<Event> {
    if es == [] then [] else
      var last := es[|es| - 1];
      Only(es[..|es| - 1], typ) + if last.typ == typ then [last] else []
  }

  lemma StepIsLocal(cfg: Config, a: States, b: States, e: Event, typ: string)
    requires (typ in a) == (typ in b) && Lookup(a, typ) == Lookup(b, typ)
    ensures (typ in Step(cfg, a, e)) == (typ in if e.typ == typ then Step(cfg, b, e) else b)
    ensures Lookup(Step(cfg, a, e), typ) == Lookup(if e.typ == typ then Step(cfg, b, e) else b, typ)
  {
  }

  /** The circuit of a type is what the events of that type alone make of it. */
  lemma {:induction false} TypesAreIndependent(cfg: Config, es: seq<Event>, typ: string)
    ensures (typ in Play(cfg, es)) == (typ in Play(cfg, Only(es, typ)))
    ensures Lookup(Play(cfg, es), typ) == Lookup(Play(cfg, Only(es, typ)), typ)
  {
    hide Step, Lookup;
    if es != [] {
      var front := es[..|es| - 1];
      TypesAreIndependent(cfg, front, typ);
      StepIsLocal(cfg, Play(cfg, front), Play(cfg, Only(front, typ)), es[|es| - 1], typ);
      if es[|es| - 1].typ == typ {
        PlayNext(cfg, Only(front, typ), es[|es| - 1]);
      } else {
        assert Only(es, typ) == Only(front, typ);
      }
    }
  }
}

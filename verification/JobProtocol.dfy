/** The job queue as one concurrent protocol.  Workers, the serial writer, the stale-job checker, the
    startup rescue and the admin requeue path run at the same time on the same tables; every SQL
    statement, channel operation and local decision is one step, and a run is any sequence of steps.
    A step that cannot be taken where it is scheduled changes nothing. */
module JobProtocol {
  import opened Prelude
  import opened JobStore

  // ---------------------------------------------------------------- configuration

  datatype TypeConfig = TypeConfig(enabled: bool, maxAttempts: int)

  type Config = map<string, TypeConfig>

  /** A type without a configuration gets Go's zero value: disabled. */
  function ConfigOf(cfg: Config, typ: string): TypeConfig {
    if typ in cfg then cfg[typ] else TypeConfig(false, 0)
  }

  // ---------------------------------------------------------------- processNext, point by point

  datatype Kind = WriteProcessed | WriteComplete | WriteFail(error: string)

  datatype Pc =
    | Idle
    | Picked(id: nat, row: Job)                       // next: is the type enabled?
    | Skipping(id: nat)                               // disabled type: CompleteJob
    | Gating(id: nat, row: Job)                       // next: circuit breaker, then throttler
    | Refused(id: nat)                                // breaker or throttler refused: UpdateJobNextRetry
    | Probing(id: nat, row: Job)                      // next: IsJobProcessed
    | Duplicate(id: nat)                              // already processed: CompleteJob
    | Ready(id: nat, row: Job)                        // next: call the handler
    | Running(id: nat, row: Job)                      // inside the handler
    | Burying(id: nat, row: Job, error: string)       // attempts used up: CreateDeadLetterJob
    | Failing(id: nat, error: string)                 // attempts used up: FailJob
    | Delaying(id: nat, error: string)                // attempts left: UpdateJobNextRetry
    | Sending(id: nat, kind: Kind)                    // submitWrite, before the channel send
    | Waiting(id: nat, kind: Kind, ticket: nat)       // submitWrite, waiting for the reply

  // ---------------------------------------------------------------- the serial writer

  const QUEUE_CAPACITY := 1000

  /** `ticket` is the position of the request among all requests ever sent. */
  datatype Request = Request(ticket: nat, id: nat, kind: Kind)

  datatype Hand = Empty | Holding(req: Request) | Answering(req: Request, ok: bool)

  /** `sent` is every request ever put on the channel, `taken` how many of them were received (or
      lost with their process), `applied` the tickets in the order their statements took effect. */
  datatype Writer = Writer(
    queue: seq<Request>,
    hand: Hand,
    replies: map<nat, bool>,
    stopped: bool,
    sent: seq<Request>,
    taken: nat,
    applied: seq<nat>)

  // ---------------------------------------------------------------- sweeps and requeues

  /** A loop over stale rows: the first, then the second statement for the head of `rest`. */
  datatype Sweep = Asleep | First(rest: seq<Listed>) | Second(rest: seq<Listed>)

  datatype Entry = Entry(d: nat, row: DeadLetter)

  datatype Admin = Away | Inserting(rest: seq<Entry>) | Deleting(rest: seq<Entry>)

  /** What happened so far: rows in the order they were picked, rows in the order their handlers were
      started, the rows whose type a worker found disabled, every dead letter ever written, and where the
      missing ones went. */
  datatype History = History(
    picks: seq<nat>,
    runs: seq<nat>,
    skipped: set<nat>,
    buried: map<nat, DeadLetter>,
    requeued: map<nat, nat>,
    discarded: set<nat>)

  datatype Sys = Sys(
    t: Tables,
    now: int,
    cfg: Config,
    workers: map<nat, Pc>,
    writer: Writer,
    checker: Sweep,
    rescuer: Sweep,
    admins: map<nat, Admin>,
    hist: History)

  function Start(cfg: Config, now: int): Sys {
    Sys(EMPTY, now, cfg, map[], Writer([], Empty, map[], false, [], 0, []), Asleep, Asleep, map[],
        History([], [], {}, map[], map[], {}))
  }

  // ---------------------------------------------------------------- steps

  datatype HandlerResult = Done | Error(error: string) | Panicked

  datatype WorkStep =
    | Pick(row: nat, seen: bool)
    | CheckConfig
    | Complete(o: Outcome)                  // at Skipping and Duplicate
    | Gate(allowed: bool)
    | Postpone(at: int, o: Outcome)         // at Refused and Delaying
    | Probe(o: Outcome)
    | Call
    | Return(result: HandlerResult)
    | Bury(o: Outcome)
    | Fail(o: Outcome)
    | Send
    | Receive
    | GiveUp                                // cancelled or timed out inside submitWrite

  datatype WriteStep = Take | Apply(o: Outcome) | Reply | Stop

  datatype SweepStep = List(rows: seq<Listed>) | DoFirst(error: string, o: Outcome) | DoSecond(o: Outcome)

  datatype AdminStep = ListDead(entries: seq<Entry>) | Insert(o: Outcome) | Remove(o: Outcome) | Discard(d: nat)

  datatype Step =
    | Tick(seconds: nat)
    | Enqueue(tenant: Option<string>, typ: string, payload: string)
    | EnqueueKeyed(tenant: Option<string>, typ: string, payload: string, key: Option<string>)
    | Work(w: nat, work: WorkStep)
    | Write(write: WriteStep)
    | Check(check: SweepStep)
    | Rescue(rescue: SweepStep)
    | Administer(a: nat, admin: AdminStep)
    | Restart(loaded: Config)

  function PcOf(s: Sys, w: nat): Pc {
    if w in s.workers then s.workers[w] else Idle
  }

  function At(s: Sys, w: nat, pc: Pc): Sys {
    s.(workers := s.workers[w := pc])
  }

  function Touch(s: Sys, o: Outcome, t: Tables): Sys {
    if o.Applied() then s.(t := t) else s
  }

  // ---------------------------------------------------------------- the worker

  predicate CanWork(s: Sys, w: nat, e: WorkStep) {
    var pc := PcOf(s, w);
    match e
    case Pick(row, _) => pc.Idle? && IsNext(s.t, s.now, row)
    case CheckConfig => pc.Picked?
    case Complete(_) => pc.Skipping? || pc.Duplicate?
    case Gate(_) => pc.Gating?
    case Postpone(_, _) => pc.Refused? || pc.Delaying?
    case Probe(_) => pc.Probing?
    case Call => pc.Ready?
    case Return(_) => pc.Running?
    case Bury(_) => pc.Burying?
    case Fail(_) => pc.Failing?
    case Send => pc.Sending? && |s.writer.queue| < QUEUE_CAPACITY
    case Receive => pc.Waiting? && pc.ticket in s.writer.replies
    case GiveUp => pc.Sending? || pc.Waiting?
  }

  /** Where a worker goes when its handler returned. */
  function AfterHandler(cfg: Config, id: nat, row: Job, result: HandlerResult): Pc {
    match result
    case Done => Sending(id, WriteProcessed)
    case Error(error) =>
      if row.attempts + 1 >= ConfigOf(cfg, row.typ).maxAttempts then Burying(id, row, error)
      else Delaying(id, error)
    case Panicked => Idle
  }

  /** Where a worker goes when submitWrite returned: only a recorded success is then completed. */
  function AfterSubmit(id: nat, kind: Kind, ok: bool): Pc {
    if kind.WriteProcessed? && ok then Sending(id, WriteComplete) else Idle
  }

  function Enqueued(wr: Writer, id: nat, kind: Kind): Writer {
    var req := Request(|wr.sent|, id, kind);
    wr.(queue := wr.queue + [req], sent := wr.sent + [req])
  }

  function DoWork(s: Sys, w: nat, e: WorkStep): Sys
    requires CanWork(s, w, e)
  {
    var pc := PcOf(s, w);
    match e
    case Pick(id, seen) =>
      var t := AfterPick(s.t, s.now, id, w);
      At(s.(t := t, hist := s.hist.(picks := s.hist.picks + [id])), w, if seen then Picked(id, t.jobs[id]) else Idle)
    case CheckConfig =>
      if ConfigOf(s.cfg, pc.row.typ).enabled then At(s, w, Gating(pc.id, pc.row))
      else At(s.(hist := s.hist.(skipped := s.hist.skipped + {pc.id})), w, Skipping(pc.id))
    case Complete(o) => At(Touch(s, o, AfterComplete(s.t, pc.id)), w, Idle)
    case Gate(allowed) => At(s, w, if allowed then Probing(pc.id, pc.row) else Refused(pc.id))
    case Postpone(at, o) =>
      At(Touch(s, o, AfterNextRetry(s.t, pc.id, at)), w,
         if pc.Refused? then Idle else Sending(pc.id, WriteFail(pc.error)))
    case Probe(o) =>
      At(s, w, if o.Reported() && pc.id in s.t.processed then Duplicate(pc.id) else Ready(pc.id, pc.row))
    case Call => At(s.(hist := s.hist.(runs := s.hist.runs + [pc.id])), w, Running(pc.id, pc.row))
    case Return(result) => At(s, w, AfterHandler(s.cfg, pc.id, pc.row, result))
    case Bury(o) => At(Buried(s, o, pc.id, pc.row, pc.error), w, Failing(pc.id, pc.error))
    case Fail(o) => At(Touch(s, o, AfterFail(s.t, pc.id, pc.error)), w, Idle)
    case Send => At(s.(writer := Enqueued(s.writer, pc.id, pc.kind)), w, Waiting(pc.id, pc.kind, |s.writer.sent|))
    case Receive =>
      At(s.(writer := s.writer.(replies := s.writer.replies - {pc.ticket})), w,
         AfterSubmit(pc.id, pc.kind, s.writer.replies[pc.ticket]))
    case GiveUp => At(s, w, Idle)
  }

  /** CreateDeadLetterJob, remembered in the history when it took effect. */
  function Buried(s: Sys, o: Outcome, id: nat, row: Job, error: string): Sys {
    if !o.Applied() then s else
      var t := AfterBury(s.t, id, row, error, s.now);
      s.(t := t, hist := s.hist.(buried := s.hist.buried[s.t.nextDead := t.dead[s.t.nextDead]]))
  }

  // ---------------------------------------------------------------- the writer

  predicate CanWrite(s: Sys, e: WriteStep) {
    match e
    case Take => !s.writer.stopped && s.writer.hand.Empty? && s.writer.queue != []
    case Apply(_) => s.writer.hand.Holding?
    case Reply => s.writer.hand.Answering? && s.writer.hand.req.ticket !in s.writer.replies
    case Stop => !s.writer.stopped && s.writer.hand.Empty?
  }

  /** The statement a request asks for. */
  function Requested(t: Tables, req: Request): Tables {
    match req.kind
    case WriteProcessed => AfterProcessed(t, req.id)
    case WriteComplete => AfterComplete(t, req.id)
    case WriteFail(error) => AfterFail(t, req.id, error)
  }

  function DoWrite(s: Sys, e: WriteStep): Sys
    requires CanWrite(s, e)
  {
    var wr := s.writer;
    match e
    case Take => s.(writer := wr.(queue := wr.queue[1..], hand := Holding(wr.queue[0]), taken := wr.taken + 1))
    case Apply(o) =>
      var req := wr.hand.req;
      Touch(s, o, Requested(s.t, req)).(
        writer := wr.(hand := Answering(req, o.Reported()),
                      applied := if o.Applied() then wr.applied + [req.ticket] else wr.applied))
    case Reply => s.(writer := wr.(hand := Empty, replies := wr.replies[wr.hand.req.ticket := wr.hand.ok]))
    case Stop => s.(writer := wr.(stopped := true))
  }

  // ---------------------------------------------------------------- stale-job checker and rescue

  const CHECK_AGE := 600

  const RESCUE_AGE := 300

  function Next(rest: seq<Listed>): Sweep {
    if rest == [] then Asleep else First(rest)
  }

  predicate CanSweep(s: Sys, sweep: Sweep, age: int, e: SweepStep) {
    match e
    case List(rows) => sweep.Asleep? && IsStaleList(s.t, s.now, age, rows)
    case DoFirst(_, _) => sweep.First? && sweep.rest != []
    case DoSecond(_) => sweep.Second? && sweep.rest != []
  }

  /** checkStaleJobs: bury each stale row, then time it out, whatever the first statement reported. */
  function DoCheck(s: Sys, e: SweepStep): Sys
    requires CanSweep(s, s.checker, CHECK_AGE, e)
  {
    match e
    case List(rows) => s.(checker := Next(rows))
    case DoFirst(error, o) =>
      var head := s.checker.rest[0];
      Buried(s, o, head.id, head.row, error).(checker := Second(s.checker.rest))
    case DoSecond(o) =>
      Touch(s, o, AfterTimeout(s.t, s.checker.rest[0].id)).(checker := Next(s.checker.rest[1..]))
  }

  /** RescueZombies: postpone each stale row, and fail it when the first statement was reported done. */
  function DoRescue(s: Sys, e: SweepStep): Sys
    requires CanSweep(s, s.rescuer, RESCUE_AGE, e)
  {
    match e
    case List(rows) => s.(rescuer := Next(rows))
    case DoFirst(_, o) =>
      Touch(s, o, AfterNextRetry(s.t, s.rescuer.rest[0].id, s.now)).(
        rescuer := if o.Reported() then Second(s.rescuer.rest) else Next(s.rescuer.rest[1..]))
    case DoSecond(o) =>
      Touch(s, o, AfterFail(s.t, s.rescuer.rest[0].id, "Job rescued from zombie state")).(
        rescuer := Next(s.rescuer.rest[1..]))
  }

  // ---------------------------------------------------------------- the admin endpoints

  function AdminOf(s: Sys, a: nat): Admin {
    if a in s.admins then s.admins[a] else Away
  }

  function NextEntry(rest: seq<Entry>): Admin {
    if rest == [] then Away else Inserting(rest)
  }

  predicate CanAdminister(s: Sys, a: nat, e: AdminStep) {
    var pc := AdminOf(s, a);
    match e
    case ListDead(entries) =>
      pc.Away? && forall x :: x in entries ==> x.d in s.t.dead && x.row == s.t.dead[x.d]
    case Insert(_) => pc.Inserting? && pc.rest != []
    case Remove(_) => pc.Deleting? && pc.rest != []
    case Discard(_) => pc.Away?
  }

  /** retryDLQJob and retryAllDLQ: insert a fresh row for each listed entry, then delete the entry;
      an entry whose insert was reported failed is passed over.  Discard is deleteDLQJob. */
  function DoAdminister(s: Sys, a: nat, e: AdminStep): Sys
    requires CanAdminister(s, a, e)
  {
    var pc := AdminOf(s, a);
    match e
    case ListDead(entries) => s.(admins := s.admins[a := NextEntry(entries)])
    case Insert(o) =>
      var s' := if o.Applied() then Requeue(s, pc.rest[0]) else s;
      s'.(admins := s.admins[a := if o.Reported() then Deleting(pc.rest) else NextEntry(pc.rest[1..])])
    case Remove(o) =>
      Touch(s, o, AfterDelete(s.t, pc.rest[0].d)).(admins := s.admins[a := NextEntry(pc.rest[1..])])
    case Discard(d) =>
      s.(t := AfterDelete(s.t, d), hist := s.hist.(discarded := s.hist.discarded + {d}))
  }

  function Requeue(s: Sys, x: Entry): Sys {
    s.(t := AfterInsert(s.t, RetriedJob(x.row)),
       hist := s.hist.(requeued := s.hist.requeued[x.d := s.t.nextJob]))
  }

  // ---------------------------------------------------------------- runs

  /** The process stops and starts again: the tables stay, everything in memory is gone, and the
      configuration is loaded anew. */
  function AfterRestart(s: Sys, loaded: Config): Sys {
    s.(cfg := loaded, workers := map[],
       writer := s.writer.(queue := [], hand := Empty, replies := map[], stopped := false, taken := |s.writer.sent|),
       checker := Asleep, rescuer := Asleep, admins := map[])
  }

  predicate Enabled(s: Sys, e: Step) {
    match e
    case Work(w, x) => CanWork(s, w, x)
    case Write(x) => CanWrite(s, x)
    case Check(x) => CanSweep(s, s.checker, CHECK_AGE, x)
    case Rescue(x) => CanSweep(s, s.rescuer, RESCUE_AGE, x)
    case Administer(a, x) => CanAdminister(s, a, x)
    case _ => true
  }

  function Do(s: Sys, e: Step): Sys {
    if !Enabled(s, e) then s else
      match e
      case Tick(seconds) => s.(now := s.now + seconds)
      case Enqueue(tenant, typ, payload) => s.(t := AfterInsert(s.t, NewJob(tenant, typ, payload, s.now, None)))
      case EnqueueKeyed(tenant, typ, payload, key) =>
        s.(t := AfterInsertKeyed(s.t, NewJob(tenant, typ, payload, s.now, key)))
      case Work(w, x) => DoWork(s, w, x)
      case Write(x) => DoWrite(s, x)
      case Check(x) => DoCheck(s, x)
      case Rescue(x) => DoRescue(s, x)
      case Administer(a, x) => DoAdminister(s, a, x)
      case Restart(loaded) => AfterRestart(s, loaded)
  }

  function Run(s: Sys, es: seq<Step>): Sys
    decreases |es|
  {
    if es == [] then s else Run(Do(s, es[0]), es[1..])
  }

  lemma {:induction false} RunSplits(s: Sys, a: seq<Step>, b: seq<Step>)
    ensures Run(s, a + b) == Run(Run(s, a), b)
    decreases |a|
  {
    if a == [] {
      assert a + b == b;
    } else {
      assert (a + b)[1..] == a[1..] + b;
      RunSplits(Do(s, a[0]), a[1..], b);
    }
  }

  /** The states some run from an empty database ends in. */
  ghost predicate Reachable(s: Sys) {
    exists cfg: Config, now: int, es: seq<Step> :: s == Run(Start(cfg, now), es)
  }
}

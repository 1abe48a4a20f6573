/** A payment event from its receipt to the tables of payments: deliveries, the job queue, and the handler
    that processes the event, all at once. */
module WebhookPath {
  import opened Prelude
  import opened JobStore
  import opened JobProtocol
  import opened JobSafety
  import JobTheorems
  import Intake = WebhookIntake
  import Webhooks

  /** `calls` are the calls of ProcessWebhookEvent so far and `rows` the job rows they were made for, `used`
      the workers whose handler made its call already, `again` the rows requeued from dead letters. */
  datatype State = State(
    intake: Intake.State,
    billing: Webhooks.Billing,
    calls: seq<Webhooks.Call>,
    rows: seq<nat>,
    used: set<nat>,
    again: set<nat>)

  datatype Event = TakeIn(e: Intake.Event) | Process(w: nat, c: Webhooks.Call)

  /** What the handler of webhook jobs reads from a row: the payment event to process, and the webhook row. */
  function TaskOf(typ: string, payload: string): Option<Intake.JobData> {
    var read := Intake.ReadJob(payload);
    if typ == "process_webhook" && read.Some? && read.value.source == "asaas" then read else None
  }

  /** Nobody but the receiver of payment webhooks enqueues jobs about its events. */
  predicate IsOthers(e: Step) {
    match e
    case Enqueue(_, typ, payload) => TaskOf(typ, payload).None?
    case EnqueueKeyed(_, typ, payload, _) => TaskOf(typ, payload).None?
    case _ => true
  }

  /** A delivery's body is what its payload was decoded from.  A handler inside its run for a row about an event
      calls ProcessWebhookEvent for that event, once, with what the webhook row of the row's payload decodes to
      or, when reading it fails, with nothing. */
  predicate CanDo(decode: string -> Option<Webhooks.Payload>, s: State, e: Event) {
    match e
    case TakeIn(x) =>
      && Intake.CanDo(s.intake, x)
      && (x.Queue? ==> IsOthers(x.e))
      && (x.Store? ==> decode(x.body) == Some(x.p))
    case Process(w, c) =>
      var pc := PcOf(s.intake.queue, w);
      && pc.Running? && w !in s.used
      && var task := TaskOf(pc.row.typ, pc.row.payload);
         && task.Some? && c.key == ("asaas", task.value.event)
         && (c.body.None?
             || (task.value.webhook < |s.intake.rows| && c.body == decode(s.intake.rows[task.value.webhook].payload)))
  }

  predicate Starts(s: Sys, e: Step, w: nat) {
    e == Work(w, Call) && Enabled(s, e)
  }

  predicate Requeues(s: Sys, e: Step) {
    e.Administer? && e.admin.Insert? && Enabled(s, e) && e.admin.o.Applied()
  }

  function Do(s: State, e: Event): State
    requires e.TakeIn? ==> Intake.CanDo(s.intake, e.e)
  {
    match e
    case TakeIn(x) =>
      var queue := s.intake.queue;
      s.(intake := Intake.DoStep(s.intake, x),
         used := if x.Queue? && x.e.Work? && Starts(queue, x.e, x.e.w) then s.used - {x.e.w} else s.used,
         again := if x.Queue? && Requeues(queue, x.e) then s.again + {queue.t.nextJob} else s.again)
    case Process(w, c) =>
      var pc := PcOf(s.intake.queue, w);
      if !pc.Running? then s else
        s.(billing := Webhooks.Process(s.billing, c).0, calls := s.calls + [c], rows := s.rows + [pc.id], used := s.used + {w})
  }

  ghost predicate IsRun(decode: string -> Option<Webhooks.Payload>, s: State, es: seq<Event>, s': State)
    decreases |es|
  {
    if es == [] then s' == s else CanDo(decode, s, es[0]) && IsRun(decode, Do(s, es[0]), es[1..], s')
  }

  function Begin(cfg: Config, now: int, b: Webhooks.Billing): State {
    State(Intake.Begin(cfg, now), b, [], [], {}, {})
  }

  // -------- What a step of the job queue does to rows and handlers

  /** Every row keeps its work, and a new one is enqueued now or requeued. */
  ghost predicate RowsFollow(s: Sys, e: Step, s': Sys) {
    && Grows(s.t.jobs, s'.t.jobs)
    && forall j :: j in s'.t.jobs && j !in s.t.jobs ==>
         var row := s'.t.jobs[j];
         || (e.Enqueue? && row.typ == e.typ && row.payload == e.payload)
         || (e.EnqueueKeyed? && row.typ == e.typ && row.payload == e.payload && row.key == e.key)
         || (Requeues(s, e) && j == s.t.nextJob)
  }

  lemma WorkAddsNoRow(s: Sys, w: nat, e: WorkStep)
    requires CanWork(s, w, e)
    ensures DoWork(s, w, e).t.jobs.Keys == s.t.jobs.Keys
  {
  }

  lemma WriteAddsNoRow(s: Sys, e: WriteStep)
    requires CanWrite(s, e)
    ensures DoWrite(s, e).t.jobs.Keys == s.t.jobs.Keys
  {
  }

  lemma SweepsAddNoRow(s: Sys, e: SweepStep)
    ensures CanSweep(s, s.checker, CHECK_AGE, e) ==> DoCheck(s, e).t.jobs.Keys == s.t.jobs.Keys
    ensures CanSweep(s, s.rescuer, RESCUE_AGE, e) ==> DoRescue(s, e).t.jobs.Keys == s.t.jobs.Keys
  {
  }

  lemma AdminAddsRequeued(s: Sys, a: nat, e: AdminStep)
    requires CanAdminister(s, a, e)
    ensures DoAdminister(s, a, e).t.jobs.Keys
      == s.t.jobs.Keys + if Requeues(s, Administer(a, e)) then {s.t.nextJob} else {}
  {
  }

  lemma KeyedRowFollows(s: Sys, tenant: Option<string>, typ: string, payload: string, key: Option<string>)
    requires TablesOk(s.t)
    ensures var e := EnqueueKeyed(tenant, typ, payload, key); RowsFollow(s, e, JobProtocol.Do(s, e))
  {
    Intake.KeyedInsert(s.t, NewJob(tenant, typ, payload, s.now, key));
  }

  lemma StepRowsFollow(s: Sys, e: Step)
    requires TablesOk(s.t)
    ensures RowsFollow(s, e, JobProtocol.Do(s, e))
  {
    hide DoWork, DoWrite, DoCheck, DoRescue, DoAdminister;
    if e.EnqueueKeyed? {
      KeyedRowFollows(s, e.tenant, e.typ, e.payload, e.key);
    } else {
      Intake.QueueKeepsKeys(s, e);
      if Enabled(s, e) {
        match e {
          case Work(w, x) => WorkAddsNoRow(s, w, x);
          case Write(x) => WriteAddsNoRow(s, x);
          case Check(x) => SweepsAddNoRow(s, x);
          case Rescue(x) => SweepsAddNoRow(s, x);
          case Administer(a, x) => AdminAddsRequeued(s, a, x);
          case _ =>
        }
      }
    }
  }

  /** A handler runs on for the row it was called for. */
  lemma WorkRunsOn(s: Sys, e: WorkStep, v: nat, w: nat)
    requires CanWork(s, v, e) && PcOf(DoWork(s, v, e), w).Running?
    ensures PcOf(s, w) == PcOf(DoWork(s, v, e), w)
      || (v == w && e.Call? && PcOf(s, w).Ready? && PcOf(s, w).id == PcOf(DoWork(s, v, e), w).id)
  {
  }

  lemma StepRunsOn(s: Sys, e: Step, w: nat)
    requires PcOf(JobProtocol.Do(s, e), w).Running?
    ensures PcOf(s, w) == PcOf(JobProtocol.Do(s, e), w)
      || (Starts(s, e, w) && PcOf(s, w).Ready? && PcOf(s, w).id == PcOf(JobProtocol.Do(s, e), w).id)
  {
    hide DoWork;
    if e.Work? && Enabled(s, e) {
      WorkRunsOn(s, e.work, e.w, w);
    } else if !e.Work? {
      JobTheorems.OthersLeaveWorkersAlone(s, e);
    }
  }

  /** A requeued row does the work of a row that is there. */
  lemma RequeuedRowIsACopy(s: Sys, e: Step)
    requires JobSafety.Inv(s) && Requeues(s, e)
    ensures var jobs' := JobProtocol.Do(s, e).t.jobs;
      && s.t.nextJob in jobs' && s.t.nextJob !in s.t.jobs
      && exists j :: j in s.t.jobs
           && s.t.jobs[j].typ == jobs'[s.t.nextJob].typ && s.t.jobs[j].payload == jobs'[s.t.nextJob].payload
  {
    var pc := AdminOf(s, e.a);
    HeadEntryIsOk(s, e.a);
    var letter := s.hist.buried[pc.rest[0].d];
    assert Carries(s.t.jobs[letter.jobId], letter);
  }

  // -------- What holds in every reachable state

  /** A call was made for a row about its event, and what it processed is of that event. */
  ghost predicate CallOk(jobs: Jobs, j: nat, c: Webhooks.Call) {
    && j in jobs && c.key.0 == "asaas"
    && TaskOf(jobs[j].typ, jobs[j].payload).Some? && TaskOf(jobs[j].typ, jobs[j].payload).value.event == c.key.1
    && (c.body.Some? ==> Intake.GenerateEventID(c.body.value) == c.key.1)
  }

  /** Every call was, and for no row twice. */
  ghost predicate CallsOk(jobs: Jobs, runs: seq<nat>, calls: seq<Webhooks.Call>, rows: seq<nat>) {
    && |calls| == |rows| && NoDup(rows)
    && Within(rows, runs)
    && (forall i :: 0 <= i < |rows| ==> CallOk(jobs, rows[i], calls[i]))
  }

  /** A handler that has not made its call yet is the only one for its row. */
  ghost predicate HandlersOk(workers: map<nat, Pc>, rows: seq<nat>, used: set<nat>) {
    forall w :: w in workers && workers[w].Running? && w !in used ==> workers[w].id !in rows
  }

  /** A row about an event is under the event's key, or was requeued from a dead letter, and it names the webhook
      row of the event. */
  ghost predicate RowOk(row: Job, requeued: bool, rows: seq<Intake.Row>) {
    var task := TaskOf(row.typ, row.payload);
    task.Some? ==>
      && (row.key == Intake.Key(task.value.event) || requeued)
      && IsRowOf(rows, task.value.webhook, task.value.event)
  }

  predicate IsRowOf(rows: seq<Intake.Row>, n: nat, event: string) {
    n < |rows| && rows[n].source == "asaas" && rows[n].external == event
  }

  ghost predicate RowsOk(jobs: Jobs, again: set<nat>, rows: seq<Intake.Row>) {
    forall j :: j in jobs ==> RowOk(jobs[j], j in again, rows)
  }

  /** The webhook row of an event holds a body that is of the event. */
  predicate BodiesOk(decode: string -> Option<Webhooks.Payload>, rows: seq<Intake.Row>) {
    forall n :: 0 <= n < |rows| && rows[n].source == "asaas" ==>
      decode(rows[n].payload).Some? && Intake.GenerateEventID(decode(rows[n].payload).value) == rows[n].external
  }

  ghost predicate Inv(decode: string -> Option<Webhooks.Payload>, s: State) {
    var queue := s.intake.queue;
    && Intake.Inv(s.intake) && JobProtocol.Reachable(queue)
    && BodiesOk(decode, s.intake.rows)
    && CallsOk(queue.t.jobs, queue.hist.runs, s.calls, s.rows)
    && HandlersOk(queue.workers, s.rows, s.used)
    && RowsOk(queue.t.jobs, s.again, s.intake.rows)
  }

  lemma GrowthKeepsCalls(jobs: Jobs, jobs': Jobs, runs: seq<nat>, runs': seq<nat>, calls: seq<Webhooks.Call>, rows: seq<nat>)
    requires CallsOk(jobs, runs, calls, rows) && Grows(jobs, jobs') && Within(runs, runs')
    ensures CallsOk(jobs', runs', calls, rows)
  {
    hide TaskOf;
  }

  /** The step of the queue that a step of the intake takes. */
  function QueueStep(s: Intake.State, e: Intake.Event): Step
    requires Intake.CanDo(s, e)
  {
    match e
    case Queue(x) => x
    case Enqueue(d, o) =>
      if o.Applied() then EnqueueKeyed(None, "process_webhook", Intake.JobPayload(s.open[d].row, s.open[d].event),
                                       Intake.Key(s.open[d].event))
      else Tick(0)
    case _ => Tick(0)
  }

  lemma IntakeMovesQueue(s: Intake.State, e: Intake.Event)
    requires Intake.CanDo(s, e)
    ensures Intake.DoStep(s, e).queue == JobProtocol.Do(s.queue, QueueStep(s, e))
  {
    hide Intake.Upsert, Intake.JobPayload;
  }

  /** No webhook row changes its source or its event. */
  ghost predicate RowsGrow(rows: seq<Intake.Row>, rows': seq<Intake.Row>) {
    |rows| <= |rows'| && forall n :: 0 <= n < |rows| ==>
      rows'[n].source == rows[n].source && rows'[n].external == rows[n].external
  }

  lemma UpsertMovesRows(decode: string -> Option<Webhooks.Payload>, rows: seq<Intake.Row>, row: Intake.Row)
    requires BodiesOk(decode, rows) && (row.source == "asaas" ==>
      decode(row.payload).Some? && Intake.GenerateEventID(decode(row.payload).value) == row.external)
    ensures RowsGrow(rows, Intake.Upsert(rows, row)) && BodiesOk(decode, Intake.Upsert(rows, row))
  {
    hide Intake.GenerateEventID;
  }

  lemma IntakeMovesRows(decode: string -> Option<Webhooks.Payload>, s: Intake.State, e: Intake.Event)
    requires Intake.CanDo(s, e) && (e.Store? ==> decode(e.body) == Some(e.p)) && BodiesOk(decode, s.rows)
    ensures RowsGrow(s.rows, Intake.DoStep(s, e).rows) && BodiesOk(decode, Intake.DoStep(s, e).rows)
  {
    hide JobProtocol.Do, Intake.JobPayload, Intake.GenerateEventID, Intake.Upsert, BodiesOk;
    match e {
      case Store(_, p, body, _) =>
        UpsertMovesRows(decode, s.rows, Intake.Row("asaas", Intake.GenerateEventID(p), body));
      case Generic(row) => UpsertMovesRows(decode, s.rows, row);
      case _ =>
    }
  }

  /** Nobody's step but the receiver's adds a row about an event, other than by requeueing one. */
  ghost predicate IsProper(e: Step, rows: seq<Intake.Row>) {
    IsOthers(e) || exists n: nat, x ::
      IsRowOf(rows, n, x) && e == EnqueueKeyed(None, "process_webhook", Intake.JobPayload(n, x), Intake.Key(x))
  }

  lemma RowsStayOk(s: Sys, e: Step, again: set<nat>, again': set<nat>, rows: seq<Intake.Row>)
    requires JobSafety.Inv(s) && RowsOk(s.t.jobs, again, rows) && again <= again' && IsProper(e, rows)
    requires Requeues(s, e) ==> s.t.nextJob in again'
    ensures RowsOk(JobProtocol.Do(s, e).t.jobs, again', rows)
  {
    hide JobProtocol.Do, JobSafety.Inv, Intake.JobPayload, Intake.ReadJob, Requeues;
    JobTheorems.InvHasTables(s);
    StepRowsFollow(s, e);
    var jobs, jobs' := s.t.jobs, JobProtocol.Do(s, e).t.jobs;
    forall j | j in jobs'
      ensures RowOk(jobs'[j], j in again', rows)
    {
      if j in jobs {
        assert SameWork(jobs[j], jobs'[j]) && RowOk(jobs[j], j in again, rows);
      } else if Requeues(s, e) && j == s.t.nextJob {
        RequeuedRowIsACopy(s, e);
        var i :| i in jobs && jobs[i].typ == jobs'[j].typ && jobs[i].payload == jobs'[j].payload;
        assert RowOk(jobs[i], i in again, rows);
      } else if !IsOthers(e) {
        var n: nat, y :| IsRowOf(rows, n, y)
          && e == EnqueueKeyed(None, "process_webhook", Intake.JobPayload(n, y), Intake.Key(y));
        Intake.PayloadIsReadBack(n, y);
      }
    }
  }

  lemma GrowthKeepsRows(jobs: Jobs, again: set<nat>, rows: seq<Intake.Row>, rows': seq<Intake.Row>)
    requires RowsOk(jobs, again, rows) && RowsGrow(rows, rows')
    ensures RowsOk(jobs, again, rows')
  {
    hide TaskOf;
    forall j | j in jobs
      ensures RowOk(jobs[j], j in again, rows')
    {
      assert RowOk(jobs[j], j in again, rows);
    }
  }

  lemma HandlersStayOk(s: Sys, e: Step, rows: seq<nat>, used: set<nat>, used': set<nat>)
    requires JobSafety.Inv(s) && HandlersOk(s.workers, rows, used) && Within(rows, s.hist.runs)
    requires forall w :: w in used && w !in used' ==> Starts(s, e, w)
    ensures HandlersOk(JobProtocol.Do(s, e).workers, rows, used')
  {
    hide JobProtocol.Do, JobSafety.Inv;
    var workers' := JobProtocol.Do(s, e).workers;
    forall w | w in workers' && workers'[w].Running? && w !in used'
      ensures workers'[w].id !in rows
    {
      StepRunsOn(s, e, w);
      if PcOf(s, w).Ready? {
        HolderOk(s, w);
      }
    }
  }

  /** What a step of the intake does, as a step of the queue. */
  lemma TakeInMoves(decode: string -> Option<Webhooks.Payload>, s: State, x: Intake.Event)
    requires CanDo(decode, s, TakeIn(x)) && Intake.Inv(s.intake)
    ensures var queue, e, s' := s.intake.queue, QueueStep(s.intake, x), Do(s, TakeIn(x));
      && s'.intake.queue == JobProtocol.Do(queue, e)
      && s' == s.(intake := s'.intake, used := s'.used, again := s'.again)
      && s.again <= s'.again && (Requeues(queue, e) ==> queue.t.nextJob in s'.again)
      && (forall w :: w in s.used && w !in s'.used ==> Starts(queue, e, w))
      && IsProper(e, s.intake.rows)
  {
    hide JobProtocol.Do, Intake.DoStep, Intake.JobPayload, Intake.Inv, TaskOf;
    IntakeMovesQueue(s.intake, x);
    if x.Enqueue? && x.outcome.Applied() {
      var r := s.intake.open[x.d];
      Intake.ReceiptIsRight(s.intake, x.d);
      assert QueueStep(s.intake, x) == EnqueueKeyed(None, "process_webhook", Intake.JobPayload(r.row, r.event), Intake.Key(r.event));
    }
  }

  lemma QueueKeepsRest(queue: Sys, e: Step, calls: seq<Webhooks.Call>, rows: seq<nat>, used: set<nat>, used': set<nat>,
      again: set<nat>, again': set<nat>, table: seq<Intake.Row>)
    requires JobSafety.Inv(queue) && CallsOk(queue.t.jobs, queue.hist.runs, calls, rows)
    requires HandlersOk(queue.workers, rows, used) && RowsOk(queue.t.jobs, again, table) && IsProper(e, table)
    requires again <= again' && (Requeues(queue, e) ==> queue.t.nextJob in again')
    requires forall w :: w in used && w !in used' ==> Starts(queue, e, w)
    ensures var queue' := JobProtocol.Do(queue, e);
      && CallsOk(queue'.t.jobs, queue'.hist.runs, calls, rows)
      && HandlersOk(queue'.workers, rows, used') && RowsOk(queue'.t.jobs, again', table)
  {
    hide JobProtocol.Do, JobSafety.Inv, IsProper, Requeues, Starts, HandlersOk, RowsOk, CallOk, NoDup;
    JobTheorems.InvHasTables(queue);
    StepRowsFollow(queue, e);
    JobTheorems.StepIsRemembered(queue, e);
    var queue' := JobProtocol.Do(queue, e);
    GrowthKeepsCalls(queue.t.jobs, queue'.t.jobs, queue.hist.runs, queue'.hist.runs, calls, rows);
    RowsStayOk(queue, e, again, again', table);
    HandlersStayOk(queue, e, rows, used, used');
  }

  lemma TakeInKeeps(decode: string -> Option<Webhooks.Payload>, s: State, x: Intake.Event)
    requires Inv(decode, s) && CanDo(decode, s, TakeIn(x))
    ensures Inv(decode, Do(s, TakeIn(x)))
  {
    hide JobProtocol.Do, QueueStep, IsProper, Requeues, Starts, CallsOk, HandlersOk, RowsOk, BodiesOk, RowsGrow, TaskOf,
      Intake.Inv, Intake.JobPayload, Intake.DoStep;
    var queue, e, s' := s.intake.queue, QueueStep(s.intake, x), Do(s, TakeIn(x));
    Intake.StepKeeps(s.intake, x);
    TakeInMoves(decode, s, x);
    IntakeMovesRows(decode, s.intake, x);
    ReachableIsSafe(queue);
    QueueKeepsRest(queue, e, s.calls, s.rows, s.used, s'.used, s.again, s'.again, s.intake.rows);
    GrowthKeepsRows(s'.intake.queue.t.jobs, s'.again, s.intake.rows, s'.intake.rows);
  }

  lemma CallKeepsCalls(jobs: Jobs, runs: seq<nat>, calls: seq<Webhooks.Call>, rows: seq<nat>, c: Webhooks.Call, j: nat)
    requires CallsOk(jobs, runs, calls, rows) && CallOk(jobs, j, c) && j in runs && j !in rows
    ensures CallsOk(jobs, runs, calls + [c], rows + [j])
  {
    hide CallOk;
    NoDupConcat(rows, [j]);
  }

  lemma CallKeepsHandlers(workers: map<nat, Pc>, rows: seq<nat>, used: set<nat>, w: nat)
    requires HandlersOk(workers, rows, used) && HoldersOk(workers) && w in workers && workers[w].Running?
    ensures HandlersOk(workers, rows + [workers[w].id], used + {w})
  {
  }

  /** The body that a call processes is of the event it is made for. */
  lemma CallIsOfItsEvent(decode: string -> Option<Webhooks.Payload>, s: State, w: nat, c: Webhooks.Call)
    requires CanDo(decode, s, Process(w, c)) && BodiesOk(decode, s.intake.rows)
    requires RowsOk(s.intake.queue.t.jobs, s.again, s.intake.rows) && Holds(s.intake.queue, w)
    ensures CallOk(s.intake.queue.t.jobs, PcOf(s.intake.queue, w).id, c)
  {
    hide Intake.ReadJob, Intake.GenerateEventID;
    var queue := s.intake.queue;
    var id := PcOf(queue, w).id;
    assert RowOk(queue.t.jobs[id], id in s.again, s.intake.rows);
  }

  lemma ProcessKeeps(decode: string -> Option<Webhooks.Payload>, s: State, w: nat, c: Webhooks.Call)
    requires Inv(decode, s) && CanDo(decode, s, Process(w, c))
    ensures Inv(decode, Do(s, Process(w, c)))
  {
    hide Intake.Inv, RowsOk, CallsOk, CallOk, BodiesOk, TaskOf;
    var queue := s.intake.queue;
    var pc := PcOf(queue, w);
    ReachableIsSafe(queue);
    HolderOk(queue, w);
    CallIsOfItsEvent(decode, s, w, c);
    CallKeepsCalls(queue.t.jobs, queue.hist.runs, s.calls, s.rows, c, pc.id);
    CallKeepsHandlers(queue.workers, s.rows, s.used, w);
  }

  lemma {:induction false} RunKeepsInv(decode: string -> Option<Webhooks.Payload>, s: State, es: seq<Event>, s': State)
    requires Inv(decode, s) && IsRun(decode, s, es, s')
    ensures Inv(decode, s')
    decreases |es|
  {
    hide Inv, Do;
    if es != [] {
      match es[0] {
        case TakeIn(x) => TakeInKeeps(decode, s, x);
        case Process(w, c) => ProcessKeeps(decode, s, w, c);
      }
      RunKeepsInv(decode, Do(s, es[0]), es[1..], s');
    }
  }

  lemma RunIsConsistent(decode: string -> Option<Webhooks.Payload>, cfg: Config, now: int, b: Webhooks.Billing,
      es: seq<Event>, s: State)
    requires IsRun(decode, Begin(cfg, now, b), es, s)
    ensures Inv(decode, s)
  {
    var s0 := Begin(cfg, now, b);
    assert Intake.IsRun(s0.intake, [], s0.intake);
    Intake.ReachableIsConsistent(s0.intake);
    RunKeepsInv(decode, s0, es, s);
  }

  // -------- The promises

  lemma OneRowUnderTheKey(t: Tables, again: set<nat>, a: nat, b: nat, x: Webhooks.Call, y: Webhooks.Call, rows: seq<Intake.Row>)
    requires TablesOk(t) && RowsOk(t.jobs, again, rows) && CallOk(t.jobs, a, x) && CallOk(t.jobs, b, y) && x.key == y.key
    ensures a == b || a in again || b in again
  {
    hide TaskOf;
    assert RowOk(t.jobs[a], a in again, rows) && RowOk(t.jobs[b], b in again, rows);
  }

  /** However often an event is delivered, in whatever interleaving and with whatever failures: of two calls
      that process it, one is for a row requeued from a dead letter. */
  lemma OnlyARequeueProcessesAgain(decode: string -> Option<Webhooks.Payload>, cfg: Config, now: int, b: Webhooks.Billing,
      es: seq<Event>, s: State, i: nat, k: nat)
    requires IsRun(decode, Begin(cfg, now, b), es, s) && i < k < |s.calls| == |s.rows| && s.calls[i].key == s.calls[k].key
    ensures s.rows[i] in s.again || s.rows[k] in s.again
  {
    hide RowsOk, HandlersOk, CallOk, BodiesOk, Intake.Inv, IsRun;
    RunIsConsistent(decode, cfg, now, b, es, s);
    ReachableIsSafe(s.intake.queue);
    OneRowUnderTheKey(s.intake.queue.t, s.again, s.rows[i], s.rows[k], s.calls[i], s.calls[k], s.intake.rows);
  }

  /** What is processed for an event is a payload that was delivered for it, never another event's. */
  lemma BodiesAreOfTheirEvents(decode: string -> Option<Webhooks.Payload>, cfg: Config, now: int, b: Webhooks.Billing,
      es: seq<Event>, s: State, i: nat)
    requires IsRun(decode, Begin(cfg, now, b), es, s) && i < |s.calls|
    ensures s.calls[i].key.0 == "asaas"
    ensures s.calls[i].body.Some? ==> Intake.GenerateEventID(s.calls[i].body.value) == s.calls[i].key.1
  {
    hide RowsOk, HandlersOk, TaskOf, BodiesOk, Intake.Inv, IsRun, Intake.GenerateEventID;
    RunIsConsistent(decode, cfg, now, b, es, s);
    assert CallOk(s.intake.queue.t.jobs, s.rows[i], s.calls[i]);
  }

  lemma JobOfTheEvent(s: Intake.State, id: nat, x: string)
    requires Intake.Inv(s) && TablesOk(s.queue.t) && x in s.bodies
    requires id in s.queue.t.jobs && s.queue.t.jobs[id].key == Intake.Key(x)
    ensures var n := Intake.IndexOf(s.rows, Intake.SOURCE, x);
      && n < |s.rows|
      && var row := s.queue.t.jobs[id];
         (s.rows[n].payload, row.typ, row.payload) == (s.bodies[x], "process_webhook", Intake.JobPayload(n, x))
  {
    hide Intake.JobPayload;
    assert Intake.RowOf(s.rows, s.bodies, x);
    assert Intake.JobOf(s.queue.t.jobs, s.rows, s.enqueued, x);
    var j :| j in s.queue.t.jobs && Intake.IsJobOf(s.queue.t.jobs[j], Intake.IndexOf(s.rows, Intake.SOURCE, x), x);
  }

  lemma CallMayProcess(decode: string -> Option<Webhooks.Payload>, s: State, w: nat, n: nat, x: string, c: Webhooks.Call)
    requires var pc := PcOf(s.intake.queue, w);
      pc.Ready? && pc.row.typ == "process_webhook" && pc.row.payload == Intake.JobPayload(n, x)
    requires n < |s.intake.rows| && c.key == ("asaas", x) && c.body == decode(s.intake.rows[n].payload)
    ensures var call := TakeIn(Intake.Queue(Work(w, Call)));
      CanDo(decode, s, call) && CanDo(decode, Do(s, call), Process(w, c))
  {
    hide Intake.ReadJob, Intake.JobPayload, Intake.GenerateEventID;
    var pc := PcOf(s.intake.queue, w);
    Intake.PayloadIsReadBack(n, x);
    assert PcOf(JobProtocol.Do(s.intake.queue, Work(w, Call)), w) == Running(pc.id, pc.row);
  }

  /** The other way round: a worker about to call the handler for the job of an event may process it then, with
      what the body stored last decodes to. */
  lemma AStoredEventCanBeProcessed(decode: string -> Option<Webhooks.Payload>, cfg: Config, now: int, b: Webhooks.Billing,
      es: seq<Event>, s: State, w: nat, x: string, c: Webhooks.Call)
    requires IsRun(decode, Begin(cfg, now, b), es, s) && x in s.intake.bodies
    requires var queue := s.intake.queue;
      && PcOf(queue, w).Ready? && PcOf(queue, w).id in queue.t.jobs
      && queue.t.jobs[PcOf(queue, w).id].key == Some("asaas:" + x)
    requires c.key == ("asaas", x) && c.body == decode(s.intake.bodies[x])
    ensures var call := TakeIn(Intake.Queue(Work(w, Call)));
      CanDo(decode, s, call) && CanDo(decode, Do(s, call), Process(w, c))
  {
    hide CanDo, Do, IsRun, Intake.JobPayload, Intake.Inv, CallsOk, HandlersOk, RowsOk, BodiesOk;
    RunIsConsistent(decode, cfg, now, b, es, s);
    var queue := s.intake.queue;
    ReachableIsSafe(queue);
    JobTheorems.InvHasTables(queue);
    HolderOk(queue, w);
    Intake.KeyReads(x);
    JobOfTheEvent(s.intake, PcOf(queue, w).id, x);
    CallMayProcess(decode, s, w, Intake.IndexOf(s.intake.rows, Intake.SOURCE, x), x, c);
  }

  /** Payments and subscriptions are what those calls make of them, and nothing else. */
  lemma {:induction false} TablesFollowTheCalls(decode: string -> Option<Webhooks.Payload>, s: State, es: seq<Event>,
      s': State, b: Webhooks.Billing)
    requires IsRun(decode, s, es, s') && s.billing == Webhooks.ProcessAll(b, s.calls)
    ensures s'.billing == Webhooks.ProcessAll(b, s'.calls)
    decreases |es|
  {
    hide Webhooks.Process, Intake.DoStep, TaskOf;
    if es != [] {
      if es[0].Process? {
        Webhooks.OneCallMore(b, s.calls, es[0].c);
      }
      TablesFollowTheCalls(decode, Do(s, es[0]), es[1..], s', b);
    }
  }

  /** Calls of which every later one for the same event is harmless. */
  lemma {:induction false} LaterOnesAreTame(b: Webhooks.Billing, before: seq<Webhooks.Call>, calls: seq<Webhooks.Call>,
      finished: set<Webhooks.EventKey>)
    requires forall i, k :: 0 <= i < k < |before + calls| && (before + calls)[i].key == (before + calls)[k].key ==>
      Webhooks.IsHarmless((before + calls)[k])
    requires forall key :: key in finished ==> exists i :: 0 <= i < |before| && before[i].key == key
    ensures Webhooks.RepeatsAreTame(b, calls, finished)
    decreases |calls|
  {
    hide Webhooks.Process, Webhooks.IsHarmless;
    if calls != [] {
      var c, after, all := calls[0], Webhooks.Process(b, calls[0]), before + calls;
      if c.key in finished {
        var i :| 0 <= i < |before| && before[i].key == c.key;
        assert all[i] == before[i] && all[|before|] == c;
      }
      assert before + [c] + calls[1..] == all;
      var finished' := if after.1 then finished + {c.key} else finished;
      forall key | key in finished'
        ensures exists i :: 0 <= i < |before + [c]| && (before + [c])[i].key == key
      {
        if key in finished {
          var i :| 0 <= i < |before| && before[i].key == key;
          assert (before + [c])[i].key == key;
        } else {
          assert (before + [c])[|before|].key == key;
        }
      }
      LaterOnesAreTame(after.0, before + [c], calls[1..], finished');
    }
  }

  /** The event of a call has a requeued row among those that were processed. */
  ghost predicate IsRequeued(s: State, key: Webhooks.EventKey) {
    exists i :: 0 <= i < |s.calls| == |s.rows| && s.calls[i].key == key && s.rows[i] in s.again
  }

  /** Requeueing is harmless if the calls for requeued events are: the tables are then those that each event
      leaves that is processed until one of its calls returned nil, and not again. */
  lemma HarmlessRequeuesAddNothing(decode: string -> Option<Webhooks.Payload>, cfg: Config, now: int, b: Webhooks.Billing,
      es: seq<Event>, s: State)
    requires IsRun(decode, Begin(cfg, now, b), es, s)
    requires forall c <- s.calls :: IsRequeued(s, c.key) ==> Webhooks.IsHarmless(c)
    ensures s.billing == Webhooks.ProcessAll(b, Webhooks.WithoutRepeats(b, s.calls, {}))
  {
    hide Webhooks.Process, Webhooks.IsHarmless, IsRun, CallOk, HandlersOk, RowsOk, BodiesOk, Intake.Inv;
    RunIsConsistent(decode, cfg, now, b, es, s);
    TablesFollowTheCalls(decode, Begin(cfg, now, b), es, s, b);
    forall i, k | 0 <= i < k < |s.calls| && s.calls[i].key == s.calls[k].key
      ensures Webhooks.IsHarmless(s.calls[k])
    {
      OnlyARequeueProcessesAgain(decode, cfg, now, b, es, s, i, k);
      assert s.calls[k] in s.calls && IsRequeued(s, s.calls[k].key);
    }
    assert [] + s.calls == s.calls;
    LaterOnesAreTame(b, [], s.calls, {});
    Webhooks.RepeatsAreHarmless(b, s.calls);
  }
}

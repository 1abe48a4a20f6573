/** What every step of the job protocol keeps, and the safety theorems over all its runs. */
module JobSafety {
  import opened Prelude
  import opened JobStore
  import opened JobProtocol

  type Jobs = map<nat, Job>

  type Workers = map<nat, Pc>

  // ---------------------------------------------------------------- the invariant, part by part

  ghost predicate TablesOk(t: Tables) {
    && (forall j :: j in t.jobs ==> j < t.nextJob && t.jobs[j].attempts == 0)
    && (forall i, j :: i in t.jobs && j in t.jobs && t.jobs[i].key.Some? && t.jobs[i].key == t.jobs[j].key ==> i == j)
  }

  /** A row is pending exactly as long as nobody picked it, and it is picked once. */
  ghost predicate PicksOk(jobs: Jobs, picks: seq<nat>) {
    && NoDup(picks)
    && (forall j :: j in picks ==> j in jobs)
    && (forall j :: j in jobs ==> (jobs[j].status == Pending <==> j !in picks))
  }

  predicate SameWork(a: Job, b: Job) {
    a.tenant == b.tenant && a.typ == b.typ && a.payload == b.payload && a.key == b.key && a.attempts == b.attempts
  }

  predicate HasRow(pc: Pc) {
    pc.Picked? || pc.Gating? || pc.Probing? || pc.Ready? || pc.Running? || pc.Burying?
  }

  /** The handler has not been called yet; from the other points it will not be called any more. */
  predicate BeforeCall(pc: Pc) {
    pc.Picked? || pc.Skipping? || pc.Gating? || pc.Refused? || pc.Probing? || pc.Duplicate? || pc.Ready?
  }

  predicate WorkerOk(jobs: Jobs, picks: seq<nat>, runs: seq<nat>, pc: Pc) {
    !pc.Idle? ==>
      && pc.id in picks
      && pc.id in jobs
      && (HasRow(pc) ==> SameWork(pc.row, jobs[pc.id]))
      && (BeforeCall(pc) <==> pc.id !in runs)
  }

  /** No two workers hold the same row. */
  ghost predicate HoldersOk(workers: Workers) {
    forall v, w :: v in workers && w in workers && v != w && !workers[v].Idle? && !workers[w].Idle?
      ==> workers[v].id != workers[w].id
  }

  ghost predicate WorkersOk(jobs: Jobs, picks: seq<nat>, runs: seq<nat>, workers: Workers) {
    forall w :: w in workers ==> WorkerOk(jobs, picks, runs, workers[w])
  }

  ghost predicate RunsOk(picks: seq<nat>, runs: seq<nat>) {
    NoDup(runs) && forall j :: j in runs ==> j in picks
  }

  /** Requests leave the channel in the order they were sent, and are applied at most once. */
  ghost predicate WriterOk(wr: Writer) {
    && wr.taken <= |wr.sent|
    && wr.queue == wr.sent[wr.taken..]
    && |wr.queue| <= QUEUE_CAPACITY
    && (wr.stopped ==> wr.hand.Empty?)
    && (forall i :: 0 <= i < |wr.sent| ==> wr.sent[i].ticket == i)
    && (!wr.hand.Empty? ==>
          wr.taken > 0 && wr.hand.req == wr.sent[wr.taken - 1] && wr.hand.req.ticket !in wr.replies)
    && (forall k :: k in wr.replies ==> k < wr.taken)
    && (forall i, j :: 0 <= i < j < |wr.applied| ==> wr.applied[i] < wr.applied[j])
    && (forall k :: k in wr.applied ==> k < wr.taken)
    && (wr.hand.Holding? ==> wr.hand.req.ticket !in wr.applied)
    && (wr.hand.Answering? && wr.hand.ok ==> wr.hand.req.ticket in wr.applied)
    && (forall k :: k in wr.replies && wr.replies[k] ==> k in wr.applied)
  }

  /** What a request may assume: its row was run, and it is completed only after it was recorded. */
  predicate RequestOk(processed: set<nat>, runs: seq<nat>, id: nat, kind: Kind) {
    id in runs && (kind.WriteComplete? ==> id in processed)
  }

  ghost predicate SentOk(processed: set<nat>, runs: seq<nat>, sent: seq<Request>) {
    forall i :: 0 <= i < |sent| ==> RequestOk(processed, runs, sent[i].id, sent[i].kind)
  }

  ghost predicate AppliedOk(processed: set<nat>, sent: seq<Request>, applied: seq<nat>) {
    forall k :: k in applied ==> k < |sent| && (sent[k].kind.WriteProcessed? ==> sent[k].id in processed)
  }

  predicate AskOk(processed: set<nat>, runs: seq<nat>, sent: seq<Request>, pc: Pc) {
    && (pc.Sending? || pc.Waiting? ==> RequestOk(processed, runs, pc.id, pc.kind))
    && (pc.Waiting? ==> pc.ticket < |sent| && sent[pc.ticket] == Request(pc.ticket, pc.id, pc.kind))
  }

  ghost predicate AsksOk(processed: set<nat>, runs: seq<nat>, sent: seq<Request>, workers: Workers) {
    forall w :: w in workers ==> AskOk(processed, runs, sent, workers[w])
  }

  predicate Disabled(cfg: Config, typ: string) {
    !ConfigOf(cfg, typ).enabled
  }

  /** Work is recorded only after it ran, and completed only after it was recorded. */
  ghost predicate DoneOk(jobs: Jobs, processed: set<nat>, runs: seq<nat>, skipped: set<nat>) {
    && (forall j :: j in processed ==> j in runs)
    && (forall j :: j in jobs && jobs[j].status == Completed ==> j in processed || j in skipped)
  }

  /** A skipped row is never run. */
  ghost predicate SkippedOk(picks: seq<nat>, runs: seq<nat>, skipped: set<nat>) {
    forall j :: j in skipped ==> j in picks && j !in runs
  }

  /** A worker that found its row's type disabled skips the row, and only such a worker does. */
  predicate SkipOk(cfg: Config, skipped: set<nat>, pc: Pc) {
    && !pc.Duplicate?
    && (!pc.Idle? ==> (pc.Skipping? <==> pc.id in skipped))
    && (pc.Burying? ==> pc.row.attempts + 1 >= ConfigOf(cfg, pc.row.typ).maxAttempts)
  }

  ghost predicate SkipsOk(cfg: Config, skipped: set<nat>, workers: Workers) {
    forall w :: w in workers ==> SkipOk(cfg, skipped, workers[w])
  }

  predicate ListedOk(jobs: Jobs, picks: seq<nat>, r: Listed) {
    r.id in picks && r.id in jobs && SameWork(r.row, jobs[r.id])
  }

  ghost predicate SweepOk(jobs: Jobs, picks: seq<nat>, sweep: Sweep) {
    !sweep.Asleep? ==> forall i :: 0 <= i < |sweep.rest| ==> ListedOk(jobs, picks, sweep.rest[i])
  }

  /** A row that carries the work of a dead letter: its tenant, type and payload. */
  predicate Carries(row: Job, d: DeadLetter) {
    row.tenant == d.tenant && row.typ == d.typ && row.payload == d.payload
  }

  /** Every dead letter ever written is still there, or was requeued, or was discarded by an admin. */
  ghost predicate DeadOk(dead: map<nat, DeadLetter>, nextDead: nat, h: History) {
    && (forall d: nat :: d in h.buried <==> d < nextDead)
    && (forall d :: d in dead ==> d in h.buried && dead[d] == h.buried[d])
    && (forall d :: d in h.buried ==> d in dead || d in h.requeued || d in h.discarded)
  }

  ghost predicate RequeuedOk(jobs: Jobs, buried: map<nat, DeadLetter>, requeued: map<nat, nat>) {
    forall d :: d in requeued ==> d in buried && requeued[d] in jobs && Carries(jobs[requeued[d]], buried[d])
  }

  ghost predicate AdminOk(buried: map<nat, DeadLetter>, requeued: map<nat, nat>, pc: Admin) {
    !pc.Away? ==>
      && (forall i :: 0 <= i < |pc.rest| ==> pc.rest[i].d in buried && pc.rest[i].row == buried[pc.rest[i].d])
      && (pc.Deleting? && pc.rest != [] ==> pc.rest[0].d in requeued)
  }

  ghost predicate AdminsOk(buried: map<nat, DeadLetter>, requeued: map<nat, nat>, admins: map<nat, Admin>) {
    forall a :: a in admins ==> AdminOk(buried, requeued, admins[a])
  }

  /** A dead letter holds the work of the row it was written for, and that row was picked. */
  ghost predicate LettersOk(jobs: Jobs, picks: seq<nat>, buried: map<nat, DeadLetter>) {
    forall d :: d in buried ==>
      buried[d].jobId in picks && buried[d].jobId in jobs && Carries(jobs[buried[d].jobId], buried[d])
  }

  ghost predicate Inv(s: Sys) {
    && TablesOk(s.t)
    && PicksOk(s.t.jobs, s.hist.picks)
    && RunsOk(s.hist.picks, s.hist.runs)
    && WorkersOk(s.t.jobs, s.hist.picks, s.hist.runs, s.workers)
    && HoldersOk(s.workers)
    && WriterOk(s.writer)
    && SentOk(s.t.processed, s.hist.runs, s.writer.sent)
    && AppliedOk(s.t.processed, s.writer.sent, s.writer.applied)
    && AsksOk(s.t.processed, s.hist.runs, s.writer.sent, s.workers)
    && DoneOk(s.t.jobs, s.t.processed, s.hist.runs, s.hist.skipped)
    && SkippedOk(s.hist.picks, s.hist.runs, s.hist.skipped)
    && SkipsOk(s.cfg, s.hist.skipped, s.workers)
    && SweepOk(s.t.jobs, s.hist.picks, s.checker)
    && SweepOk(s.t.jobs, s.hist.picks, s.rescuer)
    && DeadOk(s.t.dead, s.t.nextDead, s.hist)
    && RequeuedOk(s.t.jobs, s.hist.buried, s.hist.requeued)
    && AdminsOk(s.hist.buried, s.hist.requeued, s.admins)
    && LettersOk(s.t.jobs, s.hist.picks, s.hist.buried)
  }

  // ---------------------------------------------------------------- one change at a time

  /** What the invariant asks of a worker that goes from its point to `pc`. */
  ghost predicate MayMove(s: Sys, w: nat, pc: Pc) {
    && WorkerOk(s.t.jobs, s.hist.picks, s.hist.runs, pc)
    && (!pc.Idle? ==> !PcOf(s, w).Idle? && PcOf(s, w).id == pc.id)
    && SkipOk(s.cfg, s.hist.skipped, pc)
    && AskOk(s.t.processed, s.hist.runs, s.writer.sent, pc)
  }

  lemma MoveKeeps(s: Sys, w: nat, pc: Pc)
    requires Inv(s) && MayMove(s, w, pc)
    ensures Inv(At(s, w, pc))
  {
  }

  /** Every row is still there and does the same work. */
  ghost predicate Grows(jobs: Jobs, jobs': Jobs) {
    forall j :: j in jobs ==> j in jobs' && SameWork(jobs[j], jobs'[j])
  }

  ghost predicate Within(picks: seq<nat>, picks': seq<nat>) {
    forall j :: j in picks ==> j in picks'
  }

  lemma GrowthKeepsWorkers(jobs: Jobs, jobs': Jobs, picks: seq<nat>, picks': seq<nat>, runs: seq<nat>, workers: Workers)
    requires Grows(jobs, jobs') && Within(picks, picks')
    requires WorkersOk(jobs, picks, runs, workers)
    ensures WorkersOk(jobs', picks', runs, workers)
  {
  }

  lemma GrowthKeepsSweep(jobs: Jobs, jobs': Jobs, picks: seq<nat>, picks': seq<nat>, sweep: Sweep)
    requires Grows(jobs, jobs') && Within(picks, picks') && SweepOk(jobs, picks, sweep)
    ensures SweepOk(jobs', picks', sweep)
  {
  }

  lemma GrowthKeepsDead(jobs: Jobs, jobs': Jobs, picks: seq<nat>, picks': seq<nat>, buried: map<nat, DeadLetter>, requeued: map<nat, nat>)
    requires Grows(jobs, jobs') && Within(picks, picks')
    requires RequeuedOk(jobs, buried, requeued) && LettersOk(jobs, picks, buried)
    ensures RequeuedOk(jobs', buried, requeued) && LettersOk(jobs', picks', buried)
  {
  }

  /** Only rows of `jobs` and the list of picks changed: what is left to show is about those alone. */
  lemma GrowthKeeps(s: Sys, t: Tables, picks: seq<nat>)
    requires Inv(s) && Grows(s.t.jobs, t.jobs) && Within(s.hist.picks, picks)
    requires t == s.t.(jobs := t.jobs, nextJob := t.nextJob)
    requires TablesOk(t) && PicksOk(t.jobs, picks)
    requires DoneOk(t.jobs, s.t.processed, s.hist.runs, s.hist.skipped)
    ensures Inv(s.(t := t, hist := s.hist.(picks := picks)))
  {
    GrowthKeepsWorkers(s.t.jobs, t.jobs, s.hist.picks, picks, s.hist.runs, s.workers);
    GrowthKeepsSweep(s.t.jobs, t.jobs, s.hist.picks, picks, s.checker);
    GrowthKeepsSweep(s.t.jobs, t.jobs, s.hist.picks, picks, s.rescuer);
    GrowthKeepsDead(s.t.jobs, t.jobs, s.hist.picks, picks, s.hist.buried, s.hist.requeued);
  }

  /** A row may change in everything but its work, and never from or to pending. */
  ghost predicate MayChange(s: Sys, id: nat, row: Job) {
    && id in s.t.jobs
    && SameWork(row, s.t.jobs[id])
    && (row.status == Pending <==> s.t.jobs[id].status == Pending)
    && (row.status == Completed ==> id in s.t.processed || id in s.hist.skipped)
  }

  ghost function WithRow(t: Tables, id: nat, row: Job): Tables {
    t.(jobs := t.jobs[id := row])
  }

  lemma RowKeepsTables(t: Tables, picks: seq<nat>, id: nat, row: Job)
    requires id in t.jobs && SameWork(row, t.jobs[id]) && (row.status == Pending <==> t.jobs[id].status == Pending)
    requires TablesOk(t) && PicksOk(t.jobs, picks)
    ensures TablesOk(WithRow(t, id, row)) && PicksOk(WithRow(t, id, row).jobs, picks)
    ensures Grows(t.jobs, WithRow(t, id, row).jobs)
  {
  }

  lemma RowKeeps(s: Sys, id: nat, row: Job)
    requires Inv(s) && MayChange(s, id, row)
    ensures Inv(s.(t := WithRow(s.t, id, row)))
  {
    RowKeepsTables(s.t, s.hist.picks, id, row);
    GrowthKeeps(s, WithRow(s.t, id, row), s.hist.picks);
  }

  lemma InsertKeepsTables(t: Tables, picks: seq<nat>, row: Job)
    requires row.status == Pending && row.attempts == 0 && !HasKey(t, row.key)
    requires TablesOk(t) && PicksOk(t.jobs, picks)
    ensures TablesOk(AfterInsert(t, row)) && PicksOk(AfterInsert(t, row).jobs, picks)
    ensures t.nextJob !in t.jobs && Grows(t.jobs, AfterInsert(t, row).jobs)
  {
    assert t.nextJob !in t.jobs;
  }

  lemma InsertKeeps(s: Sys, row: Job)
    requires Inv(s)
    requires row.status == Pending && row.attempts == 0 && !HasKey(s.t, row.key)
    ensures Inv(s.(t := AfterInsert(s.t, row)))
  {
    InsertKeepsTables(s.t, s.hist.picks, row);
    GrowthKeeps(s, AfterInsert(s.t, row), s.hist.picks);
  }

  lemma RecordKeeps(s: Sys, id: nat)
    requires Inv(s) && id in s.hist.runs
    ensures Inv(s.(t := AfterProcessed(s.t, id)))
  {
  }

  lemma BuryKeepsDead(jobs: Jobs, dead: map<nat, DeadLetter>, next: nat, h: History, admins: map<nat, Admin>, d: DeadLetter)
    requires DeadOk(dead, next, h) && RequeuedOk(jobs, h.buried, h.requeued)
    requires AdminsOk(h.buried, h.requeued, admins) && LettersOk(jobs, h.picks, h.buried)
    requires d.jobId in h.picks && d.jobId in jobs && Carries(jobs[d.jobId], d)
    ensures DeadOk(dead[next := d], next + 1, h.(buried := h.buried[next := d]))
    ensures RequeuedOk(jobs, h.buried[next := d], h.requeued)
    ensures AdminsOk(h.buried[next := d], h.requeued, admins)
    ensures LettersOk(jobs, h.picks, h.buried[next := d])
  {
    assert next !in h.buried;
  }

  lemma BuryKeeps(s: Sys, o: Outcome, id: nat, row: Job, error: string)
    requires Inv(s)
    requires id in s.hist.picks && id in s.t.jobs && SameWork(row, s.t.jobs[id])
    ensures Inv(Buried(s, o, id, row, error))
  {
    if o.Applied() {
      var d := DeadLetter(id, row.typ, row.payload, error, row.attempts, s.now, row.tenant);
      BuryKeepsDead(s.t.jobs, s.t.dead, s.t.nextDead, s.hist, s.admins, d);
      assert Buried(s, o, id, row, error).hist == s.hist.(buried := s.hist.buried[s.t.nextDead := d]);
    }
  }

  // ---------------------------------------------------------------- picking and calling

  lemma PickKeepsTables(t: Tables, picks: seq<nat>, now: int, id: nat, w: nat)
    requires TablesOk(t) && PicksOk(t.jobs, picks)
    requires id in t.jobs && t.jobs[id].status == Pending
    ensures id !in picks
    ensures TablesOk(AfterPick(t, now, id, w)) && PicksOk(AfterPick(t, now, id, w).jobs, picks + [id])
    ensures Grows(t.jobs, AfterPick(t, now, id, w).jobs) && Within(picks, picks + [id])
  {
  }

  lemma NoOneHolds(s: Sys, id: nat)
    requires Inv(s) && id !in s.hist.picks
    ensures forall v :: v in s.workers && !s.workers[v].Idle? ==> s.workers[v].id != id
  {
    forall v | v in s.workers && !s.workers[v].Idle?
      ensures s.workers[v].id != id
    {
      assert WorkerOk(s.t.jobs, s.hist.picks, s.hist.runs, s.workers[v]);
    }
  }

  /** The picked row itself: nobody held it, ran it or skipped it. */
  lemma PickedRowKeeps(s: Sys, w: nat, id: nat)
    requires Inv(s) && id in s.t.jobs && s.t.jobs[id].status == Pending
    ensures var t := AfterPick(s.t, s.now, id, w);
      && Inv(s.(t := t, hist := s.hist.(picks := s.hist.picks + [id])))
      && id !in s.hist.runs && id !in s.hist.skipped && SameWork(t.jobs[id], s.t.jobs[id])
      && forall v :: v in s.workers && !s.workers[v].Idle? ==> s.workers[v].id != id
  {
    PickKeepsTables(s.t, s.hist.picks, s.now, id, w);
    NoOneHolds(s, id);
    GrowthKeeps(s, AfterPick(s.t, s.now, id, w), s.hist.picks + [id]);
  }

  /** The step that takes a row out of `pending`: nobody held it, and from now on only `w` does. */
  lemma PickKeeps(s: Sys, w: nat, id: nat, seen: bool)
    requires Inv(s) && CanWork(s, w, Pick(id, seen))
    ensures Inv(DoWork(s, w, Pick(id, seen)))
  {
    hide Inv;
    PickedRowKeeps(s, w, id);
    var t := AfterPick(s.t, s.now, id, w);
    NewHolderKeeps(s.(t := t, hist := s.hist.(picks := s.hist.picks + [id])), w, if seen then Picked(id, t.jobs[id]) else Idle);
  }

  lemma NewHolderKeepsHolders(workers: Workers, w: nat, pc: Pc)
    requires HoldersOk(workers)
    requires !pc.Idle? ==> forall v :: v in workers && !workers[v].Idle? ==> workers[v].id != pc.id
    ensures HoldersOk(workers[w := pc])
  {
  }

  lemma NewHolderKeeps(s: Sys, w: nat, pc: Pc)
    requires !pc.Idle? ==> pc.id !in s.hist.skipped
    requires Inv(s) && WorkerOk(s.t.jobs, s.hist.picks, s.hist.runs, pc) && (pc.Idle? || pc.Picked?)
    requires !pc.Idle? ==> forall v :: v in s.workers && !s.workers[v].Idle? ==> s.workers[v].id != pc.id
    ensures Inv(At(s, w, pc))
  {
    NewHolderKeepsHolders(s.workers, w, pc);
  }

  lemma CallKeepsRuns(picks: seq<nat>, runs: seq<nat>, jobs: Jobs, workers: Workers, w: nat)
    requires RunsOk(picks, runs) && WorkersOk(jobs, picks, runs, workers) && HoldersOk(workers)
    requires w in workers && workers[w].Ready?
    ensures var pc := workers[w]; var workers' := workers[w := Running(pc.id, pc.row)];
      && RunsOk(picks, runs + [pc.id])
      && WorkersOk(jobs, picks, runs + [pc.id], workers')
      && HoldersOk(workers')
  {
    var pc := workers[w];
    assert WorkerOk(jobs, picks, runs, pc);
  }

  lemma CallKeepsRequests(cfg: Config, jobs: Jobs, processed: set<nat>, picks: seq<nat>, runs: seq<nat>, skipped: set<nat>,
                          sent: seq<Request>, workers: Workers, w: nat)
    requires SentOk(processed, runs, sent) && AsksOk(processed, runs, sent, workers)
    requires DoneOk(jobs, processed, runs, skipped) && SkippedOk(picks, runs, skipped) && SkipsOk(cfg, skipped, workers)
    requires w in workers && workers[w].Ready?
    ensures var pc := workers[w]; var workers' := workers[w := Running(pc.id, pc.row)];
      && SentOk(processed, runs + [pc.id], sent) && AsksOk(processed, runs + [pc.id], sent, workers')
      && DoneOk(jobs, processed, runs + [pc.id], skipped) && SkippedOk(picks, runs + [pc.id], skipped)
      && SkipsOk(cfg, skipped, workers')
  {
    assert SkipOk(cfg, skipped, workers[w]);
  }

  lemma CallKeeps(s: Sys, w: nat)
    requires Inv(s) && CanWork(s, w, Call)
    ensures Inv(DoWork(s, w, Call))
  {
    CallKeepsRuns(s.hist.picks, s.hist.runs, s.t.jobs, s.workers, w);
    CallKeepsRequests(s.cfg, s.t.jobs, s.t.processed, s.hist.picks, s.hist.runs, s.hist.skipped, s.writer.sent, s.workers, w);
  }

  // ---------------------------------------------------------------- the other steps of a worker

  lemma TouchRowKeeps(s: Sys, o: Outcome, id: nat, row: Job)
    requires Inv(s) && MayChange(s, id, row)
    ensures Inv(Touch(s, o, WithRow(s.t, id, row)))
  {
    if o.Applied() {
      RowKeeps(s, id, row);
    }
  }

  /** What the invariant says about a worker that holds a row. */
  ghost predicate Holds(s: Sys, w: nat) {
    var pc := PcOf(s, w);
    && !pc.Idle?
    && w in s.workers
    && WorkerOk(s.t.jobs, s.hist.picks, s.hist.runs, pc)
    && SkipOk(s.cfg, s.hist.skipped, pc)
    && AskOk(s.t.processed, s.hist.runs, s.writer.sent, pc)
    && s.t.jobs[pc.id].status != Pending
  }

  lemma HolderOk(s: Sys, w: nat)
    requires Inv(s) && !PcOf(s, w).Idle?
    ensures Holds(s, w)
  {
    var pc := s.workers[w];
    assert WorkerOk(s.t.jobs, s.hist.picks, s.hist.runs, pc);
  }

  /** A decision that changes nothing but the worker's own point. */
  predicate Decides(s: Sys, w: nat, e: WorkStep) {
    e.Gate? || e.Probe? || e.Return? || e.GiveUp? || (e.CheckConfig? && !Skips(s, w))
  }

  /** The worker is about to find its row's type disabled. */
  predicate Skips(s: Sys, w: nat) {
    PcOf(s, w).Picked? && Disabled(s.cfg, PcOf(s, w).row.typ)
  }

  lemma SkipKeepsOthers(cfg: Config, skipped: set<nat>, workers: Workers, w: nat)
    requires SkipsOk(cfg, skipped, workers) && HoldersOk(workers) && w in workers && workers[w].Picked?
    ensures var id := workers[w].id; SkipsOk(cfg, skipped + {id}, workers[w := Skipping(id)])
  {
  }

  lemma SkipKeeps(s: Sys, w: nat)
    requires Inv(s) && Skips(s, w)
    ensures Inv(DoWork(s, w, CheckConfig))
  {
    HolderOk(s, w);
    var pc := PcOf(s, w);
    SkipKeepsOthers(s.cfg, s.hist.skipped, s.workers, w);
    SkippedIsRemembered(s, w, pc.id);
  }

  lemma SkippedIsRemembered(s: Sys, w: nat, id: nat)
    requires Inv(s) && Holds(s, w) && PcOf(s, w).Picked? && PcOf(s, w).id == id
    requires SkipsOk(s.cfg, s.hist.skipped + {id}, s.workers[w := Skipping(id)])
    ensures Inv(At(s.(hist := s.hist.(skipped := s.hist.skipped + {id})), w, Skipping(id)))
  {
  }

  /** A worker about to probe holds a row that was never run, so never recorded: it finds nothing. */
  lemma DecisionIsAllowed(s: Sys, w: nat, e: WorkStep)
    requires CanWork(s, w, e) && Holds(s, w) && Decides(s, w, e)
    requires forall j :: j in s.t.processed ==> j in s.hist.runs
    ensures MayMove(s, w, DoWork(s, w, e).workers[w])
    ensures DoWork(s, w, e) == At(s, w, DoWork(s, w, e).workers[w])
  {
  }

  lemma DecisionKeeps(s: Sys, w: nat, e: WorkStep)
    requires Inv(s) && CanWork(s, w, e) && Decides(s, w, e)
    ensures Inv(DoWork(s, w, e))
  {
    HolderOk(s, w);
    DecisionIsAllowed(s, w, e);
    MoveKeeps(s, w, DoWork(s, w, e).workers[w]);
  }

  /** The row as the worker's own statement leaves it. */
  ghost function StatementRow(s: Sys, w: nat, e: WorkStep): Job
    requires CanWork(s, w, e) && Holds(s, w)
    requires e.Complete? || e.Postpone? || e.Fail?
  {
    var pc := PcOf(s, w);
    var row := s.t.jobs[pc.id];
    if e.Complete? then row.(status := Completed)
    else if e.Postpone? then row.(nextRetryAt := Some(e.at))
    else row.(status := Failed, lastError := Some(pc.error))
  }

  lemma StatementIsAllowed(s: Sys, w: nat, e: WorkStep)
    requires CanWork(s, w, e) && Holds(s, w)
    requires e.Complete? || e.Postpone? || e.Fail?
    requires DoneOk(s.t.jobs, s.t.processed, s.hist.runs, s.hist.skipped)
    ensures var pc := PcOf(s, w); var row := StatementRow(s, w, e); var s' := Touch(s, e.o, WithRow(s.t, pc.id, row));
      && MayChange(s, pc.id, row)
      && MayMove(s', w, DoWork(s, w, e).workers[w])
      && DoWork(s, w, e) == At(s', w, DoWork(s, w, e).workers[w])
  {
  }

  lemma StatementKeeps(s: Sys, w: nat, e: WorkStep)
    requires Inv(s) && CanWork(s, w, e)
    requires e.Complete? || e.Postpone? || e.Fail?
    ensures Inv(DoWork(s, w, e))
  {
    HolderOk(s, w);
    StatementIsAllowed(s, w, e);
    var row := StatementRow(s, w, e);
    TouchRowKeeps(s, e.o, PcOf(s, w).id, row);
    MoveKeeps(Touch(s, e.o, WithRow(s.t, PcOf(s, w).id, row)), w, DoWork(s, w, e).workers[w]);
  }

  lemma BurialIsAllowed(s: Sys, w: nat, o: Outcome)
    requires CanWork(s, w, Bury(o)) && Holds(s, w)
    ensures var pc := PcOf(s, w); var s' := Buried(s, o, pc.id, pc.row, pc.error);
      && MayMove(s', w, Failing(pc.id, pc.error))
      && DoWork(s, w, Bury(o)) == At(s', w, Failing(pc.id, pc.error))
  {
  }

  lemma BurialKeeps(s: Sys, w: nat, o: Outcome)
    requires Inv(s) && CanWork(s, w, Bury(o))
    ensures Inv(DoWork(s, w, Bury(o)))
  {
    HolderOk(s, w);
    BurialIsAllowed(s, w, o);
    var pc := PcOf(s, w);
    BuryKeeps(s, o, pc.id, pc.row, pc.error);
    MoveKeeps(Buried(s, o, pc.id, pc.row, pc.error), w, Failing(pc.id, pc.error));
  }

  lemma SendKeepsWriter(wr: Writer, id: nat, kind: Kind)
    requires WriterOk(wr) && |wr.queue| < QUEUE_CAPACITY
    ensures WriterOk(Enqueued(wr, id, kind))
  {
    var wr' := Enqueued(wr, id, kind);
    assert wr'.queue == wr'.sent[wr'.taken..];
  }

  lemma SendKeepsRequests(processed: set<nat>, runs: seq<nat>, workers: Workers, wr: Writer, id: nat, kind: Kind)
    requires SentOk(processed, runs, wr.sent) && AppliedOk(processed, wr.sent, wr.applied)
    requires AsksOk(processed, runs, wr.sent, workers) && RequestOk(processed, runs, id, kind)
    ensures var wr' := Enqueued(wr, id, kind);
      && SentOk(processed, runs, wr'.sent) && AppliedOk(processed, wr'.sent, wr'.applied)
      && AsksOk(processed, runs, wr'.sent, workers)
      && wr'.sent[|wr.sent|] == Request(|wr.sent|, id, kind)
  {
  }

  lemma EnqueuedKeeps(s: Sys, id: nat, kind: Kind)
    requires Inv(s) && RequestOk(s.t.processed, s.hist.runs, id, kind) && |s.writer.queue| < QUEUE_CAPACITY
    ensures Inv(s.(writer := Enqueued(s.writer, id, kind)))
  {
    SendKeepsWriter(s.writer, id, kind);
    SendKeepsRequests(s.t.processed, s.hist.runs, s.workers, s.writer, id, kind);
  }

  lemma SendKeeps(s: Sys, w: nat)
    requires Inv(s) && CanWork(s, w, Send)
    ensures Inv(DoWork(s, w, Send))
  {
    hide Inv;
    HolderOk(s, w);
    var pc := PcOf(s, w);
    EnqueuedKeeps(s, pc.id, pc.kind);
    MoveKeeps(s.(writer := Enqueued(s.writer, pc.id, pc.kind)), w, Waiting(pc.id, pc.kind, |s.writer.sent|));
  }

  /** A nil return from submitWrite: the reply says so, the write was applied, so the record is there. */
  lemma NilReturnMeansApplied(s: Sys, w: nat)
    requires Inv(s) && CanWork(s, w, Receive)
    requires s.writer.replies[PcOf(s, w).ticket]
    ensures var pc := PcOf(s, w);
      && pc.ticket in s.writer.applied
      && s.writer.sent[pc.ticket] == Request(pc.ticket, pc.id, pc.kind)
      && (pc.kind.WriteProcessed? ==> pc.id in s.t.processed)
  {
    HolderOk(s, w);
  }

  lemma TakenReplyKeeps(s: Sys, ticket: nat)
    requires Inv(s)
    ensures Inv(s.(writer := s.writer.(replies := s.writer.replies - {ticket})))
  {
    assert WriterOk(s.writer.(replies := s.writer.replies - {ticket}));
  }

  lemma ReceiveKeeps(s: Sys, w: nat)
    requires Inv(s) && CanWork(s, w, Receive)
    ensures Inv(DoWork(s, w, Receive))
  {
    hide Inv;
    HolderOk(s, w);
    var pc := PcOf(s, w);
    if s.writer.replies[pc.ticket] {
      NilReturnMeansApplied(s, w);
    }
    TakenReplyKeeps(s, pc.ticket);
    MoveKeeps(s.(writer := s.writer.(replies := s.writer.replies - {pc.ticket})), w,
              AfterSubmit(pc.id, pc.kind, s.writer.replies[pc.ticket]));
  }

  lemma WorkKeeps(s: Sys, w: nat, e: WorkStep)
    requires Inv(s) && CanWork(s, w, e)
    ensures Inv(DoWork(s, w, e))
  {
    hide Inv, DoWork;
    match e {
      case Pick(row, seen) => PickKeeps(s, w, row, seen);
      case Call => CallKeeps(s, w);
      case Bury(o) => BurialKeeps(s, w, o);
      case Send => SendKeeps(s, w);
      case Receive => ReceiveKeeps(s, w);
      case Complete(_) => StatementKeeps(s, w, e);
      case Postpone(_, _) => StatementKeeps(s, w, e);
      case Fail(_) => StatementKeeps(s, w, e);
      case CheckConfig =>
        if Skips(s, w) {
          SkipKeeps(s, w);
        } else {
          DecisionKeeps(s, w, e);
        }
      case _ => DecisionKeeps(s, w, e);
    }
  }

  // ---------------------------------------------------------------- the writer's steps

  lemma TakeKeepsWriter(wr: Writer)
    requires WriterOk(wr) && !wr.stopped && wr.hand.Empty? && wr.queue != []
    ensures WriterOk(wr.(queue := wr.queue[1..], hand := Holding(wr.queue[0]), taken := wr.taken + 1))
  {
    assert wr.queue[0] == wr.sent[wr.taken];
    assert wr.queue[1..] == wr.sent[wr.taken + 1..];
  }

  lemma ApplyKeepsWriter(wr: Writer, o: Outcome)
    requires WriterOk(wr) && wr.hand.Holding?
    ensures WriterOk(wr.(hand := Answering(wr.hand.req, o.Reported()),
                         applied := if o.Applied() then wr.applied + [wr.hand.req.ticket] else wr.applied))
  {
    assert forall i :: 0 <= i < |wr.applied| ==> wr.applied[i] in wr.applied;
  }

  lemma WriteKeepsWriter(s: Sys, e: WriteStep)
    requires WriterOk(s.writer) && CanWrite(s, e)
    ensures WriterOk(DoWrite(s, e).writer)
  {
    match e {
      case Take => TakeKeepsWriter(s.writer);
      case Apply(o) => ApplyKeepsWriter(s.writer, o);
      case _ =>
    }
  }

  /** The request in the writer's hand is one that was sent, so its row was run. */
  lemma RequestInHand(s: Sys)
    requires Inv(s) && s.writer.hand.Holding?
    ensures var req := s.writer.hand.req;
      && req.ticket < |s.writer.sent| && s.writer.sent[req.ticket] == req
      && RequestOk(s.t.processed, s.hist.runs, req.id, req.kind)
      && req.id in s.t.jobs && s.t.jobs[req.id].status != Pending
  {
    var req := s.writer.hand.req;
    assert req == s.writer.sent[s.writer.taken - 1];
    assert req.id in s.hist.runs;
    assert req.id in s.hist.picks;
  }

  lemma RequestedKeeps(s: Sys, req: Request)
    requires Inv(s)
    requires RequestOk(s.t.processed, s.hist.runs, req.id, req.kind)
    requires req.id in s.t.jobs && s.t.jobs[req.id].status != Pending
    ensures Inv(s.(t := Requested(s.t, req)))
  {
    var row := s.t.jobs[req.id];
    match req.kind {
      case WriteProcessed => RecordKeeps(s, req.id);
      case WriteComplete => RowKeeps(s, req.id, row.(status := Completed));
      case WriteFail(error) => RowKeeps(s, req.id, row.(status := Failed, lastError := Some(error)));
    }
  }

  lemma AnswerKeeps(s: Sys, o: Outcome)
    requires Inv(s) && s.writer.hand.Holding?
    requires o.Applied() && s.writer.hand.req.kind.WriteProcessed? ==> s.writer.hand.req.id in s.t.processed
    ensures var req := s.writer.hand.req;
      Inv(s.(writer := s.writer.(hand := Answering(req, o.Reported()),
                                 applied := if o.Applied() then s.writer.applied + [req.ticket] else s.writer.applied)))
  {
    ApplyKeepsWriter(s.writer, o);
  }

  lemma OtherWritesKeep(s: Sys, e: WriteStep)
    requires Inv(s) && CanWrite(s, e) && !e.Apply?
    ensures Inv(DoWrite(s, e))
  {
    WriteKeepsWriter(s, e);
  }

  lemma WriteKeeps(s: Sys, e: WriteStep)
    requires Inv(s) && CanWrite(s, e)
    ensures Inv(DoWrite(s, e))
  {
    hide Inv;
    if e.Apply? {
      RequestInHand(s);
      if e.o.Applied() {
        RequestedKeeps(s, s.writer.hand.req);
      }
      AnswerKeeps(Touch(s, e.o, Requested(s.t, s.writer.hand.req)), e.o);
    } else {
      OtherWritesKeep(s, e);
    }
  }

  // ---------------------------------------------------------------- sweeps

  lemma StaleListIsPicked(s: Sys, age: int, rows: seq<Listed>)
    requires Inv(s) && IsStaleList(s.t, s.now, age, rows)
    ensures SweepOk(s.t.jobs, s.hist.picks, Next(rows))
  {
    forall i | 0 <= i < |rows|
      ensures ListedOk(s.t.jobs, s.hist.picks, rows[i])
    {
      assert rows[i] in rows;
    }
  }

  /** What the invariant says about the head of a sweep. */
  lemma HeadIsListed(s: Sys, sweep: Sweep)
    requires Inv(s) && (sweep == s.checker || sweep == s.rescuer) && !sweep.Asleep? && sweep.rest != []
    ensures var head := sweep.rest[0];
      ListedOk(s.t.jobs, s.hist.picks, head) && MayChange(s, head.id, s.t.jobs[head.id]) && s.t.jobs[head.id].status != Pending
  {
    assert ListedOk(s.t.jobs, s.hist.picks, sweep.rest[0]);
  }

  /** A sweep goes on to the second statement for its head or to the next row. */
  predicate GoesOn(sweep: Sweep, next: Sweep) {
    !sweep.Asleep? && sweep.rest != [] && (next == Second(sweep.rest) || next == Next(sweep.rest[1..]))
  }

  lemma GoingOnKeeps(s: Sys, next: Sweep)
    requires Inv(s)
    ensures GoesOn(s.checker, next) ==> Inv(s.(checker := next))
    ensures GoesOn(s.rescuer, next) ==> Inv(s.(rescuer := next))
  {
  }

  lemma ListingKeeps(s: Sys, age: int, rows: seq<Listed>)
    requires Inv(s) && IsStaleList(s.t, s.now, age, rows)
    ensures Inv(s.(checker := Next(rows))) && Inv(s.(rescuer := Next(rows)))
  {
    StaleListIsPicked(s, age, rows);
  }

  lemma CheckKeeps(s: Sys, e: SweepStep)
    requires Inv(s) && CanSweep(s, s.checker, CHECK_AGE, e)
    ensures Inv(DoCheck(s, e))
  {
    hide Inv;
    match e {
      case List(rows) => ListingKeeps(s, CHECK_AGE, rows);
      case DoFirst(error, o) =>
        var head := s.checker.rest[0];
        HeadIsListed(s, s.checker);
        BuryKeeps(s, o, head.id, head.row, error);
        GoingOnKeeps(Buried(s, o, head.id, head.row, error), DoCheck(s, e).checker);
      case DoSecond(o) =>
        var head := s.checker.rest[0];
        HeadIsListed(s, s.checker);
        var row := s.t.jobs[head.id].(status := Failed, lastError := Some("Job timed out"));
        TouchRowKeeps(s, o, head.id, row);
        GoingOnKeeps(Touch(s, o, WithRow(s.t, head.id, row)), DoCheck(s, e).checker);
    }
  }

  lemma RescueKeeps(s: Sys, e: SweepStep)
    requires Inv(s) && CanSweep(s, s.rescuer, RESCUE_AGE, e)
    ensures Inv(DoRescue(s, e))
  {
    hide Inv;
    if e.List? {
      ListingKeeps(s, RESCUE_AGE, e.rows);
    } else {
      var head := s.rescuer.rest[0];
      HeadIsListed(s, s.rescuer);
      var row := s.t.jobs[head.id];
      var row' := if e.DoFirst? then row.(nextRetryAt := Some(s.now))
                  else row.(status := Failed, lastError := Some("Job rescued from zombie state"));
      TouchRowKeeps(s, e.o, head.id, row');
      GoingOnKeeps(Touch(s, e.o, WithRow(s.t, head.id, row')), DoRescue(s, e).rescuer);
    }
  }

  // ---------------------------------------------------------------- the admin endpoints

  lemma RequeueKeeps(s: Sys, x: Entry)
    requires Inv(s) && x.d in s.hist.buried && x.row == s.hist.buried[x.d]
    ensures Inv(Requeue(s, x))
  {
    InsertKeeps(s, RetriedJob(x.row));
    var jobs := AfterInsert(s.t, RetriedJob(x.row)).jobs;
    RequeueKeepsDead(s, jobs, x.d, s.t.nextJob);
  }

  lemma RequeueKeepsDead(s: Sys, jobs: Jobs, d: nat, id: nat)
    requires DeadOk(s.t.dead, s.t.nextDead, s.hist) && AdminsOk(s.hist.buried, s.hist.requeued, s.admins)
    requires RequeuedOk(jobs, s.hist.buried, s.hist.requeued)
    requires d in s.hist.buried && id in jobs && Carries(jobs[id], s.hist.buried[d])
    ensures DeadOk(s.t.dead, s.t.nextDead, s.hist.(requeued := s.hist.requeued[d := id]))
    ensures RequeuedOk(jobs, s.hist.buried, s.hist.requeued[d := id])
    ensures AdminsOk(s.hist.buried, s.hist.requeued[d := id], s.admins)
  {
  }

  lemma AdminMoveKeeps(s: Sys, a: nat, pc: Admin)
    requires Inv(s) && AdminOk(s.hist.buried, s.hist.requeued, pc)
    ensures Inv(s.(admins := s.admins[a := pc]))
  {
  }

  lemma DeleteKeepsDead(dead: map<nat, DeadLetter>, next: nat, h: History, h': History, d: nat)
    requires DeadOk(dead, next, h)
    requires h' == h.(discarded := h'.discarded) && h.discarded <= h'.discarded
    requires d in h.buried ==> d in h'.requeued || d in h'.discarded
    ensures DeadOk(dead - {d}, next, h')
  {
  }

  lemma DeleteKeeps(s: Sys, d: nat, h: History)
    requires Inv(s)
    requires h == s.hist.(discarded := h.discarded) && s.hist.discarded <= h.discarded
    requires d in s.hist.buried ==> d in h.requeued || d in h.discarded
    ensures Inv(s.(t := AfterDelete(s.t, d), hist := h))
  {
    DeleteKeepsDead(s.t.dead, s.t.nextDead, s.hist, h, d);
  }

  /** The loops of the admin endpoints: the head is dropped, or its delete comes next. */
  lemma AdminLoopIsOk(buried: map<nat, DeadLetter>, requeued: map<nat, nat>, requeued': map<nat, nat>, pc: Admin)
    requires AdminOk(buried, requeued, pc) && !pc.Away? && pc.rest != [] && requeued.Keys <= requeued'.Keys
    ensures AdminOk(buried, requeued', NextEntry(pc.rest[1..]))
    ensures pc.rest[0].d in requeued' ==> AdminOk(buried, requeued', Deleting(pc.rest))
    ensures pc.rest[0].d in buried && pc.rest[0].row == buried[pc.rest[0].d]
  {
  }

  lemma ListedEntriesAreBuried(s: Sys, a: nat, entries: seq<Entry>)
    requires DeadOk(s.t.dead, s.t.nextDead, s.hist) && CanAdminister(s, a, ListDead(entries))
    ensures AdminOk(s.hist.buried, s.hist.requeued, NextEntry(entries))
  {
    assert forall i :: 0 <= i < |entries| ==> entries[i] in entries;
  }

  /** What the invariant says about an admin request in its loop. */
  lemma HeadEntryIsOk(s: Sys, a: nat)
    requires Inv(s)
    ensures AdminOk(s.hist.buried, s.hist.requeued, AdminOf(s, a)) && DeadOk(s.t.dead, s.t.nextDead, s.hist)
    ensures var pc := AdminOf(s, a);
      !pc.Away? && pc.rest != [] ==>
        && pc.rest[0].d in s.hist.buried && pc.rest[0].row == s.hist.buried[pc.rest[0].d]
        && (pc.Deleting? ==> pc.rest[0].d in s.hist.requeued)
  {
  }

  lemma AdministerKeeps(s: Sys, a: nat, e: AdminStep)
    requires Inv(s) && CanAdminister(s, a, e)
    ensures Inv(DoAdminister(s, a, e))
  {
    hide Inv, AdminOk;
    var pc := AdminOf(s, a);
    HeadEntryIsOk(s, a);
    match e {
      case ListDead(entries) =>
        ListedEntriesAreBuried(s, a, entries);
        AdminMoveKeeps(s, a, NextEntry(entries));
      case Insert(o) =>
        if o.Applied() {
          RequeueKeeps(s, pc.rest[0]);
        }
        var s' := if o.Applied() then Requeue(s, pc.rest[0]) else s;
        AdminLoopIsOk(s.hist.buried, s.hist.requeued, s'.hist.requeued, pc);
        AdminMoveKeeps(s', a, if o.Reported() then Deleting(pc.rest) else NextEntry(pc.rest[1..]));
      case Remove(o) =>
        AdminLoopIsOk(s.hist.buried, s.hist.requeued, s.hist.requeued, pc);
        AdminMoveKeeps(s, a, NextEntry(pc.rest[1..]));
        if o.Applied() {
          DeleteKeeps(DoAdminister(s, a, Remove(Err)), pc.rest[0].d, s.hist);
        }
      case Discard(d) => DeleteKeeps(s, d, s.hist.(discarded := s.hist.discarded + {d}));
    }
  }

  // ---------------------------------------------------------------- every run

  lemma RestartKeeps(s: Sys, loaded: Config)
    requires Inv(s)
    ensures Inv(AfterRestart(s, loaded)) && forall now :: Inv(s.(now := now))
  {
  }

  lemma EnqueueKeeps(s: Sys, row: Job)
    requires Inv(s) && row.status == Pending && row.attempts == 0
    ensures Inv(s.(t := AfterInsertKeyed(s.t, row)))
    ensures row.key.None? ==> Inv(s.(t := AfterInsert(s.t, row)))
  {
    if !HasKey(s.t, row.key) {
      InsertKeeps(s, row);
    }
  }

  lemma DoKeeps(s: Sys, e: Step)
    requires Inv(s)
    ensures Inv(Do(s, e))
  {
    hide Inv, DoWork, DoWrite, DoCheck, DoRescue, DoAdminister;
    if Enabled(s, e) {
      match e {
        case Tick(_) => RestartKeeps(s, s.cfg);
        case Enqueue(tenant, typ, payload) => EnqueueKeeps(s, NewJob(tenant, typ, payload, s.now, None));
        case EnqueueKeyed(tenant, typ, payload, key) => EnqueueKeeps(s, NewJob(tenant, typ, payload, s.now, key));
        case Work(w, x) => WorkKeeps(s, w, x);
        case Write(x) => WriteKeeps(s, x);
        case Check(x) => CheckKeeps(s, x);
        case Rescue(x) => RescueKeeps(s, x);
        case Administer(a, x) => AdministerKeeps(s, a, x);
        case Restart(loaded) => RestartKeeps(s, loaded);
      }
    }
  }

  lemma {:induction false} RunKeeps(s: Sys, es: seq<Step>)
    requires Inv(s)
    ensures Inv(Run(s, es))
    decreases |es|
  {
    if es != [] {
      DoKeeps(s, es[0]);
      RunKeeps(Do(s, es[0]), es[1..]);
    }
  }

  lemma StartIsSafe(cfg: Config, now: int)
    ensures Inv(Start(cfg, now))
  {
    var s := Start(cfg, now);
    assert TablesOk(s.t);
    assert PicksOk(s.t.jobs, s.hist.picks);
    assert WriterOk(s.writer);
    assert DeadOk(s.t.dead, s.t.nextDead, s.hist);
    assert AppliedOk(s.t.processed, s.writer.sent, s.writer.applied);
    assert DoneOk(s.t.jobs, s.t.processed, s.hist.runs, s.hist.skipped);
  }

  /** The invariant holds in every state that some interleaving reaches from an empty database. */
  lemma ReachableIsSafe(s: Sys)
    requires Reachable(s)
    ensures Inv(s)
  {
    var cfg: Config, now: int, es: seq<Step> :| s == Run(Start(cfg, now), es);
    StartIsSafe(cfg, now);
    RunKeeps(Start(cfg, now), es);
  }
}

/** Which finished rows also have a dead letter: those the stale checker took for dead while they ran. */
module JobLetters {
  import opened Prelude
  import opened JobStore
  import opened JobProtocol
  import opened JobSafety
  import opened JobTheorems

  /** The row a step of the stale checker buries. */
  ghost function SweptBy(s: Sys, e: Step): set<nat> {
    if e.Check? && e.check.DoFirst? && CanSweep(s, s.checker, CHECK_AGE, e.check) && e.check.o.Applied()
    then {s.checker.rest[0].id} else {}
  }

  /** The rows the stale checker buried in the course of a run. */
  ghost function SweptIn(s: Sys, es: seq<Step>): set<nat>
    decreases |es|
  {
    if es == [] then {} else SweptBy(s, es[0]) + SweptIn(Do(s, es[0]), es[1..])
  }

  /** Nobody ever asked the writer about the row, and it is not recorded. */
  ghost predicate Unasked(processed: set<nat>, sent: seq<Request>, id: nat) {
    id !in processed && forall i :: 0 <= i < |sent| ==> sent[i].id != id
  }

  predicate HasNotSent(pc: Pc) {
    !pc.Idle? && !pc.Sending? && !pc.Waiting?
  }

  ghost predicate HoldersUnasked(processed: set<nat>, sent: seq<Request>, workers: Workers) {
    forall w :: w in workers && HasNotSent(workers[w]) ==> Unasked(processed, sent, workers[w].id)
  }

  /** Only a worker that is about to fail the row may still hold it. */
  ghost predicate IsLetGo(workers: Workers, j: nat) {
    forall w :: w in workers && !workers[w].Idle? && workers[w].id == j ==> workers[w].Failing?
  }

  predicate IsUnfinished(jobs: Jobs, picks: seq<nat>, j: nat) {
    j in jobs && jobs[j].status != Completed && j in picks
  }

  /** A row whose worker buried it: nothing completes it any more. */
  ghost predicate IsSpent(s: Sys, j: nat) {
    && Unasked(s.t.processed, s.writer.sent, j)
    && IsUnfinished(s.t.jobs, s.hist.picks, j)
    && IsLetGo(s.workers, j)
  }

  ghost predicate HasLetter(buried: map<nat, DeadLetter>, j: nat) {
    exists d :: d in buried && buried[d].jobId == j
  }

  ghost predicate LetterInv(s: Sys, swept: set<nat>) {
    && HoldersUnasked(s.t.processed, s.writer.sent, s.workers)
    && (forall d :: d in s.hist.buried ==> s.hist.buried[d].jobId in swept || IsSpent(s, s.hist.buried[d].jobId))
    && (forall j :: j in swept ==> HasLetter(s.hist.buried, j))
  }

  /** What a step that writes no letter has to keep for a spent row. */
  ghost predicate Leaves(s: Sys, s': Sys) {
    && s'.hist.buried == s.hist.buried
    && HoldersUnasked(s'.t.processed, s'.writer.sent, s'.workers)
    && forall j :: IsSpent(s, j) ==> IsSpent(s', j)
  }

  lemma LeavingKeeps(s: Sys, s': Sys, swept: set<nat>)
    requires LetterInv(s, swept) && Leaves(s, s')
    ensures LetterInv(s', swept)
  {
  }

  // -------- The worker

  lemma NewRowIsUnasked(s: Sys, id: nat)
    requires Inv(s) && id in s.t.jobs && s.t.jobs[id].status == Pending
    ensures id !in s.hist.picks && Unasked(s.t.processed, s.writer.sent, id)
  {
    assert forall i :: 0 <= i < |s.writer.sent| ==> RequestOk(s.t.processed, s.hist.runs, s.writer.sent[i].id, s.writer.sent[i].kind);
  }

  lemma NewHolderLeaves(processed: set<nat>, sent: seq<Request>, workers: Workers, w: nat, pc: Pc, picks: seq<nat>)
    requires HoldersUnasked(processed, sent, workers)
    requires pc.Idle? || (pc.Picked? && pc.id !in picks && Unasked(processed, sent, pc.id))
    requires w !in workers || workers[w].Idle?
    ensures HoldersUnasked(processed, sent, workers[w := pc])
    ensures forall j :: j in picks && IsLetGo(workers, j) ==> IsLetGo(workers[w := pc], j)
  {
  }

  lemma PickLeaves(s: Sys, w: nat, e: WorkStep)
    requires Inv(s) && CanWork(s, w, e) && e.Pick?
    requires HoldersUnasked(s.t.processed, s.writer.sent, s.workers)
    ensures Leaves(s, DoWork(s, w, e))
  {
    var s' := DoWork(s, w, e);
    NewRowIsUnasked(s, e.row);
    NewHolderLeaves(s.t.processed, s.writer.sent, s.workers, w, s'.workers[w], s.hist.picks);
  }

  /** A worker that moves on holding its row keeps it unasked, and cannot be the holder of a spent row. */
  lemma MoveLeaves(processed: set<nat>, sent: seq<Request>, workers: Workers, w: nat, pc: Pc)
    requires HoldersUnasked(processed, sent, workers) && w in workers && !workers[w].Idle?
    requires pc.Idle? || (pc.id == workers[w].id && !workers[w].Failing? && (HasNotSent(pc) ==> HasNotSent(workers[w])))
    ensures HoldersUnasked(processed, sent, workers[w := pc])
    ensures forall j :: IsLetGo(workers, j) ==> IsLetGo(workers[w := pc], j)
  {
  }

  lemma StatementIsQuiet(s: Sys, w: nat, e: WorkStep)
    requires CanWork(s, w, e) && Holds(s, w) && (e.Complete? || e.Postpone? || e.Fail?)
    ensures var s', pc := DoWork(s, w, e), PcOf(s, w);
      && s'.t.processed == s.t.processed && s'.writer == s.writer && s'.hist == s.hist
      && w in s'.workers && s'.workers == s.workers[w := s'.workers[w]]
      && (s'.workers[w].Idle? || (s'.workers[w].Sending? && s'.workers[w].id == pc.id && pc.Delaying?))
  {
  }

  /** Of the worker's own statements only the one of a skipping worker completes a row. */
  lemma StatementCompletesSkipped(s: Sys, w: nat, e: WorkStep)
    requires CanWork(s, w, e) && Holds(s, w) && (e.Complete? || e.Postpone? || e.Fail?)
    ensures var s', pc := DoWork(s, w, e), PcOf(s, w);
      forall j :: j in s.t.jobs && s.t.jobs[j].status != Completed ==>
        j in s'.t.jobs && (s'.t.jobs[j].status != Completed || (e.Complete? && j == pc.id && pc.Skipping?))
  {
  }

  lemma StatementLeaves(s: Sys, w: nat, e: WorkStep)
    requires Inv(s) && CanWork(s, w, e) && (e.Complete? || e.Postpone? || e.Fail?)
    requires HoldersUnasked(s.t.processed, s.writer.sent, s.workers)
    ensures Leaves(s, DoWork(s, w, e))
  {
    HolderOk(s, w);
    StatementIsQuiet(s, w, e);
    StatementCompletesSkipped(s, w, e);
    MoveLeaves(s.t.processed, s.writer.sent, s.workers, w, DoWork(s, w, e).workers[w]);
    forall j | IsSpent(s, j)
      ensures IsSpent(DoWork(s, w, e), j)
    {
    }
  }

  lemma DecisionIsQuiet(s: Sys, w: nat, e: WorkStep)
    requires CanWork(s, w, e) && Holds(s, w)
    requires e.CheckConfig? || e.Gate? || e.Probe? || e.Call? || e.Return? || e.GiveUp?
    ensures var s', pc := DoWork(s, w, e), PcOf(s, w);
      && s'.t == s.t && s'.writer == s.writer && s'.hist.buried == s.hist.buried && s'.hist.picks == s.hist.picks
      && w in s'.workers && s'.workers == s.workers[w := s'.workers[w]]
      && (s'.workers[w].Idle? || (s'.workers[w].id == pc.id && !pc.Failing? && HasNotSent(pc)))
  {
  }

  lemma DecisionLeaves(s: Sys, w: nat, e: WorkStep)
    requires Inv(s) && CanWork(s, w, e)
    requires e.CheckConfig? || e.Gate? || e.Probe? || e.Call? || e.Return? || e.GiveUp?
    requires HoldersUnasked(s.t.processed, s.writer.sent, s.workers)
    ensures Leaves(s, DoWork(s, w, e))
  {
    HolderOk(s, w);
    DecisionIsQuiet(s, w, e);
    MoveLeaves(s.t.processed, s.writer.sent, s.workers, w, DoWork(s, w, e).workers[w]);
  }

  /** A worker that asks the writer about its row is the only one that holds the row. */
  lemma AskingLeaves(processed: set<nat>, sent: seq<Request>, workers: Workers, w: nat, req: Request, pc: Pc)
    requires HoldersUnasked(processed, sent, workers) && HoldersOk(workers) && w in workers
    requires workers[w].Sending? && pc.Waiting? && req.id == pc.id == workers[w].id
    ensures HoldersUnasked(processed, sent + [req], workers[w := pc])
    ensures forall j :: Unasked(processed, sent, j) && IsLetGo(workers, j) ==>
      Unasked(processed, sent + [req], j) && IsLetGo(workers[w := pc], j)
  {
  }

  lemma SendLeaves(s: Sys, w: nat)
    requires Inv(s) && CanWork(s, w, Send)
    requires HoldersUnasked(s.t.processed, s.writer.sent, s.workers)
    ensures Leaves(s, DoWork(s, w, Send))
  {
    HolderOk(s, w);
    var pc := PcOf(s, w);
    AskingLeaves(s.t.processed, s.writer.sent, s.workers, w, Request(|s.writer.sent|, pc.id, pc.kind),
                 Waiting(pc.id, pc.kind, |s.writer.sent|));
  }

  lemma ReceiveLeaves(s: Sys, w: nat)
    requires Inv(s) && CanWork(s, w, Receive)
    requires HoldersUnasked(s.t.processed, s.writer.sent, s.workers)
    ensures Leaves(s, DoWork(s, w, Receive))
  {
    HolderOk(s, w);
  }

  lemma BurialSpends(s: Sys, w: nat, o: Outcome)
    requires Inv(s) && CanWork(s, w, Bury(o)) && HoldersUnasked(s.t.processed, s.writer.sent, s.workers)
    ensures var j := PcOf(s, w).id;
      && Unasked(s.t.processed, s.writer.sent, j) && IsUnfinished(s.t.jobs, s.hist.picks, j)
      && IsLetGo(s.workers[w := Failing(j, PcOf(s, w).error)], j)
  {
    HolderOk(s, w);
    assert HasNotSent(s.workers[w]);
  }

  lemma BurialMoves(workers: Workers, w: nat, pc: Pc, processed: set<nat>, sent: seq<Request>)
    requires HoldersUnasked(processed, sent, workers) && w in workers && workers[w].Burying?
    requires pc.Failing? && pc.id == workers[w].id
    ensures HoldersUnasked(processed, sent, workers[w := pc])
    ensures forall j :: IsLetGo(workers, j) ==> IsLetGo(workers[w := pc], j)
  {
  }

  lemma BurialIsQuiet(s: Sys, w: nat, o: Outcome)
    requires CanWork(s, w, Bury(o)) && w in s.workers
    ensures var s', pc := DoWork(s, w, Bury(o)), PcOf(s, w);
      && s'.t.jobs == s.t.jobs && s'.t.processed == s.t.processed && s'.writer == s.writer && s'.hist.picks == s.hist.picks
      && s'.workers == s.workers[w := Failing(pc.id, pc.error)]
      && Adds(s.hist.buried, s'.hist.buried, s.t.nextDead, pc.id)
  {
  }

  /** At most one letter was added, for row j. */
  predicate Adds(buried: map<nat, DeadLetter>, buried': map<nat, DeadLetter>, d: nat, j: nat) {
    buried' == buried || (d in buried' && buried'[d].jobId == j && buried' == buried[d := buried'[d]])
  }

  lemma AddingKeepsLetters(buried: map<nat, DeadLetter>, buried': map<nat, DeadLetter>, d: nat, j: nat, k: nat)
    requires Adds(buried, buried', d, j) && d !in buried && HasLetter(buried, k)
    ensures HasLetter(buried', k)
  {
    var x :| x in buried && buried[x].jobId == k;
    assert x in buried' && buried'[x].jobId == k;
  }

  lemma BuryKeepsLetters(s: Sys, w: nat, o: Outcome, swept: set<nat>)
    requires Inv(s) && CanWork(s, w, Bury(o)) && LetterInv(s, swept)
    ensures LetterInv(DoWork(s, w, Bury(o)), swept)
  {
    HolderOk(s, w);
    var s', pc := DoWork(s, w, Bury(o)), PcOf(s, w);
    BurialIsQuiet(s, w, o);
    BurialSpends(s, w, o);
    BurialMoves(s.workers, w, Failing(pc.id, pc.error), s.t.processed, s.writer.sent);
    assert s.t.nextDead !in s.hist.buried;
    forall j | j in swept
      ensures HasLetter(s'.hist.buried, j)
    {
      AddingKeepsLetters(s.hist.buried, s'.hist.buried, s.t.nextDead, pc.id, j);
    }
  }

  lemma WorkKeepsLetters(s: Sys, w: nat, e: WorkStep, swept: set<nat>)
    requires Inv(s) && CanWork(s, w, e) && LetterInv(s, swept)
    ensures LetterInv(DoWork(s, w, e), swept)
  {
    hide Inv, DoWork, Leaves;
    match e {
      case Pick(_, _) => PickLeaves(s, w, e);
      case Bury(o) => BuryKeepsLetters(s, w, o, swept);
      case Send => SendLeaves(s, w);
      case Receive => ReceiveLeaves(s, w);
      case Complete(_) => StatementLeaves(s, w, e);
      case Postpone(_, _) => StatementLeaves(s, w, e);
      case Fail(_) => StatementLeaves(s, w, e);
      case _ => DecisionLeaves(s, w, e);
    }
    if !e.Bury? {
      LeavingKeeps(s, DoWork(s, w, e), swept);
    }
  }

  // -------- The others

  lemma ApplyIsAsked(s: Sys, o: Outcome)
    requires Inv(s) && CanWrite(s, Apply(o))
    ensures exists i :: 0 <= i < |s.writer.sent| && s.writer.sent[i].id == s.writer.hand.req.id
  {
    assert s.writer.sent[s.writer.taken - 1] == s.writer.hand.req;
  }

  /** The statement of a request the writer holds: it is about a row somebody asked about. */
  lemma ApplyIsAboutItsRow(t: Tables, req: Request)
    ensures var t' := Requested(t, req);
      && t'.processed <= t.processed + {req.id} && t'.jobs.Keys == t.jobs.Keys
      && forall j <- t.jobs :: j != req.id ==> t'.jobs[j] == t.jobs[j]
  {
  }

  lemma AskedIsNotUnasked(s: Sys, id: nat, j: nat)
    requires exists i :: 0 <= i < |s.writer.sent| && s.writer.sent[i].id == id
    requires Unasked(s.t.processed, s.writer.sent, j)
    ensures j != id
  {
  }

  lemma ApplyLeaves(s: Sys, o: Outcome)
    requires Inv(s) && CanWrite(s, Apply(o)) && HoldersUnasked(s.t.processed, s.writer.sent, s.workers)
    ensures Leaves(s, DoWrite(s, Apply(o)))
  {
    var s', req := DoWrite(s, Apply(o)), s.writer.hand.req;
    ApplyIsAsked(s, o);
    ApplyIsAboutItsRow(s.t, req);
    assert s'.writer.sent == s.writer.sent && s'.workers == s.workers && s'.hist == s.hist;
    forall j | Unasked(s.t.processed, s.writer.sent, j)
      ensures Unasked(s'.t.processed, s'.writer.sent, j) && (j in s.t.jobs ==> j in s'.t.jobs && s'.t.jobs[j] == s.t.jobs[j])
    {
      AskedIsNotUnasked(s, req.id, j);
    }
  }

  /** A step that touches neither the workers nor what was asked, and finishes no row. */
  ghost predicate IsCalm(s: Sys, s': Sys) {
    && s'.t.processed == s.t.processed && s'.writer.sent == s.writer.sent && s'.workers == s.workers
    && s'.hist.buried == s.hist.buried && s'.hist.picks == s.hist.picks
    && FinishesNone(s.t.jobs, s'.t.jobs)
  }

  ghost predicate FinishesNone(jobs: Jobs, jobs': Jobs) {
    forall j <- jobs :: j in jobs' && (jobs'[j].status == Completed ==> jobs[j].status == Completed)
  }

  lemma CalmLeaves(s: Sys, s': Sys)
    requires IsCalm(s, s') && HoldersUnasked(s.t.processed, s.writer.sent, s.workers)
    ensures Leaves(s, s')
  {
  }

  lemma WriteIsCalm(s: Sys, e: WriteStep)
    requires CanWrite(s, e) && !e.Apply?
    ensures IsCalm(s, DoWrite(s, e))
  {
  }

  lemma RescueIsCalm(s: Sys, e: SweepStep)
    requires CanSweep(s, s.rescuer, RESCUE_AGE, e)
    ensures IsCalm(s, DoRescue(s, e))
  {
  }

  lemma AdminIsCalm(s: Sys, a: nat, e: AdminStep)
    requires TablesOk(s.t) && CanAdminister(s, a, e)
    ensures IsCalm(s, DoAdminister(s, a, e))
  {
  }

  lemma SweepingKeepsLetters(s: Sys, e: SweepStep, swept: set<nat>)
    requires Inv(s) && CanSweep(s, s.checker, CHECK_AGE, e) && e.DoFirst? && LetterInv(s, swept)
    ensures LetterInv(DoCheck(s, e), swept + SweptBy(s, Check(e)))
  {
    var s', j := DoCheck(s, e), s.checker.rest[0].id;
    assert Adds(s.hist.buried, s'.hist.buried, s.t.nextDead, j) && s.t.nextDead !in s.hist.buried;
    assert s'.t.jobs == s.t.jobs && s'.t.processed == s.t.processed && s'.writer == s.writer && s'.workers == s.workers;
    forall k | k in swept
      ensures HasLetter(s'.hist.buried, k)
    {
      AddingKeepsLetters(s.hist.buried, s'.hist.buried, s.t.nextDead, j, k);
    }
    if e.o.Applied() {
      assert s'.hist.buried[s.t.nextDead].jobId == j;
    }
  }

  lemma CheckKeepsLetters(s: Sys, e: SweepStep, swept: set<nat>)
    requires Inv(s) && CanSweep(s, s.checker, CHECK_AGE, e) && LetterInv(s, swept)
    ensures LetterInv(DoCheck(s, e), swept + SweptBy(s, Check(e)))
  {
    if e.DoFirst? {
      SweepingKeepsLetters(s, e, swept);
    } else {
      TimeoutIsCalm(s, e);
      CalmLeaves(s, DoCheck(s, e));
      LeavingKeeps(s, DoCheck(s, e), swept);
    }
  }

  lemma TimeoutIsCalm(s: Sys, e: SweepStep)
    requires CanSweep(s, s.checker, CHECK_AGE, e) && !e.DoFirst?
    ensures IsCalm(s, DoCheck(s, e))
  {
  }

  lemma EnqueueIsCalm(s: Sys, row: Job)
    requires TablesOk(s.t)
    ensures IsCalm(s, s.(t := AfterInsert(s.t, row))) && IsCalm(s, s.(t := AfterInsertKeyed(s.t, row)))
  {
  }

  /** The steps of everybody but a worker, the checker's burial and the writer's statement. */
  lemma OthersAreCalm(s: Sys, e: Step)
    requires TablesOk(s.t) && Enabled(s, e)
    requires e.Tick? || e.Enqueue? || e.EnqueueKeyed? || e.Rescue? || e.Administer? || (e.Write? && !e.write.Apply?)
    ensures IsCalm(s, Do(s, e))
  {
    match e {
      case Write(x) => WriteIsCalm(s, x);
      case Rescue(x) => RescueIsCalm(s, x);
      case Administer(a, x) => AdminIsCalm(s, a, x);
      case Enqueue(tenant, typ, payload) => EnqueueIsCalm(s, NewJob(tenant, typ, payload, s.now, None));
      case EnqueueKeyed(tenant, typ, payload, key) => EnqueueIsCalm(s, NewJob(tenant, typ, payload, s.now, key));
      case _ =>
    }
  }

  lemma RestartLeaves(s: Sys, loaded: Config)
    ensures Leaves(s, AfterRestart(s, loaded))
  {
  }

  lemma DoKeepsLetters(s: Sys, e: Step, swept: set<nat>)
    requires Inv(s) && LetterInv(s, swept)
    ensures LetterInv(Do(s, e), swept + SweptBy(s, e))
  {
    if !e.Check? {
      assert swept + SweptBy(s, e) == swept;
    }
    if !Enabled(s, e) {
      assert swept + SweptBy(s, e) == swept;
    } else if e.Work? {
      WorkKeepsLetters(s, e.w, e.work, swept);
    } else if e.Check? {
      CheckKeepsLetters(s, e.check, swept);
    } else {
      if e.Write? && e.write.Apply? {
        ApplyLeaves(s, e.write.o);
      } else if e.Restart? {
        RestartLeaves(s, e.loaded);
      } else {
        OthersAreCalm(s, e);
        CalmLeaves(s, Do(s, e));
      }
      LeavingKeeps(s, Do(s, e), swept);
    }
  }

  lemma {:induction false} RunKeepsLetters(s: Sys, es: seq<Step>, swept: set<nat>)
    requires Inv(s) && LetterInv(s, swept)
    ensures LetterInv(Run(s, es), swept + SweptIn(s, es))
    decreases |es|
  {
    hide Inv, LetterInv, Do;
    if es == [] {
      assert swept + {} == swept;
    } else {
      DoKeeps(s, es[0]);
      DoKeepsLetters(s, es[0], swept);
      RunKeepsLetters(Do(s, es[0]), es[1..], swept + SweptBy(s, es[0]));
      assert swept + SweptBy(s, es[0]) + SweptIn(Do(s, es[0]), es[1..]) == swept + SweptIn(s, es);
    }
  }

  /** A completed row has a dead letter exactly if the stale checker took it for dead and buried it while it
      ran: only then does requeueing a letter repeat finished work. */
  lemma CompletedRowHasALetterIff(cfg: Config, now: int, es: seq<Step>, j: nat)
    requires var s := Run(Start(cfg, now), es); j in s.t.jobs && s.t.jobs[j].status == Completed
    ensures HasLetter(Run(Start(cfg, now), es).hist.buried, j) <==> j in SweptIn(Start(cfg, now), es)
  {
    StartIsSafe(cfg, now);
    RunKeepsLetters(Start(cfg, now), es, {});
    assert {} + SweptIn(Start(cfg, now), es) == SweptIn(Start(cfg, now), es);
  }

  // -------- A requeued row is ready at once

  ghost predicate AreFromBefore(buried: map<nat, DeadLetter>, now: int) {
    forall d :: d in buried ==> buried[d].failedAt <= now
  }

  lemma WorkBuriesNow(s: Sys, w: nat, e: WorkStep)
    requires CanWork(s, w, e) && AreFromBefore(s.hist.buried, s.now)
    ensures AreFromBefore(DoWork(s, w, e).hist.buried, s.now) && DoWork(s, w, e).now == s.now
  {
  }

  lemma CheckBuriesNow(s: Sys, e: SweepStep)
    requires CanSweep(s, s.checker, CHECK_AGE, e) && AreFromBefore(s.hist.buried, s.now)
    ensures AreFromBefore(DoCheck(s, e).hist.buried, s.now) && DoCheck(s, e).now == s.now
  {
  }

  lemma WriteBuriesNothing(s: Sys, e: WriteStep)
    requires CanWrite(s, e)
    ensures DoWrite(s, e).hist.buried == s.hist.buried && DoWrite(s, e).now == s.now
  {
  }

  lemma RescueBuriesNothing(s: Sys, e: SweepStep)
    requires CanSweep(s, s.rescuer, RESCUE_AGE, e)
    ensures DoRescue(s, e).hist.buried == s.hist.buried && DoRescue(s, e).now == s.now
  {
  }

  lemma AdminBuriesNothing(s: Sys, a: nat, e: AdminStep)
    requires CanAdminister(s, a, e)
    ensures DoAdminister(s, a, e).hist.buried == s.hist.buried && DoAdminister(s, a, e).now == s.now
  {
  }

  lemma OthersBuryNothing(s: Sys, e: Step)
    requires !e.Work? && !e.Check?
    ensures Do(s, e).hist.buried == s.hist.buried && Do(s, e).now >= s.now
  {
    hide DoWrite, DoRescue, DoAdminister;
    if Enabled(s, e) {
      match e {
        case Write(x) => WriteBuriesNothing(s, x);
        case Rescue(x) => RescueBuriesNothing(s, x);
        case Administer(a, x) => AdminBuriesNothing(s, a, x);
        case _ =>
      }
    }
  }

  lemma StepBuriesNow(s: Sys, e: Step)
    requires AreFromBefore(s.hist.buried, s.now)
    ensures AreFromBefore(Do(s, e).hist.buried, Do(s, e).now)
  {
    hide DoWork, DoCheck;
    if Enabled(s, e) {
      match e {
        case Work(w, x) => WorkBuriesNow(s, w, x);
        case Check(x) => CheckBuriesNow(s, x);
        case _ => OthersBuryNothing(s, e);
      }
    }
  }

  lemma {:induction false} LettersAreFromBefore(s: Sys, es: seq<Step>)
    requires AreFromBefore(s.hist.buried, s.now)
    ensures AreFromBefore(Run(s, es).hist.buried, Run(s, es).now)
    decreases |es|
  {
    hide Do, AreFromBefore;
    if es != [] {
      StepBuriesNow(s, es[0]);
      LettersAreFromBefore(Do(s, es[0]), es[1..]);
    }
  }

  /** A letter that is requeued becomes a fresh row, and a worker may pick it from that moment on. */
  lemma RequeuedRowIsReadyAtOnce(s: Sys, a: nat, o: Outcome)
    requires Reachable(s) && CanAdminister(s, a, Insert(o)) && o.Applied()
    ensures var s' := Do(s, Administer(a, Insert(o)));
      && s.t.nextJob !in s.t.jobs && s.t.nextJob in s'.t.jobs
      && var row, letter := s'.t.jobs[s.t.nextJob], AdminOf(s, a).rest[0].row;
      && row.typ == letter.typ && row.payload == letter.payload && row.tenant == letter.tenant && row.key.None?
      && row.status == Pending && row.attempts == 0 && row.runAt <= s'.now && row.nextRetryAt.None?
  {
    hide Inv;
    var cfg: Config, now: int, es: seq<Step> :| s == Run(Start(cfg, now), es);
    LettersAreFromBefore(Start(cfg, now), es);
    ReachableIsSafe(s);
    HeadEntryIsOk(s, a);
    InvHasTables(s);
  }
}

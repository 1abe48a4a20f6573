/** Safety of the job queue over every interleaving of enqueues, workers, writer, stale checker, rescue,
    admin requests and process restarts. */
module JobTheorems {
  import opened Prelude
  import opened JobStore
  import opened JobProtocol
  import opened JobSafety

  // ---------------------------------------------------------------- what a run does, read off its steps

  /** The row a step takes out of the queue. */
  ghost function PickedBy(s: Sys, e: Step): seq<nat> {
    if e.Work? && e.work.Pick? && CanWork(s, e.w, e.work) then [e.work.row] else []
  }

  /** The row whose handler a step calls. */
  ghost function CalledBy(s: Sys, e: Step): seq<nat> {
    if e.Work? && e.work.Call? && CanWork(s, e.w, e.work) then [PcOf(s, e.w).id] else []
  }

  /** The row whose type a step finds disabled, in the configuration of that moment. */
  ghost function SkippedBy(s: Sys, e: Step): set<nat> {
    if e.Work? && e.work.CheckConfig? && PcOf(s, e.w).Picked?
      && !(PcOf(s, e.w).row.typ in s.cfg && s.cfg[PcOf(s, e.w).row.typ].enabled)
    then {PcOf(s, e.w).id} else {}
  }

  /** The row whose type a step finds enabled. */
  ghost function PassedBy(s: Sys, e: Step): set<nat> {
    if e.Work? && e.work.CheckConfig? && PcOf(s, e.w).Picked?
      && PcOf(s, e.w).row.typ in s.cfg && s.cfg[PcOf(s, e.w).row.typ].enabled
    then {PcOf(s, e.w).id} else {}
  }

  /** The rows that workers found enabled in the course of a run. */
  ghost function PassesIn(s: Sys, es: seq<Step>): set<nat>
    decreases |es|
  {
    if es == [] then {} else PassedBy(s, es[0]) + PassesIn(Do(s, es[0]), es[1..])
  }

  /** The rows that workers found disabled in the course of a run. */
  ghost function SkipsIn(s: Sys, es: seq<Step>): set<nat>
    decreases |es|
  {
    if es == [] then {} else SkippedBy(s, es[0]) + SkipsIn(Do(s, es[0]), es[1..])
  }

  ghost function PicksIn(s: Sys, es: seq<Step>): seq<nat>
    decreases |es|
  {
    if es == [] then [] else PickedBy(s, es[0]) + PicksIn(Do(s, es[0]), es[1..])
  }

  ghost function CallsIn(s: Sys, es: seq<Step>): seq<nat>
    decreases |es|
  {
    if es == [] then [] else CalledBy(s, es[0]) + CallsIn(Do(s, es[0]), es[1..])
  }

  ghost predicate Undisturbed(s: Sys, s': Sys) {
    && s'.hist.picks == s.hist.picks && s'.hist.runs == s.hist.runs && s'.hist.skipped == s.hist.skipped
    && ((s'.workers == s.workers && s'.cfg == s.cfg) || s'.workers == map[])
  }

  lemma CheckDisturbsNoWorker(s: Sys, e: SweepStep)
    requires CanSweep(s, s.checker, CHECK_AGE, e)
    ensures Undisturbed(s, DoCheck(s, e))
  {
  }

  lemma RescueDisturbsNoWorker(s: Sys, e: SweepStep)
    requires CanSweep(s, s.rescuer, RESCUE_AGE, e)
    ensures Undisturbed(s, DoRescue(s, e))
  {
  }

  lemma AdminsDisturbNoWorker(s: Sys, a: nat, e: AdminStep)
    requires CanAdminister(s, a, e)
    ensures Undisturbed(s, DoAdminister(s, a, e))
  {
  }

  /** Only a worker's own steps pick or call; a restart forgets the workers, nothing else moves them. */
  lemma OthersLeaveWorkersAlone(s: Sys, e: Step)
    requires !e.Work?
    ensures Undisturbed(s, Do(s, e))
  {
    hide DoCheck, DoRescue, DoAdminister;
    if Enabled(s, e) {
      match e {
        case Check(x) => CheckDisturbsNoWorker(s, x);
        case Rescue(x) => RescueDisturbsNoWorker(s, x);
        case Administer(a, x) => AdminsDisturbNoWorker(s, a, x);
        case _ =>
      }
    }
  }

  lemma StepIsRemembered(s: Sys, e: Step)
    ensures Do(s, e).hist.picks == s.hist.picks + PickedBy(s, e)
    ensures Do(s, e).hist.runs == s.hist.runs + CalledBy(s, e)
    ensures Do(s, e).hist.skipped == s.hist.skipped + SkippedBy(s, e)
  {
    if !e.Work? {
      OthersLeaveWorkersAlone(s, e);
    } else if CanWork(s, e.w, e.work) {
      assert DoWork(s, e.w, e.work).hist.picks == s.hist.picks + PickedBy(s, e);
      assert DoWork(s, e.w, e.work).hist.skipped == s.hist.skipped + SkippedBy(s, e);
    }
  }

  lemma {:induction false} PicksAreRemembered(s: Sys, es: seq<Step>)
    ensures Run(s, es).hist.picks == s.hist.picks + PicksIn(s, es)
    decreases |es|
  {
    hide Do, PickedBy;
    if es != [] {
      StepIsRemembered(s, es[0]);
      PicksAreRemembered(Do(s, es[0]), es[1..]);
    }
  }

  lemma {:induction false} CallsAreRemembered(s: Sys, es: seq<Step>)
    ensures Run(s, es).hist.runs == s.hist.runs + CallsIn(s, es)
    decreases |es|
  {
    if es != [] {
      StepIsRemembered(s, es[0]);
      CallsAreRemembered(Do(s, es[0]), es[1..]);
    }
  }

  lemma {:induction false} SkipsAreRemembered(s: Sys, es: seq<Step>)
    ensures Run(s, es).hist.skipped == s.hist.skipped + SkipsIn(s, es)
    decreases |es|
  {
    if es != [] {
      StepIsRemembered(s, es[0]);
      SkipsAreRemembered(Do(s, es[0]), es[1..]);
    }
  }

  lemma InvHasTables(s: Sys)
    requires Inv(s)
    ensures TablesOk(s.t)
  {
  }

  lemma RunStaysReachable(s: Sys, es: seq<Step>)
    requires Reachable(s)
    ensures Reachable(Run(s, es))
  {
    var cfg: Config, now: int, before: seq<Step> :| s == Run(Start(cfg, now), before);
    RunSplits(Start(cfg, now), before, es);
    assert Run(s, es) == Run(Start(cfg, now), before + es);
  }

  // ---------------------------------------------------------------- at most once

  /** In every run, no row is picked twice and no row's handler is called twice. */
  lemma EachRowIsPickedAndRunAtMostOnce(cfg: Config, now: int, es: seq<Step>)
    ensures NoDup(PicksIn(Start(cfg, now), es))
    ensures NoDup(CallsIn(Start(cfg, now), es))
    ensures forall j :: j in CallsIn(Start(cfg, now), es) ==> j in PicksIn(Start(cfg, now), es)
  {
    var s := Run(Start(cfg, now), es);
    ReachableIsSafe(s);
    PicksAreRemembered(Start(cfg, now), es);
    CallsAreRemembered(Start(cfg, now), es);
    assert s.hist.picks == PicksIn(Start(cfg, now), es);
    assert s.hist.runs == CallsIn(Start(cfg, now), es);
  }

  /** Two workers never work on the same row. */
  lemma WorkersHoldDifferentRows(s: Sys, v: nat, w: nat)
    requires Reachable(s) && v != w && !PcOf(s, v).Idle? && !PcOf(s, w).Idle?
    ensures PcOf(s, v).id != PcOf(s, w).id
  {
    ReachableIsSafe(s);
  }

  /** A row that left `pending` is never pending again, and is never picked or run once more. */
  lemma {:induction false} NeverPendingAgain(s: Sys, es: seq<Step>, j: nat)
    requires Reachable(s) && j in s.t.jobs && s.t.jobs[j].status != Pending
    ensures j in Run(s, es).t.jobs && Run(s, es).t.jobs[j].status != Pending
    ensures j !in PicksIn(s, es)
    ensures j in s.hist.runs ==> j !in CallsIn(s, es)
  {
    RunStaysReachable(s, es);
    ReachableIsSafe(s);
    var s' := Run(s, es);
    ReachableIsSafe(s');
    PicksAreRemembered(s, es);
    CallsAreRemembered(s, es);
    assert j in s.hist.picks && j in s'.hist.picks;
    NoDupSplit(s.hist.picks, PicksIn(s, es), j);
    if j in s.hist.runs {
      NoDupSplit(s.hist.runs, CallsIn(s, es), j);
    }
  }

  lemma NoDupSplit(a: seq<nat>, b: seq<nat>, x: nat)
    requires NoDup(a + b) && x in a
    ensures x !in b
  {
    var i :| 0 <= i < |a| && a[i] == x;
    assert (a + b)[i] == x;
    forall k | 0 <= k < |b| ensures b[k] != x {
      assert (a + b)[|a| + k] == b[k];
    }
  }

  /** Rows enqueued under one idempotency key are one row, so its handler is called at most once. */
  lemma OneKeyRunsAtMostOnce(s: Sys, i: nat, k: nat)
    requires Reachable(s) && i < k < |s.hist.runs|
    ensures s.hist.runs[i] in s.t.jobs && s.hist.runs[k] in s.t.jobs
    ensures s.t.jobs[s.hist.runs[i]].key.Some? ==> s.t.jobs[s.hist.runs[i]].key != s.t.jobs[s.hist.runs[k]].key
  {
    ReachableIsSafe(s);
    assert s.hist.runs[i] in s.hist.runs && s.hist.runs[k] in s.hist.runs;
    assert s.hist.runs[i] in s.hist.picks && s.hist.runs[k] in s.hist.picks;
  }

  // ---------------------------------------------------------------- what the statuses mean

  /** Everybody on the way to the handler passed the check. */
  ghost predicate AllPassed(s: Sys, passed: set<nat>) {
    forall w :: w in s.workers && (s.workers[w].Gating? || s.workers[w].Probing? || s.workers[w].Ready?)
      ==> s.workers[w].id in passed
  }

  lemma WorkPasses(s: Sys, w: nat, e: WorkStep, passed: set<nat>)
    requires CanWork(s, w, e) && AllPassed(s, passed)
    ensures AllPassed(DoWork(s, w, e), passed + PassedBy(s, Work(w, e)))
  {
    hide AfterPick, AfterComplete, AfterNextRetry, AfterFail, AfterBury, IsNext;
  }

  lemma StepPasses(s: Sys, e: Step, passed: set<nat>)
    requires AllPassed(s, passed)
    ensures AllPassed(Do(s, e), passed + PassedBy(s, e)) && forall j :: j in CalledBy(s, e) ==> j in passed
  {
    hide DoWork, DoCheck, DoRescue, DoAdminister, DoWrite;
    if !e.Work? {
      OthersLeaveWorkersAlone(s, e);
    } else if Enabled(s, e) {
      WorkPasses(s, e.w, e.work, passed);
    }
  }

  lemma {:induction false} CalledRowsPassed(s: Sys, es: seq<Step>, passed: set<nat>)
    requires AllPassed(s, passed)
    ensures forall j :: j in CallsIn(s, es) ==> j in passed + PassesIn(s, es)
    decreases |es|
  {
    hide Do, AllPassed, PassedBy, CalledBy;
    if es != [] {
      StepPasses(s, es[0], passed);
      CalledRowsPassed(Do(s, es[0]), es[1..], passed + PassedBy(s, es[0]));
    }
  }

  /** A worker that picked a row goes on with it exactly if the configuration has the row's type enabled, and
      skips it otherwise. */
  lemma OnlyEnabledTypesGoOn(s: Sys, w: nat)
    requires Reachable(s) && PcOf(s, w).Picked?
    ensures var id := PcOf(s, w).id; var pc := PcOf(Do(s, Work(w, CheckConfig)), w);
      && id in s.t.jobs
      && (pc.Gating? <==> s.t.jobs[id].typ in s.cfg && s.cfg[s.t.jobs[id].typ].enabled)
      && (pc.Gating? || pc.Skipping?) && pc.id == id
  {
    ReachableIsSafe(s);
    HolderOk(s, w);
  }

  /** A completed row was recorded as processed after a worker found its type enabled and its handler ran, or
      a worker that held it found its type disabled in the configuration loaded then, and it was never run;
      never both. */
  lemma CompletedMeansDone(cfg: Config, now: int, es: seq<Step>, j: nat)
    requires var s := Run(Start(cfg, now), es); j in s.t.jobs && s.t.jobs[j].status == Completed
    ensures var s := Run(Start(cfg, now), es);
      if j in SkipsIn(Start(cfg, now), es)
      then j !in CallsIn(Start(cfg, now), es) && j !in s.t.processed
      else j in PassesIn(Start(cfg, now), es) && j in CallsIn(Start(cfg, now), es) && j in s.t.processed
  {
    CalledRowsPassed(Start(cfg, now), es, {});
    var s := Run(Start(cfg, now), es);
    ReachableIsSafe(s);
    SkipsAreRemembered(Start(cfg, now), es);
    CallsAreRemembered(Start(cfg, now), es);
    assert s.hist.runs == CallsIn(Start(cfg, now), es);
    assert s.hist.skipped == SkipsIn(Start(cfg, now), es);
  }

  /** The look-up in `processed_jobs` never finds the row the worker holds. */
  lemma ProbeFindsNothing(s: Sys, w: nat)
    requires Reachable(s)
    ensures PcOf(s, w).Probing? ==> PcOf(s, w).id !in s.t.processed
    ensures !PcOf(s, w).Duplicate?
  {
    ReachableIsSafe(s);
    if !PcOf(s, w).Idle? {
      HolderOk(s, w);
    }
  }

  /** No statement in use counts attempts: every row says zero, so a worker buries a failed row only
      when its type allows a single attempt. */
  lemma WorkerBuriesOnlySingleAttempts(s: Sys, w: nat)
    requires Reachable(s)
    ensures forall j :: j in s.t.jobs ==> s.t.jobs[j].attempts == 0
    ensures PcOf(s, w).Burying? ==> PcOf(s, w).id in s.t.jobs
    ensures PcOf(s, w).Burying? ==> var typ := s.t.jobs[PcOf(s, w).id].typ; typ in s.cfg ==> s.cfg[typ].maxAttempts <= 1
  {
    ReachableIsSafe(s);
    if PcOf(s, w).Burying? {
      HolderOk(s, w);
    }
  }

  // ---------------------------------------------------------------- the serial writer

  /** Requests take effect in the order they were sent, none twice. */
  lemma WritesAreAppliedInOrderAtMostOnce(s: Sys, i: nat, k: nat)
    requires Reachable(s) && i < k < |s.writer.applied|
    ensures s.writer.applied[i] < s.writer.applied[k] < |s.writer.sent|
    ensures s.writer.sent[s.writer.applied[i]].ticket == s.writer.applied[i]
  {
    ReachableIsSafe(s);
    assert s.writer.applied[i] in s.writer.applied && s.writer.applied[k] in s.writer.applied;
  }

  /** submitWrite returns nil only for a write that was applied. */
  lemma NilMeansApplied(s: Sys, w: nat)
    requires Reachable(s) && CanWork(s, w, Receive) && s.writer.replies[PcOf(s, w).ticket]
    ensures PcOf(s, w).ticket in s.writer.applied && PcOf(s, w).ticket < |s.writer.sent|
    ensures s.writer.sent[PcOf(s, w).ticket] == Request(PcOf(s, w).ticket, PcOf(s, w).id, PcOf(s, w).kind)
    ensures PcOf(s, w).kind.WriteProcessed? ==> PcOf(s, w).id in s.t.processed
  {
    ReachableIsSafe(s);
    NilReturnMeansApplied(s, w);
  }

  /** The buffer of a reply channel is free when its answer is ready: the writer is never stuck,
      and whenever it is alive and has work it can go on. */
  lemma WriterNeverBlocks(s: Sys)
    requires Reachable(s)
    ensures s.writer.hand.Answering? ==> CanWrite(s, Reply)
    ensures s.writer.stopped ==> s.writer.hand.Empty?
    ensures !s.writer.stopped && (s.writer.queue != [] || !s.writer.hand.Empty?) ==>
      CanWrite(s, Take) || CanWrite(s, Apply(Ok)) || CanWrite(s, Reply)
  {
    ReachableIsSafe(s);
  }

  // ---------------------------------------------------------------- dead letters

  /** Every dead letter ever written is still in the table, or was thrown away by an admin, or its
      tenant, type and payload live on in a row that was enqueued afresh. */
  lemma NoDeadLetterIsLost(s: Sys, d: nat)
    requires Reachable(s) && d in s.hist.buried
    ensures
      || (d in s.t.dead && s.t.dead[d] == s.hist.buried[d])
      || d in s.hist.discarded
      || (d in s.hist.requeued && s.hist.requeued[d] in s.t.jobs
          && var row, letter := s.t.jobs[s.hist.requeued[d]], s.hist.buried[d];
             row.typ == letter.typ && row.payload == letter.payload && row.tenant == letter.tenant)
  {
    ReachableIsSafe(s);
  }

  /** A dead letter carries the work of a row that was picked. */
  lemma DeadLettersComeFromPickedRows(s: Sys, d: nat)
    requires Reachable(s) && d in s.t.dead
    ensures s.t.dead[d].jobId in s.t.jobs && s.t.dead[d].jobId in s.hist.picks
    ensures var row, letter := s.t.jobs[s.t.dead[d].jobId], s.t.dead[d];
      (row.typ, row.payload, row.tenant) == (letter.typ, letter.payload, letter.tenant)
  {
    ReachableIsSafe(s);
    assert d in s.hist.buried;
  }

  // ---------------------------------------------------------------- rows that are never run

  /** The worker may still get to the handler. */
  ghost predicate MayStillCall(cfg: Config, pc: Pc) {
    || (pc.Picked? && pc.row.typ in cfg && cfg[pc.row.typ].enabled)
    || pc.Gating? || pc.Probing? || pc.Ready?
  }

  /** Row j was taken from the queue, its handler was not called, and no worker is on its way to do so. */
  ghost predicate Abandoned(s: Sys, j: nat) {
    && j in s.hist.picks && j !in s.hist.runs
    && forall w :: w in s.workers && MayStillCall(s.cfg, s.workers[w]) ==> s.workers[w].id != j
  }

  lemma DoKeepsAbandoned(s: Sys, e: Step, j: nat)
    requires Inv(s) && Abandoned(s, j)
    ensures Abandoned(Do(s, e), j)
  {
    if !e.Work? {
      OthersLeaveWorkersAlone(s, e);
    } else if CanWork(s, e.w, e.work) {
      if e.work.Pick? {
        assert e.work.row !in s.hist.picks;
      }
      WorkKeepsAbandoned(s, e.w, e.work, j);
    }
  }

  lemma MayStillCallStays(s: Sys, w: nat, e: WorkStep)
    requires CanWork(s, w, e) && !e.Pick?
    ensures var s' := DoWork(s, w, e);
      w in s'.workers && (MayStillCall(s.cfg, s'.workers[w]) ==>
        w in s.workers && MayStillCall(s.cfg, s.workers[w]) && s.workers[w].id == s'.workers[w].id)
  {
  }

  lemma WorkKeepsAbandoned(s: Sys, w: nat, e: WorkStep, j: nat)
    requires CanWork(s, w, e) && Abandoned(s, j)
    requires e.Pick? ==> e.row != j
    ensures Abandoned(DoWork(s, w, e), j)
  {
    if !e.Pick? {
      MayStillCallStays(s, w, e);
    }
  }

  lemma {:induction false} AbandonedStays(s: Sys, es: seq<Step>, j: nat)
    requires Inv(s) && Abandoned(s, j)
    ensures Abandoned(Run(s, es), j)
    decreases |es|
  {
    if es != [] {
      DoKeeps(s, es[0]);
      DoKeepsAbandoned(s, es[0], j);
      AbandonedStays(Do(s, es[0]), es[1..], j);
    }
  }

  /** The step that brings a worker nearer to the handler, when nothing stops it. */
  function Onward(pc: Pc): WorkStep {
    if pc.Picked? then CheckConfig else if pc.Gating? then Gate(true) else if pc.Probing? then Probe(Ok) else Call
  }

  function Distance(pc: Pc): nat {
    if pc.Picked? then 3 else if pc.Gating? then 2 else if pc.Probing? then 1 else 0
  }

  lemma OnwardIsNearer(s: Sys, w: nat)
    requires MayStillCall(s.cfg, PcOf(s, w)) && PcOf(s, w).id !in s.t.processed
    ensures CanWork(s, w, Onward(PcOf(s, w)))
    ensures var pc := PcOf(s, w); var s' := DoWork(s, w, Onward(pc));
      if pc.Ready? then pc.id in s'.hist.runs
      else MayStillCall(s'.cfg, PcOf(s', w)) && PcOf(s', w).id == pc.id && Distance(PcOf(s', w)) < Distance(pc)
  {
  }

  /** A worker that holds a row before the call reaches the handler when nothing stops it. */
  lemma {:induction false} CallIsReached(s: Sys, w: nat) returns (es: seq<Step>)
    requires Inv(s) && MayStillCall(s.cfg, PcOf(s, w))
    ensures PcOf(s, w).id in Run(s, es).hist.runs
    decreases Distance(PcOf(s, w))
  {
    HolderOk(s, w);
    OnwardIsNearer(s, w);
    var pc := PcOf(s, w);
    var e := Onward(pc);
    WorkKeeps(s, w, e);
    es := [];
    if !pc.Ready? {
      es := CallIsReached(DoWork(s, w, e), w);
    }
    es := [Work(w, e)] + es;
    RunOnward(s, w, e, es[1..]);
  }

  lemma RunOnward(s: Sys, w: nat, e: WorkStep, es: seq<Step>)
    requires CanWork(s, w, e)
    ensures Run(s, [Work(w, e)] + es) == Run(DoWork(s, w, e), es)
  {
    assert ([Work(w, e)] + es)[1..] == es;
  }

  /** A picked row whose handler has not run will run in some continuation exactly when a worker holds
      it before the call.  A row refused by the breaker or the throttler, or held when the process
      stopped, is therefore never run. */
  lemma PickedRowRunsLaterIffStillHeld(s: Sys, j: nat)
    requires Reachable(s) && j in s.hist.picks && j !in s.hist.runs
    ensures (exists es: seq<Step> :: j in Run(s, es).hist.runs)
      <==> (exists w :: w in s.workers && MayStillCall(s.cfg, s.workers[w]) && s.workers[w].id == j)
  {
    ReachableIsSafe(s);
    if w :| w in s.workers && MayStillCall(s.cfg, s.workers[w]) && s.workers[w].id == j {
      var es := CallIsReached(s, w);
      assert j in Run(s, es).hist.runs;
    } else {
      assert Abandoned(s, j);
      forall es: seq<Step> ensures j !in Run(s, es).hist.runs {
        AbandonedStays(s, es, j);
      }
    }
  }

  /** The two instances that matter: a refused row, and any row across a restart. */
  lemma RefusedRowNeverRuns(s: Sys, w: nat, es: seq<Step>)
    requires Reachable(s) && PcOf(s, w).Refused?
    ensures PcOf(s, w).id !in Run(s, es).hist.runs
  {
    ReachableIsSafe(s);
    HolderOk(s, w);
    assert Abandoned(s, PcOf(s, w).id);
    AbandonedStays(s, es, PcOf(s, w).id);
  }

  lemma RestartAbandonsHeldRows(s: Sys, w: nat, loaded: Config, es: seq<Step>)
    requires Reachable(s) && BeforeCall(PcOf(s, w))
    ensures PcOf(s, w).id !in Run(s, [Restart(loaded)] + es).hist.runs
  {
    hide Inv;
    ReachableIsSafe(s);
    HolderOk(s, w);
    DoKeeps(s, Restart(loaded));
    assert Abandoned(Do(s, Restart(loaded)), PcOf(s, w).id);
    AbandonedStays(Do(s, Restart(loaded)), es, PcOf(s, w).id);
    assert ([Restart(loaded)] + es)[1..] == es;
  }

  /** No retry: once a handler was called for a row, no later step calls it again, whatever it returned. */
  lemma FailedRowIsNeverRetried(s: Sys, w: nat, es: seq<Step>)
    requires Reachable(s) && (PcOf(s, w).Delaying? || PcOf(s, w).Burying? || PcOf(s, w).Failing?)
    ensures PcOf(s, w).id !in CallsIn(s, es)
  {
    ReachableIsSafe(s);
    HolderOk(s, w);
    NeverPendingAgain(s, es, PcOf(s, w).id);
  }
}

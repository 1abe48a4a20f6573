/** What a handler's return leaves in the tables when nothing comes in between and nothing fails: each outcome
    is reached from every state in which the handler runs and the writer has nothing to do. */
module JobOutcomes {
  import opened Prelude
  import opened JobStore
  import opened JobProtocol
  import opened JobSafety
  import opened JobTheorems

  /** The writer runs and has nothing to do. */
  predicate IsQuiet(wr: Writer) {
    wr.queue == [] && wr.hand.Empty? && !wr.stopped && forall k <- wr.replies :: k < |wr.sent|
  }

  function SubmitSteps(w: nat): seq<Step> {
    [Work(w, Send), Write(Take), Write(Apply(Ok)), Write(Reply), Work(w, Receive)]
  }

  lemma RunFirst(s: Sys, e: Step, es: seq<Step>)
    ensures Run(s, [e] + es) == Run(Do(s, e), es)
  {
    assert ([e] + es)[1..] == es;
  }

  lemma RunOne(s: Sys, e: Step)
    ensures Run(s, [e]) == Do(s, e)
  {
    assert [e][1..] == [];
  }

  lemma RequestIsSent(s: Sys, w: nat)
    requires PcOf(s, w).Sending? && IsQuiet(s.writer)
    ensures var pc, n := PcOf(s, w), |s.writer.sent|;
      var req := Request(n, pc.id, pc.kind);
      Do(s, Work(w, Send)) == At(s.(writer := s.writer.(queue := [req], sent := s.writer.sent + [req])),
                                 w, Waiting(pc.id, pc.kind, n))
  {
  }

  lemma RequestIsApplied(s: Sys, req: Request)
    requires s.writer.queue == [req] && s.writer.hand.Empty? && !s.writer.stopped && req.ticket !in s.writer.replies
    ensures var wr := s.writer;
      Do(Do(Do(s, Write(Take)), Write(Apply(Ok))), Write(Reply)) == s.(
        t := Requested(s.t, req),
        writer := wr.(queue := [], taken := wr.taken + 1, applied := wr.applied + [req.ticket],
                      replies := wr.replies[req.ticket := true]))
  {
    hide Requested;
    var s1 := Do(s, Write(Take));
    assert s1 == s.(writer := s.writer.(queue := [], hand := Holding(req), taken := s.writer.taken + 1));
    var s2 := Do(s1, Write(Apply(Ok)));
    assert s2 == s1.(t := Requested(s.t, req),
                     writer := s1.writer.(hand := Answering(req, true), applied := s.writer.applied + [req.ticket]));
  }

  lemma ReplyIsReceived(s: Sys, w: nat)
    requires PcOf(s, w).Waiting? && PcOf(s, w).ticket in s.writer.replies && s.writer.replies[PcOf(s, w).ticket]
    ensures var pc := PcOf(s, w);
      Do(s, Work(w, Receive)) == At(s.(writer := s.writer.(replies := s.writer.replies - {pc.ticket})), w,
                                    if pc.kind.WriteProcessed? then Sending(pc.id, WriteComplete) else Idle)
  {
  }

  /** A request is sent, applied and answered. */
  lemma SubmitGoesThrough(s: Sys, w: nat)
    requires PcOf(s, w).Sending? && IsQuiet(s.writer)
    ensures IsQuiet(Run(s, SubmitSteps(w)).writer)
    ensures var pc, s' := PcOf(s, w), Run(s, SubmitSteps(w));
      (s'.t, PcOf(s', w)) == (Requested(s.t, Request(|s.writer.sent|, pc.id, pc.kind)),
                              if pc.kind.WriteProcessed? then Sending(pc.id, WriteComplete) else Idle)
  {
    hide Do, Requested;
    var pc := PcOf(s, w);
    var req := Request(|s.writer.sent|, pc.id, pc.kind);
    RequestIsSent(s, w);
    var s1 := Do(s, Work(w, Send));
    RequestIsApplied(s1, req);
    var s2 := Do(s1, Write(Take));
    var s3 := Do(s2, Write(Apply(Ok)));
    var s4 := Do(s3, Write(Reply));
    ReplyIsReceived(s4, w);
    RunFirst(s, Work(w, Send), [Write(Take), Write(Apply(Ok)), Write(Reply), Work(w, Receive)]);
    RunFirst(s1, Write(Take), [Write(Apply(Ok)), Write(Reply), Work(w, Receive)]);
    RunFirst(s2, Write(Apply(Ok)), [Write(Reply), Work(w, Receive)]);
    RunFirst(s3, Write(Reply), [Work(w, Receive)]);
    RunOne(s4, Work(w, Receive));
  }

  // -------- The outcomes

  lemma AReturnIsFollowed(s: Sys, w: nat, result: HandlerResult)
    requires PcOf(s, w).Running?
    ensures Do(s, Work(w, Return(result))) == At(s, w, AfterHandler(s.cfg, PcOf(s, w).id, PcOf(s, w).row, result))
  {
  }

  /** The row a worker holds is the row as it is in the table, as far as its work goes, and it says zero attempts. */
  lemma HeldRowIsTheRow(s: Sys, w: nat)
    requires Reachable(s) && PcOf(s, w).Running?
    ensures var pc := PcOf(s, w);
      && pc.id in s.t.jobs
      && var row := s.t.jobs[pc.id];
         (pc.row.typ, pc.row.payload, pc.row.tenant, pc.row.attempts) == (row.typ, row.payload, row.tenant, 0)
  {
    hide Inv;
    ReachableIsSafe(s);
    HolderOk(s, w);
    WorkerBuriesOnlySingleAttempts(s, w);
  }

  /** A handler that returned no error: the row is recorded as processed and then completed. */
  lemma ADoneRowIsCompleted(s: Sys, w: nat)
    requires Reachable(s) && PcOf(s, w).Running? && IsQuiet(s.writer)
    ensures var j, s' := PcOf(s, w).id, Run(s, [Work(w, Return(Done))] + SubmitSteps(w) + SubmitSteps(w));
      && j in s.t.jobs
      && var row := s.t.jobs[j].(status := Completed);
         (s'.t, PcOf(s', w)) == (s.t.(jobs := s.t.jobs[j := row], processed := s.t.processed + {j}), Idle)
  {
    hide Do, SubmitSteps, Inv, Reachable;
    HeldRowIsTheRow(s, w);
    AReturnIsFollowed(s, w, Done);
    var s1 := Do(s, Work(w, Return(Done)));
    SubmitGoesThrough(s1, w);
    var s2 := Run(s1, SubmitSteps(w));
    SubmitGoesThrough(s2, w);
    assert [Work(w, Return(Done))] + SubmitSteps(w) + SubmitSteps(w) == [Work(w, Return(Done))] + (SubmitSteps(w) + SubmitSteps(w));
    RunFirst(s, Work(w, Return(Done)), SubmitSteps(w) + SubmitSteps(w));
    RunSplits(s1, SubmitSteps(w), SubmitSteps(w));
  }

  lemma LetterIsWritten(s: Sys, w: nat)
    requires PcOf(s, w).Burying?
    ensures var pc, s' := PcOf(s, w), Do(s, Work(w, Bury(Ok)));
      var letter := DeadLetter(pc.id, pc.row.typ, pc.row.payload, pc.error, pc.row.attempts, s.now, pc.row.tenant);
      (s'.t, s'.writer, PcOf(s', w)) == (s.t.(dead := s.t.dead[s.t.nextDead := letter], nextDead := s.t.nextDead + 1),
                                         s.writer, Failing(pc.id, pc.error))
  {
  }

  lemma FailureIsWritten(s: Sys, w: nat)
    requires PcOf(s, w).Failing? && PcOf(s, w).id in s.t.jobs
    ensures var pc, s' := PcOf(s, w), Do(s, Work(w, Fail(Ok)));
      var row := s.t.jobs[pc.id].(status := Failed, lastError := Some(pc.error));
      (s'.t, s'.writer, PcOf(s', w)) == (s.t.(jobs := s.t.jobs[pc.id := row]), s.writer, Idle)
  {
  }

  /** A handler that returned an error with its attempts used up: a letter is written and the row fails. */
  lemma ASpentRowIsBuried(s: Sys, w: nat, error: string)
    requires Reachable(s) && PcOf(s, w).Running?
    requires var typ := PcOf(s, w).row.typ; typ in s.cfg ==> s.cfg[typ].maxAttempts <= 1
    ensures var j, s' := PcOf(s, w).id, Run(s, [Work(w, Return(Error(error))), Work(w, Bury(Ok)), Work(w, Fail(Ok))]);
      && j in s.t.jobs && PcOf(s', w).Idle? && s'.writer == s.writer
      && var row := s.t.jobs[j];
         s'.t == s.t.(jobs := s.t.jobs[j := row.(status := Failed, lastError := Some(error))],
                      dead := s.t.dead[s.t.nextDead := DeadLetter(j, row.typ, row.payload, error, 0, s.now, row.tenant)],
                      nextDead := s.t.nextDead + 1)
  {
    hide Inv, Reachable;
    HeldRowIsTheRow(s, w);
    AReturnIsFollowed(s, w, Error(error));
    var s1 := Do(s, Work(w, Return(Error(error))));
    assert s1 == At(s, w, Burying(PcOf(s, w).id, PcOf(s, w).row, error));
    hide Do;
    LetterIsWritten(s1, w);
    var s2 := Do(s1, Work(w, Bury(Ok)));
    FailureIsWritten(s2, w);
    RunFirst(s, Work(w, Return(Error(error))), [Work(w, Bury(Ok)), Work(w, Fail(Ok))]);
    RunFirst(s1, Work(w, Bury(Ok)), [Work(w, Fail(Ok))]);
    RunOne(s2, Work(w, Fail(Ok)));
  }

  /** A handler that returned an error with attempts left: the row gets a time for the next one, and then it
      fails all the same. */
  lemma AnUnspentRowIsPostponedAndFails(s: Sys, w: nat, error: string, at: int)
    requires Reachable(s) && PcOf(s, w).Running? && IsQuiet(s.writer)
    requires var typ := PcOf(s, w).row.typ; typ in s.cfg && s.cfg[typ].maxAttempts > 1
    ensures var j, s' := PcOf(s, w).id, Run(s, [Work(w, Return(Error(error))), Work(w, Postpone(at, Ok))] + SubmitSteps(w));
      && j in s.t.jobs
      && var row := s.t.jobs[j].(nextRetryAt := Some(at), status := Failed, lastError := Some(error));
         (s'.t, PcOf(s', w)) == (s.t.(jobs := s.t.jobs[j := row]), Idle)
  {
    hide SubmitSteps, Inv, Reachable;
    HeldRowIsTheRow(s, w);
    AReturnIsFollowed(s, w, Error(error));
    var s1 := Do(s, Work(w, Return(Error(error))));
    assert s1 == At(s, w, Delaying(PcOf(s, w).id, error));
    hide Do;
    DelayIsFollowed(s1, w, at);
    var s2 := Do(s1, Work(w, Postpone(at, Ok)));
    SubmitGoesThrough(s2, w);
    assert [Work(w, Return(Error(error))), Work(w, Postpone(at, Ok))] + SubmitSteps(w)
      == [Work(w, Return(Error(error)))] + ([Work(w, Postpone(at, Ok))] + SubmitSteps(w));
    RunFirst(s, Work(w, Return(Error(error))), [Work(w, Postpone(at, Ok))] + SubmitSteps(w));
    RunFirst(s1, Work(w, Postpone(at, Ok)), SubmitSteps(w));
    var j := PcOf(s, w).id;
    var row := s.t.jobs[j].(nextRetryAt := Some(at), status := Failed, lastError := Some(error));
    assert s2.t.jobs[j := row] == s.t.jobs[j := row];
  }

  lemma DelayIsFollowed(s: Sys, w: nat, at: int)
    requires PcOf(s, w).Delaying? && PcOf(s, w).id in s.t.jobs
    ensures var pc, s' := PcOf(s, w), Do(s, Work(w, Postpone(at, Ok)));
      var row := s.t.jobs[pc.id].(nextRetryAt := Some(at));
      (s'.t, s'.writer, PcOf(s', w)) == (s.t.(jobs := s.t.jobs[pc.id := row]), s.writer, Sending(pc.id, WriteFail(pc.error)))
  {
  }

  /** A row that the circuit breaker or the throttler refuses gets a time for the next attempt and nothing else. */
  lemma ARefusedRowIsPostponed(s: Sys, w: nat, at: int)
    requires Reachable(s) && PcOf(s, w).Gating?
    ensures var j, s' := PcOf(s, w).id, Run(s, [Work(w, Gate(false)), Work(w, Postpone(at, Ok))]);
      && j in s.t.jobs
      && var row := s.t.jobs[j].(nextRetryAt := Some(at));
         (s'.t, s'.writer, PcOf(s', w)) == (s.t.(jobs := s.t.jobs[j := row]), s.writer, Idle)
  {
    hide Inv, Reachable;
    ReachableIsSafe(s);
    HolderOk(s, w);
    var s1 := Do(s, Work(w, Gate(false)));
    assert s1 == At(s, w, Refused(PcOf(s, w).id));
    RunFirst(s, Work(w, Gate(false)), [Work(w, Postpone(at, Ok))]);
    RunOne(s1, Work(w, Postpone(at, Ok)));
  }

  // -------- From the pick to the end

  function StepsToTheHandler(w: nat, id: nat): seq<Step> {
    [Work(w, Pick(id, true)), Work(w, CheckConfig), Work(w, Gate(true)), Work(w, Probe(Ok)), Work(w, Call)]
  }

  lemma PickIsFollowed(s: Sys, w: nat, id: nat)
    requires PcOf(s, w).Idle? && IsNext(s.t, s.now, id)
    requires var typ := s.t.jobs[id].typ; typ in s.cfg && s.cfg[typ].enabled
    ensures var row := s.t.jobs[id].(status := Processing, startedAt := Some(s.now), worker := Some(w));
      var s' := Do(Do(Do(s, Work(w, Pick(id, true))), Work(w, CheckConfig)), Work(w, Gate(true)));
      (s'.t, s'.writer, PcOf(s', w)) == (s.t.(jobs := s.t.jobs[id := row]), s.writer, Probing(id, row))
  {
    var s1 := Do(s, Work(w, Pick(id, true)));
    var row := s1.t.jobs[id];
    assert PcOf(s1, w) == Picked(id, row);
    var s2 := Do(s1, Work(w, CheckConfig));
    assert s2 == At(s1, w, Gating(id, row));
  }

  lemma ProbeIsFollowed(s: Sys, w: nat)
    requires PcOf(s, w).Probing? && PcOf(s, w).id !in s.t.processed
    ensures var pc, s' := PcOf(s, w), Do(Do(s, Work(w, Probe(Ok))), Work(w, Call));
      (s'.t, s'.writer, PcOf(s', w)) == (s.t, s.writer, Running(pc.id, pc.row))
  {
    var s1 := Do(s, Work(w, Probe(Ok)));
    assert s1 == At(s, w, Ready(PcOf(s, w).id, PcOf(s, w).row));
  }

  lemma HandlerIsReached(s: Sys, w: nat, id: nat)
    requires Reachable(s) && PcOf(s, w).Idle? && IsNext(s.t, s.now, id)
    requires var typ := s.t.jobs[id].typ; typ in s.cfg && s.cfg[typ].enabled
    ensures var row := s.t.jobs[id].(status := Processing, startedAt := Some(s.now), worker := Some(w));
      var s' := Run(s, StepsToTheHandler(w, id));
      (s'.t, s'.writer, PcOf(s', w)) == (s.t.(jobs := s.t.jobs[id := row]), s.writer, Running(id, row))
  {
    hide Do, Reachable;
    PickIsFollowed(s, w, id);
    var s1 := Do(s, Work(w, Pick(id, true)));
    var s2 := Do(s1, Work(w, CheckConfig));
    var s3 := Do(s2, Work(w, Gate(true)));
    RunFirst(s, Work(w, Pick(id, true)), [Work(w, CheckConfig), Work(w, Gate(true)), Work(w, Probe(Ok)), Work(w, Call)]);
    RunFirst(s1, Work(w, CheckConfig), [Work(w, Gate(true)), Work(w, Probe(Ok)), Work(w, Call)]);
    RunFirst(s2, Work(w, Gate(true)), [Work(w, Probe(Ok)), Work(w, Call)]);
    RunFirst(s, Work(w, Pick(id, true)), [Work(w, CheckConfig), Work(w, Gate(true))]);
    RunFirst(s1, Work(w, CheckConfig), [Work(w, Gate(true))]);
    RunOne(s2, Work(w, Gate(true)));
    RunStaysReachable(s, [Work(w, Pick(id, true)), Work(w, CheckConfig), Work(w, Gate(true))]);
    ProbeFindsNothing(s3, w);
    ProbeIsFollowed(s3, w);
    RunFirst(s3, Work(w, Probe(Ok)), [Work(w, Call)]);
    RunOne(Do(s3, Work(w, Probe(Ok))), Work(w, Call));
  }

  /** The next row, if its type is enabled, can be carried through to its completion, whatever happened before. */
  lemma TheNextRowCanBeDone(s: Sys, w: nat, id: nat)
    requires Reachable(s) && PcOf(s, w).Idle? && IsQuiet(s.writer) && IsNext(s.t, s.now, id)
    requires var typ := s.t.jobs[id].typ; typ in s.cfg && s.cfg[typ].enabled
    ensures var row := s.t.jobs[id].(status := Completed, startedAt := Some(s.now), worker := Some(w));
      var s' := Run(s, StepsToTheHandler(w, id) + ([Work(w, Return(Done))] + SubmitSteps(w) + SubmitSteps(w)));
      && s'.t == s.t.(jobs := s.t.jobs[id := row], processed := s.t.processed + {id})
      && PcOf(s', w).Idle?
  {
    hide Run, Reachable, StepsToTheHandler, SubmitSteps, IsNext;
    HandlerIsReached(s, w, id);
    RunStaysReachable(s, StepsToTheHandler(w, id));
    var s1 := Run(s, StepsToTheHandler(w, id));
    ADoneRowIsCompleted(s1, w);
    RunSplits(s, StepsToTheHandler(w, id), [Work(w, Return(Done))] + SubmitSteps(w) + SubmitSteps(w));
  }

  /** So a job that is enqueued on an empty database can be: its row and the record are all that is left. */
  lemma AnEnqueuedRowCanBeDone(cfg: Config, now: int, tenant: Option<string>, typ: string, payload: string)
    requires typ in cfg && cfg[typ].enabled
    ensures var s := Do(Start(cfg, now), Enqueue(tenant, typ, payload));
      Run(s, StepsToTheHandler(0, 0) + ([Work(0, Return(Done))] + SubmitSteps(0) + SubmitSteps(0))).t
        == Tables(map[0 := Job(tenant, typ, payload, Completed, None, 0, 5, now, None, Some(0), Some(now), None)], 1, {0}, map[], 0)
  {
    var s0 := Start(cfg, now);
    var s := Do(s0, Enqueue(tenant, typ, payload));
    assert s0 == Run(s0, []);
    RunOne(s0, Enqueue(tenant, typ, payload));
    RunStaysReachable(s0, [Enqueue(tenant, typ, payload)]);
    hide Run, Reachable, StepsToTheHandler, SubmitSteps;
    TheNextRowCanBeDone(s, 0, 0);
  }

  /** A restart leaves nobody in the middle of anything, and the next row of a type that the configuration loaded
      then enables can be done. */
  lemma WorkGoesOnAfterARestart(s: Sys, loaded: Config, w: nat, id: nat)
    requires Reachable(s) && IsNext(s.t, s.now, id)
    requires var typ := s.t.jobs[id].typ; typ in loaded && loaded[typ].enabled
    ensures var s1 := Do(s, Restart(loaded));
      && s1.checker.Asleep? && s1.rescuer.Asleep? && forall v :: PcOf(s1, v).Idle? && AdminOf(s1, v).Away?
    ensures var row := s.t.jobs[id].(status := Completed, startedAt := Some(s.now), worker := Some(w));
      var es := StepsToTheHandler(w, id) + ([Work(w, Return(Done))] + SubmitSteps(w) + SubmitSteps(w));
      Run(s, [Restart(loaded)] + es).t == s.t.(jobs := s.t.jobs[id := row], processed := s.t.processed + {id})
  {
    hide Reachable, StepsToTheHandler, SubmitSteps, IsNext;
    var s1 := Do(s, Restart(loaded));
    RunOne(s, Restart(loaded));
    RunStaysReachable(s, [Restart(loaded)]);
    hide Run;
    TheNextRowCanBeDone(s1, w, id);
    RunFirst(s, Restart(loaded), StepsToTheHandler(w, id) + ([Work(w, Return(Done))] + SubmitSteps(w) + SubmitSteps(w)));
  }

  // -------- What an admin's request leaves

  /** Undisturbed, a requeue moves the letter's work into a fresh row and takes the letter away. */
  lemma ALetterIsMoved(s: Sys, a: nat)
    requires AdminOf(s, a).Inserting? && AdminOf(s, a).rest != []
    ensures var entry, s' := AdminOf(s, a).rest[0], Run(s, [Administer(a, Insert(Ok)), Administer(a, Remove(Ok))]);
      var letter := entry.row;
      var row := Job(letter.tenant, letter.typ, letter.payload, Pending, None, 0, 5, letter.failedAt, None, None, None, None);
      s'.t == s.t.(jobs := s.t.jobs[s.t.nextJob := row], nextJob := s.t.nextJob + 1, dead := s.t.dead - {entry.d})
  {
    var entry, s1 := AdminOf(s, a).rest[0], Do(s, Administer(a, Insert(Ok)));
    assert s1 == Requeue(s, entry).(admins := s.admins[a := Deleting(AdminOf(s, a).rest)]);
    assert Do(s1, Administer(a, Remove(Ok))).t == AfterDelete(s1.t, entry.d);
    hide Do;
    RunFirst(s, Administer(a, Insert(Ok)), [Administer(a, Remove(Ok))]);
    RunOne(s1, Administer(a, Remove(Ok)));
  }

  // -------- After the writer has stopped

  lemma StepAppliesNothing(s: Sys, e: Step)
    requires s.writer.stopped && s.writer.hand.Empty? && !e.Restart?
    ensures var wr := Do(s, e).writer; wr.stopped && wr.hand.Empty? && wr.applied == s.writer.applied
  {
    if e.Work? && Enabled(s, e) {
      WorkLeavesTheHand(s, e.w, e.work);
    } else if !e.Work? {
      OthersLeaveTheHand(s, e);
    }
  }

  lemma WorkLeavesTheHand(s: Sys, w: nat, e: WorkStep)
    requires CanWork(s, w, e)
    ensures var wr, wr' := s.writer, DoWork(s, w, e).writer;
      wr'.stopped == wr.stopped && wr'.hand == wr.hand && wr'.applied == wr.applied
  {
  }

  lemma SweepsLeaveTheWriter(s: Sys, e: SweepStep)
    ensures CanSweep(s, s.checker, CHECK_AGE, e) ==> DoCheck(s, e).writer == s.writer
    ensures CanSweep(s, s.rescuer, RESCUE_AGE, e) ==> DoRescue(s, e).writer == s.writer
  {
    hide AfterFail, AfterNextRetry, IsStaleList;
  }

  lemma OthersLeaveTheHand(s: Sys, e: Step)
    requires !e.Work? && !e.Restart? && s.writer.stopped && s.writer.hand.Empty?
    ensures Do(s, e).writer == s.writer
  {
    hide DoCheck, DoRescue;
    match e {
      case Check(x) => SweepsLeaveTheWriter(s, x);
      case Rescue(x) => SweepsLeaveTheWriter(s, x);
      case _ =>
    }
  }

  lemma {:induction false} RunAppliesNothing(s: Sys, es: seq<Step>)
    requires s.writer.stopped && s.writer.hand.Empty? && forall e <- es :: !e.Restart?
    ensures Run(s, es).writer.applied == s.writer.applied
    decreases |es|
  {
    hide Do;
    if es != [] {
      StepAppliesNothing(s, es[0]);
      RunAppliesNothing(Do(s, es[0]), es[1..]);
    }
  }

  /** What was not applied when the writer stopped is not applied before the process starts again. */
  lemma NothingIsAppliedAfterTheStop(s: Sys, es: seq<Step>)
    requires CanWrite(s, Stop) && forall e <- es :: !e.Restart?
    ensures Run(s, [Write(Stop)] + es).writer.applied == s.writer.applied
  {
    RunFirst(s, Write(Stop), es);
    RunAppliesNothing(Do(s, Write(Stop)), es);
  }
}

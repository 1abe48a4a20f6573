/** The loops of the worker process and of the admin endpoint as the sequential code they are, with the
    steps of everybody else in between.  Each of them only takes steps of the job protocol, so the
    protocol's theorems are about this code. */
module Processor {
  import opened Prelude
  import opened JobStore
  import opened JobProtocol
  import opened JobSafety
  import opened JobTheorems
  import opened JobSweeps

  datatype Role = Worker(w: nat) | Checker | Rescuer | Clerk(a: nat)

  /** A step somebody else can take while `me` is between two statements. */
  predicate ByOthers(me: Role, e: Step) {
    match e
    case Work(w, _) => me != Worker(w)
    case Check(_) => me != Checker
    case Rescue(_) => me != Rescuer
    case Administer(a, _) => me != Clerk(a)
    case Restart(_) => false
    case _ => true
  }

  /** What `me` keeps in its own variables, and what nobody takes back from the tables. */
  ghost predicate Untouched(me: Role, s: Sys, s': Sys) {
    && s'.cfg == s.cfg
    && s.t.processed <= s'.t.processed
    && s.hist.runs <= s'.hist.runs
    && s.writer.sent <= s'.writer.sent
    && (me.Worker? ==> PcOf(s', me.w) == PcOf(s, me.w))
    && (me.Checker? ==> s'.checker == s.checker)
    && (me.Rescuer? ==> s'.rescuer == s.rescuer)
    && (me.Clerk? ==> AdminOf(s', me.a) == AdminOf(s, me.a))
  }

  lemma PickTouchesNothing(me: Role, s: Sys, w: nat, e: WorkStep)
    requires me != Worker(w) && CanWork(s, w, e) && (e.Pick? || e.Bury?)
    ensures Untouched(me, s, DoWork(s, w, e))
  {
  }

  lemma StatementTouchesNothing(me: Role, s: Sys, w: nat, e: WorkStep)
    requires me != Worker(w) && CanWork(s, w, e) && (e.Complete? || e.Postpone? || e.Fail?)
    ensures Untouched(me, s, DoWork(s, w, e))
  {
  }

  lemma ExchangeTouchesNothing(me: Role, s: Sys, w: nat, e: WorkStep)
    requires me != Worker(w) && CanWork(s, w, e) && (e.Send? || e.Receive? || e.GiveUp?)
    ensures Untouched(me, s, DoWork(s, w, e))
  {
  }

  lemma DecisionTouchesNothing(me: Role, s: Sys, w: nat, e: WorkStep)
    requires me != Worker(w) && CanWork(s, w, e) && (e.CheckConfig? || e.Gate? || e.Probe? || e.Call? || e.Return?)
    ensures Untouched(me, s, DoWork(s, w, e))
  {
  }

  lemma WorkTouchesNothing(me: Role, s: Sys, w: nat, e: WorkStep)
    requires me != Worker(w) && CanWork(s, w, e)
    ensures Untouched(me, s, DoWork(s, w, e))
  {
    hide DoWork, Untouched;
    if e.Pick? || e.Bury? {
      PickTouchesNothing(me, s, w, e);
    } else if e.Complete? || e.Postpone? || e.Fail? {
      StatementTouchesNothing(me, s, w, e);
    } else if e.Send? || e.Receive? || e.GiveUp? {
      ExchangeTouchesNothing(me, s, w, e);
    } else {
      DecisionTouchesNothing(me, s, w, e);
    }
  }

  lemma AdminTouchesNothing(me: Role, s: Sys, a: nat, e: AdminStep)
    requires me != Clerk(a) && CanAdminister(s, a, e)
    ensures Untouched(me, s, DoAdminister(s, a, e))
  {
  }

  lemma CheckTouchesNothing(me: Role, s: Sys, e: SweepStep)
    requires me != Checker && CanSweep(s, s.checker, CHECK_AGE, e)
    ensures Untouched(me, s, DoCheck(s, e))
  {
  }

  lemma RescueTouchesNothing(me: Role, s: Sys, e: SweepStep)
    requires me != Rescuer && CanSweep(s, s.rescuer, RESCUE_AGE, e)
    ensures Untouched(me, s, DoRescue(s, e))
  {
  }

  lemma WriteTouchesNothing(me: Role, s: Sys, e: WriteStep)
    requires CanWrite(s, e)
    ensures Untouched(me, s, DoWrite(s, e))
  {
  }

  lemma OthersTouchNothing(me: Role, s: Sys, e: Step)
    requires ByOthers(me, e) && Enabled(s, e)
    ensures Untouched(me, s, Do(s, e))
  {
    match e {
      case Work(w, x) => WorkTouchesNothing(me, s, w, x);
      case Write(x) => WriteTouchesNothing(me, s, x);
      case Administer(a, x) => AdminTouchesNothing(me, s, a, x);
      case Check(x) => CheckTouchesNothing(me, s, x);
      case Rescue(x) => RescueTouchesNothing(me, s, x);
      case _ =>
    }
  }

  /** Where a worker's own step leads, for the steps that look at nothing but its point. */
  function NextPoint(cfg: Config, pc: Pc, e: WorkStep): Pc {
    match e
    case CheckConfig =>
      if !pc.Picked? then pc
      else if ConfigOf(cfg, pc.row.typ).enabled then Gating(pc.id, pc.row) else Skipping(pc.id)
    case Gate(allowed) => if !pc.Gating? then pc else if allowed then Probing(pc.id, pc.row) else Refused(pc.id)
    case Postpone(_, _) => if pc.Delaying? then Sending(pc.id, WriteFail(pc.error)) else Idle
    case Call => if pc.Ready? then Running(pc.id, pc.row) else pc
    case Return(result) => if pc.Running? then AfterHandler(cfg, pc.id, pc.row, result) else pc
    case Bury(_) => if pc.Burying? then Failing(pc.id, pc.error) else pc
    case _ => Idle
  }

  lemma StepGoesToNextPoint(s: Sys, w: nat, e: WorkStep)
    requires CanWork(s, w, e) && !e.Pick? && !e.Probe? && !e.Send? && !e.Receive?
    ensures PcOf(DoWork(s, w, e), w) == NextPoint(s.cfg, PcOf(s, w), e)
    ensures DoWork(s, w, e).cfg == s.cfg
    ensures DoWork(s, w, e).t.processed == s.t.processed && s.hist.runs <= DoWork(s, w, e).hist.runs
  {
  }

  lemma RunIsReachable(origin: Sys, trace: seq<Step>, s: Sys)
    requires s == Run(origin, trace)
    ensures Reachable(origin) ==> Reachable(s)
  {
    if Reachable(origin) {
      RunStaysReachable(origin, trace);
    }
  }

  lemma NilMeansRecorded(s: Sys, w: nat)
    requires CanWork(s, w, Receive) && s.writer.replies[PcOf(s, w).ticket] && PcOf(s, w).kind.WriteProcessed?
    ensures Reachable(s) ==> PcOf(s, w).id in s.t.processed && PcOf(s, w).id in s.hist.runs
  {
    if Reachable(s) {
      NilMeansApplied(s, w);
      ReachableIsSafe(s);
    }
  }

  /** What the surroundings answer during one `processNext`: did the picked row arrive, do breaker and
      throttler allow it, what the handler returns, how each statement ends, whether the submits are cut
      short and after how many looks the context ends, and what the others do meanwhile. */
  datatype Surroundings = Surroundings(
    seen: bool,
    allowed: bool,
    result: HandlerResult,
    probe: Outcome,
    first: Outcome,
    last: Outcome,
    retryAt: int,
    cutSend: bool,
    cutWait: bool,
    patience: nat,
    others: seq<Step>)

  /** A step of worker w happens as the surroundings have it: picks, answers, outcomes and decisions are theirs. */
  predicate Agrees(w: nat, x: Surroundings, e: Step) {
    e.Work? && e.w == w ==>
      match e.work
      case Pick(_, seen) => seen == x.seen
      case Gate(allowed) => allowed == x.allowed
      case Probe(o) => o == x.probe
      case Return(result) => result == x.result
      case Bury(o) => o == x.first
      case Postpone(at, o) => at == x.retryAt && o == x.first
      case Complete(o) => o == x.last
      case Fail(o) => o == x.last
      case Send => !x.cutSend
      case Receive => !x.cutWait
      case _ => true
  }

  /** From some length on, every step of a run agrees with the surroundings of worker w. */
  predicate AllAgree(w: nat, x: Surroundings, es: seq<Step>, start: nat) {
    forall i :: start <= i < |es| ==> Agrees(w, x, es[i])
  }

  /** Row `id` was picked a moment ago: it was due, and of the rows still pending and due none has a smaller
      priority, or the same and an earlier run_at. */
  ghost predicate ComesFirst(s: Sys, id: nat)
    requires id in s.t.jobs
  {
    var row := s.t.jobs[id];
    && row.status == Processing && row.startedAt == Some(s.now)
    && row.runAt <= s.now && (row.nextRetryAt.None? || row.nextRetryAt.value <= s.now)
    && forall j <- s.t.jobs :: j != id ==> var other := s.t.jobs[j];
         other.status == Pending && other.runAt <= s.now && (other.nextRetryAt.None? || other.nextRetryAt.value <= s.now)
         ==> row.priority < other.priority || (row.priority == other.priority && row.runAt <= other.runAt)
  }

  ghost predicate NothingToPick(s: Sys) {
    forall j <- s.t.jobs :: var row := s.t.jobs[j];
      !(row.status == Pending && row.runAt <= s.now && (row.nextRetryAt.None? || row.nextRetryAt.value <= s.now))
  }

  /** The steps of `me` in a run. */
  function Own(me: Role, es: seq<Step>): seq<Step> {
    if es == [] then []
    else Own(me, es[..|es| - 1]) + (if ByOthers(me, es[|es| - 1]) then [] else [es[|es| - 1]])
  }

  lemma OwnNext(me: Role, es: seq<Step>, e: Step)
    ensures Own(me, es + [e]) == Own(me, es) + (if ByOthers(me, e) then [] else [e])
  {
    assert (es + [e])[..|es|] == es;
  }

  // -------- The steps of one pass of a worker

  lemma PickStays(origin: Sys, es: seq<Step>, more: seq<Step>, start: nat, w: nat, seen: bool, id: nat, typ: string)
    requires PickedAs(origin, es, start, w, seen, id, typ) && es <= more
    ensures PickedAs(origin, more, start, w, seen, id, typ)
  {
    hide Run;
    var k :| start <= k < |es| && es[k] == Work(w, Pick(id, seen))
      && id in Run(origin, es[..k]).t.jobs && Run(origin, es[..k]).t.jobs[id].typ == typ;
    assert more[..k] == es[..k];
  }

  /** The rows are those still processing that were started more than `seconds` before. */
  ghost predicate AreOlderThan(s: Sys, seconds: int, rows: seq<Listed>) {
    && NoDup(rows)
    && (forall i :: 0 <= i < |rows| ==> rows[i].id in s.t.jobs && rows[i].row == s.t.jobs[rows[i].id])
    && (forall j :: (exists i :: 0 <= i < |rows| && rows[i].id == j) <==>
          j in s.t.jobs && s.t.jobs[j].status == Processing
          && s.t.jobs[j].startedAt.Some? && s.now - s.t.jobs[j].startedAt.value > seconds)
  }

  /** They were so when a step of the run listed them. */
  ghost predicate ListedAs(origin: Sys, es: seq<Step>, start: nat, e: Step, seconds: int, rows: seq<Listed>) {
    exists k :: start <= k < |es| && es[k] == e && AreOlderThan(Run(origin, es[..k]), seconds, rows)
  }

  lemma ListingStays(origin: Sys, es: seq<Step>, more: seq<Step>, start: nat, e: Step, seconds: int, rows: seq<Listed>)
    requires ListedAs(origin, es, start, e, seconds, rows) && es <= more
    ensures ListedAs(origin, more, start, e, seconds, rows)
  {
    hide Run, AreOlderThan;
    var k :| start <= k < |es| && es[k] == e && AreOlderThan(Run(origin, es[..k]), seconds, rows);
    assert more[..k] == es[..k];
  }

  lemma StaleListIsOlder(s: Sys, age: int, rows: seq<Listed>)
    requires IsStaleList(s.t, s.now, age, rows)
    ensures AreOlderThan(s, age, rows)
  {
    forall i | 0 <= i < |rows|
      ensures rows[i].id in s.t.jobs && rows[i].row == s.t.jobs[rows[i].id]
    {
      assert rows[i] in rows;
    }
    forall j: nat {
      ListIsTheOldRows(s, age, rows, j);
    }
  }

  /** How a submitWrite went: given up before the send, sent and given up, or answered. */
  datatype How = NotSent | Unanswered | Answered(ok: bool)

  function Submit(w: nat, how: How): seq<Step> {
    match how
    case NotSent => [Work(w, GiveUp)]
    case Unanswered => [Work(w, Send), Work(w, GiveUp)]
    case Answered(_) => [Work(w, Send), Work(w, Receive)]
  }

  /** The writer was asked for this write. */
  ghost predicate IsAsked(sent: seq<Request>, id: nat, kind: Kind) {
    exists i :: 0 <= i < |sent| && sent[i].id == id && sent[i].kind == kind
  }

  /** After a failure: a dead letter and a failed row when the attempts are used up, otherwise a postponed
      row and a request to fail it. */
  function ErrorSteps(w: nat, x: Surroundings, spent: bool, how: How): seq<Step> {
    if spent then [Work(w, Bury(x.first)), Work(w, Fail(x.last))]
    else [Work(w, Postpone(x.retryAt, x.first))] + Submit(w, how)
  }

  /** After a success: the record, and the completion only when the record was answered yes. */
  function SuccessSteps(w: nat, record: How, completion: How): seq<Step> {
    Submit(w, record) + if record == Answered(true) then Submit(w, completion) else []
  }

  /** What a worker finds out in a pass: the row it picked and its type, whether that is enabled and the row
      was recorded before, whether its attempts are used up, and how its submits went. */
  datatype Pass = Pass(picked: Option<nat>, typ: string, enabled: bool, recorded: bool, spent: bool, first: How, second: How)

  /** Row `id` was of type `typ` when worker w picked it. */
  ghost predicate PickedAs(origin: Sys, es: seq<Step>, start: nat, w: nat, seen: bool, id: nat, typ: string) {
    exists k :: start <= k < |es| && es[k] == Work(w, Pick(id, seen))
      && id in Run(origin, es[..k]).t.jobs && Run(origin, es[..k]).t.jobs[id].typ == typ
  }

  function HandleSteps(w: nat, x: Surroundings, p: Pass): seq<Step> {
    [Work(w, Return(x.result))] +
    match x.result
    case Panicked => []
    case Error(_) => ErrorSteps(w, x, p.spent, p.first)
    case Done => SuccessSteps(w, p.first, p.second)
  }

  function ProbeSteps(w: nat, x: Surroundings, p: Pass): seq<Step> {
    [Work(w, Probe(x.probe))] + if p.recorded then [Work(w, Complete(x.last))] else [Work(w, Call)] + HandleSteps(w, x, p)
  }

  function GateSteps(w: nat, x: Surroundings, p: Pass): seq<Step> {
    [Work(w, Gate(x.allowed))] + if x.allowed then ProbeSteps(w, x, p) else [Work(w, Postpone(x.retryAt, x.first))]
  }

  function RowSteps(w: nat, x: Surroundings, p: Pass): seq<Step> {
    [Work(w, CheckConfig)] + if p.enabled then GateSteps(w, x, p) else [Work(w, Complete(x.last))]
  }

  function PassSteps(w: nat, x: Surroundings, p: Pass): seq<Step> {
    if p.picked.None? then [] else
      [Work(w, Pick(p.picked.value, x.seen))] + if x.seen then RowSteps(w, x, p) else []
  }

  // -------- The steps of the sweeps and of the requeueing

  /** The statements of checkStaleJobs on its first n rows. */
  function CheckSteps(errors: seq<string>, first: seq<Outcome>, second: seq<Outcome>, n: nat): seq<Step>
    requires n <= |errors| == |first| == |second|
  {
    if n == 0 then []
    else CheckSteps(errors, first, second, n - 1) + CheckRow(errors[n - 1], first[n - 1], second[n - 1])
  }

  function CheckRow(error: string, first: Outcome, second: Outcome): seq<Step> {
    [Check(DoFirst(error, first)), Check(DoSecond(second))]
  }

  /** The statements of RescueZombies on its first n rows: the second only after a first reported done. */
  function RescueSteps(first: seq<Outcome>, second: seq<Outcome>, n: nat): seq<Step>
    requires n <= |first| == |second|
  {
    if n == 0 then []
    else RescueSteps(first, second, n - 1) + RescueRow(first[n - 1], second[n - 1])
  }

  function RescueRow(first: Outcome, second: Outcome): seq<Step> {
    [Rescue(DoFirst("", first))] + if first.Ok? then [Rescue(DoSecond(second))] else []
  }

  /** The rows both of whose statements were reported done. */
  function RescuedIn(first: seq<Outcome>, second: seq<Outcome>, n: nat): nat
    requires n <= |first| == |second|
  {
    if n == 0 then 0
    else RescuedIn(first, second, n - 1) + (if first[n - 1].Ok? && second[n - 1].Ok? then 1 else 0)
  }

  /** The statements of retryAllDLQ on its first n entries: the delete only after an insert reported done. */
  function RetrySteps(a: nat, inserts: seq<Outcome>, deletes: seq<Outcome>, n: nat): seq<Step>
    requires n <= |inserts| == |deletes|
  {
    if n == 0 then []
    else RetrySteps(a, inserts, deletes, n - 1) + RetryRow(a, inserts[n - 1], deletes[n - 1])
  }

  function RetryRow(a: nat, insert: Outcome, delete: Outcome): seq<Step> {
    [Administer(a, Insert(insert))] + if insert.Ok? then [Administer(a, Remove(delete))] else []
  }

  lemma Appended(a: seq<Step>, b: seq<Step>, c: seq<Step>)
    ensures a + b + c == a + (b + c)
  {
  }

  class Processor {
    var s: Sys
    ghost const origin: Sys
    ghost var trace: seq<Step>

    /** The state is the one the recorded steps lead to. */
    ghost predicate Valid()
      reads this
    {
      s == Run(origin, trace)
    }

    constructor (s0: Sys)
      ensures Valid() && s == s0 && trace == []
    {
      s, origin, trace := s0, s0, [];
    }

    method Take(e: Step)
      requires Valid() && Enabled(s, e)
      modifies this
      ensures Valid() && s == Do(old(s), e) && trace == old(trace) + [e]
    {
      ghost var before := s;
      s := Do(s, e);
      trace := trace + [e];
      RunSplits(origin, old(trace), [e]);
      assert Run(before, [e]) == Run(Do(before, e), []);
    }

    /** Everybody else, for as long as they like. */
    method Meanwhile(me: Role, steps: seq<Step>)
      requires Valid()
      modifies this
      ensures Valid() && Untouched(me, old(s), s)
      ensures old(trace) <= trace
      ensures Own(me, trace) == old(Own(me, trace))
      ensures forall i :: |old(trace)| <= i < |trace| ==> ByOthers(me, trace[i])
    {
      hide Do, Own;
      for i := 0 to |steps|
        invariant Valid() && Untouched(me, old(s), s)
        invariant old(trace) <= trace
        invariant Own(me, trace) == old(Own(me, trace))
        invariant forall k :: |old(trace)| <= k < |trace| ==> ByOthers(me, trace[k])
      {
        if ByOthers(me, steps[i]) && Enabled(s, steps[i]) {
          OthersTouchNothing(me, s, steps[i]);
          OwnNext(me, trace, steps[i]);
          Take(steps[i]);
        }
      }
    }

    /** One point of `processNext`: the others move, then the worker. */
    method Step(w: nat, e: WorkStep, x: Surroundings)
      requires Valid() && CanWork(s, w, e)
      requires !e.Pick? && !e.Probe? && !e.Send? && !e.Receive? && Agrees(w, x, Work(w, e))
      modifies this
      ensures Valid() && old(trace) <= trace && AllAgree(w, x, trace, |old(trace)|)
      ensures Own(Worker(w), trace) == old(Own(Worker(w), trace)) + [Work(w, e)]
      ensures s.cfg == old(s.cfg) && PcOf(s, w) == NextPoint(s.cfg, old(PcOf(s, w)), e)
      ensures old(s.t.processed) <= s.t.processed && old(s.hist.runs) <= s.hist.runs
    {
      hide DoWork;
      Meanwhile(Worker(w), x.others);
      StepGoesToNextPoint(s, w, e);
      OwnNext(Worker(w), trace, Work(w, e));
      Take(Work(w, e));
    }

    /** submitWrite: a send that waits for room and then a wait for the reply, until the context ends.
        Without an end of the context before the send, the request is sent unless the queue was still full
        when it did end. */
    method SubmitWrite(w: nat, x: Surroundings) returns (ok: bool, ghost how: How)
      requires Valid() && PcOf(s, w).Sending?
      modifies this
      ensures Valid() && old(trace) <= trace && AllAgree(w, x, trace, |old(trace)|) && s.cfg == old(s.cfg)
      ensures Own(Worker(w), trace) == old(Own(Worker(w), trace)) + Submit(w, how) && ok == (how == Answered(true))
      ensures PcOf(s, w) == AfterSubmit(old(PcOf(s, w)).id, old(PcOf(s, w)).kind, ok)
      ensures ok && old(PcOf(s, w)).kind.WriteProcessed? && Reachable(origin) ==>
        old(PcOf(s, w)).id in s.t.processed && old(PcOf(s, w)).id in s.hist.runs
      ensures old(s.t.processed) <= s.t.processed && old(s.hist.runs) <= s.hist.runs
      ensures if how.NotSent? then x.cutSend || |s.writer.queue| >= 1000
        else IsAsked(s.writer.sent, old(PcOf(s, w)).id, old(PcOf(s, w)).kind)
    {
      hide Do, Own;
      var room := AwaitRoom(w, x);
      if x.cutSend || !room {
        GiveUpNow(w, x);
        return false, NotSent;
      }
      ghost var before := Own(Worker(w), trace);
      SendNow(w, x);
      ok, how := AwaitReply(w, x);
      Appended(before, [Work(w, Send)], Submit(w, how)[1..]);
      assert Submit(w, how) == [Work(w, Send)] + Submit(w, how)[1..];
    }

    method GiveUpNow(w: nat, x: Surroundings)
      requires Valid() && CanWork(s, w, GiveUp)
      modifies this
      ensures Valid() && trace == old(trace) + [Work(w, GiveUp)] && AllAgree(w, x, trace, |old(trace)|)
      ensures Own(Worker(w), trace) == old(Own(Worker(w), trace)) + [Work(w, GiveUp)]
      ensures PcOf(s, w).Idle? && s.cfg == old(s.cfg) && s.writer == old(s.writer)
      ensures s.t.processed == old(s.t.processed) && s.hist.runs == old(s.hist.runs)
    {
      OwnNext(Worker(w), trace, Work(w, GiveUp));
      Take(Work(w, GiveUp));
    }

    method SendNow(w: nat, x: Surroundings)
      requires Valid() && CanWork(s, w, Send) && !x.cutSend
      modifies this
      ensures Valid() && trace == old(trace) + [Work(w, Send)] && AllAgree(w, x, trace, |old(trace)|)
      ensures Own(Worker(w), trace) == old(Own(Worker(w), trace)) + [Work(w, Send)]
      ensures s.cfg == old(s.cfg) && s.t.processed == old(s.t.processed) && s.hist.runs == old(s.hist.runs)
      ensures PcOf(s, w) == Waiting(old(PcOf(s, w)).id, old(PcOf(s, w)).kind, |old(s.writer.sent)|)
      ensures IsAsked(s.writer.sent, old(PcOf(s, w)).id, old(PcOf(s, w)).kind)
    {
      OwnNext(Worker(w), trace, Work(w, Send));
      ghost var req := Request(|s.writer.sent|, PcOf(s, w).id, PcOf(s, w).kind);
      Take(Work(w, Send));
      assert s.writer.sent[|s.writer.sent| - 1] == req;
    }

    /** The others go on until there is room in the queue, or the context ends after `patience` looks. */
    method AwaitRoom(w: nat, x: Surroundings) returns (room: bool)
      requires Valid()
      modifies this
      ensures Valid() && Untouched(Worker(w), old(s), s)
      ensures old(trace) <= trace && AllAgree(w, x, trace, |old(trace)|)
      ensures Own(Worker(w), trace) == old(Own(Worker(w), trace))
      ensures room <==> |s.writer.queue| < 1000
    {
      hide Run, Own, Do;
      Meanwhile(Worker(w), x.others);
      var looks := 0;
      while |s.writer.queue| >= QUEUE_CAPACITY && looks < x.patience
        invariant Valid() && Untouched(Worker(w), old(s), s)
        invariant old(trace) <= trace && AllAgree(w, x, trace, |old(trace)|)
        invariant Own(Worker(w), trace) == old(Own(Worker(w), trace))
        decreases x.patience - looks
      {
        Meanwhile(Worker(w), x.others);
        looks := looks + 1;
      }
      room := |s.writer.queue| < QUEUE_CAPACITY;
    }

    /** The others go on until the reply is there, or the context ends after `patience` looks. */
    method AwaitAnswer(w: nat, x: Surroundings) returns (answered: bool)
      requires Valid() && PcOf(s, w).Waiting?
      modifies this
      ensures Valid() && Untouched(Worker(w), old(s), s)
      ensures old(trace) <= trace && AllAgree(w, x, trace, |old(trace)|)
      ensures Own(Worker(w), trace) == old(Own(Worker(w), trace))
      ensures answered <==> old(PcOf(s, w)).ticket in s.writer.replies
    {
      hide Run, Own, Do;
      var ticket := PcOf(s, w).ticket;
      Meanwhile(Worker(w), x.others);
      var looks := 0;
      while ticket !in s.writer.replies && looks < x.patience
        invariant Valid() && Untouched(Worker(w), old(s), s)
        invariant old(trace) <= trace && AllAgree(w, x, trace, |old(trace)|)
        invariant Own(Worker(w), trace) == old(Own(Worker(w), trace))
        decreases x.patience - looks
      {
        Meanwhile(Worker(w), x.others);
        looks := looks + 1;
      }
      answered := ticket in s.writer.replies;
    }

    method AwaitReply(w: nat, x: Surroundings) returns (ok: bool, ghost how: How)
      requires Valid() && PcOf(s, w).Waiting?
      modifies this
      ensures Valid() && old(trace) <= trace && AllAgree(w, x, trace, |old(trace)|) && s.cfg == old(s.cfg)
      ensures !how.NotSent? && ok == (how == Answered(true))
      ensures Own(Worker(w), trace) == old(Own(Worker(w), trace)) + Submit(w, how)[1..]
      ensures PcOf(s, w) == AfterSubmit(old(PcOf(s, w)).id, old(PcOf(s, w)).kind, ok)
      ensures ok && old(PcOf(s, w)).kind.WriteProcessed? && Reachable(origin) ==>
        old(PcOf(s, w)).id in s.t.processed && old(PcOf(s, w)).id in s.hist.runs
      ensures old(s.t.processed) <= s.t.processed && old(s.hist.runs) <= s.hist.runs
      ensures old(s.writer.sent) <= s.writer.sent
    {
      var answered := AwaitAnswer(w, x);
      if x.cutWait || !answered {
        GiveUpNow(w, x);
        return false, Unanswered;
      }
      ok := ReceiveNow(w, x);
      how := Answered(ok);
    }

    method ReceiveNow(w: nat, x: Surroundings) returns (ok: bool)
      requires Valid() && CanWork(s, w, Receive) && !x.cutWait
      modifies this
      ensures Valid() && trace == old(trace) + [Work(w, Receive)] && AllAgree(w, x, trace, |old(trace)|)
      ensures Own(Worker(w), trace) == old(Own(Worker(w), trace)) + [Work(w, Receive)]
      ensures s.cfg == old(s.cfg) && s.t.processed == old(s.t.processed) && s.hist.runs == old(s.hist.runs)
      ensures s.writer.sent == old(s.writer.sent)
      ensures PcOf(s, w) == AfterSubmit(old(PcOf(s, w)).id, old(PcOf(s, w)).kind, ok)
      ensures ok && old(PcOf(s, w)).kind.WriteProcessed? && Reachable(origin) ==>
        old(PcOf(s, w)).id in s.t.processed && old(PcOf(s, w)).id in s.hist.runs
    {
      ok := s.writer.replies[PcOf(s, w).ticket];
      if ok && PcOf(s, w).kind.WriteProcessed? {
        RunIsReachable(origin, trace, s);
        NilMeansRecorded(s, w);
      }
      OwnNext(Worker(w), trace, Work(w, Receive));
      Take(Work(w, Receive));
    }

    /** PickNextJobWithWorker: nothing when no row is eligible or the answer is lost; otherwise the first of
        the pending rows that are due. */
    method PickRow(w: nat, x: Surroundings) returns (got: bool, ghost picked: Option<nat>, ghost typ: string)
      requires Valid() && PcOf(s, w).Idle?
      modifies this
      ensures Valid() && old(trace) <= trace && AllAgree(w, x, trace, |old(trace)|) && s.cfg == old(s.cfg)
      ensures Own(Worker(w), trace) == old(Own(Worker(w), trace))
        + if picked.Some? then [Work(w, Pick(picked.value, x.seen))] else []
      ensures got == (picked.Some? && x.seen)
      ensures if got then PcOf(s, w).Picked? && PcOf(s, w).id == picked.value && PcOf(s, w).row.typ == typ else PcOf(s, w).Idle?
      ensures picked.None? ==> NothingToPick(s)
      ensures picked.Some? ==> PickedAs(origin, trace, |old(trace)|, w, x.seen, picked.value, typ)
      ensures picked.Some? ==> picked.value in s.t.jobs && ComesFirst(s, picked.value)
    {
      hide Run, Own;
      typ := "";
      Meanwhile(Worker(w), x.others);
      NextExistsIffEligible(s.t, s.now);
      if !exists j :: j in s.t.jobs && Eligible(s.t.jobs[j], s.now) {
        return false, None, typ;
      }
      var id: nat :| IsNext(s.t, s.now, id);
      typ := PickNow(w, id, x);
      return x.seen, Some(id), typ;
    }

    /** The picking statement itself. */
    method PickNow(w: nat, id: nat, x: Surroundings) returns (ghost typ: string)
      requires Valid() && PcOf(s, w).Idle? && IsNext(s.t, s.now, id)
      modifies this
      ensures Valid() && trace == old(trace) + [Work(w, Pick(id, x.seen))] && s.cfg == old(s.cfg)
      ensures Own(Worker(w), trace) == old(Own(Worker(w), trace)) + [Work(w, Pick(id, x.seen))]
      ensures if x.seen then PcOf(s, w).Picked? && PcOf(s, w).id == id && PcOf(s, w).row.typ == typ else PcOf(s, w).Idle?
      ensures PickedAs(origin, trace, |old(trace)|, w, x.seen, id, typ)
      ensures id in s.t.jobs && ComesFirst(s, id)
    {
      hide Run, Own;
      NextComesFirst(s.t, s.now, id);
      typ := s.t.jobs[id].typ;
      ghost var k := |trace|;
      OwnNext(Worker(w), trace, Work(w, Pick(id, x.seen)));
      Take(Work(w, Pick(id, x.seen)));
      assert trace[..k] == trace[..|trace| - 1] && trace[k] == Work(w, Pick(id, x.seen));
    }

    /** IsJobProcessed: only an answer that arrives and says yes counts. */
    method ProbeRow(w: nat, x: Surroundings) returns (processed: bool)
      requires Valid() && PcOf(s, w).Probing?
      modifies this
      ensures Valid() && old(trace) <= trace && AllAgree(w, x, trace, |old(trace)|)
      ensures Own(Worker(w), trace) == old(Own(Worker(w), trace)) + [Work(w, Probe(x.probe))]
      ensures if processed then PcOf(s, w).Duplicate? else PcOf(s, w).Ready?
      ensures processed <==> x.probe.Ok? && PcOf(s, w).id in s.t.processed
    {
      Meanwhile(Worker(w), x.others);
      processed := x.probe.Reported() && PcOf(s, w).id in s.t.processed;
      OwnNext(Worker(w), trace, Work(w, Probe(x.probe)));
      Take(Work(w, Probe(x.probe)));
    }

    /** One pass of a worker.  Its own steps are exactly those of the pass, from the pick, which happens
        unless there is nothing to pick, until it is idle; it reports a row as finished only when the row's
        handler was called and the row is recorded as processed. */
    method ProcessNext(w: nat, x: Surroundings) returns (finished: Option<nat>, ghost p: Pass)
      requires Valid() && PcOf(s, w).Idle?
      modifies this
      ensures Valid() && old(trace) <= trace && AllAgree(w, x, trace, |old(trace)|)
      ensures Own(Worker(w), trace) == old(Own(Worker(w), trace)) + PassSteps(w, x, p)
      ensures PcOf(s, w).Idle?
      ensures p.picked.None? ==> NothingToPick(s)
      ensures p.picked.Some? ==> PickedAs(origin, trace, |old(trace)|, w, x.seen, p.picked.value, p.typ)
      ensures p.picked.Some? && x.seen ==> (p.enabled <==> p.typ in old(s.cfg) && old(s.cfg)[p.typ].enabled)
      ensures finished.Some? && Reachable(origin) ==> finished.value in s.t.processed && finished.value in s.hist.runs
    {
      hide Run, Own, Do;
      finished, p := None, Pass(None, "", false, false, false, NotSent, NotSent);
      var got;
      ghost var picked, typ;
      ghost var before := Own(Worker(w), trace);
      got, picked, typ := PickRow(w, x);
      p := p.(picked := picked, typ := typ);
      if got {
        ghost var es := trace;
        finished, p := ProcessRow(w, x, p);
        PickStays(origin, es, trace, |old(trace)|, w, x.seen, picked.value, typ);
        Appended(before, [Work(w, Pick(picked.value, x.seen))], RowSteps(w, x, p));
      }
    }

    /** The row is picked: is its type enabled? */
    method ProcessRow(w: nat, x: Surroundings, ghost p: Pass) returns (finished: Option<nat>, ghost p': Pass)
      requires Valid() && PcOf(s, w).Picked?
      modifies this
      ensures Valid() && old(trace) <= trace && AllAgree(w, x, trace, |old(trace)|)
      ensures Own(Worker(w), trace) == old(Own(Worker(w), trace)) + RowSteps(w, x, p')
      ensures p'.picked == p.picked && p'.typ == p.typ
      ensures p'.enabled <==> old(PcOf(s, w)).row.typ in old(s.cfg) && old(s.cfg)[old(PcOf(s, w)).row.typ].enabled
      ensures PcOf(s, w).Idle?
      ensures finished.Some? && Reachable(origin) ==> finished.value in s.t.processed && finished.value in s.hist.runs
    {
      hide Own, Do;
      finished := None;
      ghost var before := Own(Worker(w), trace);
      var cfg := ConfigOf(s.cfg, PcOf(s, w).row.typ);
      p' := p.(enabled := cfg.enabled);
      Step(w, CheckConfig, x);
      if !cfg.enabled {
        Step(w, Complete(x.last), x);
        return;
      }
      finished, p' := GateRow(w, x, p');
      Appended(before, [Work(w, CheckConfig)], GateSteps(w, x, p'));
    }

    /** Its type is enabled: do breaker and throttler let it through? */
    method GateRow(w: nat, x: Surroundings, ghost p: Pass) returns (finished: Option<nat>, ghost p': Pass)
      requires Valid() && PcOf(s, w).Gating?
      modifies this
      ensures Valid() && old(trace) <= trace && AllAgree(w, x, trace, |old(trace)|)
      ensures Own(Worker(w), trace) == old(Own(Worker(w), trace)) + GateSteps(w, x, p')
      ensures p'.picked == p.picked && p'.typ == p.typ && p'.enabled == p.enabled
      ensures PcOf(s, w).Idle?
      ensures finished.Some? && Reachable(origin) ==> finished.value in s.t.processed && finished.value in s.hist.runs
    {
      hide Own, Do;
      finished, p' := None, p;
      ghost var before := Own(Worker(w), trace);
      Step(w, Gate(x.allowed), x);
      if !x.allowed {
        Step(w, Postpone(x.retryAt, x.first), x);
        return;
      }
      finished, p' := RunRow(w, x, p);
      Appended(before, [Work(w, Gate(x.allowed))], ProbeSteps(w, x, p'));
    }

    /** The row may run: the duplicate check, and then the handler. */
    method RunRow(w: nat, x: Surroundings, ghost p: Pass) returns (finished: Option<nat>, ghost p': Pass)
      requires Valid() && PcOf(s, w).Probing?
      modifies this
      ensures Valid() && old(trace) <= trace && AllAgree(w, x, trace, |old(trace)|)
      ensures Own(Worker(w), trace) == old(Own(Worker(w), trace)) + ProbeSteps(w, x, p')
      ensures p'.picked == p.picked && p'.typ == p.typ && p'.enabled == p.enabled
      ensures PcOf(s, w).Idle?
      ensures finished.Some? && Reachable(origin) ==> finished.value in s.t.processed && finished.value in s.hist.runs
    {
      hide Run, Own, HandleSteps, Do;
      finished := None;
      ghost var before := Own(Worker(w), trace);
      var processed := ProbeRow(w, x);
      p' := p.(recorded := processed);
      if processed {
        Step(w, Complete(x.last), x);
        return;
      }
      Step(w, Call, x);
      finished, p' := Handle(w, x, p');
      Appended(before, [Work(w, Probe(x.probe))], [Work(w, Call)]);
      Appended(before, [Work(w, Probe(x.probe))] + [Work(w, Call)], HandleSteps(w, x, p'));
    }

    /** The handler, and what its outcome leads to. */
    method Handle(w: nat, x: Surroundings, ghost p: Pass) returns (finished: Option<nat>, ghost p': Pass)
      requires Valid() && PcOf(s, w).Running?
      modifies this
      ensures Valid() && old(trace) <= trace && AllAgree(w, x, trace, |old(trace)|)
      ensures Own(Worker(w), trace) == old(Own(Worker(w), trace)) + HandleSteps(w, x, p')
      ensures p' == p.(spent := p'.spent, first := p'.first, second := p'.second)
      ensures var row, cfg := old(PcOf(s, w)).row, old(s.cfg);
        p'.spent <==> row.attempts + 1 >= if row.typ in cfg then cfg[row.typ].maxAttempts else 0
      ensures PcOf(s, w).Idle?
      ensures finished.Some? && Reachable(origin) ==> finished.value in s.t.processed && finished.value in s.hist.runs
    {
      hide Own;
      finished := None;
      ghost var before := Own(Worker(w), trace);
      var row := PcOf(s, w).row;
      var spent := row.attempts + 1 >= ConfigOf(s.cfg, row.typ).maxAttempts;
      ghost var first: How, second: How := NotSent, NotSent;
      Step(w, Return(x.result), x);
      match x.result {
        case Panicked =>
        case Error(_) => first := HandleError(w, spent, x);
        case Done => finished, first, second := HandleSuccess(w, x);
      }
      p' := p.(spent := spent, first := first, second := second);
      Appended(before, [Work(w, Return(x.result))], HandleSteps(w, x, p')[1..]);
    }

    /** The handler failed: a dead letter and a failed row when the attempts are used up, otherwise a
        postponed row, which the writer is then asked to fail. */
    method HandleError(w: nat, spent: bool, x: Surroundings) returns (ghost how: How)
      requires Valid() && if spent then PcOf(s, w).Burying? else PcOf(s, w).Delaying?
      modifies this
      ensures Valid() && old(trace) <= trace && AllAgree(w, x, trace, |old(trace)|)
      ensures Own(Worker(w), trace) == old(Own(Worker(w), trace)) + ErrorSteps(w, x, spent, how)
      ensures !spent && !how.NotSent? ==>
        IsAsked(s.writer.sent, old(PcOf(s, w)).id, WriteFail(old(PcOf(s, w)).error))
      ensures PcOf(s, w).Idle?
    {
      hide Run, Own;
      how := NotSent;
      ghost var before := Own(Worker(w), trace);
      if spent {
        Step(w, Bury(x.first), x);
        Step(w, Fail(x.last), x);
      } else {
        Step(w, Postpone(x.retryAt, x.first), x);
        var _, how' := SubmitWrite(w, x);
        how := how';
        Appended(before, [Work(w, Postpone(x.retryAt, x.first))], Submit(w, how));
      }
    }

    /** The handler succeeded: record it, and ask for the completion only when that was answered yes. */
    method HandleSuccess(w: nat, x: Surroundings) returns (finished: Option<nat>, ghost record: How, ghost completion: How)
      requires Valid() && PcOf(s, w).Sending? && PcOf(s, w).kind.WriteProcessed?
      modifies this
      ensures Valid() && old(trace) <= trace && AllAgree(w, x, trace, |old(trace)|)
      ensures Own(Worker(w), trace) == old(Own(Worker(w), trace)) + SuccessSteps(w, record, completion)
      ensures finished ==
        if record == completion == Answered(true) then Some(old(PcOf(s, w)).id) else None
      ensures record == Answered(true) && !completion.NotSent? ==> IsAsked(s.writer.sent, old(PcOf(s, w)).id, WriteComplete)
      ensures PcOf(s, w).Idle?
      ensures finished.Some? && Reachable(origin) ==> finished.value in s.t.processed && finished.value in s.hist.runs
    {
      finished, completion := None, NotSent;
      ghost var before := Own(Worker(w), trace);
      var id := PcOf(s, w).id;
      var recorded, completed;
      recorded, record := SubmitWrite(w, x);
      if recorded {
        completed, completion := SubmitWrite(w, x);
        Appended(before, Submit(w, record), Submit(w, completion));
        if completed {
          finished := Some(id);
        }
      }
    }

    method CheckOne(e: SweepStep, others: seq<Step>)
      requires Valid() && !e.List? && CanSweep(s, s.checker, CHECK_AGE, e)
      modifies this
      ensures old(trace) <= trace
      ensures Valid() && Own(Checker, trace) == old(Own(Checker, trace)) + [Check(e)]
      ensures s.checker == if e.DoFirst? then Second(old(s.checker).rest) else Next(old(s.checker).rest[1..])
    {
      Meanwhile(Checker, others);
      OwnNext(Checker, trace, Check(e));
      Take(Check(e));
    }

    method RescueOne(e: SweepStep, others: seq<Step>)
      requires Valid() && !e.List? && CanSweep(s, s.rescuer, RESCUE_AGE, e)
      modifies this
      ensures old(trace) <= trace
      ensures Valid() && Own(Rescuer, trace) == old(Own(Rescuer, trace)) + [Rescue(e)]
      ensures s.rescuer ==
        if e.DoFirst? && e.o.Reported() then Second(old(s.rescuer).rest) else Next(old(s.rescuer).rest[1..])
    {
      Meanwhile(Rescuer, others);
      OwnNext(Rescuer, trace, Rescue(e));
      Take(Rescue(e));
    }

    method Ask(a: nat, e: AdminStep, others: seq<Step>)
      requires Valid() && (e.Insert? || e.Remove?) && CanAdminister(s, a, e)
      modifies this
      ensures Valid() && Own(Clerk(a), trace) == old(Own(Clerk(a), trace)) + [Administer(a, e)]
      ensures AdminOf(s, a) ==
        if e.Insert? && e.o.Reported() then Deleting(old(AdminOf(s, a)).rest)
        else NextEntry(old(AdminOf(s, a)).rest[1..])
    {
      Meanwhile(Clerk(a), others);
      OwnNext(Clerk(a), trace, Administer(a, e));
      Take(Administer(a, e));
    }

    method CheckNext(rest: seq<Listed>, error: string, first: Outcome, second: Outcome, others: (seq<Step>, seq<Step>))
      requires Valid() && rest != [] && s.checker == Next(rest)
      modifies this
      ensures old(trace) <= trace
      ensures Valid() && s.checker == Next(rest[1..])
      ensures Own(Checker, trace) == old(Own(Checker, trace)) + CheckRow(error, first, second)
    {
      CheckOne(DoFirst(error, first), others.0);
      CheckOne(DoSecond(second), others.1);
    }

    method RescueNext(rest: seq<Listed>, first: Outcome, second: Outcome, others: (seq<Step>, seq<Step>)) returns (ok: bool)
      requires Valid() && rest != [] && s.rescuer == Next(rest)
      modifies this
      ensures old(trace) <= trace
      ensures Valid() && s.rescuer == Next(rest[1..])
      ensures ok == (first.Ok? && second.Ok?)
      ensures Own(Rescuer, trace) == old(Own(Rescuer, trace)) + RescueRow(first, second)
    {
      RescueOne(DoFirst("", first), others.0);
      if !first.Reported() {
        return false;
      }
      RescueOne(DoSecond(second), others.1);
      ok := second.Reported();
    }

    method RetryNext(a: nat, rest: seq<Entry>, insert: Outcome, delete: Outcome, others: (seq<Step>, seq<Step>)) returns (ok: bool)
      requires Valid() && rest != [] && AdminOf(s, a) == NextEntry(rest)
      modifies this
      ensures Valid() && AdminOf(s, a) == NextEntry(rest[1..])
      ensures ok == insert.Ok?
      ensures Own(Clerk(a), trace) == old(Own(Clerk(a), trace)) + RetryRow(a, insert, delete)
    {
      Ask(a, Insert(insert), others.0);
      if !insert.Reported() {
        return false;
      }
      Ask(a, Remove(delete), others.1);
      ok := true;
    }

    method ListForCheck(rows: seq<Listed>, others: seq<Step>) returns (listed: bool)
      requires Valid() && s.checker.Asleep?
      modifies this
      ensures old(trace) <= trace
      ensures Valid()
      ensures s.checker == if listed then Next(rows) else Asleep
      ensures Own(Checker, trace) == old(Own(Checker, trace)) + if listed then [Check(List(rows))] else []
      ensures listed ==> ListedAs(origin, trace, |old(trace)|, Check(List(rows)), 600, rows)
    {
      hide Run, Own, IsStaleList, AreOlderThan;
      Meanwhile(Checker, others);
      listed := IsStaleList(s.t, s.now, CHECK_AGE, rows);
      if listed {
        OwnNext(Checker, trace, Check(List(rows)));
        StaleListIsOlder(s, CHECK_AGE, rows);
        ghost var k := |trace|;
        Take(Check(List(rows)));
        assert trace[..k] == trace[..|trace| - 1] && trace[k] == Check(List(rows));
      }
    }

    method ListForRescue(rows: seq<Listed>, others: seq<Step>) returns (listed: bool)
      requires Valid() && s.rescuer.Asleep?
      modifies this
      ensures old(trace) <= trace
      ensures Valid()
      ensures s.rescuer == if listed then Next(rows) else Asleep
      ensures Own(Rescuer, trace) == old(Own(Rescuer, trace)) + if listed then [Rescue(List(rows))] else []
      ensures listed ==> ListedAs(origin, trace, |old(trace)|, Rescue(List(rows)), 300, rows)
    {
      hide Run, Own, IsStaleList, AreOlderThan;
      Meanwhile(Rescuer, others);
      listed := IsStaleList(s.t, s.now, RESCUE_AGE, rows);
      if listed {
        OwnNext(Rescuer, trace, Rescue(List(rows)));
        StaleListIsOlder(s, RESCUE_AGE, rows);
        ghost var k := |trace|;
        Take(Rescue(List(rows)));
        assert trace[..k] == trace[..|trace| - 1] && trace[k] == Rescue(List(rows));
      }
    }

    method ListForRetry(a: nat, entries: seq<Entry>, others: seq<Step>) returns (listed: bool)
      requires Valid() && AdminOf(s, a).Away?
      modifies this
      ensures Valid()
      ensures AdminOf(s, a) == if listed then NextEntry(entries) else Away
      ensures Own(Clerk(a), trace) == old(Own(Clerk(a), trace)) + if listed then [Administer(a, ListDead(entries))] else []
    {
      Meanwhile(Clerk(a), others);
      listed := CanAdminister(s, a, ListDead(entries));
      if listed {
        OwnNext(Clerk(a), trace, Administer(a, ListDead(entries)));
        Take(Administer(a, ListDead(entries)));
      }
    }

    method CheckListed(rows: seq<Listed>, errors: seq<string>, first: seq<Outcome>, second: seq<Outcome>, others: nat -> seq<Step>)
      requires Valid() && s.checker == Next(rows)
      requires |errors| == |first| == |second| == |rows|
      modifies this
      ensures old(trace) <= trace
      ensures Valid() && s.checker.Asleep?
      ensures Own(Checker, trace) == old(Own(Checker, trace)) + CheckSteps(errors, first, second, |rows|)
    {
      ghost var before := Own(Checker, trace);
      for i := 0 to |rows|
        invariant old(trace) <= trace && Valid() && s.checker == Next(rows[i..])
        invariant Own(Checker, trace) == before + CheckSteps(errors, first, second, i)
      {
        Appended(before, CheckSteps(errors, first, second, i), CheckRow(errors[i], first[i], second[i]));
        assert rows[i..][1..] == rows[i + 1..];
        CheckNext(rows[i..], errors[i], first[i], second[i], (others(2 * i), others(2 * i + 1)));
      }
    }

    /** checkStaleJobs: every listed row is buried and then timed out, whatever the first reported. */
    method CheckStaleJobs(rows: seq<Listed>, errors: seq<string>, first: seq<Outcome>, second: seq<Outcome>,
                          before: seq<Step>, others: nat -> seq<Step>)
      returns (listed: bool)
      requires Valid() && s.checker.Asleep?
      requires |errors| == |first| == |second| == |rows|
      modifies this
      ensures old(trace) <= trace
      ensures Valid()
      ensures s.checker.Asleep?
      ensures Own(Checker, trace) == old(Own(Checker, trace))
        + if listed then [Check(List(rows))] + CheckSteps(errors, first, second, |rows|) else []
      ensures listed ==> ListedAs(origin, trace, |old(trace)|, Check(List(rows)), 600, rows)
    {
      hide Run, Own, ListedAs;
      listed := ListForCheck(rows, before);
      if listed {
        ghost var es := trace;
        CheckListed(rows, errors, first, second, others);
        ListingStays(origin, es, trace, |old(trace)|, Check(List(rows)), 600, rows);
      }
    }

    method RescueListed(rows: seq<Listed>, first: seq<Outcome>, second: seq<Outcome>, others: nat -> seq<Step>)
      returns (rescued: nat)
      requires Valid() && s.rescuer == Next(rows)
      requires |first| == |second| == |rows|
      modifies this
      ensures old(trace) <= trace
      ensures Valid() && s.rescuer.Asleep?
      ensures rescued == RescuedIn(first, second, |rows|)
      ensures Own(Rescuer, trace) == old(Own(Rescuer, trace)) + RescueSteps(first, second, |rows|)
    {
      hide Run, Own;
      rescued := 0;
      ghost var before := Own(Rescuer, trace);
      for i := 0 to |rows|
        invariant old(trace) <= trace && Valid() && s.rescuer == Next(rows[i..])
        invariant rescued == RescuedIn(first, second, i)
        invariant Own(Rescuer, trace) == before + RescueSteps(first, second, i)
      {
        Appended(before, RescueSteps(first, second, i), RescueRow(first[i], second[i]));
        assert rows[i..][1..] == rows[i + 1..];
        var ok := RescueNext(rows[i..], first[i], second[i], (others(2 * i), others(2 * i + 1)));
        if ok {
          rescued := rescued + 1;
        }
      }
    }

    /** RescueZombies: a row whose first statement is reported failed is passed over.  `rescued` counts
        the rows both of whose statements were reported done. */
    method RescueZombies(rows: seq<Listed>, first: seq<Outcome>, second: seq<Outcome>,
                         before: seq<Step>, others: nat -> seq<Step>)
      returns (listed: bool, rescued: nat)
      requires Valid() && s.rescuer.Asleep?
      requires |first| == |second| == |rows|
      modifies this
      ensures old(trace) <= trace
      ensures Valid()
      ensures s.rescuer.Asleep?
      ensures rescued == if listed then RescuedIn(first, second, |rows|) else 0
      ensures Own(Rescuer, trace) == old(Own(Rescuer, trace))
        + if listed then [Rescue(List(rows))] + RescueSteps(first, second, |rows|) else []
      ensures listed ==> ListedAs(origin, trace, |old(trace)|, Rescue(List(rows)), 300, rows)
    {
      hide Run, Own, ListedAs;
      rescued := 0;
      listed := ListForRescue(rows, before);
      if listed {
        ghost var es := trace;
        rescued := RescueListed(rows, first, second, others);
        ListingStays(origin, es, trace, |old(trace)|, Rescue(List(rows)), 300, rows);
      }
    }

    method RetryListed(a: nat, entries: seq<Entry>, inserts: seq<Outcome>, deletes: seq<Outcome>, others: nat -> seq<Step>)
      returns (retried: nat, failed: nat)
      requires Valid() && AdminOf(s, a) == NextEntry(entries)
      requires |inserts| == |deletes| == |entries|
      modifies this
      ensures Valid()
      ensures AdminOf(s, a).Away?
      ensures retried == ReportedIn(inserts, |inserts|) && retried + failed == |entries|
      ensures Own(Clerk(a), trace) == old(Own(Clerk(a), trace)) + RetrySteps(a, inserts, deletes, |entries|)
    {
      hide Run, Own;
      retried, failed := 0, 0;
      ghost var before := Own(Clerk(a), trace);
      for i := 0 to |entries|
        invariant Valid()
        invariant AdminOf(s, a) == NextEntry(entries[i..])
        invariant retried == ReportedIn(inserts, i) && retried + failed == i
        invariant Own(Clerk(a), trace) == before + RetrySteps(a, inserts, deletes, i)
      {
        Appended(before, RetrySteps(a, inserts, deletes, i), RetryRow(a, inserts[i], deletes[i]));
        assert entries[i..][1..] == entries[i + 1..];
        var ok := RetryNext(a, entries[i..], inserts[i], deletes[i], (others(2 * i), others(2 * i + 1)));
        if ok {
          retried := retried + 1;
        } else {
          failed := failed + 1;
        }
      }
    }

    /** retryAllDLQ: every listed entry is counted once, as retried exactly when its insert was reported
        done, whatever the others do to the table meanwhile. */
    method RetryAllDLQ(a: nat, entries: seq<Entry>, inserts: seq<Outcome>, deletes: seq<Outcome>,
                       first: seq<Step>, others: nat -> seq<Step>)
      returns (listed: bool, retried: nat, failed: nat)
      requires Valid() && AdminOf(s, a).Away?
      requires |inserts| == |deletes| == |entries|
      modifies this
      ensures Valid()
      ensures AdminOf(s, a).Away?
      ensures listed ==> retried == ReportedIn(inserts, |inserts|) && retried + failed == |entries|
      ensures !listed ==> retried == failed == 0
      ensures Own(Clerk(a), trace) == old(Own(Clerk(a), trace))
        + if listed then [Administer(a, ListDead(entries))] + RetrySteps(a, inserts, deletes, |entries|) else []
    {
      retried, failed := 0, 0;
      listed := ListForRetry(a, entries, first);
      if listed {
        retried, failed := RetryListed(a, entries, inserts, deletes, others);
      }
    }
  }
}

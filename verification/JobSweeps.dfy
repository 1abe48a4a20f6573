/** Which rows the stale checker and the rescue take, and what they do to them, over every run. */
module JobSweeps {
  import opened Prelude
  import opened JobStore
  import opened JobProtocol
  import opened JobSafety
  import opened JobTheorems

  /** How many seconds have passed since row j was picked in a run, read off its picks and ticks. */
  ghost function Ago(s: Sys, es: seq<Step>, j: nat): Option<nat> {
    if es == [] then None else
      var front, e := es[..|es| - 1], es[|es| - 1];
      if j in PickedBy(Run(s, front), e) then Some(0)
      else match Ago(s, front, j)
        case None => None
        case Some(seconds) => Some(seconds + if e.Tick? then e.seconds else 0)
  }

  ghost function StartOf(s: Sys, picked: seq<nat>, j: nat): Option<int> {
    if j in picked then Some(s.now) else if j in s.t.jobs then s.t.jobs[j].startedAt else None
  }

  /** A step starts the row it picks, now, and no other; new rows are not started. */
  ghost predicate StartsPicked(s: Sys, picked: seq<nat>, t: Tables) {
    && (forall j :: j in s.t.jobs ==> j in t.jobs)
    && (forall j :: j in t.jobs ==> t.jobs[j].startedAt == StartOf(s, picked, j))
  }

  /** Every row is there and started as it was. */
  ghost predicate KeepsStarts(jobs: Jobs, jobs': Jobs) {
    jobs'.Keys == jobs.Keys && forall j <- jobs :: jobs'[j].startedAt == jobs[j].startedAt
  }

  lemma StatementsKeepStarts(t: Tables, id: nat, error: string, at: int)
    ensures KeepsStarts(t.jobs, AfterComplete(t, id).jobs)
    ensures KeepsStarts(t.jobs, AfterFail(t, id, error).jobs)
    ensures KeepsStarts(t.jobs, AfterNextRetry(t, id, at).jobs)
    ensures KeepsStarts(t.jobs, t.jobs)
  {
  }

  lemma WorkStartsPicked(s: Sys, w: nat, e: WorkStep)
    requires CanWork(s, w, e)
    ensures DoWork(s, w, e).now == s.now
    ensures if e.Pick? then StartsPicked(s, [e.row], DoWork(s, w, e).t) else KeepsStarts(s.t.jobs, DoWork(s, w, e).t.jobs)
  {
    hide KeepsStarts, AfterComplete, AfterFail, AfterNextRetry;
    match e {
      case Complete(_) => StatementsKeepStarts(s.t, PcOf(s, w).id, "", 0);
      case Postpone(at, _) => StatementsKeepStarts(s.t, PcOf(s, w).id, "", at);
      case Fail(_) => StatementsKeepStarts(s.t, PcOf(s, w).id, PcOf(s, w).error, 0);
      case _ => StatementsKeepStarts(s.t, 0, "", 0);
    }
  }

  lemma WriteStartsNone(s: Sys, e: WriteStep)
    requires CanWrite(s, e)
    ensures KeepsStarts(s.t.jobs, DoWrite(s, e).t.jobs) && DoWrite(s, e).now == s.now
  {
    hide KeepsStarts, AfterComplete, AfterFail;
    StatementsKeepStarts(s.t, 0, "", 0);
    if e.Apply? {
      var req := s.writer.hand.req;
      StatementsKeepStarts(s.t, req.id, if req.kind.WriteFail? then req.kind.error else "", 0);
    }
  }

  lemma SweepsStartNone(s: Sys, e: SweepStep)
    ensures CanSweep(s, s.checker, CHECK_AGE, e) ==>
      KeepsStarts(s.t.jobs, DoCheck(s, e).t.jobs) && DoCheck(s, e).now == s.now
    ensures CanSweep(s, s.rescuer, RESCUE_AGE, e) ==>
      KeepsStarts(s.t.jobs, DoRescue(s, e).t.jobs) && DoRescue(s, e).now == s.now
  {
    hide KeepsStarts, AfterFail, AfterNextRetry;
    StatementsKeepStarts(s.t, 0, "", 0);
    if CanSweep(s, s.checker, CHECK_AGE, e) && !e.List? {
      StatementsKeepStarts(s.t, s.checker.rest[0].id, "Job timed out", 0);
    }
    if CanSweep(s, s.rescuer, RESCUE_AGE, e) && !e.List? {
      StatementsKeepStarts(s.t, s.rescuer.rest[0].id, "Job rescued from zombie state", s.now);
    }
  }

  lemma AdminStartsNone(s: Sys, a: nat, e: AdminStep)
    requires TablesOk(s.t) && CanAdminister(s, a, e)
    ensures StartsPicked(s, [], DoAdminister(s, a, e).t) && DoAdminister(s, a, e).now == s.now
  {
  }

  lemma StepStartsPicked(s: Sys, e: Step)
    requires TablesOk(s.t)
    ensures StartsPicked(s, PickedBy(s, e), Do(s, e).t)
    ensures Do(s, e).now == s.now + if e.Tick? then e.seconds else 0
  {
    hide DoWork, DoWrite, DoCheck, DoRescue, DoAdminister;
    if Enabled(s, e) {
      match e {
        case Work(w, x) => WorkStartsPicked(s, w, x);
        case Write(x) => WriteStartsNone(s, x);
        case Check(x) => SweepsStartNone(s, x);
        case Rescue(x) => SweepsStartNone(s, x);
        case Administer(a, x) => AdminStartsNone(s, a, x);
        case _ =>
      }
    }
  }

  /** A row says when it was picked, and only a row that is there was. */
  lemma {:induction false} StartedWhenPicked(cfg: Config, now: int, es: seq<Step>, j: nat)
    ensures var s, ago := Run(Start(cfg, now), es), Ago(Start(cfg, now), es, j);
      && (ago.Some? ==> j in s.t.jobs)
      && (j in s.t.jobs ==> s.t.jobs[j].startedAt == if ago.Some? then Some(s.now - ago.value) else None)
  {
    hide Do, PickedBy, Inv;
    if es != [] {
      var front, e := es[..|es| - 1], es[|es| - 1];
      var s := Run(Start(cfg, now), front);
      StartedWhenPicked(cfg, now, front, j);
      assert front + [e] == es;
      RunSplits(Start(cfg, now), front, [e]);
      assert [e][1..] == [] && Run(s, [e]) == Run(Do(s, e), []);
      ReachableIsSafe(s);
      InvHasTables(s);
      StepStartsPicked(s, e);
      PickedIsThere(s, e);
    }
  }

  lemma PickedIsThere(s: Sys, e: Step)
    ensures forall j :: j in PickedBy(s, e) ==> j in s.t.jobs && !e.Tick?
  {
  }

  lemma ListIsTheOldRows(s: Sys, age: int, rows: seq<Listed>, j: nat)
    requires IsStaleList(s.t, s.now, age, rows)
    ensures (exists i :: 0 <= i < |rows| && rows[i].id == j) <==>
      j in s.t.jobs && s.t.jobs[j].status == Processing && s.t.jobs[j].startedAt.Some? && s.now - s.t.jobs[j].startedAt.value > age
    ensures forall i :: 0 <= i < |rows| && rows[i].id == j ==> j in s.t.jobs && rows[i].row == s.t.jobs[j]
  {
    if j in s.t.jobs && IsStale(s.t.jobs[j], s.now, age) {
      var i :| 0 <= i < |rows| && rows[i] == Listed(j, s.t.jobs[j]);
    }
    forall i | 0 <= i < |rows| && rows[i].id == j
      ensures j in s.t.jobs && rows[i].row == s.t.jobs[j] && IsStale(s.t.jobs[j], s.now, age)
    {
      assert rows[i] in rows;
    }
  }

  /** In every run the stale checker lists exactly the rows that are still processing and were picked more
      than 600 seconds before, as they are. */
  lemma CheckerListsExactly(cfg: Config, now: int, es: seq<Step>, rows: seq<Listed>, j: nat)
    requires Enabled(Run(Start(cfg, now), es), Check(List(rows)))
    ensures var s, ago := Run(Start(cfg, now), es), Ago(Start(cfg, now), es, j);
      && ((exists i :: 0 <= i < |rows| && rows[i].id == j) <==>
            j in s.t.jobs && s.t.jobs[j].status == Processing && ago.Some? && ago.value > 600)
      && (forall i :: 0 <= i < |rows| && rows[i].id == j ==> rows[i].row == s.t.jobs[j])
      && NoDup(rows)
  {
    hide Run, Ago;
    StartedWhenPicked(cfg, now, es, j);
    ListIsTheOldRows(Run(Start(cfg, now), es), CHECK_AGE, rows, j);
  }

  /** Either lists the row that was picked longest ago first. */
  lemma ListedOldestFirst(cfg: Config, now: int, es: seq<Step>, rows: seq<Listed>, i: nat, k: nat)
    requires var s := Run(Start(cfg, now), es); Enabled(s, Check(List(rows))) || Enabled(s, Rescue(List(rows)))
    requires i < k < |rows|
    ensures var a, b := Ago(Start(cfg, now), es, rows[i].id), Ago(Start(cfg, now), es, rows[k].id);
      a.Some? && b.Some? && a.value >= b.value
  {
    hide Run, Ago;
    StartedWhenPicked(cfg, now, es, rows[i].id);
    StartedWhenPicked(cfg, now, es, rows[k].id);
    assert rows[i] in rows && rows[k] in rows;
  }

  /** The rescue lists exactly those picked more than 300 seconds before. */
  lemma RescueListsExactly(cfg: Config, now: int, es: seq<Step>, rows: seq<Listed>, j: nat)
    requires Enabled(Run(Start(cfg, now), es), Rescue(List(rows)))
    ensures var s, ago := Run(Start(cfg, now), es), Ago(Start(cfg, now), es, j);
      && ((exists i :: 0 <= i < |rows| && rows[i].id == j) <==>
            j in s.t.jobs && s.t.jobs[j].status == Processing && ago.Some? && ago.value > 300)
      && (forall i :: 0 <= i < |rows| && rows[i].id == j ==> rows[i].row == s.t.jobs[j])
      && NoDup(rows)
  {
    hide Run, Ago;
    StartedWhenPicked(cfg, now, es, j);
    ListIsTheOldRows(Run(Start(cfg, now), es), RESCUE_AGE, rows, j);
  }

  lemma LetterIdIsFresh(s: Sys)
    requires Inv(s)
    ensures s.t.nextDead !in s.t.dead
  {
  }

  /** The checker's first statement writes a dead letter with the row's work. */
  lemma CheckerBuries(s: Sys, error: string, o: Outcome)
    requires Reachable(s) && o.Applied() && Enabled(s, Check(DoFirst(error, o)))
    ensures var j, dead := s.checker.rest[0].id, Do(s, Check(DoFirst(error, o))).t.dead;
      && j in s.t.jobs && s.t.nextDead !in s.t.dead
      && dead == s.t.dead[s.t.nextDead :=
           DeadLetter(j, s.t.jobs[j].typ, s.t.jobs[j].payload, error, s.t.jobs[j].attempts, s.now, s.t.jobs[j].tenant)]
  {
    hide Inv;
    ReachableIsSafe(s);
    HeadIsListed(s, s.checker);
    LetterIdIsFresh(s);
  }

  /** Its second statement fails the row. */
  lemma CheckerFails(s: Sys, o: Outcome)
    requires Reachable(s) && o.Applied() && Enabled(s, Check(DoSecond(o)))
    ensures var j, jobs := s.checker.rest[0].id, Do(s, Check(DoSecond(o))).t.jobs;
      j in s.t.jobs && jobs == s.t.jobs[j := s.t.jobs[j].(status := Failed, lastError := Some("Job timed out"))]
  {
    hide Inv;
    ReachableIsSafe(s);
    HeadIsListed(s, s.checker);
  }

  /** The rescue's first statement only makes the row due. */
  lemma RescuePostpones(s: Sys, o: Outcome)
    requires Reachable(s) && o.Applied() && Enabled(s, Rescue(DoFirst("", o)))
    ensures var j, jobs := s.rescuer.rest[0].id, Do(s, Rescue(DoFirst("", o))).t.jobs;
      j in s.t.jobs && jobs == s.t.jobs[j := s.t.jobs[j].(nextRetryAt := Some(s.now))]
  {
    hide Inv;
    ReachableIsSafe(s);
    HeadIsListed(s, s.rescuer);
  }

  /** Its second statement fails the row, which is why it is not picked again. */
  lemma RescueFails(s: Sys, o: Outcome)
    requires Reachable(s) && o.Applied() && Enabled(s, Rescue(DoSecond(o)))
    ensures var j, jobs := s.rescuer.rest[0].id, Do(s, Rescue(DoSecond(o))).t.jobs;
      && j in s.t.jobs
      && jobs == s.t.jobs[j := s.t.jobs[j].(status := Failed, lastError := Some("Job rescued from zombie state"))]
  {
    hide Inv;
    ReachableIsSafe(s);
    HeadIsListed(s, s.rescuer);
  }
}

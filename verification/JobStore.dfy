/** The job tables, and the SQL statements on them as atomic updates.  A `Database` object holds
    the tables; each of its methods is one statement, proved against a function on table values. */
module JobStore {
  import opened Prelude

  datatype Status = Pending | Processing | Completed | Failed

  /** A row of `jobs`.  Times are in seconds. */
  datatype Job = Job(
    tenant: Option<string>,
    typ: string,
    payload: string,
    status: Status,
    key: Option<string>,
    attempts: nat,
    priority: int,
    runAt: int,
    nextRetryAt: Option<int>,
    worker: Option<nat>,
    startedAt: Option<int>,
    lastError: Option<string>)

  /** A row of `dead_letter_jobs`. */
  datatype DeadLetter = DeadLetter(
    jobId: nat,
    typ: string,
    payload: string,
    error: string,
    attempts: nat,
    failedAt: int,
    tenant: Option<string>)

  /** `nextJob` and `nextDead` are the AUTOINCREMENT counters: an id is never given out twice. */
  datatype Tables = Tables(
    jobs: map<nat, Job>,
    nextJob: nat,
    processed: set<nat>,
    dead: map<nat, DeadLetter>,
    nextDead: nat)

  const EMPTY := Tables(map[], 0, {}, map[], 0)

  const DEFAULT_PRIORITY := 5

  // ---------------------------------------------------------------- statements

  function NewJob(tenant: Option<string>, typ: string, payload: string, runAt: int, key: Option<string>): Job {
    Job(tenant, typ, payload, Pending, key, 0, DEFAULT_PRIORITY, runAt, None, None, None, None)
  }

  function AfterInsert(t: Tables, row: Job): Tables {
    t.(jobs := t.jobs[t.nextJob := row], nextJob := t.nextJob + 1)
  }

  predicate HasKey(t: Tables, key: Option<string>) {
    key.Some? && exists j :: j in t.jobs && t.jobs[j].key == key
  }

  /** INSERT ... ON CONFLICT(idempotency_key): a row that already has the key is kept. */
  function AfterInsertKeyed(t: Tables, row: Job): Tables {
    if HasKey(t, row.key) then t else AfterInsert(t, row)
  }

  predicate Eligible(row: Job, now: int) {
    && row.status == Pending
    && row.runAt <= now
    && (row.nextRetryAt.Some? ==> row.nextRetryAt.value <= now)
  }

  predicate Before(a: Job, b: Job) {
    a.priority < b.priority || (a.priority == b.priority && a.runAt < b.runAt)
  }

  /** Row `id` may come first in ORDER BY priority, run_at among the eligible rows. */
  predicate IsNext(t: Tables, now: int, id: nat) {
    && id in t.jobs
    && Eligible(t.jobs[id], now)
    && forall j :: j in t.jobs && Eligible(t.jobs[j], now) ==> !Before(t.jobs[j], t.jobs[id])
  }

  function AfterPick(t: Tables, now: int, id: nat, worker: nat): Tables
    requires id in t.jobs
  {
    t.(jobs := t.jobs[id := t.jobs[id].(status := Processing, startedAt := Some(now), worker := Some(worker))])
  }

  function AfterComplete(t: Tables, id: nat): Tables {
    if id in t.jobs then t.(jobs := t.jobs[id := t.jobs[id].(status := Completed)]) else t
  }

  function AfterFail(t: Tables, id: nat, error: string): Tables {
    if id in t.jobs then t.(jobs := t.jobs[id := t.jobs[id].(status := Failed, lastError := Some(error))]) else t
  }

  function AfterTimeout(t: Tables, id: nat): Tables {
    AfterFail(t, id, "Job timed out")
  }

  function AfterNextRetry(t: Tables, id: nat, at: int): Tables {
    if id in t.jobs then t.(jobs := t.jobs[id := t.jobs[id].(nextRetryAt := Some(at))]) else t
  }

  function AfterProcessed(t: Tables, id: nat): Tables {
    t.(processed := t.processed + {id})
  }

  function AfterBury(t: Tables, id: nat, row: Job, error: string, now: int): Tables {
    t.(dead := t.dead[t.nextDead := DeadLetter(id, row.typ, row.payload, error, row.attempts, now, row.tenant)],
       nextDead := t.nextDead + 1)
  }

  function RetriedJob(d: DeadLetter): Job {
    NewJob(d.tenant, d.typ, d.payload, d.failedAt, None)
  }

  function AfterDelete(t: Tables, d: nat): Tables {
    t.(dead := t.dead - {d})
  }

  /** WHERE status = 'processing' AND started_at < now - age. */
  predicate IsStale(row: Job, now: int, age: int) {
    row.status == Processing && row.startedAt.Some? && row.startedAt.value < now - age
  }

  datatype Listed = Listed(id: nat, row: Job)

  /** The answer of GetStaleProcessingJobs: every stale row once, oldest start first. */
  predicate IsStaleList(t: Tables, now: int, age: int, rows: seq<Listed>) {
    && NoDup(rows)
    && (forall r :: r in rows ==> r.id in t.jobs && r.row == t.jobs[r.id] && IsStale(r.row, now, age))
    && (forall j :: j in t.jobs && IsStale(t.jobs[j], now, age) ==> Listed(j, t.jobs[j]) in rows)
    && (forall i, j :: 0 <= i < j < |rows| ==> rows[i].row.startedAt.value <= rows[j].row.startedAt.value)
  }

  /** The stale rows other than those of `rest`, oldest first, all at least as old as those. */
  predicate IsStaleFront(t: Tables, now: int, age: int, rows: seq<Listed>, rest: set<nat>) {
    && (forall j <- rest :: j in t.jobs && IsStale(t.jobs[j], now, age))
    && (forall r <- rows :: r.id in t.jobs && r.id !in rest && r.row == t.jobs[r.id] && IsStale(r.row, now, age))
    && (forall j :: j in t.jobs && IsStale(t.jobs[j], now, age) && j !in rest ==> Listed(j, t.jobs[j]) in rows)
    && (forall i, k :: 0 <= i < k < |rows| ==> rows[i] != rows[k] && rows[i].row.startedAt.value <= rows[k].row.startedAt.value)
    && (forall r <- rows, j <- rest :: r.row.startedAt.value <= t.jobs[j].startedAt.value)
  }

  lemma StaleFrontGrows(t: Tables, now: int, age: int, rows: seq<Listed>, rest: set<nat>, id: nat)
    requires IsStaleFront(t, now, age, rows, rest)
    requires id in rest && forall j <- rest :: t.jobs[id].startedAt.value <= t.jobs[j].startedAt.value
    ensures IsStaleFront(t, now, age, rows + [Listed(id, t.jobs[id])], rest - {id})
  {
  }

  // ---------------------------------------------------------------- facts about picking

  lemma {:induction false} SomeRowComesFirst(t: Tables, now: int, ids: set<nat>) returns (first: nat)
    requires ids <= t.jobs.Keys && ids != {}
    requires forall j :: j in ids ==> Eligible(t.jobs[j], now)
    ensures first in ids && forall j :: j in ids ==> !Before(t.jobs[j], t.jobs[first])
  {
    var x :| x in ids;
    if ids == {x} {
      first := x;
    } else {
      var y := SomeRowComesFirst(t, now, ids - {x});
      first := if Before(t.jobs[x], t.jobs[y]) then x else y;
    }
  }

  /** ORDER BY priority, run_at among the pending rows that are due: the row that is picked is one of them,
      and none has a smaller priority, or the same and an earlier run_at. */
  lemma NextComesFirst(t: Tables, now: int, id: nat)
    requires IsNext(t, now, id)
    ensures var row := t.jobs[id];
      && row.status == Pending && row.runAt <= now && (row.nextRetryAt.None? || row.nextRetryAt.value <= now)
      && forall j :: j in t.jobs ==> var other := t.jobs[j];
           other.status == Pending && other.runAt <= now && (other.nextRetryAt.None? || other.nextRetryAt.value <= now)
           ==> row.priority < other.priority || (row.priority == other.priority && row.runAt <= other.runAt)
  {
    forall j | j in t.jobs && Eligible(t.jobs[j], now)
      ensures !Before(t.jobs[j], t.jobs[id])
    {
    }
  }

  /** There is a row to pick exactly when some row is eligible. */
  lemma NextExistsIffEligible(t: Tables, now: int)
    ensures (exists id :: IsNext(t, now, id)) <==> (exists j :: j in t.jobs && Eligible(t.jobs[j], now))
  {
    var ids := set j | j in t.jobs && Eligible(t.jobs[j], now);
    if j :| j in t.jobs && Eligible(t.jobs[j], now) {
      assert j in ids;
      var first := SomeRowComesFirst(t, now, ids);
      assert IsNext(t, now, first);
    }
  }

  // ---------------------------------------------------------------- the tables, updated in place

  class Database {
    var jobs: map<nat, Job>
    var nextJob: nat
    var processed: set<nat>
    var dead: map<nat, DeadLetter>
    var nextDead: nat

    ghost function Contents(): Tables
      reads this
    {
      Tables(jobs, nextJob, processed, dead, nextDead)
    }

    constructor ()
      ensures Contents() == EMPTY
    {
      jobs, nextJob, processed, dead, nextDead := map[], 0, {}, map[], 0;
    }

    method CreateJob(tenant: Option<string>, typ: string, payload: string, runAt: int) returns (id: nat)
      modifies this
      ensures Contents() == AfterInsert(old(Contents()), NewJob(tenant, typ, payload, runAt, None))
      ensures id in jobs && jobs - {id} == old(jobs) - {id} && ((forall j <- old(jobs) :: j < old(nextJob)) ==> id !in old(jobs))
      ensures forall now: int :: Eligible(jobs[id], now) <==> runAt <= now
    {
      id := nextJob;
      jobs := jobs[id := NewJob(tenant, typ, payload, runAt, None)];
      nextJob := nextJob + 1;
    }

    method CreateJobWithIdempotency(tenant: Option<string>, typ: string, payload: string, runAt: int, key: Option<string>)
      returns (id: nat)
      modifies this
      ensures Contents() == AfterInsertKeyed(old(Contents()), NewJob(tenant, typ, payload, runAt, key))
      ensures id in jobs && jobs[id].key == key
    {
      var holders := set j | j in jobs && key.Some? && jobs[j].key == key;
      if holders == {} {
        assert forall j :: j in jobs && key.Some? && jobs[j].key == key ==> j in holders;
        id := nextJob;
        jobs := jobs[id := NewJob(tenant, typ, payload, runAt, key)];
        nextJob := nextJob + 1;
      } else {
        id :| id in holders;
      }
    }

    method PickNextJobWithWorker(now: int, worker: nat) returns (picked: Option<nat>)
      modifies this
      ensures picked.None? ==> Contents() == old(Contents())
      ensures picked.None? <==> forall j :: j in old(jobs) ==> var row := old(jobs)[j];
        !(row.status == Pending && row.runAt <= now && (row.nextRetryAt.None? || row.nextRetryAt.value <= now))
      ensures picked.Some? ==> picked.value in old(jobs) && var row := old(jobs)[picked.value];
        && row.status == Pending && row.runAt <= now && (row.nextRetryAt.None? || row.nextRetryAt.value <= now)
        && forall j :: j in old(jobs) ==> var other := old(jobs)[j];
             other.status == Pending && other.runAt <= now && (other.nextRetryAt.None? || other.nextRetryAt.value <= now)
             ==> row.priority < other.priority || (row.priority == other.priority && row.runAt <= other.runAt)
      ensures picked.Some? ==> IsNext(old(Contents()), now, picked.value)
      ensures picked.Some? ==> Contents() == AfterPick(old(Contents()), now, picked.value, worker)
    {
      var ready := set j | j in jobs && Eligible(jobs[j], now);
      if ready == {} {
        assert forall j :: j in old(jobs) && Eligible(old(jobs)[j], now) ==> j in ready;
        return None;
      }
      ghost var first := SomeRowComesFirst(Contents(), now, ready);
      assert first in ready && forall j :: j in ready ==> !Before(jobs[j], jobs[first]);
      var id :| id in ready && forall j :: j in ready ==> !Before(jobs[j], jobs[id]);
      assert forall j :: j in jobs && Eligible(jobs[j], now) ==> j in ready;
      NextComesFirst(Contents(), now, id);
      jobs := jobs[id := jobs[id].(status := Processing, startedAt := Some(now), worker := Some(worker))];
      picked := Some(id);
    }

    method CompleteJob(id: nat)
      modifies this`jobs
      ensures Contents() == AfterComplete(old(Contents()), id)
    {
      if id in jobs {
        jobs := jobs[id := jobs[id].(status := Completed)];
      }
    }

    method RecordJobProcessed(id: nat)
      modifies this`processed
      ensures Contents() == AfterProcessed(old(Contents()), id)
    {
      processed := processed + {id};
    }

    method FailJob(id: nat, error: string)
      modifies this`jobs
      ensures Contents() == AfterFail(old(Contents()), id, error)
    {
      if id in jobs {
        jobs := jobs[id := jobs[id].(status := Failed, lastError := Some(error))];
      }
    }

    method Oldest(ids: set<nat>) returns (id: nat)
      requires ids != {} && ids <= jobs.Keys && forall j <- ids :: jobs[j].startedAt.Some?
      ensures id in ids && forall j <- ids :: jobs[id].startedAt.value <= jobs[j].startedAt.value
    {
      id :| id in ids;
      var rest := ids - {id};
      while rest != {}
        invariant id in ids && rest <= ids
        invariant forall j :: j in ids && j !in rest ==> jobs[id].startedAt.value <= jobs[j].startedAt.value
        decreases |rest|
      {
        var j :| j in rest;
        if jobs[j].startedAt.value < jobs[id].startedAt.value {
          id := j;
        }
        rest := rest - {j};
      }
    }

    /** WHERE status = 'processing' AND started_at < now - age ORDER BY started_at ASC. */
    method GetStaleProcessingJobs(now: int, age: int) returns (rows: seq<Listed>)
      ensures IsStaleList(Contents(), now, age, rows)
    {
      rows := [];
      var rest := set j | j in jobs && IsStale(jobs[j], now, age);
      while rest != {}
        invariant IsStaleFront(Contents(), now, age, rows, rest)
        decreases |rest|
      {
        var id := Oldest(rest);
        StaleFrontGrows(Contents(), now, age, rows, rest, id);
        rows, rest := rows + [Listed(id, jobs[id])], rest - {id};
      }
    }

    method RetryDeadLetterJob(d: DeadLetter) returns (id: nat)
      modifies this
      ensures id == old(nextJob)
      ensures Contents() == AfterInsert(old(Contents()), RetriedJob(d))
      ensures jobs == old(jobs)[id := Job(d.tenant, d.typ, d.payload, Pending, None, 0, 5, d.failedAt, None, None, None, None)]
    {
      id := nextJob;
      jobs := jobs[id := RetriedJob(d)];
      nextJob := nextJob + 1;
    }

    method DeleteDeadLetterJob(d: nat)
      modifies this`dead
      ensures Contents() == AfterDelete(old(Contents()), d)
    {
      dead := dead - {d};
    }
  }
}

/** The enqueueing side of the job queue: a row inserted now, and a notification of the workers. */
module JobQueue {
  import opened Prelude
  import opened JobStore
  import opened Scheduler

  /** An empty text is stored as NULL. */
  function Stored(s: string): Option<string> {
    if s == "" then None else Some(s)
  }

  function Row(typ: string, payload: string, tenant: string, now: int, key: string): Job {
    NewJob(Stored(tenant), typ, payload, now, Stored(key))
  }

  class JobQueue {
    const db: Database
    var notified: nat

    constructor (db: Database)
      ensures this.db == db && notified == 0
    {
      this.db, notified := db, 0;
    }

    /** The workers are notified exactly when the insert is reported done. */
    method Enqueue(typ: string, payload: string, tenant: string, now: int, o: Outcome) returns (ok: bool)
      modifies this, db
      ensures ok == o.Ok? && notified == old(notified) + if ok then 1 else 0
      ensures db.Contents() ==
        if o.Applied() then AfterInsert(old(db.Contents()), Row(typ, payload, tenant, now, "")) else old(db.Contents())
    {
      if o.Applied() {
        var _ := db.CreateJob(Stored(tenant), typ, payload, now);
      }
      ok := o.Reported();
      if ok {
        notified := notified + 1;
      }
    }

    method EnqueueWithIdempotency(typ: string, payload: string, tenant: string, key: string, now: int, o: Outcome)
      returns (ok: bool)
      modifies this, db
      ensures ok == o.Ok? && notified == old(notified) + if ok then 1 else 0
      ensures db.Contents() ==
        if o.Applied() then AfterInsertKeyed(old(db.Contents()), Row(typ, payload, tenant, now, key))
        else old(db.Contents())
    {
      if o.Applied() {
        var _ := db.CreateJobWithIdempotency(Stored(tenant), typ, payload, now, Stored(key));
      }
      ok := o.Reported();
      if ok {
        notified := notified + 1;
      }
    }
  }

  /** An enqueued row is ready from the moment of its enqueueing on, and nothing else becomes ready. */
  lemma EnqueuedRowIsReady(t: Tables, typ: string, payload: string, tenant: string, now: int, later: int)
    requires (forall j <- t.jobs :: j < t.nextJob) && now <= later
    ensures Ready(AfterInsert(t, Row(typ, payload, tenant, now, "")), later) == Ready(t, later) + {t.nextJob}
    ensures t.nextJob !in Ready(t, later)
  {
    var t' := AfterInsert(t, Row(typ, payload, tenant, now, ""));
    assert forall j :: j in t'.jobs <==> j in t.jobs || j == t.nextJob;
    assert Eligible(t'.jobs[t.nextJob], later);
  }

  /** A second enqueueing under a key adds nothing, whatever it asks for, exactly if the key is not empty. */
  lemma SecondEnqueueAddsNothingIff(t: Tables, first: Job, second: Job, key: string)
    requires (forall j <- t.jobs :: j < t.nextJob) && first.key == second.key == Stored(key)
    ensures var t1 := AfterInsertKeyed(t, first);
      AfterInsertKeyed(t1, second) == t1 <==> key != ""
  {
    var t1 := AfterInsertKeyed(t, first);
    if key != "" && !HasKey(t, first.key) {
      assert t.nextJob in t1.jobs && t1.jobs[t.nextJob].key == second.key;
    }
    if key == "" {
      assert AfterInsertKeyed(t1, second).nextJob != t1.nextJob;
    }
  }
}

/** The serial database writer: one loop that takes requests off a channel and applies them in order. */
module DbWriter {
  import opened Prelude
  import opened JobStore
  import opened JobProtocol

  class DbWriter {
    const db: Database

    constructor (db: Database)
      ensures this.db == db
    {
      this.db := db;
    }

    /** One request: its statement, and the answer for the reply channel. */
    method ProcessWrite(req: Request, o: Outcome) returns (ok: bool)
      modifies db
      ensures ok == o.Ok?
      ensures db.Contents() == AfterWrite(old(db.Contents()), req, o)
    {
      if o.Applied() {
        match req.kind {
          case WriteProcessed => db.RecordJobProcessed(req.id);
          case WriteComplete => db.CompleteJob(req.id);
          case WriteFail(error) => db.FailJob(req.id, error);
        }
      }
      ok := o.Reported();
    }

    /** The loop over the requests it receives before it is stopped. */
    method Run(reqs: seq<Request>, os: seq<Outcome>) returns (replies: seq<bool>)
      requires |reqs| == |os|
      modifies db
      ensures |replies| == |reqs| && forall i :: 0 <= i < |reqs| ==> replies[i] == os[i].Ok?
      ensures db.Contents() == AfterWrites(old(db.Contents()), reqs, os, |reqs|)
    {
      replies := [];
      for i := 0 to |reqs|
        invariant |replies| == i && forall k :: 0 <= k < i ==> replies[k] == os[k].Ok?
        invariant db.Contents() == AfterWrites(old(db.Contents()), reqs, os, i)
      {
        var ok := ProcessWrite(reqs[i], os[i]);
        replies := replies + [ok];
      }
    }
  }

  function AfterWrite(t: Tables, req: Request, o: Outcome): Tables {
    if o.Applied() then Requested(t, req) else t
  }

  function AfterWrites(t: Tables, reqs: seq<Request>, os: seq<Outcome>, n: nat): Tables
    requires n <= |reqs| == |os|
  {
    if n == 0 then t else AfterWrite(AfterWrites(t, reqs, os, n - 1), reqs[n - 1], os[n - 1])
  }

  predicate Decides(req: Request, o: Outcome, j: nat) {
    o.Applied() && req.id == j && !req.kind.WriteProcessed?
  }

  /** The last of the first n requests that took effect and was about the status of row j. */
  ghost predicate IsLastWord(reqs: seq<Request>, os: seq<Outcome>, n: nat, j: nat, i: nat)
    requires n <= |reqs| == |os|
  {
    i < n && Decides(reqs[i], os[i], j) && forall k :: i < k < n ==> !Decides(reqs[k], os[k], j)
  }

  /** The row as a request about its status leaves it. */
  function Decided(row: Job, kind: Kind): Job {
    match kind
    case WriteComplete => row.(status := Completed)
    case WriteFail(error) => row.(status := Failed, lastError := Some(error))
    case WriteProcessed => row
  }

  /** One request changes a row only if it took effect and is about the row's status. */
  lemma OneWriteDecides(t: Tables, req: Request, o: Outcome, j: nat)
    requires j in t.jobs
    ensures var t' := AfterWrite(t, req, o);
      j in t'.jobs && t'.jobs[j] == if Decides(req, o, j) then Decided(t.jobs[j], req.kind) else t.jobs[j]
  {
  }

  lemma {:induction false} RowsStay(t: Tables, reqs: seq<Request>, os: seq<Outcome>, n: nat, j: nat)
    requires n <= |reqs| == |os| && j in t.jobs
    ensures j in AfterWrites(t, reqs, os, n).jobs
  {
    if n > 0 {
      RowsStay(t, reqs, os, n - 1, j);
      OneWriteDecides(AfterWrites(t, reqs, os, n - 1), reqs[n - 1], os[n - 1], j);
    }
  }

  lemma {:induction false} UndecidedRowStays(t: Tables, reqs: seq<Request>, os: seq<Outcome>, m: nat, n: nat, j: nat)
    requires m <= n <= |reqs| == |os| && j in AfterWrites(t, reqs, os, m).jobs
    requires forall k :: m <= k < n ==> !Decides(reqs[k], os[k], j)
    ensures var t' := AfterWrites(t, reqs, os, n);
      j in t'.jobs && t'.jobs[j] == AfterWrites(t, reqs, os, m).jobs[j]
    decreases n
  {
    if m < n {
      UndecidedRowStays(t, reqs, os, m, n - 1, j);
      OneWriteDecides(AfterWrites(t, reqs, os, n - 1), reqs[n - 1], os[n - 1], j);
    }
  }

  /** The row has the status a request gives it, and its error. */
  predicate HasTheWord(row: Job, before: Job, kind: Kind) {
    row.status == Decided(before, kind).status && (kind.WriteFail? ==> row.lastError == Some(kind.error))
  }

  lemma TheLastWordStands(t: Tables, reqs: seq<Request>, os: seq<Outcome>, n: nat, j: nat, i: nat)
    requires n <= |reqs| == |os| && j in t.jobs && IsLastWord(reqs, os, n, j, i)
    ensures var t' := AfterWrites(t, reqs, os, n);
      j in t'.jobs && HasTheWord(t'.jobs[j], t.jobs[j], reqs[i].kind)
  {
    RowsStay(t, reqs, os, i, j);
    OneWriteDecides(AfterWrites(t, reqs, os, i), reqs[i], os[i], j);
    UndecidedRowStays(t, reqs, os, i + 1, n, j);
  }

  /** Neither statement looks at the status: the last request for a row decides it, completed after failed
      as well as failed after completed, and a row nobody asks about stays as it is. */
  lemma {:induction false} TheLastWriteDecides(t: Tables, reqs: seq<Request>, os: seq<Outcome>, n: nat, j: nat)
    requires n <= |reqs| == |os| && j in t.jobs
    ensures var t' := AfterWrites(t, reqs, os, n);
      && j in t'.jobs
      && (forall i: nat :: IsLastWord(reqs, os, n, j, i) ==>
            HasTheWord(t'.jobs[j], t.jobs[j], reqs[i].kind))
      && ((forall i :: 0 <= i < n ==> !Decides(reqs[i], os[i], j)) ==> t'.jobs[j] == t.jobs[j])
  {
    hide HasTheWord, AfterWrite, Decided;
    RowsStay(t, reqs, os, n, j);
    forall i: nat | IsLastWord(reqs, os, n, j, i)
      ensures HasTheWord(AfterWrites(t, reqs, os, n).jobs[j], t.jobs[j], reqs[i].kind)
    {
      TheLastWordStands(t, reqs, os, n, j, i);
    }
    if forall i :: 0 <= i < n ==> !Decides(reqs[i], os[i], j) {
      UndecidedRowStays(t, reqs, os, 0, n, j);
    }
  }

  /** The processed rows are those of before and those of the records that took effect; no row comes or goes. */
  lemma {:induction false} RecordsAddUp(t: Tables, reqs: seq<Request>, os: seq<Outcome>, n: nat, j: nat)
    requires n <= |reqs| == |os|
    ensures var t' := AfterWrites(t, reqs, os, n);
      && t'.jobs.Keys == t.jobs.Keys && t'.dead == t.dead
      && (j in t'.processed <==>
            j in t.processed || exists i :: 0 <= i < n && os[i].Applied() && reqs[i].id == j && reqs[i].kind.WriteProcessed?)
  {
    if n > 0 {
      RecordsAddUp(t, reqs, os, n - 1, j);
    }
  }
}

/** The admin endpoints that put dead letters back into the queue, alone with the database. */
module DeadLetters {
  import opened Prelude
  import opened JobStore
  import opened JobProtocol

  /** What a row or a dead letter asks to be done. */
  datatype Task = Task(tenant: Option<string>, typ: string, payload: string)

  function TaskOf(d: DeadLetter): Task {
    Task(d.tenant, d.typ, d.payload)
  }

  function TaskOfRow(row: Job): Task {
    Task(row.tenant, row.typ, row.payload)
  }

  // ---------------------------------------------------------------- how often a task is there

  ghost function DeadWith(dead: map<nat, DeadLetter>, k: Task): set<nat> {
    set d | d in dead && TaskOf(dead[d]) == k
  }

  /** Among the rows inserted since `first`. */
  ghost function NewWith(t: Tables, first: nat, k: Task): set<nat> {
    set j | j in t.jobs && first <= j < t.nextJob && TaskOfRow(t.jobs[j]) == k
  }

  /** Copies of task k: dead letters that ask for it plus rows inserted since `first` that do. */
  ghost function Copies(t: Tables, first: nat, k: Task): nat {
    |DeadWith(t.dead, k)| + |NewWith(t, first, k)|
  }

  lemma InsertAddsTask(t: Tables, first: nat, d: DeadLetter, k: Task)
    requires first <= t.nextJob
    ensures Copies(AfterInsert(t, RetriedJob(d)), first, k) == Copies(t, first, k) + if TaskOf(d) == k then 1 else 0
  {
    var t' := AfterInsert(t, RetriedJob(d));
    assert NewWith(t', first, k) == NewWith(t, first, k) + if TaskOf(d) == k then {t.nextJob} else {};
  }

  lemma DeleteTakesTask(t: Tables, first: nat, d: nat, k: Task)
    requires d in t.dead
    ensures Copies(AfterDelete(t, d), first, k) == Copies(t, first, k) - if TaskOf(t.dead[d]) == k then 1 else 0
  {
    var t' := AfterDelete(t, d);
    assert DeadWith(t'.dead, k) == DeadWith(t.dead, k) - {d};
    assert d in DeadWith(t.dead, k) <==> TaskOf(t.dead[d]) == k;
    assert NewWith(t', first, k) == NewWith(t, first, k);
  }

  // ---------------------------------------------------------------- the requeue loop

  /** One entry: a fresh row, then, when that was reported done, the delete. */
  function RequeueOne(t: Tables, x: Entry, insert: Outcome, delete: Outcome): Tables {
    var t1 := if insert.Applied() then AfterInsert(t, RetriedJob(x.row)) else t;
    if insert.Reported() && delete.Applied() then AfterDelete(t1, x.d) else t1
  }

  /** The loop after its first n entries. */
  function RequeueFirst(t: Tables, xs: seq<Entry>, inserts: seq<Outcome>, deletes: seq<Outcome>, n: nat): Tables
    requires n <= |xs| == |inserts| == |deletes|
  {
    if n == 0 then t
    else RequeueOne(RequeueFirst(t, xs, inserts, deletes, n - 1), xs[n - 1], inserts[n - 1], deletes[n - 1])
  }

  /** The entry's task ends up in a fresh row and is still among the dead letters. */
  predicate Doubles(insert: Outcome, delete: Outcome) {
    insert.Applied() && !(insert.Reported() && delete.Applied())
  }

  ghost function DoubledCount(xs: seq<Entry>, inserts: seq<Outcome>, deletes: seq<Outcome>, n: nat, k: Task): nat
    requires n <= |xs| == |inserts| == |deletes|
  {
    if n == 0 then 0 else
      DoubledCount(xs, inserts, deletes, n - 1, k) +
      if Doubles(inserts[n - 1], deletes[n - 1]) && TaskOf(xs[n - 1].row) == k then 1 else 0
  }

  /** The answer of GetDeadLetterJobs: at most `limit` rows, newest first, none twice. */
  predicate IsListing(dead: map<nat, DeadLetter>, limit: nat, xs: seq<Entry>) {
    && |xs| <= limit
    && (|xs| < limit ==> forall d :: d in dead ==> Entry(d, dead[d]) in xs)
    && (forall i :: 0 <= i < |xs| ==> xs[i].d in dead && xs[i].row == dead[xs[i].d])
    && (forall i, k :: 0 <= i < k < |xs| ==> xs[i].d != xs[k].d && xs[i].row.failedAt >= xs[k].row.failedAt)
    && (forall d :: d in dead && Entry(d, dead[d]) !in xs ==>
          forall i :: 0 <= i < |xs| ==> xs[i].row.failedAt >= dead[d].failedAt)
  }

  /** The letters other than those of `rest`, newest first, all at least as new as those. */
  predicate IsFront(dead: map<nat, DeadLetter>, xs: seq<Entry>, rest: set<nat>) {
    && rest <= dead.Keys
    && (forall i :: 0 <= i < |xs| ==> xs[i].d in dead && xs[i].d !in rest && xs[i].row == dead[xs[i].d])
    && (forall d :: d in dead && d !in rest ==> Entry(d, dead[d]) in xs)
    && (forall i, k :: 0 <= i < k < |xs| ==> xs[i].d != xs[k].d && xs[i].row.failedAt >= xs[k].row.failedAt)
    && (forall i, d :: 0 <= i < |xs| && d in rest ==> xs[i].row.failedAt >= dead[d].failedAt)
  }

  lemma FrontGrows(dead: map<nat, DeadLetter>, xs: seq<Entry>, rest: set<nat>, d: nat)
    requires IsFront(dead, xs, rest) && d in rest && forall e <- rest :: dead[e].failedAt <= dead[d].failedAt
    ensures IsFront(dead, xs + [Entry(d, dead[d])], rest - {d})
  {
  }

  lemma {:induction false} RequeueTouchesListedOnly(t: Tables, xs: seq<Entry>, inserts: seq<Outcome>, deletes: seq<Outcome>, n: nat, d: nat)
    requires n <= |xs| == |inserts| == |deletes|
    requires d in t.dead && forall i :: 0 <= i < n ==> xs[i].d != d
    ensures var t' := RequeueFirst(t, xs, inserts, deletes, n); d in t'.dead && t'.dead[d] == t.dead[d]
  {
    if n > 0 {
      RequeueTouchesListedOnly(t, xs, inserts, deletes, n - 1, d);
    }
  }

  lemma RequeueOneConserves(t: Tables, first: nat, x: Entry, insert: Outcome, delete: Outcome, k: Task)
    requires x.d in t.dead && x.row == t.dead[x.d] && first <= t.nextJob
    ensures var t' := RequeueOne(t, x, insert, delete);
      && t.nextJob <= t'.nextJob
      && Copies(t', first, k) == Copies(t, first, k) + if Doubles(insert, delete) && TaskOf(x.row) == k then 1 else 0
  {
    if insert.Applied() {
      InsertAddsTask(t, first, x.row, k);
      DeleteTakesTask(AfterInsert(t, RetriedJob(x.row)), first, x.d, k);
    }
  }

  /** Whatever fails, no work is lost: dead letters plus fresh rows hold every task as often as the
      dead letters did before, and exactly the doubled tasks on top. */
  lemma {:induction false} RequeueConserves(t: Tables, xs: seq<Entry>, inserts: seq<Outcome>, deletes: seq<Outcome>, n: nat, k: Task)
    requires n <= |xs| == |inserts| == |deletes|
    requires forall i :: 0 <= i < |xs| ==> xs[i].d in t.dead && xs[i].row == t.dead[xs[i].d]
    requires forall i, j :: 0 <= i < j < |xs| ==> xs[i].d != xs[j].d
    ensures t.nextJob <= RequeueFirst(t, xs, inserts, deletes, n).nextJob
    ensures Copies(RequeueFirst(t, xs, inserts, deletes, n), t.nextJob, k)
      == |DeadWith(t.dead, k)| + DoubledCount(xs, inserts, deletes, n, k)
  {
    if n == 0 {
      assert NewWith(t, t.nextJob, k) == {};
    } else {
      RequeueConserves(t, xs, inserts, deletes, n - 1, k);
      RequeueTouchesListedOnly(t, xs, inserts, deletes, n - 1, xs[n - 1].d);
      var t1 := RequeueFirst(t, xs, inserts, deletes, n - 1);
      RequeueOneConserves(t1, t.nextJob, xs[n - 1], inserts[n - 1], deletes[n - 1], k);
    }
  }

  lemma {:induction false} DoublingShows(xs: seq<Entry>, inserts: seq<Outcome>, deletes: seq<Outcome>, n: nat, i: nat)
    requires i < n <= |xs| == |inserts| == |deletes| && Doubles(inserts[i], deletes[i])
    ensures DoubledCount(xs, inserts, deletes, n, TaskOf(xs[i].row)) > 0
  {
    if i < n - 1 {
      DoublingShows(xs, inserts, deletes, n - 1, i);
    }
  }

  lemma {:induction false} NoDoublingNoCount(xs: seq<Entry>, inserts: seq<Outcome>, deletes: seq<Outcome>, n: nat, k: Task)
    requires n <= |xs| == |inserts| == |deletes|
    requires forall i :: 0 <= i < n ==> !Doubles(inserts[i], deletes[i])
    ensures DoubledCount(xs, inserts, deletes, n, k) == 0
  {
    if n > 0 {
      NoDoublingNoCount(xs, inserts, deletes, n - 1, k);
    }
  }

  lemma NothingDoublesIff(xs: seq<Entry>, inserts: seq<Outcome>, deletes: seq<Outcome>)
    requires |inserts| == |deletes| == |xs|
    ensures (forall k :: DoubledCount(xs, inserts, deletes, |xs|, k) == 0) <==>
      forall i :: 0 <= i < |xs| ==> !Doubles(inserts[i], deletes[i])
  {
    if i :| 0 <= i < |xs| && Doubles(inserts[i], deletes[i]) {
      DoublingShows(xs, inserts, deletes, |xs|, i);
    } else {
      forall k ensures DoubledCount(xs, inserts, deletes, |xs|, k) == 0 {
        NoDoublingNoCount(xs, inserts, deletes, |xs|, k);
      }
    }
  }

  /** Dead letters and fresh rows together hold every task as often as the dead letters did before exactly
      when every insert that took effect was reported and followed by a delete that took effect. */
  lemma {:induction false} ConservedIff(t: Tables, xs: seq<Entry>, inserts: seq<Outcome>, deletes: seq<Outcome>)
    requires |inserts| == |deletes| == |xs|
    requires forall i :: 0 <= i < |xs| ==> xs[i].d in t.dead && xs[i].row == t.dead[xs[i].d]
    requires forall i, k :: 0 <= i < k < |xs| ==> xs[i].d != xs[k].d
    ensures (forall k :: Copies(RequeueFirst(t, xs, inserts, deletes, |xs|), t.nextJob, k) == |DeadWith(t.dead, k)|)
      <==> forall i :: 0 <= i < |xs| ==> !Doubles(inserts[i], deletes[i])
  {
    var t' := RequeueFirst(t, xs, inserts, deletes, |xs|);
    if forall k :: Copies(t', t.nextJob, k) == |DeadWith(t.dead, k)| {
      forall k ensures DoubledCount(xs, inserts, deletes, |xs|, k) == 0 {
        RequeueConserves(t, xs, inserts, deletes, |xs|, k);
      }
      NothingDoublesIff(xs, inserts, deletes);
    }
    if forall i :: 0 <= i < |xs| ==> !Doubles(inserts[i], deletes[i]) {
      forall k ensures Copies(t', t.nextJob, k) == |DeadWith(t.dead, k)| {
        NoDoublingNoCount(xs, inserts, deletes, |xs|, k);
        RequeueConserves(t, xs, inserts, deletes, |xs|, k);
      }
    }
  }

  datatype Response = NotFound | Rejected | Requeued

  class AdminHandler {
    const db: Database

    constructor (db: Database)
      ensures this.db == db
    {
      this.db := db;
    }

    method RetryEntry(x: Entry, insert: Outcome, delete: Outcome) returns (requeued: bool)
      modifies db
      ensures db.Contents() == RequeueOne(old(db.Contents()), x, insert, delete)
      ensures requeued == insert.Ok?
    {
      if insert.Applied() {
        var _ := db.RetryDeadLetterJob(x.row);
      }
      if !insert.Reported() {
        return false;
      }
      if delete.Applied() {
        db.DeleteDeadLetterJob(x.d);
      }
      requeued := true;
    }

    method Newest(ids: set<nat>) returns (d: nat)
      requires ids != {} && ids <= db.dead.Keys
      ensures d in ids && forall e <- ids :: db.dead[e].failedAt <= db.dead[d].failedAt
    {
      d :| d in ids;
      var rest := ids - {d};
      while rest != {}
        invariant d in ids && rest <= ids
        invariant forall e :: e in ids && e !in rest ==> db.dead[e].failedAt <= db.dead[d].failedAt
        decreases |rest|
      {
        var e :| e in rest;
        if db.dead[e].failedAt > db.dead[d].failedAt {
          d := e;
        }
        rest := rest - {e};
      }
    }

    /** ORDER BY failed_at DESC LIMIT limit. */
    method GetDeadLetterJobs(limit: nat) returns (xs: seq<Entry>)
      ensures IsListing(db.dead, limit, xs)
    {
      xs := [];
      var rest := db.dead.Keys;
      while |xs| < limit && rest != {}
        invariant |xs| <= limit && IsFront(db.dead, xs, rest)
        decreases |rest|
      {
        var d := Newest(rest);
        FrontGrows(db.dead, xs, rest, d);
        xs, rest := xs + [Entry(d, db.dead[d])], rest - {d};
      }
    }

    method RetryAllDLQ(insert: nat -> Outcome, delete: nat -> Outcome)
      returns (retried: nat, failed: nat, xs: seq<Entry>, inserts: seq<Outcome>, deletes: seq<Outcome>)
      modifies db
      ensures IsListing(old(db.dead), 1000, xs) && inserts == seq(|xs|, insert) && deletes == seq(|xs|, delete)
      ensures db.Contents() == RequeueFirst(old(db.Contents()), xs, inserts, deletes, |xs|)
      ensures retried == ReportedIn(inserts, |xs|) && retried + failed == |xs|
    {
      xs := GetDeadLetterJobs(1000);
      inserts, deletes := seq(|xs|, insert), seq(|xs|, delete);
      retried, failed := 0, 0;
      for i := 0 to |xs|
        invariant db.Contents() == RequeueFirst(old(db.Contents()), xs, inserts, deletes, i)
        invariant retried == ReportedIn(inserts, i) && retried + failed == i
      {
        var requeued := RetryEntry(xs[i], inserts[i], deletes[i]);
        if !requeued {
          failed := failed + 1;
          continue;
        }
        retried := retried + 1;
      }
    }

    /** The entry is looked for in a listing of one row, so only the newest dead letter is ever found. */
    method RetryDLQJob(id: nat, insert: Outcome, delete: Outcome) returns (response: Response, xs: seq<Entry>)
      modifies db
      ensures IsListing(old(db.dead), 1, xs)
      ensures response.NotFound? <==> xs == [] || xs[0].d != id
      ensures response.NotFound? ==> db.Contents() == old(db.Contents())
      ensures !response.NotFound? ==> db.Contents() == RequeueOne(old(db.Contents()), xs[0], insert, delete)
      ensures response.Requeued? <==> !response.NotFound? && insert.Ok? && delete.Ok?
    {
      xs := GetDeadLetterJobs(1);
      var found: Option<Entry> := None;
      for i := 0 to |xs|
        invariant found == if i > 0 && xs[0].d == id then Some(xs[0]) else None
      {
        if xs[i].d == id {
          found := Some(xs[i]);
          break;
        }
      }
      if found.None? {
        return NotFound, xs;
      }
      var requeued := RetryEntry(found.value, insert, delete);
      if !requeued {
        return Rejected, xs;
      }
      response := if delete.Reported() then Requeued else Rejected;
    }
  }

  lemma {:induction false} ListedIdsAreCounted(xs: seq<Entry>)
    requires forall i, k :: 0 <= i < k < |xs| ==> xs[i].d != xs[k].d
    ensures |set x | x in xs :: x.d| == |xs|
  {
    if xs != [] {
      var front, last := xs[..|xs| - 1], xs[|xs| - 1];
      ListedIdsAreCounted(front);
      assert (set x | x in xs :: x.d) == (set x | x in front :: x.d) + {last.d};
      assert last.d !in (set x | x in front :: x.d);
    }
  }

  lemma SubsetIsNoLarger<T>(a: set<T>, b: set<T>)
    requires a <= b
    ensures |a| <= |b|
  {
    if a != {} {
      var x :| x in a;
      SubsetIsNoLarger(a - {x}, b - {x});
    }
  }

  function AsNew(dead: map<nat, DeadLetter>, d: nat): set<nat>
    requires d in dead
  {
    set e | e in dead && e != d && dead[e].failedAt >= dead[d].failedAt
  }

  function Newer(dead: map<nat, DeadLetter>, d: nat): set<nat>
    requires d in dead
  {
    set e | e in dead && dead[e].failedAt > dead[d].failedAt
  }

  lemma UnlistedIsBehindAllListed(dead: map<nat, DeadLetter>, limit: nat, xs: seq<Entry>, d: nat)
    requires IsListing(dead, limit, xs) && d in dead && Entry(d, dead[d]) !in xs
    ensures |AsNew(dead, d)| >= limit && forall x <- xs :: x.d != d
  {
    ListedIdsAreCounted(xs);
    SubsetIsNoLarger(set x | x in xs :: x.d, AsNew(dead, d));
  }

  lemma ListedIsBehindListed(dead: map<nat, DeadLetter>, limit: nat, xs: seq<Entry>, d: nat)
    requires IsListing(dead, limit, xs) && d in dead && Entry(d, dead[d]) in xs
    ensures |Newer(dead, d)| < limit
  {
    var listed := set x | x in xs :: x.d;
    ListedIdsAreCounted(xs);
    forall e | e in Newer(dead, d) ensures e in listed {
      assert Entry(e, dead[e]) in xs;
    }
    assert Entry(d, dead[d]).d in listed;
    SubsetIsNoLarger(Newer(dead, d) + {d}, listed);
  }

  /** A letter is listed if fewer than `limit` others are as new as it is, and not if that many are newer. */
  lemma ListedIfAmongTheNewest(dead: map<nat, DeadLetter>, limit: nat, xs: seq<Entry>, d: nat)
    requires IsListing(dead, limit, xs) && d in dead
    ensures |set e | e in dead && e != d && dead[e].failedAt >= dead[d].failedAt| < limit ==> Entry(d, dead[d]) in xs
    ensures |set e | e in dead && dead[e].failedAt > dead[d].failedAt| >= limit ==> forall x <- xs :: x.d != d
  {
    hide IsListing;
    assert AsNew(dead, d) == set e | e in dead && e != d && dead[e].failedAt >= dead[d].failedAt;
    assert Newer(dead, d) == set e | e in dead && dead[e].failedAt > dead[d].failedAt;
    if Entry(d, dead[d]) in xs {
      ListedIsBehindListed(dead, limit, xs, d);
    } else {
      UnlistedIsBehindAllListed(dead, limit, xs, d);
    }
  }

  /** A dead letter that is older than another one cannot be retried by its id, whatever it holds. */
  lemma OnlyTheNewestCanBeRetried(dead: map<nat, DeadLetter>, xs: seq<Entry>, older: nat, newer: nat)
    requires IsListing(dead, 1, xs) && older in dead && newer in dead && dead[older].failedAt < dead[newer].failedAt
    ensures xs != [] && xs[0].d != older
  {
    assert xs == [] || xs == [xs[0]];
  }
}

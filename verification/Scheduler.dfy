/** The order in which the picking statement hands out rows when nothing else happens. */
module Scheduler {
  import opened Prelude
  import opened JobStore

  ghost function Ready(t: Tables, now: int): set<nat> {
    set j | j in t.jobs && Eligible(t.jobs[j], now)
  }

  /** Picking `ids` one after the other, each time a row that may come first, until none is left. */
  ghost predicate Drains(t: Tables, now: int, worker: nat, ids: seq<nat>)
    decreases |ids|
  {
    if ids == [] then Ready(t, now) == {}
    else IsNext(t, now, ids[0]) && Drains(AfterPick(t, now, ids[0], worker), now, worker, ids[1..])
  }

  predicate InOrder(t: Tables, a: nat, b: nat) {
    a in t.jobs && b in t.jobs && !Before(t.jobs[b], t.jobs[a])
  }

  lemma PickRemovesOne(t: Tables, now: int, id: nat, worker: nat)
    requires id in t.jobs
    ensures Ready(AfterPick(t, now, id, worker), now) == Ready(t, now) - {id}
  {
  }

  lemma {:induction false} DrainsInOrder(t: Tables, now: int, worker: nat, ids: seq<nat>)
    requires Drains(t, now, worker, ids)
    ensures NoDup(ids)
    ensures forall j :: j in ids <==> j in Ready(t, now)
    ensures forall i, k :: 0 <= i < k < |ids| ==> InOrder(t, ids[i], ids[k])
    decreases |ids|
  {
    if ids != [] {
      var t' := AfterPick(t, now, ids[0], worker);
      PickRemovesOne(t, now, ids[0], worker);
      DrainsInOrder(t', now, worker, ids[1..]);
      assert ids == [ids[0]] + ids[1..];
      forall i, k | 0 <= i < k < |ids|
        ensures InOrder(t, ids[i], ids[k])
      {
        assert ids[k] == ids[1..][k - 1] && ids[k] in ids[1..];
        if i > 0 {
          assert ids[i] == ids[1..][i - 1] && ids[i] in ids[1..];
          assert InOrder(t', ids[i], ids[k]);
        }
      }
    }
  }

  /** Every row that is pending and due comes exactly once, in non-decreasing order of priority and then
      run_at, and no other row comes. */
  lemma DrainingIsOrderedAndComplete(t: Tables, now: int, worker: nat, ids: seq<nat>)
    requires Drains(t, now, worker, ids)
    ensures NoDup(ids)
    ensures forall j :: (j in ids <==>
      && j in t.jobs && t.jobs[j].status == Pending && t.jobs[j].runAt <= now
      && (t.jobs[j].nextRetryAt.None? || t.jobs[j].nextRetryAt.value <= now))
    ensures forall i, k :: 0 <= i < k < |ids| ==> var a, b := t.jobs[ids[i]], t.jobs[ids[k]];
      a.priority < b.priority || (a.priority == b.priority && a.runAt <= b.runAt)
  {
    hide Drains;
    DrainsInOrder(t, now, worker, ids);
    forall i, k | 0 <= i < k < |ids|
      ensures ids[i] in t.jobs && ids[k] in t.jobs
      ensures var a, b := t.jobs[ids[i]], t.jobs[ids[k]];
        a.priority < b.priority || (a.priority == b.priority && a.runAt <= b.runAt)
    {
      assert InOrder(t, ids[i], ids[k]);
    }
  }

  /** A worker alone with the queue at a fixed time. */
  method Drain(db: Database, now: int, worker: nat) returns (ids: seq<nat>)
    modifies db
    ensures Drains(old(db.Contents()), now, worker, ids)
    ensures Ready(db.Contents(), now) == {}
  {
    ids := [];
    ghost var t0 := db.Contents();
    assert forall more: seq<nat> :: [] + more == more;
    while true
      invariant forall more: seq<nat> :: Drains(db.Contents(), now, worker, more) ==> Drains(t0, now, worker, ids + more)
      decreases |Ready(db.Contents(), now)|
    {
      ghost var t := db.Contents();
      var picked := db.PickNextJobWithWorker(now, worker);
      if picked.None? {
        assert ids + [] == ids;
        assert Drains(t, now, worker, []);
        return;
      }
      var id := picked.value;
      PickRemovesOne(t, now, id, worker);
      assert id in Ready(t, now);
      forall more: seq<nat> | Drains(db.Contents(), now, worker, more)
        ensures Drains(t0, now, worker, ids + [id] + more)
      {
        assert ([id] + more)[1..] == more;
        assert Drains(t, now, worker, [id] + more);
        assert ids + [id] + more == ids + ([id] + more);
      }
      ids := ids + [id];
    }
  }
}

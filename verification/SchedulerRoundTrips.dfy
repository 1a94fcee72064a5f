/**
  Evicting and restoring, and suspending and resuming, as inverses of each other: exactly
  when the second gives back the state the first started from.
 */
module SchedulerRoundTrips {
  import opened Basics
  import opened Queues
  import opened RunlistIb
  import opened Scheduler
  import opened SchedulerInvariant

  /** Walking a list there and back gives each queue its own round trip. */
  lemma WalkTwice(there: Walk, back: Walk, qs: seq<Queue>)
    ensures WalkQueues(back, WalkQueues(there, qs)) == qs
        <==> forall q <- qs :: WalkQueue(back, WalkQueue(there, q)) == q
  {
    hide WalkQueue;
    var r := WalkQueues(back, WalkQueues(there, qs));
    if r == qs {
      forall q | q in qs ensures WalkQueue(back, WalkQueue(there, q)) == q {
        var i :| 0 <= i < |qs| && qs[i] == q;
        assert r[i] == WalkQueue(back, WalkQueue(there, qs[i]));
      }
    } else {
      var i :| 0 <= i < |qs| && r[i] != qs[i];
      assert qs[i] in qs;
    }
  }

  /** If the queues come back, so do the counters. */
  lemma TallyTwice(there: Walk, back: Walk, qs: seq<Queue>, t: Tally)
    requires forall q <- qs :: WalkReady(there, q) && WalkReady(back, WalkQueue(there, q))
    requires WalkQueues(back, WalkQueues(there, qs)) == qs
    ensures WalkTallies(back, WalkQueues(there, qs), WalkTallies(there, qs, t)) == t
  {
    hide WalkReady, WalkQueue, WalkTallies, SumQ, Weight;
    var mid := WalkQueues(there, qs);
    forall q | q in mid ensures WalkReady(back, q) {
      var i :| 0 <= i < |qs| && mid[i] == q;
      assert qs[i] in qs;
    }
    var t1 := WalkTallies(there, qs, t);
    var t2 := WalkTallies(back, mid, t1);
    WalkTalliesFollow(there, qs, t);
    WalkTalliesFollow(back, mid, t1);
    assert Activity(Active) && Activity(ActiveCp) && Activity(ActiveGws);
    assert TallyAt(t2, Active) == TallyAt(t, Active);
    assert TallyAt(t2, ActiveCp) == TallyAt(t, ActiveCp);
    assert TallyAt(t2, ActiveGws) == TallyAt(t, ActiveGws);
  }

  /** The lists after a walk there and back. */
  lemma ProcTwice(there: Walk, back: Walk, l: Lists, p: nat)
    requires p in l.procs
    requires forall q <- l.procs[p].queues :: WalkReady(there, q) && WalkReady(back, WalkQueue(there, q))
    ensures WalkProc(back, WalkProc(there, l, p), p) == l
        <==> forall q <- l.procs[p].queues :: WalkQueue(back, WalkQueue(there, q)) == q
  {
    hide WalkReady, WalkQueue;
    var pr := l.procs[p];
    var r := WalkProc(back, WalkProc(there, l, p), p);
    WalkTwice(there, back, pr.queues);
    assert r.procs[p].queues == WalkQueues(back, WalkQueues(there, pr.queues));
    if WalkQueues(back, WalkQueues(there, pr.queues)) == pr.queues {
      TallyTwice(there, back, pr.queues, l.tally);
      assert r.procs == l.procs;
    }
  }

  lemma EvictQueueRestored(q: Queue)
    requires !q.evicted
    ensures WalkQueue(RestoreAll, WalkQueue(EvictAll, q)) == q <==> (q.active == Runnable(q))
  {
  }

  /**
    Restoring undoes evicting, counters included, exactly when every queue of the process
    is active if and only if it is fit to run. A queue restored from a checkpoint is
    inactive although fit to run, so an eviction in between activates it.
   */
  lemma RestoreUndoesEvict(l: Lists, p: nat)
    requires p in l.procs && l.procs[p].evicted == 0 && l.procs[p].vmAcquired
    requires forall q <- l.procs[p].queues :: QueueInv(0, q)
    ensures p in EvictLists(l, p).procs
    ensures RestoreLists(EvictLists(l, p), p) == l <==> forall q <- l.procs[p].queues :: q.active == Runnable(q)
  {
    var pr := l.procs[p];
    forall q | q in pr.queues
      ensures WalkReady(EvictAll, q) && WalkReady(RestoreAll, WalkQueue(EvictAll, q))
      ensures WalkQueue(RestoreAll, WalkQueue(EvictAll, q)) == q <==> (q.active == Runnable(q))
    {
      EvictQueueRestored(q);
    }
    hide WalkQueues, WalkTallies, WalkQueue, WalkReady;
    ProcTwice(EvictAll, RestoreAll, l, p);
    NestingAside(l, p);
  }

  /** The nesting count goes up and down again. */
  lemma NestingAside(l: Lists, p: nat)
    requires p in l.procs && l.procs[p].evicted == 0 && l.procs[p].vmAcquired
    ensures p in EvictLists(l, p).procs
    ensures RestoreLists(EvictLists(l, p), p) == l <==> WalkProc(RestoreAll, WalkProc(EvictAll, l, p), p) == l
  {
    hide WalkQueues, WalkTallies;
    var pr := l.procs[p];
    var a := RestoreLists(EvictLists(l, p), p);
    var b := WalkProc(RestoreAll, WalkProc(EvictAll, l, p), p);
    assert a.procs[p] == b.procs[p];
    assert a.procs == l.procs[p := a.procs[p]];
    assert b.procs == l.procs[p := b.procs[p]];
  }

  /**
    Resuming a selection undoes suspending it exactly when no selected queue was suspended
    already, and each was refused or is active if and only if it is fit to run.
   */
  lemma ResumeUndoesSuspend(l: Lists, p: nat, ids: set<nat>)
    requires p in l.procs && forall q <- l.procs[p].queues :: QueueInv(l.procs[p].evicted, q)
    ensures WalkProc(ResumeIn(ids), WalkProc(SuspendIn(ids), l, p), p) == l
        <==> forall q <- l.procs[p].queues :: q.id in ids ==>
               !q.suspended && (Refuses(q) || q.active == Runnable(q))
  {
    var qs := l.procs[p].queues;
    forall q | q in qs
      ensures WalkReady(SuspendIn(ids), q) && WalkReady(ResumeIn(ids), WalkQueue(SuspendIn(ids), q))
      ensures WalkQueue(ResumeIn(ids), WalkQueue(SuspendIn(ids), q)) == q
          <==> (q.id in ids ==> !q.suspended && (Refuses(q) || q.active == Runnable(q)))
    {
      assert QueueInv(l.procs[p].evicted, q);
    }
    hide WalkQueues, WalkTallies, WalkQueue, WalkReady;
    ProcTwice(SuspendIn(ids), ResumeIn(ids), l, p);
  }
}

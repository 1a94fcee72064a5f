/**
  Queue descriptors (MQDs): over every run, a descriptor in memory is rewritten only by an
  update, and only when the scheduler cannot be looking at it.
 */
module SchedulerDescriptors {
  import opened Basics
  import opened Queues
  import opened Scheduler
  import opened SchedulerInvariant
  import opened SchedulerSteps
  import opened SchedulerRuns

  /**
    The same queue with the same descriptor, slot and doorbell; if it is active now and was
    not, or the other way round, then because it is fit to run or is not.
   */
  predicate Same(x: Queue, y: Queue) {
    && y.id == x.id && y.kind == x.kind && y.sdmaId == x.sdmaId && y.doorbell == x.doorbell
    && y.mqd == x.mqd && y.isGws == x.isGws
    && (y.active == x.active || y.active == Runnable(y))
  }

  ghost predicate HasSame(qs: seq<Queue>, y: Queue) { exists x <- qs :: Same(x, y) }

  ghost predicate NoName(qs: seq<Queue>, id: nat) { forall x <- qs :: x.id != id }

  /** Every queue of the second list is one of the first, or new where there may be new ones. */
  ghost predicate Carried(from: seq<Queue>, to: seq<Queue>, mayAdd: bool) {
    forall y <- to :: HasSame(from, y) || (mayAdd && NoName(from, y.id))
  }

  ghost predicate AllCarried(l: Lists, l': Lists, mayAdd: bool) {
    forall p <- l'.procs ::
      if p in l.procs then Carried(l.procs[p].queues, l'.procs[p].queues, mayAdd) else l'.procs[p].queues == []
  }

  /** The same queues, possibly with other flags. */
  ghost predicate SameNames(a: seq<Queue>, b: seq<Queue>) {
    |a| == |b| && forall i :: 0 <= i < |a| ==> Same(a[i], b[i])
  }

  lemma SameCarried(a: seq<Queue>, b: seq<Queue>)
    requires SameNames(a, b)
    ensures Carried(a, b, false)
  {
    forall y | y in b ensures HasSame(a, y) {
      var i :| 0 <= i < |b| && b[i] == y;
      assert a[i] in a;
    }
  }

  lemma PartCarried(a: seq<Queue>, b: seq<Queue>)
    requires forall y <- b :: y in a
    ensures Carried(a, b, false)
  {
    forall y | y in b ensures HasSame(a, y) {
    }
  }

  /** One process's queues change. */
  lemma PutCarried(l: Lists, p: nat, l': Lists, mayAdd: bool)
    requires p in l.procs && p in l'.procs && l'.procs == l.procs[p := l'.procs[p]]
    requires Carried(l.procs[p].queues, l'.procs[p].queues, mayAdd)
    ensures AllCarried(l, l', mayAdd)
  {
    forall r | r in l'.procs && r != p ensures Carried(l.procs[r].queues, l'.procs[r].queues, mayAdd) {
      PartCarried(l.procs[r].queues, l'.procs[r].queues);
    }
  }

  lemma NoneCarried(l: Lists, l': Lists, mayAdd: bool)
    requires l'.procs == l.procs
    ensures AllCarried(l, l', mayAdd)
  {
    forall r | r in l'.procs ensures Carried(l.procs[r].queues, l'.procs[r].queues, mayAdd) {
      PartCarried(l.procs[r].queues, l'.procs[r].queues);
    }
  }

  lemma CreateCarries(cfg: Config, s: State, p: nat, q: Queue, qd: Option<Criu>, mqdOk: bool, hw: Hw)
    requires ListInv(cfg, s.lists) && Alive(s.lists, p) && q.kind != Diq && FreshQueue(s.lists, p, q)
    ensures AllCarried(s.lists, Create(cfg, s, p, q, qd, mqdOk, hw).s.lists, true)
  {
    hide CountersAgree, ProcInv, AllCarried;
    var l, r := s.lists, Create(cfg, s, p, q, qd, mqdOk, hw);
    if r.ret != Ok {
      CreateAllOrNothing(cfg, s, p, q, qd, mqdOk, hw);
      NoneCarried(l, r.s.lists, true);
    } else {
      CreateAdds(cfg, s, p, q, qd, mqdOk, hw);
      NewCarried(l.procs[p].queues, r.s.lists.procs[p].queues[0]);
      PutCarried(l, p, r.s.lists, true);
    }
  }

  lemma NewCarried(qs: seq<Queue>, q: Queue)
    requires NoName(qs, q.id)
    ensures Carried(qs, [q] + qs, true)
  {
    forall y | y in [q] + qs ensures HasSame(qs, y) || NoName(qs, y.id) {
    }
  }

  lemma DestroyNowCarries(cfg: Config, s: State, p: nat, i: nat, q: Queue, hw: Hw)
    requires Defined(s.lists) && p in s.lists.procs && i < |s.lists.procs[p].queues|
    requires Same(s.lists.procs[p].queues[i], q)
    ensures var m := PutQueue(s.lists, p, i, q);
      AllCarried(s.lists, m, false) && AllCarried(s.lists, DestroyNow(cfg, s.(lists := m), p, i, hw).s.lists, false)
  {
    hide AllCarried, Carried, DestroyNow;
    var l, m := s.lists, PutQueue(s.lists, p, i, q);
    var qs, ms := l.procs[p].queues, m.procs[p].queues;
    var r := DestroyNow(cfg, s.(lists := m), p, i, hw).s.lists;
    SameCarried(qs, ms);
    PutCarried(l, p, m, false);
    DestroyShape(cfg, s.(lists := m), p, i, hw);
    if l.procs[p].isDebug {
      assert r == m;
    } else {
      assert RemoveAt(ms, i) == RemoveAt(qs, i);
      assert forall y <- RemoveAt(qs, i) :: y in qs;
      PartCarried(qs, RemoveAt(qs, i));
      assert r.procs == l.procs[p := r.procs[p]];
      PutCarried(l, p, r, false);
    }
  }

  lemma DestroyCarries(cfg: Config, s: State, p: nat, i: nat, hw: Hw)
    requires Defined(s.lists) && p in s.lists.procs && i < |s.lists.procs[p].queues|
    ensures AllCarried(s.lists, Destroy(cfg, s, p, i, hw).s.lists, false)
    ensures AllCarried(s.lists, FinishStep(cfg, s, p, i, hw).s.lists, false)
  {
    hide AllCarried, DestroyNow;
    var q := s.lists.procs[p].queues[i];
    DestroyNowCarries(cfg, s, p, i, q.(beingDestroyed := true, destroyWait := Waiting), hw);
    DestroyNowCarries(cfg, s, p, i, q.(beingDestroyed := true), hw);
    DestroyNowCarries(cfg, s, p, i, q.(destroyWait := Idle), hw);
    NoneCarried(s.lists, s.lists, false);
  }

  lemma KernelCarries(cfg: Config, s: State, p: nat, q: Queue, i: nat, hw: Hw)
    requires Defined(s.lists) && p in s.lists.procs
    ensures AllCarried(s.lists, AddKernelStep(cfg, s, p, q, hw).s.lists, false)
    ensures i < |s.lists.procs[p].kernelQueues| ==> AllCarried(s.lists, RemoveKernelStep(cfg, s, p, i, hw).s.lists, false)
  {
    hide AllCarried, Execute;
    var l := s.lists;
    NoneCarried(l, l, false);
    SameCarried(l.procs[p].queues, l.procs[p].queues);
    PutCarried(l, p, LinkKernel(l, p, q), false);
    if i < |l.procs[p].kernelQueues| {
      PutCarried(l, p, UnlinkKernel(l, p, i), false);
    }
  }

  /** A walk, and clearing flags after it, leave names and descriptors alone. */
  lemma WalkCarries(l: Lists, p: nat, x: Proc, l': Lists)
    requires p in l.procs && l'.procs == l.procs[p := x]
    requires SameNames(l.procs[p].queues, x.queues)
    ensures AllCarried(l, l', false)
  {
    SameCarried(l.procs[p].queues, x.queues);
    PutCarried(l, p, l', false);
  }

  lemma WalkQueueSame(w: Walk, q: Queue)
    ensures Same(q, WalkQueue(w, q))
  {
  }

  lemma WalkSame(w: Walk, qs: seq<Queue>)
    ensures SameNames(qs, WalkQueues(w, qs)) && SameNames(qs, qs)
  {
    hide Same, WalkQueues, WalkQueue;
    forall i | 0 <= i < |qs| ensures Same(qs[i], WalkQueues(w, qs)[i]) && Same(qs[i], qs[i]) {
      WalkQueueSame(w, qs[i]);
      SameSelf(qs[i]);
    }
  }

  lemma SameSelf(q: Queue)
    ensures Same(q, q)
  {
  }

  lemma EvictCarries(cfg: Config, s: State, p: nat, hw: Hw)
    requires Defined(s.lists) && p in s.lists.procs
    ensures AllCarried(s.lists, EvictStep(cfg, s, p, hw).s.lists, false)
    ensures AllCarried(s.lists, RestoreStep(cfg, s, p, hw).s.lists, false)
  {
    hide AllCarried, SameNames, Execute, WalkTallies, WalkQueues;
    var l := s.lists;
    WalkSame(EvictAll, l.procs[p].queues);
    WalkSame(RestoreAll, l.procs[p].queues);
    var a, b := EvictLists(l, p), RestoreLists(l, p);
    assert a.procs == l.procs[p := a.procs[p]];
    WalkCarries(l, p, a.procs[p], a);
    assert b.procs == l.procs[p := b.procs[p]];
    WalkCarries(l, p, b.procs[p], b);
  }

  lemma SuspendCarries(cfg: Config, s: State, p: nat, ids: set<nat>, clearNew: bool, hw: Hw)
    requires Defined(s.lists) && p in s.lists.procs
    ensures AllCarried(s.lists, SuspendStep(cfg, s, p, ids, clearNew, hw).s.lists, false)
  {
    hide AllCarried, Execute, WalkTallies, Hits, ClearNew, WalkQueues;
    var l := s.lists;
    var m := WalkProc(SuspendIn(ids), l, p);
    var x := m.procs[p].(queues := ClearNew(m.procs[p].queues, ids));
    assert m.procs == l.procs[p := m.procs[p]];
    WalkCarries(l, p, m.procs[p], m);
    assert m.procs[p := x] == l.procs[p := x];
    WalkCarries(l, p, x, Put(m, p, x));
  }

  lemma ResumeCarries(cfg: Config, s: State, p: nat, which: Option<set<nat>>, hw: Hw)
    requires Defined(s.lists) && p in s.lists.procs
    ensures AllCarried(s.lists, ResumeStep(cfg, s, p, which, hw).s.lists, false)
  {
    hide AllCarried, SameNames, Execute, WalkQueues, WalkTallies, Hits;
    WalkSame(if which.Some? then ResumeIn(which.value) else ResumeAll, s.lists.procs[p].queues);
    WalkSame(ResumeAll, s.lists.procs[p].queues);
    var l, l' := s.lists, ResumeStep(cfg, s, p, which, hw).s.lists;
    assert l'.procs == l.procs[p := l'.procs[p]];
    WalkCarries(l, p, l'.procs[p], l');
  }

  lemma TerminateCarries(cfg: Config, s: State, p: nat, hw: Hw)
    requires Defined(s.lists) && p in s.lists.procs
    ensures AllCarried(s.lists, TerminateStep(cfg, s, p, hw).s.lists, false)
  {
    hide AllCarried, Execute, TerminateLists;
    var l, l' := s.lists, TerminateStep(cfg, s, p, hw).s.lists;
    TerminateKeepsKeys(cfg, l, p);
    TerminateShape(cfg, l, p);
    SameCarried(l.procs[p].queues, l'.procs[p].queues);
    assert l'.procs == l.procs[p := l'.procs[p]];
    PutCarried(l, p, l', false);
  }

  lemma MarkCarries(s: State, a: Action)
    requires IsMark(a) && MarkEnabled(s.lists, a)
    ensures AllCarried(s.lists, MarkStep(s, a).s.lists, false)
  {
    hide AllCarried;
    var l, l' := s.lists, MarkStep(s, a).s.lists;
    SameCarried(l.procs[a.p].queues, l'.procs[a.p].queues);
    PutCarried(l, a.p, l', false);
  }

  lemma ProcessCarries(cfg: Config, s: State, a: Action)
    requires IsProcess(a) && ProcessEnabled(s.lists, a)
    ensures AllCarried(s.lists, ProcessStep(cfg, s, a).s.lists, false)
  {
    var l, l' := s.lists, ProcessStep(cfg, s, a).s.lists;
    forall r | r in l'.procs && r in l.procs ensures Carried(l.procs[r].queues, l'.procs[r].queues, false) {
      assert forall y <- l'.procs[r].queues :: y in l.procs[r].queues;
      PartCarried(l.procs[r].queues, l'.procs[r].queues);
    }
  }

  /** No step but an update touches a descriptor. */
  lemma StepCarries(cfg: Config, s: State, a: Action)
    requires Inv(cfg, s) && Enabled(s, a) && !a.UpdateQueue?
    ensures AllCarried(s.lists, Step(cfg, s, a).s.lists, a.CreateQueue?)
  {
    hide CountersAgree, ProcInv, SchedInv, AllCarried, MarkStep, ProcessStep, MarkEnabled, ProcessEnabled;
    NoneCarried(s.lists, s.lists, false);
    if IsMark(a) {
      MarkCarries(s, a);
    } else if IsProcess(a) {
      ProcessCarries(cfg, s, a);
    } else if a.CreateQueue? || a.CreateKernelQueue? || a.DestroyKernelQueue? || a.DestroyQueue? || a.DestroyFinish? {
      hide Step;
      QueueCarries(cfg, s, a);
    } else {
      hide Step;
      OtherCarries(cfg, s, a);
    }
  }

  lemma QueueCarries(cfg: Config, s: State, a: Action)
    requires Inv(cfg, s) && Enabled(s, a)
    requires a.CreateQueue? || a.CreateKernelQueue? || a.DestroyKernelQueue? || a.DestroyQueue? || a.DestroyFinish?
    ensures AllCarried(s.lists, Step(cfg, s, a).s.lists, a.CreateQueue?)
  {
    hide CountersAgree, ProcInv, SchedInv, AllCarried, Create, AddKernelStep, RemoveKernelStep, Destroy, FinishStep,
         FreshQueue, MarkStep, ProcessStep, UpdateStep, EvictStep, RestoreStep, SuspendStep, ResumeStep,
         TerminateStep, StartStep, StopStep, RefreshStep, TrapVmidStep, ResetStep;
    match a
    case CreateQueue(p, q, qd, mqdOk, hw) => CreateCarries(cfg, s, p, q, qd, mqdOk, hw);
    case CreateKernelQueue(p, q, hw) => KernelCarries(cfg, s, p, q, 0, hw);
    case DestroyKernelQueue(p, i, hw) => KernelCarries(cfg, s, p, s.lists.procs[p].kernelQueues[i], i, hw);
    case DestroyQueue(p, i, hw) => DestroyCarries(cfg, s, p, i, hw);
    case DestroyFinish(p, i, hw) => DestroyCarries(cfg, s, p, i, hw);
  }

  lemma OtherCarries(cfg: Config, s: State, a: Action)
    requires Inv(cfg, s) && Enabled(s, a) && !IsMark(a) && !IsProcess(a) && !a.UpdateQueue?
    requires !(a.CreateQueue? || a.CreateKernelQueue? || a.DestroyKernelQueue? || a.DestroyQueue? || a.DestroyFinish?)
    ensures AllCarried(s.lists, Step(cfg, s, a).s.lists, false)
  {
    hide CountersAgree, ProcInv, SchedInv, AllCarried, EvictStep, RestoreStep, SuspendStep, ResumeStep,
         TerminateStep, Map, Unmap, Execute, MarkStep, ProcessStep, Create, AddKernelStep, RemoveKernelStep, Destroy,
         FinishStep, UpdateStep;
    NoneCarried(s.lists, s.lists, false);
    match a
    case EvictQueues(p, hw) => EvictCarries(cfg, s, p, hw);
    case RestoreQueues(p, hw) => EvictCarries(cfg, s, p, hw);
    case Suspend(p, ids, clearNew, hw) => SuspendCarries(cfg, s, p, ids, clearNew, hw);
    case Resume(p, which, hw) => ResumeCarries(cfg, s, p, which, hw);
    case Terminate(p, hw) => TerminateCarries(cfg, s, p, hw);
    case _ =>
  }

  /** A name stands for one queue. */
  lemma UniqueName(cfg: Config, pr: Proc, i: nat, j: nat)
    requires ProcInv(cfg, pr) && i < |pr.queues| && j < |pr.queues| && pr.queues[i].id == pr.queues[j].id
    ensures i == j
  {
    var m := Named(pr.queues[i].id);
    assert SumP(m, pr) <= 1;
    if i < j {
      SumQSplit(m, pr.queues, j);
      SumQSplit(m, pr.queues[..j], i);
    } else if j < i {
      SumQSplit(m, pr.queues, i);
      SumQSplit(m, pr.queues[..i], j);
    }
  }

  /**
    An update rewrites its queue's descriptor and no other exactly if its unmap succeeds,
    and otherwise changes nothing. After the rewrite the queue is active if and only if it
    has a ring, an address and a percentage and is neither evicted nor suspended; its GWS
    mark follows the assignment unless its activity changed.
   */
  lemma UpdateRewrites(cfg: Config, s: State, p: nat, i: nat, hw: Hw)
    requires Inv(cfg, s) && HasQueue(s.lists, p, i)
    ensures var l, l' := s.lists, UpdateStep(cfg, s, p, i, hw).s.lists;
      if !Unmaps(s.sched, hw.preempt) then l' == l && UpdateStep(cfg, s, p, i, hw).ret != Ok
      else
        && p in l'.procs && l'.procs == l.procs[p := l'.procs[p]]
        && var x, qs := l.procs[p].queues[i], l'.procs[p].queues;
           && l'.procs[p] == l.procs[p].(queues := qs) && |qs| == |l.procs[p].queues|
           && (forall k :: 0 <= k < |qs| && k != i ==> qs[k] == l.procs[p].queues[k])
           && (qs[i].active <==> x.size > 0 && x.address != 0 && x.percent > 0 && !x.evicted && !x.suspended)
           && qs[i].isGws == (if qs[i].active == x.active then x.gwsAssigned else x.isGws)
           && qs[i] == x.(active := qs[i].active, isGws := qs[i].isGws, mqd := x.mqd + 1)
  {
    hide Map, ListInv;
  }

  /**
    Over every run: when the descriptor of a queue differs from one state to the next, the
    step was an update of it, its unmap had succeeded, and between that and the next map
    the scheduler was stopped or had no active runlist.
   */
  lemma RunsRewriteUnmapped(cfg: Config, states: seq<State>, actions: seq<Action>, n: nat, p: nat, i: nat, j: nat)
    requires cfg.Valid() && Run(cfg, states, actions) && n < |actions|
    requires p in states[n].lists.procs && p in states[n + 1].lists.procs
    requires i < |states[n].lists.procs[p].queues| && j < |states[n + 1].lists.procs[p].queues|
    requires states[n].lists.procs[p].queues[i].id == states[n + 1].lists.procs[p].queues[j].id
    requires states[n].lists.procs[p].queues[i].mqd != states[n + 1].lists.procs[p].queues[j].mqd
    ensures var a := actions[n];
      && a.UpdateQueue? && a.p == p && a.i == i && i == j
      && var u := Unmap(states[n].sched, a.hw.preempt);
         u.ret == Ok && (!u.sched.running || !u.sched.activeRunlist)
  {
    hide CountersAgree, ProcInv, SchedInv, Enabled, Step, UpdateStep;
    var s, a := states[n], actions[n];
    RunsKeepInv(cfg, states, actions, n);
    assert Enabled(s, a) && states[n + 1] == Step(cfg, s, a).s;
    var pr := s.lists.procs[p];
    if !a.UpdateQueue? {
      StepCarries(cfg, s, a);
      OtherVersion(cfg, pr, i, states[n + 1].lists.procs[p].queues, j, a.CreateQueue?);
    } else {
      UpdateIs(cfg, s, a);
      UpdateRewrites(cfg, s, a.p, a.i, a.hw);
      UniqueName(cfg, pr, i, j);
      UnmapKeeps(s.sched, a.hw.preempt);
    }
  }

  lemma UpdateIs(cfg: Config, s: State, a: Action)
    requires Defined(s.lists) && Enabled(s, a) && a.UpdateQueue?
    ensures HasQueue(s.lists, a.p, a.i) && Step(cfg, s, a) == UpdateStep(cfg, s, a.p, a.i, a.hw)
  {
    hide UpdateStep;
  }

  /** A carried queue keeps its descriptor. */
  lemma OtherVersion(cfg: Config, pr: Proc, i: nat, to: seq<Queue>, j: nat, mayAdd: bool)
    requires ProcInv(cfg, pr) && Carried(pr.queues, to, mayAdd) && i < |pr.queues| && j < |to|
    requires pr.queues[i].id == to[j].id
    ensures pr.queues[i].mqd == to[j].mqd
  {
    hide ProcInv;
    assert pr.queues[i] in pr.queues && to[j] in to;
    assert HasSame(pr.queues, to[j]);
    var k :| 0 <= k < |pr.queues| && pr.queues[k].id == to[j].id && pr.queues[k].mqd == to[j].mqd;
    UniqueName(cfg, pr, i, k);
  }
}

/**
  What the remaining operations leave behind: limits kept over runs, stops and resets, marks
  on processes and queues, and kernel queues.
 */
module SchedulerOutcomes {
  import opened Basics
  import opened Queues
  import opened RunlistIb
  import opened Scheduler
  import opened SchedulerInvariant
  import opened SchedulerSteps
  import opened SchedulerRuns
  import opened SchedulerSound
  import opened SchedulerStatus
  import opened SchedulerCoherence
  import opened SchedulerDescriptors
  import opened SchedulerMapping

  // ----- the queue limit

  lemma CreateTotal(cfg: Config, s: State, p: nat, q: Queue, qd: Option<Criu>, mqdOk: bool, hw: Hw)
    requires ListInv(cfg, s.lists) && Defined(s.lists) && p in s.lists.procs && q.kind != Diq
    ensures var r := Create(cfg, s, p, q, qd, mqdOk, hw);
      && (s.lists.total >= cfg.maxQueues ==> r == Result(s, Eperm))
      && r.s.lists.total == s.lists.total + if r.ret == Ok then 1 else 0
  {
    hide ListInv, Reserve, CreateTail;
    if Create(cfg, s, p, q, qd, mqdOk, hw).ret != Ok {
      CreateAllOrNothing(cfg, s, p, q, qd, mqdOk, hw);
    } else {
      var a := Reserve(cfg, s.lists, p, q, qd);
      ReserveUndone(cfg, s.lists, p, q, qd);
      ReserveTakes(cfg, s.lists, p, q, qd);
      TailLists(cfg, s.(lists := a.lists), p, InitQueue(s.lists.procs[p], a.q, qd.Some?), hw);
    }
  }

  lemma QueueTotal(cfg: Config, s: State, a: Action)
    requires Inv(cfg, s) && Enabled(s, a) && Defined(s.lists)
    requires a.CreateQueue? || a.CreateKernelQueue? || a.DestroyKernelQueue? || a.DestroyQueue? || a.DestroyFinish?
    ensures Step(cfg, s, a).s.lists.total <= s.lists.total + 1
    ensures s.lists.total >= cfg.maxQueues ==> Step(cfg, s, a).s.lists.total <= s.lists.total
  {
    hide CountersAgree, ProcInv, SchedInv, Execute, Create, Unreserve, FreshQueue, MarkStep, ProcessStep, UpdateStep,
         EvictStep, RestoreStep, SuspendStep, ResumeStep, TerminateStep, StartStep, StopStep, RefreshStep, TrapVmidStep,
         ResetStep;
    match a
    case CreateQueue(p, q, qd, mqdOk, hw) => CreateTotal(cfg, s, p, q, qd, mqdOk, hw);
    case CreateKernelQueue(p, q, hw) =>
    case DestroyKernelQueue(p, i, hw) =>
    case DestroyQueue(p, i, hw) =>
      UnreserveTotal(cfg, PutQueue(s.lists, p, i, s.lists.procs[p].queues[i].(beingDestroyed := true)), p, i);
    case DestroyFinish(p, i, hw) =>
      UnreserveTotal(cfg, PutQueue(s.lists, p, i, s.lists.procs[p].queues[i].(destroyWait := Idle)), p, i);
  }

  lemma UnreserveTotal(cfg: Config, l: Lists, p: nat, i: nat)
    requires p in l.procs && i < |l.procs[p].queues|
    ensures DestroyLists(cfg, l, p, i).total == l.total - 1
  {
    hide FreeDoorbell;
  }

  lemma WalkTotal(cfg: Config, s: State, a: Action)
    requires Defined(s.lists) && Enabled(s, a)
    requires a.EvictQueues? || a.RestoreQueues? || a.Suspend? || a.Resume? || a.UpdateQueue?
    ensures Step(cfg, s, a).s.lists.total == s.lists.total
  {
    hide Execute, Map, Unmap, WalkQueues, WalkTallies, MarkStep, ProcessStep, Create, AddKernelStep, RemoveKernelStep,
         Destroy, FinishStep, TerminateStep, StartStep, StopStep, RefreshStep, TrapVmidStep, ResetStep;
  }

  lemma {:induction false} UserTotal(cfg: Config, l: Lists, qs: seq<Queue>)
    ensures TerminateUser(cfg, l, qs).total == l.total - |qs|
  {
    if qs != [] {
      UserTotal(cfg, l, qs[..|qs| - 1]);
    }
  }

  lemma OtherTotal(cfg: Config, s: State, a: Action)
    requires Defined(s.lists) && Enabled(s, a) && !(a.CreateQueue? || a.CreateKernelQueue? || a.DestroyKernelQueue?)
    requires !(a.DestroyQueue? || a.DestroyFinish? || a.EvictQueues? || a.RestoreQueues? || a.Suspend? || a.Resume?)
    requires !a.UpdateQueue?
    ensures Step(cfg, s, a).s.lists.total <= s.lists.total
  {
    hide Execute, Map, Unmap, Marked, Without, Create, AddKernelStep, RemoveKernelStep, Destroy, FinishStep, UpdateStep,
         EvictStep, RestoreStep, SuspendStep, ResumeStep;
    if a.Terminate? {
      UserTotal(cfg, DetachKernel(s.lists, a.p), s.lists.procs[a.p].queues);
    }
  }

  /** Over every run the device never has more queues than its limit. */
  lemma {:induction false} RunsStayWithinLimit(cfg: Config, states: seq<State>, actions: seq<Action>, n: nat)
    requires cfg.Valid() && Run(cfg, states, actions) && n < |states|
    ensures states[n].lists.total <= cfg.maxQueues
  {
    hide Inv, Step, Enabled;
    if n > 0 {
      var s, a := states[n - 1], actions[n - 1];
      RunsStayWithinLimit(cfg, states, actions, n - 1);
      RunsKeepInv(cfg, states, actions, n - 1);
      if a.CreateQueue? || a.CreateKernelQueue? || a.DestroyKernelQueue? || a.DestroyQueue? || a.DestroyFinish? {
        QueueTotal(cfg, s, a);
      } else if a.EvictQueues? || a.RestoreQueues? || a.Suspend? || a.Resume? || a.UpdateQueue? {
        WalkTotal(cfg, s, a);
      } else {
        OtherTotal(cfg, s, a);
      }
    }
  }

  // ----- stops and resets

  /** A stop takes the queues back, if the hardware still can, and leaves no buffer in any case. */
  lemma StopTakesBack(cfg: Config, s: State, hw: Hw)
    requires Defined(s.lists) && s.sched.running
    ensures var t := Step(cfg, s, Stop(hw)).s;
      && t.lists == s.lists && !t.sched.running && !t.sched.ibAllocated
      && (Healthy(s.sched) && hw.preempt == Preempted ==> !t.sched.activeRunlist)
      && (s.sched.hang || s.sched.resetting ==> t.sched.activeRunlist == s.sched.activeRunlist && t.sched.hang == s.sched.hang)
  {
    hide MarkStep, ProcessStep, Create, AddKernelStep, RemoveKernelStep, Destroy, FinishStep, UpdateStep, EvictStep,
         RestoreStep, SuspendStep, ResumeStep, TerminateStep, StartStep, RefreshStep, TrapVmidStep, ResetStep;
  }

  /** The RAS reset takes the queues back and maps nothing. */
  lemma ResetTakesBack(cfg: Config, s: State, hw: Hw)
    requires Defined(s.lists) && s.sched.running && Healthy(s.sched)
    ensures var r := Step(cfg, s, ResetQueues(hw));
      && r.s.lists == s.lists && (r.ret == Ok <==> !s.sched.activeRunlist || hw.preempt == Preempted)
      && (r.ret == Ok ==> !r.s.sched.activeRunlist) && r.s.sched.nextIb == s.sched.nextIb
  {
    hide MarkStep, ProcessStep, Create, AddKernelStep, RemoveKernelStep, Destroy, FinishStep, UpdateStep, EvictStep,
         RestoreStep, SuspendStep, ResumeStep, TerminateStep, StartStep, StopStep, RefreshStep, TrapVmidStep;
  }

  // ----- marks

  /** Marks change the field they are for. */
  lemma MarksSet(cfg: Config, s: State, a: Action)
    requires Defined(s.lists) && Enabled(s, a) && IsMark(a)
    ensures var l, t := s.lists, Step(cfg, s, a).s.lists;
      && HasQueue(l, a.p, a.i) && HasQueue(t, a.p, a.i)
      && t == l.(procs := l.procs[a.p := l.procs[a.p].(queues := l.procs[a.p].queues[a.i := t.procs[a.p].queues[a.i]])])
      && var x, y := l.procs[a.p].queues[a.i], t.procs[a.p].queues[a.i];
         && (a.SetProperties? ==> y == x.(size := a.size, address := a.address, percent := a.percent))
         && (a.AssignGws? ==> y == x.(gwsAssigned := a.on))
         && (a.ReadSnapshot? ==> y == x.(isNew := false))
         && (a.DestroyWake? ==> y == x.(destroyWait := Awake))
         && (a.DestroyInterrupted? ==> y == x.(destroyWait := Idle) && Step(cfg, s, a).ret == Erestartsys)
  {
  }

  /** And so do the steps on a whole process, which report what was wrong. */
  lemma ProcessSteps(cfg: Config, s: State, a: Action)
    requires Defined(s.lists) && Enabled(s, a) && IsProcess(a)
    ensures var l, r := s.lists, Step(cfg, s, a);
      && r.s.sched == s.sched
      && (a.NewProcess? ==>
            && r.ret == Ok
            && r.s.lists == l.(known := [a.p] + l.known,
                               procs := l.procs[a.p := FreshProc.(doorbells := cfg.reservedDoorbells)]))
      && (a.AcquireVm? ==> r.ret == Ok && r.s.lists == Put(l, a.p, l.procs[a.p].(vmAcquired := true)))
      && (a.SetTrap? ==> r.ret == Ok && r.s.lists == Put(l, a.p, l.procs[a.p].(trapEnabled := a.on)))
      && (a.Register? ==>
            && r.ret == (if a.allocOk then Ok else Enomem)
            && r.s.lists.nodes == (if a.allocOk then [a.p] + l.nodes else l.nodes))
      && (a.Unregister? ==>
            && r.ret == (if a.p in l.nodes then Ok else Einval)
            && |r.s.lists.nodes| == |l.nodes| - (if a.p in l.nodes then 1 else 0)
            && r.s.lists == l.(nodes := r.s.lists.nodes, processes := r.s.lists.processes))
      && (a.Drain? ==> r.s.lists == Put(l, a.p, l.procs[a.p].(queues := l.procs[a.p].queues[1..])))
  {
    hide MarkEnabled;
  }

  /** A suspend that succeeds and is asked to makes the selected queues old, so that they can be suspended from then on. */
  lemma SuspendClearsNew(cfg: Config, s: State, p: nat, ids: set<nat>, clearNew: bool, hw: Hw, i: nat)
    requires Defined(s.lists) && HasQueue(s.lists, p, i)
    ensures var r, x := SuspendStep(cfg, s, p, ids, clearNew, hw), s.lists.procs[p].queues[i];
      && HasQueue(r.s.lists, p, i)
      && (r.s.lists.procs[p].queues[i].isNew <==>
            x.isNew && !(clearNew && r.ret == Ok && x.id in ids && Hits(SuspendIn(ids), s.lists.procs[p].queues) > 0))
  {
    hide Execute, WalkTallies, WalkQueues, Hits, ClearNew;
  }

  /** A destroy whose unmap timed out has the process's waves reset when it terminates. */
  lemma TimeoutResetsWaves(cfg: Config, s: State, p: nat, i: nat, hw: Hw)
    requires Defined(s.lists) && HasQueue(s.lists, p, i)
    ensures var r := DestroyNow(cfg, s, p, i, hw);
      && p in r.s.lists.procs
      && (r.s.lists.procs[p].resetWavefronts <==> s.lists.procs[p].resetWavefronts || r.ret == Etime)
  {
    hide Execute, DestroyLists;
    UnlinkShape(cfg, s.lists, p, i);
    if !s.lists.procs[p].isDebug && !s.lists.procs[p].queues[i].active {
      assert DestroyNow(cfg, s, p, i, hw).ret == Ok;
    }
  }

  /** A termination resets them, unless the scheduler hangs. */
  lemma TerminationResetsWaves(cfg: Config, s: State, p: nat, hw: Hw)
    requires Defined(s.lists) && Alive(s.lists, p)
    ensures var r := TerminateStep(cfg, s, p, hw);
      && p in r.s.lists.procs && r.s.lists.procs[p].terminated
      && (r.s.lists.procs[p].resetWavefronts <==> r.s.sched.hang && s.lists.procs[p].resetWavefronts)
  {
    hide Execute, TerminateLists;
    TerminateKeepsKeys(cfg, s.lists, p);
    TerminateShape(cfg, s.lists, p);
  }

  // ----- kernel queues

  /** A debug queue puts its process under a debugger, and is mapped while it is there. */
  lemma KernelQueueMaps(cfg: Config, s: State, p: nat, q: Queue, hw: Hw)
    requires Fine(cfg, s, CreateKernelQueue(p, q, hw))
    ensures var r := Step(cfg, s, CreateKernelQueue(p, q, hw));
      if s.lists.total >= cfg.maxQueues then r == Result(s, Eperm)
      else
        && r.ret == Ok && p in r.s.lists.procs && r.s.lists.procs[p].isDebug && IsMapped(r.s, p, q.id)
        && r.s.lists.procs[p].kernelQueues == [q] + s.lists.procs[p].kernelQueues
  {
    hide Inv, Coherent, Listed, Sound, InOrder, Step, IsMapped;
    var a := CreateKernelQueue(p, q, hw);
    FineStep(cfg, s, a);
    StaysUp(cfg, s, a);
    AddedKernel(cfg, s, p, q, hw);
    if s.lists.total < cfg.maxQueues {
      KernelFine(cfg, s, a);
      MappedIff(Step(cfg, s, a).s, p, q.id);
      assert q in Step(cfg, s, a).s.lists.procs[p].kernelQueues;
    }
  }

  lemma AddedKernel(cfg: Config, s: State, p: nat, q: Queue, hw: Hw)
    requires Defined(s.lists) && Enabled(s, CreateKernelQueue(p, q, hw))
    ensures q.active && p in s.lists.procs
    ensures var r := Step(cfg, s, CreateKernelQueue(p, q, hw));
      if s.lists.total >= cfg.maxQueues then r == Result(s, Eperm)
      else
        && r.ret == Ok && p in r.s.lists.procs && r.s.lists.procs[p].isDebug && r.s.lists.nodes == s.lists.nodes
        && r.s.lists.procs[p].kernelQueues == [q] + s.lists.procs[p].kernelQueues
  {
    hide Execute, FreshQueue, MarkStep, ProcessStep, Create, RemoveKernelStep, Destroy, FinishStep, UpdateStep, EvictStep,
         RestoreStep, SuspendStep, ResumeStep, TerminateStep, StartStep, StopStep, RefreshStep, TrapVmidStep, ResetStep;
  }

  lemma KernelFine(cfg: Config, s: State, a: Action)
    requires Fine(cfg, s, a) && a.CreateKernelQueue? && s.lists.total < cfg.maxQueues
    ensures a.p in s.lists.nodes
  {
    hide Inv, Steady, Enabled, Smooth;
  }

  /** Once it is removed, the process is no longer under a debugger and the queue no longer mapped. */
  lemma RemovedKernelUnmaps(cfg: Config, s: State, p: nat, i: nat, hw: Hw)
    requires Fine(cfg, s, DestroyKernelQueue(p, i, hw))
    ensures p in s.lists.procs && i < |s.lists.procs[p].kernelQueues|
    ensures var r := Step(cfg, s, DestroyKernelQueue(p, i, hw));
      && r.ret == Ok && p in r.s.lists.procs && !r.s.lists.procs[p].isDebug
      && r.s.lists.procs[p].kernelQueues == RemoveAt(s.lists.procs[p].kernelQueues, i)
      && !IsMapped(r.s, p, s.lists.procs[p].kernelQueues[i].id)
  {
    hide Inv, ProcInv, Coherent, Listed, Sound, InOrder, Step, IsMapped, HasActive;
    var a := DestroyKernelQueue(p, i, hw);
    FineStep(cfg, s, a);
    RemovedKernel(cfg, s, p, i, hw);
    KernelOwner(cfg, s, p, i);
    KernelNameGone(cfg, s.lists.procs[p], i);
    GoneUnmapped(s.lists.procs[p], Step(cfg, s, a).s.lists.procs[p], i);
    MappedIff(Step(cfg, s, a).s, p, s.lists.procs[p].kernelQueues[i].id);
  }

  lemma RemovedKernel(cfg: Config, s: State, p: nat, i: nat, hw: Hw)
    requires Defined(s.lists) && Enabled(s, DestroyKernelQueue(p, i, hw))
    ensures Alive(s.lists, p) && i < |s.lists.procs[p].kernelQueues|
    ensures var r, x := Step(cfg, s, DestroyKernelQueue(p, i, hw)), s.lists.procs[p];
      && r.ret == Ok && r.s.lists.nodes == s.lists.nodes && p in r.s.lists.procs
      && r.s.lists.procs[p] == x.(kernelQueues := RemoveAt(x.kernelQueues, i), isDebug := false)
  {
    hide Execute, MarkStep, ProcessStep, Create, AddKernelStep, Destroy, FinishStep, UpdateStep, EvictStep, RestoreStep,
         SuspendStep, ResumeStep, TerminateStep, StartStep, StopStep, RefreshStep, TrapVmidStep, ResetStep;
  }

  lemma KernelOwner(cfg: Config, s: State, p: nat, i: nat)
    requires Inv(cfg, s) && Sound(s.lists) && Alive(s.lists, p) && i < |s.lists.procs[p].kernelQueues|
    ensures p in s.lists.nodes && ProcInv(cfg, s.lists.procs[p])
  {
    hide CountersAgree, SchedInv, ProcInv;
    assert p in s.lists.known;
  }

  lemma KernelNameGone(cfg: Config, pr: Proc, i: nat)
    requires ProcInv(cfg, pr) && i < |pr.kernelQueues|
    ensures forall x <- pr.queues :: x.id != pr.kernelQueues[i].id
    ensures forall x <- RemoveAt(pr.kernelQueues, i) :: x.id != pr.kernelQueues[i].id
  {
    var m := Named(pr.kernelQueues[i].id);
    assert SumP(m, pr) <= 1;
    forall x | x in pr.queues ensures x.id != pr.kernelQueues[i].id {
      var j :| 0 <= j < |pr.queues| && pr.queues[j] == x;
      NamesApart(cfg, pr, j, i);
    }
    var r := RemoveAt(pr.kernelQueues, i);
    SumQRemove(m, pr.kernelQueues, i);
    forall x | x in r ensures x.id != pr.kernelQueues[i].id {
      var j :| 0 <= j < |r| && r[j] == x;
      SumQSplit(m, r, j);
    }
  }

  lemma GoneUnmapped(pr: Proc, pr1: Proc, i: nat)
    requires i < |pr.kernelQueues| && pr1.queues == pr.queues && pr1.kernelQueues == RemoveAt(pr.kernelQueues, i)
    requires forall x <- pr.queues :: x.id != pr.kernelQueues[i].id
    requires forall x <- RemoveAt(pr.kernelQueues, i) :: x.id != pr.kernelQueues[i].id
    ensures !HasActive(pr1, pr.kernelQueues[i].id)
  {
  }

  // ----- nesting

  /** Evictions nest: each adds one to the count, and each restore takes one off while there is one. */
  lemma EvictionsNest(cfg: Config, s: State, p: nat, hw: Hw)
    requires Defined(s.lists) && p in s.lists.procs
    ensures var e, r := EvictStep(cfg, s, p, hw).s.lists, RestoreStep(cfg, s, p, hw).s.lists;
      && p in e.procs && e.procs[p].evicted == s.lists.procs[p].evicted + 1
      && p in r.procs && r.procs[p].evicted == (if s.lists.procs[p].evicted > 0 then s.lists.procs[p].evicted - 1 else 0)
  {
    hide Execute, WalkQueues, WalkTallies;
  }

  /** An inner eviction or restore, or one of a process that has no VM here, does nothing but count. */
  lemma InnerOnlyCounts(cfg: Config, s: State, p: nat, hw: Hw)
    requires Defined(s.lists) && p in s.lists.procs
    ensures var pr, e, r := s.lists.procs[p], EvictStep(cfg, s, p, hw), RestoreStep(cfg, s, p, hw);
      && (pr.evicted > 0 || !pr.vmAcquired ==>
            e.ret == Ok && e.s == s.(lists := Put(s.lists, p, pr.(evicted := pr.evicted + 1))))
      && (pr.evicted > 1 || (pr.evicted == 1 && !pr.vmAcquired) ==>
            r.ret == Ok && r.s == s.(lists := Put(s.lists, p, pr.(evicted := pr.evicted - 1))))
      && (pr.evicted == 0 ==> r.ret == Ok && r.s == s)
  {
    hide Execute, WalkQueues, WalkTallies;
  }
}

/**
  The scheduler's status over steps and runs: what turns it on and off, what each step
  reports of the hardware's failures, and what a hang leads to. A preemption that times out
  hangs the scheduler, and from then on nothing is sent to it until it is started again.
 */
module SchedulerStatus {
  import opened Basics
  import opened Queues
  import opened RunlistIb
  import opened Scheduler
  import opened SchedulerSteps
  import opened SchedulerRuns

  // ----- which steps turn to the hardware

  /** There is a runlist to take back, and nothing keeps the driver from trying. */
  predicate Busy(sc: Sched) { sc.running && !sc.hang && !sc.resetting && sc.activeRunlist }

  /** The step comes to unmapping the queues, if the scheduler is busy. */
  predicate NeedsHardware(cfg: Config, s: State, a: Action)
    requires Defined(s.lists) && Enabled(s, a)
  {
    var l := s.lists;
    match a
    case CreateQueue(p, q, qd, mqdOk, _) =>
      && l.total < cfg.maxQueues && Reserve(cfg, l, p, q, qd).ret == Ok && mqdOk && qd.None?
      && Runnable(q.(evicted := l.procs[p].evicted > 0))
    case CreateKernelQueue(_, _, _) => l.total < cfg.maxQueues
    case DestroyQueue(p, i, _) =>
      !l.procs[p].isDebug && !MustWait(l.procs[p], l.procs[p].queues[i]) && l.procs[p].queues[i].active
    case DestroyFinish(p, i, _) => !l.procs[p].isDebug && l.procs[p].queues[i].active
    case EvictQueues(p, _) => EvictActs(l.procs[p])
    case RestoreQueues(p, _) => RestoreActs(l.procs[p])
    case Suspend(p, ids, _, _) => Hits(SuspendIn(ids), l.procs[p].queues) > 0
    case Resume(p, which, _) => Hits(if which.Some? then ResumeIn(which.value) else ResumeAll, l.procs[p].queues) > 0
    case TrapVmid(reserve, _, _) => s.sched.trapVmid != reserve
    case Start(resourcesOk, _) => resourcesOk
    case _ => HwOf(a).Some?
  }

  /** The driver ignores how it went in these. */
  predicate Ignores(a: Action) { a.CreateKernelQueue? || a.DestroyKernelQueue? || a.Start? || a.Stop? }

  /** Steps that unmap and map again in one go. */
  predicate Executes(a: Action) {
    a.CreateQueue? || a.CreateKernelQueue? || a.DestroyKernelQueue? || a.DestroyQueue? || a.DestroyFinish?
    || a.EvictQueues? || a.RestoreQueues? || a.Suspend? || a.Resume? || a.Terminate?
  }

  /** Reserving touches the process's doorbells and the slots only. */
  lemma ReserveShape(cfg: Config, l: Lists, p: nat, q: Queue, qd: Option<Criu>)
    requires p in l.procs
    ensures var a := Reserve(cfg, l, p, q, qd);
      && p in a.lists.procs && a.lists.nodes == l.nodes && a.lists.procs.Keys == l.procs.Keys && a.ret != Etime
      && (a.ret == Ok ==> a.q == q.(sdmaId := a.q.sdmaId, doorbell := a.q.doorbell))
  {
    hide AllocSdma, AllocDoorbell, FreeSdma;
    var rid := if qd.Some? then Some(qd.value.sdmaId) else None;
    AllocShape(cfg, l, q, rid);
    FreeShape(cfg, AllocSdma(cfg, l, q, rid).lists, AllocSdma(cfg, l, q, rid).q);
    DoorbellReports(cfg, l.procs[p].doorbells, AllocSdma(cfg, l, q, rid).q, if qd.Some? then Some(qd.value.doorbell) else None);
  }

  lemma SameSlot(q: Queue)
    ensures q.(sdmaId := q.sdmaId) == q
  {
  }

  lemma AllocShape(cfg: Config, l: Lists, q: Queue, rid: Option<nat>)
    ensures var a := AllocSdma(cfg, l, q, rid);
      && a.lists.procs == l.procs && a.lists.nodes == l.nodes && a.q == q.(sdmaId := a.q.sdmaId)
      && (a.ret == Ok || a.ret == Enomem || a.ret == Ebusy)
  {
    hide PickSlot, FreeSlots, SetFree;
    SameSlot(q);
    var free := FreeSlots(l, q.kind);
    if IsSdma(q.kind) && free != {} && (rid.None? || rid.value in free) {
      var id := PickSlot(cfg, free, q.kind, rid);
      SetFreeShape(l, q.kind, free - {id});
      assert AllocSdma(cfg, l, q, rid) == Alloc(SetFree(l, q.kind, free - {id}), q.(sdmaId := id), Ok);
    }
  }

  lemma DoorbellReports(cfg: Config, bits: set<nat>, q: Queue, rid: Option<nat>)
    ensures AllocDoorbell(cfg, bits, q, rid).ret != Etime
  {
    hide SdmaDoorbell, FindFirstZero;
  }

  lemma SetFreeShape(l: Lists, k: Kind, f: set<nat>)
    ensures SetFree(l, k, f).procs == l.procs && SetFree(l, k, f).nodes == l.nodes
  {
  }

  lemma FreeShape(cfg: Config, l: Lists, q: Queue)
    ensures FreeSdma(cfg, l, q).procs == l.procs && FreeSdma(cfg, l, q).nodes == l.nodes
  {
    hide FreeSlots;
  }

  lemma CreateExecutes(cfg: Config, s: State, p: nat, q: Queue, qd: Option<Criu>, mqdOk: bool, hw: Hw) returns (l: Lists)
    requires Defined(s.lists) && Enabled(s, CreateQueue(p, q, qd, mqdOk, hw))
    requires NeedsHardware(cfg, s, CreateQueue(p, q, qd, mqdOk, hw))
    ensures Defined(l)
    ensures var e, r := Execute(cfg, l, s.sched, hw), Create(cfg, s, p, q, qd, mqdOk, hw);
      && r.s.sched == e.sched && r.ret == e.ret
      && (r.ret == Ok ==> r.s.lists.tally == l.tally && r.s.lists.processes == l.processes)
  {
    hide Execute, Reserve, Unreserve, FreshQueue;
    var a := Reserve(cfg, s.lists, p, q, qd);
    ReserveShape(cfg, s.lists, p, q, qd);
    l := Link(a.lists, p, InitQueue(s.lists.procs[p], a.q, false));
  }

  lemma QueueExecutes(cfg: Config, s: State, a: Action) returns (l: Lists)
    requires Defined(s.lists) && Enabled(s, a) && NeedsHardware(cfg, s, a)
    requires a.CreateQueue? || a.CreateKernelQueue? || a.DestroyKernelQueue? || a.DestroyQueue? || a.DestroyFinish?
    ensures Defined(l)
    ensures var e, r := Execute(cfg, l, s.sched, HwOf(a).value), Step(cfg, s, a);
      && r.s.sched == e.sched && (Ignores(a) || r.ret == e.ret)
      && (e.ret == Ok ==> r.s.lists.tally == l.tally && r.s.lists.processes == l.processes)
  {
    hide Execute, Reserve, Create, Unreserve, DestroyNow, FreshQueue, MarkStep, ProcessStep, UpdateStep, EvictStep,
         RestoreStep, SuspendStep, ResumeStep, TerminateStep, StartStep, StopStep, RefreshStep, TrapVmidStep, ResetStep;
    match a
    case CreateQueue(p, q, qd, mqdOk, hw) => l := CreateExecutes(cfg, s, p, q, qd, mqdOk, hw);
    case CreateKernelQueue(p, q, hw) => l := LinkKernel(s.lists, p, q);
    case DestroyKernelQueue(p, i, hw) => l := UnlinkKernel(s.lists, p, i);
    case DestroyQueue(p, i, hw) =>
      l := DestroyExecutes(cfg, s, p, i, s.lists.procs[p].queues[i].(beingDestroyed := true), hw);
    case DestroyFinish(p, i, hw) =>
      l := DestroyExecutes(cfg, s, p, i, s.lists.procs[p].queues[i].(destroyWait := Idle), hw);
  }

  lemma DestroyExecutes(cfg: Config, s: State, p: nat, i: nat, q: Queue, hw: Hw) returns (l: Lists)
    requires Defined(s.lists) && HasQueue(s.lists, p, i) && !s.lists.procs[p].isDebug && q.active
    ensures Defined(l) && Defined(PutQueue(s.lists, p, i, q))
    ensures var e, r := Execute(cfg, l, s.sched, hw), DestroyNow(cfg, s.(lists := PutQueue(s.lists, p, i, q)), p, i, hw);
      && r.s.sched == e.sched && r.ret == e.ret
      && r.s.lists.tally == l.tally && r.s.lists.processes == l.processes
  {
    hide Execute, DestroyLists;
    var m := PutQueue(s.lists, p, i, q);
    UnlinkShape(cfg, m, p, i);
    l := DestroyLists(cfg, m, p, i);
  }

  lemma ProcessExecutes(cfg: Config, s: State, a: Action) returns (l: Lists)
    requires Defined(s.lists) && Enabled(s, a) && NeedsHardware(cfg, s, a)
    requires a.EvictQueues? || a.RestoreQueues? || a.Suspend? || a.Resume? || a.Terminate?
    ensures Defined(l)
    ensures var e, r := Execute(cfg, l, s.sched, HwOf(a).value), Step(cfg, s, a);
      && r.s.sched == e.sched && r.ret == e.ret
      && (r.ret == Ok ==> r.s.lists.tally == l.tally && r.s.lists.processes == l.processes)
  {
    hide Execute, WalkQueues, WalkTallies, TerminateLists, MarkStep, ProcessStep, Create, AddKernelStep, RemoveKernelStep,
         Destroy, FinishStep, UpdateStep, StartStep, StopStep, RefreshStep, TrapVmidStep, ResetStep;
    match a
    case EvictQueues(p, hw) => l := EvictLists(s.lists, p);
    case RestoreQueues(p, hw) => l := RestoreLists(s.lists, p);
    case Suspend(p, ids, _, hw) => l := WalkProc(SuspendIn(ids), s.lists, p);
    case Resume(p, which, hw) =>
      l := WalkProc(if which.Some? then ResumeIn(which.value) else ResumeAll, s.lists, p);
    case Terminate(p, hw) =>
      TerminateKeepsKeys(cfg, s.lists, p);
      l := TerminateLists(cfg, s.lists, p);
  }

  // ----- what only the control steps change

  predicate SameControls(a: Sched, b: Sched) {
    b.running == a.running && b.resetting == a.resetting && b.trapVmid == a.trapVmid
  }

  lemma UnmapControls(sc: Sched, u: UnmapOutcome)
    ensures SameControls(sc, Unmap(sc, u).sched)
  {
  }

  lemma MapControls(cfg: Config, l: Lists, sc: Sched, m: MapOutcome)
    requires Defined(l)
    ensures SameControls(sc, Map(cfg, l, sc, m).sched)
  {
    hide Packets;
  }

  lemma ExecuteControls(cfg: Config, l: Lists, sc: Sched, hw: Hw)
    requires Defined(l)
    ensures SameControls(sc, Execute(cfg, l, sc, hw).sched)
  {
    hide Map, Unmap;
    UnmapControls(sc, hw.preempt);
    MapControls(cfg, l, Unmap(sc, hw.preempt).sched, hw.send);
  }

  lemma UpdateControls(cfg: Config, s: State, p: nat, i: nat, hw: Hw)
    requires Defined(s.lists) && HasQueue(s.lists, p, i)
    ensures SameControls(s.sched, UpdateStep(cfg, s, p, i, hw).s.sched)
  {
    hide Map, Unmap, UpdateLists;
    UnmapControls(s.sched, hw.preempt);
    UpdateNodes(s.lists, p, i);
    MapControls(cfg, UpdateLists(s.lists, p, i), Unmap(s.sched, hw.preempt).sched, hw.send);
  }

  lemma UpdateNodes(l: Lists, p: nat, i: nat)
    requires Defined(l) && p in l.procs && i < |l.procs[p].queues|
    ensures Defined(UpdateLists(l, p, i))
  {
  }

  lemma RemapControls(cfg: Config, s: State, hw: Hw)
    requires Defined(s.lists)
    ensures SameControls(s.sched, RefreshStep(cfg, s, hw).s.sched) && SameControls(s.sched, ResetStep(s, hw).s.sched)
  {
    hide Map, Unmap;
    UnmapControls(s.sched, hw.preempt);
    MapControls(cfg, s.lists, Unmap(s.sched, hw.preempt).sched, hw.send);
  }

  /** The steps that change a status do so whatever the hardware answers. */
  lemma StartControls(cfg: Config, s: State, resourcesOk: bool, hw: Hw)
    requires Defined(s.lists)
    ensures var t := StartStep(cfg, s, resourcesOk, hw).s.sched;
      if resourcesOk then t.running && !t.resetting && t.trapVmid == s.sched.trapVmid else SameControls(s.sched, t)
  {
    hide Execute;
    ExecuteControls(cfg, s.lists, s.sched.(ibAllocated := false, hang := false, resetting := false, running := true), hw);
  }

  lemma StopControls(s: State, hw: Hw)
    ensures SameControls(s.sched.(running := false), StopStep(s, hw).s.sched)
    ensures !StopStep(s, hw).s.sched.ibAllocated || !s.sched.running
  {
    hide Unmap;
    UnmapControls(s.sched, hw.preempt);
  }

  /** The debug VMID changes hands exactly if it was not there already and the queues could be unmapped. */
  lemma TrapVmidControls(cfg: Config, s: State, reserve: bool, resourcesOk: bool, hw: Hw)
    requires Defined(s.lists)
    ensures var r := TrapVmidStep(cfg, s, reserve, resourcesOk, hw);
      && r.s.sched.running == s.sched.running && r.s.sched.resetting == s.sched.resetting
      && (if s.sched.trapVmid == reserve then r.s == s && r.ret == (if reserve then Ebusy else Einval)
          else if !Unmaps(s.sched, hw.preempt) then r.s.sched.trapVmid == s.sched.trapVmid && r.ret != Ok
          else r.s.sched.trapVmid == reserve && (!resourcesOk ==> r.ret == Enomem))
  {
    hide Map;
    MapControls(cfg, s.lists, Unmap(s.sched, hw.preempt).sched.(trapVmid := reserve), hw.send);
  }

  /** Only starts and stops turn the scheduler on and off, and only resets and starts the reset mark. */
  lemma StepControls(cfg: Config, s: State, a: Action)
    requires Defined(s.lists) && Enabled(s, a) && !a.Start? && !a.Stop? && !a.PreReset? && !a.TrapVmid?
    ensures SameControls(s.sched, Step(cfg, s, a).s.sched)
  {
    hide Step, Execute, NeedsHardware, Enabled, SameControls;
    SelfControls(s.sched);
    if IsMark(a) || IsProcess(a) {
      BookkeepingKeepsSched(cfg, s, a);
    } else if !Executes(a) {
      ControlIs(cfg, s, a);
      if a.UpdateQueue? {
        UpdateControls(cfg, s, a.p, a.i, a.hw);
      } else {
        RemapControls(cfg, s, a.hw);
      }
    } else if !NeedsHardware(cfg, s, a) {
      OthersLeave(cfg, s, a);
    } else if a.EvictQueues? || a.RestoreQueues? || a.Suspend? || a.Resume? || a.Terminate? {
      var l := ProcessExecutes(cfg, s, a);
      ExecuteControls(cfg, l, s.sched, HwOf(a).value);
    } else {
      var l := QueueExecutes(cfg, s, a);
      ExecuteControls(cfg, l, s.sched, HwOf(a).value);
    }
  }

  lemma ControlIs(cfg: Config, s: State, a: Action)
    requires Defined(s.lists) && Enabled(s, a) && (a.UpdateQueue? || a.Refresh? || a.ResetQueues?)
    ensures a.UpdateQueue? ==> HasQueue(s.lists, a.p, a.i) && Step(cfg, s, a) == UpdateStep(cfg, s, a.p, a.i, a.hw)
    ensures a.Refresh? ==> Step(cfg, s, a) == RefreshStep(cfg, s, a.hw)
    ensures a.ResetQueues? ==> Step(cfg, s, a) == ResetStep(s, a.hw)
  {
    hide UpdateStep, RefreshStep, ResetStep;
  }

  lemma SelfControls(sc: Sched)
    ensures SameControls(sc, sc)
  {
  }

  // ----- a preemption that times out

  /** A hung scheduler with the runlist it had: nothing was built and nothing was sent. */
  predicate Frozen(a: Sched, b: Sched) {
    && b.hang && b.runlist == a.runlist && b.activeRunlist == a.activeRunlist
    && b.ib == a.ib && b.nextIb == a.nextIb && b.live <= a.live && b.warned == a.warned
  }

  lemma ExecuteTimeout(cfg: Config, l: Lists, sc: Sched, hw: Hw)
    requires Defined(l) && Busy(sc) && hw.preempt == TimedOut
    ensures Execute(cfg, l, sc, hw) == SchedResult(sc.(hang := true), Etime)
  {
  }

  lemma ControlTimeout(cfg: Config, s: State, a: Action)
    requires Defined(s.lists) && Enabled(s, a) && NeedsHardware(cfg, s, a) && Busy(s.sched)
    requires a.UpdateQueue? || a.Refresh? || a.TrapVmid? || a.Stop? || a.ResetQueues?
    requires HwOf(a).value.preempt == TimedOut
    ensures Frozen(s.sched, Step(cfg, s, a).s.sched)
    ensures !Ignores(a) ==> Step(cfg, s, a).ret == Etime && Step(cfg, s, a).s.lists == s.lists
  {
    hide Map, UpdateLists, MarkStep, ProcessStep, Create, AddKernelStep, RemoveKernelStep, Destroy, FinishStep, EvictStep,
         RestoreStep, SuspendStep, ResumeStep, TerminateStep, StartStep;
  }

  /**
    Whenever a step unmaps a busy scheduler and the preemption times out, the scheduler is
    marked as hung, keeps its runlist, and the step says so, unless its caller ignores it.
   */
  lemma TimeoutHangs(cfg: Config, s: State, a: Action)
    requires Defined(s.lists) && Enabled(s, a) && NeedsHardware(cfg, s, a) && Busy(s.sched)
    requires HwOf(a).value.preempt == TimedOut
    ensures Frozen(s.sched, Step(cfg, s, a).s.sched)
    ensures !Ignores(a) ==> Step(cfg, s, a).ret == Etime
  {
    hide Step, Execute, Reserve, MarkEnabled, ProcessEnabled;
    var hw := HwOf(a).value;
    if a.UpdateQueue? || a.Refresh? || a.TrapVmid? || a.Stop? || a.ResetQueues? {
      ControlTimeout(cfg, s, a);
    } else if a.EvictQueues? || a.RestoreQueues? || a.Suspend? || a.Resume? || a.Terminate? {
      var l := ProcessExecutes(cfg, s, a);
      ExecuteTimeout(cfg, l, s.sched, hw);
    } else if a.CreateQueue? || a.CreateKernelQueue? || a.DestroyKernelQueue? || a.DestroyQueue? || a.DestroyFinish? {
      var l := QueueExecutes(cfg, s, a);
      ExecuteTimeout(cfg, l, s.sched, hw);
    }
  }

  // ----- a hung scheduler

  /** A start that goes through; nothing else ends a hang. */
  predicate Restarts(a: Action) { a.Start? && a.resourcesOk }

  lemma ExecuteHung(cfg: Config, l: Lists, sc: Sched, hw: Hw)
    requires Defined(l) && sc.hang
    ensures Execute(cfg, l, sc, hw) == SchedResult(sc, Eio)
  {
  }

  lemma ControlHung(cfg: Config, s: State, a: Action)
    requires Defined(s.lists) && Enabled(s, a) && s.sched.hang && !Restarts(a)
    requires a.Start? || a.Stop? || a.ResetQueues? || a.PreReset?
    ensures Frozen(s.sched, Step(cfg, s, a).s.sched)
    ensures NeedsHardware(cfg, s, a) && !Ignores(a) && s.sched.running ==> Step(cfg, s, a).ret == Eio
  {
    hide Execute, MarkStep, ProcessStep, Create, AddKernelStep, RemoveKernelStep, Destroy, FinishStep, UpdateStep,
         EvictStep, RestoreStep, SuspendStep, ResumeStep, TerminateStep, RefreshStep, TrapVmidStep;
  }

  lemma RemapHung(cfg: Config, s: State, a: Action)
    requires Defined(s.lists) && Enabled(s, a) && s.sched.hang
    requires a.UpdateQueue? || a.Refresh? || a.TrapVmid?
    ensures Frozen(s.sched, Step(cfg, s, a).s.sched)
    ensures NeedsHardware(cfg, s, a) && s.sched.running ==> Step(cfg, s, a).ret == Eio && Step(cfg, s, a).s == s
  {
    hide SendRunlist, Packets, UpdateLists, MarkStep, ProcessStep, Create, AddKernelStep, RemoveKernelStep, Destroy,
         FinishStep, EvictStep, RestoreStep, SuspendStep, ResumeStep, TerminateStep, StartStep, StopStep, ResetStep;
  }

  lemma QueueOthers(cfg: Config, s: State, a: Action)
    requires Defined(s.lists) && Enabled(s, a) && !NeedsHardware(cfg, s, a)
    requires a.CreateQueue? || a.CreateKernelQueue? || a.DestroyKernelQueue? || a.DestroyQueue? || a.DestroyFinish?
    ensures Step(cfg, s, a).s.sched == s.sched && Step(cfg, s, a).ret != Etime
  {
    hide Execute, Reserve, Unreserve, DestroyLists, FreshQueue, MarkStep, ProcessStep, UpdateStep, EvictStep,
         RestoreStep, SuspendStep, ResumeStep, TerminateStep, StartStep, StopStep, RefreshStep, TrapVmidStep, ResetStep;
    if a.CreateQueue? {
      ReserveShape(cfg, s.lists, a.p, a.q, a.qd);
    }
  }

  lemma WalkOthers(cfg: Config, s: State, a: Action)
    requires Defined(s.lists) && Enabled(s, a) && !NeedsHardware(cfg, s, a)
    requires a.EvictQueues? || a.RestoreQueues? || a.Suspend? || a.Resume? || a.Terminate?
    ensures Step(cfg, s, a).s.sched == s.sched && Step(cfg, s, a).ret != Etime
  {
    hide Execute, WalkQueues, WalkTallies, TerminateLists, MarkStep, ProcessStep, Create, AddKernelStep, RemoveKernelStep,
         Destroy, FinishStep, UpdateStep, StartStep, StopStep, RefreshStep, TrapVmidStep, ResetStep;
  }

  /** Steps that do not come to the hardware leave the scheduler alone, and never report a timeout. */
  lemma OthersLeave(cfg: Config, s: State, a: Action)
    requires Defined(s.lists) && Enabled(s, a) && !NeedsHardware(cfg, s, a) && Executes(a)
    ensures Step(cfg, s, a).s.sched == s.sched && Step(cfg, s, a).ret != Etime
  {
    hide Step, Enabled, NeedsHardware;
    if a.EvictQueues? || a.RestoreQueues? || a.Suspend? || a.Resume? || a.Terminate? {
      WalkOthers(cfg, s, a);
    } else {
      QueueOthers(cfg, s, a);
    }
  }

  /**
    Until it is started again, a hung scheduler stays hung and keeps its runlist: no step
    builds a buffer or sends one. A step that would have to come to the hardware fails as
    an I/O error.
   */
  lemma HangStays(cfg: Config, s: State, a: Action)
    requires Defined(s.lists) && Enabled(s, a) && s.sched.hang && !Restarts(a)
    ensures Frozen(s.sched, Step(cfg, s, a).s.sched)
    ensures NeedsHardware(cfg, s, a) && !Ignores(a) && s.sched.running ==> Step(cfg, s, a).ret == Eio
  {
    hide Step, Execute, Reserve, NeedsHardware, Enabled;
    if IsMark(a) || IsProcess(a) {
      BookkeepingKeepsSched(cfg, s, a);
      NoHardware(cfg, s, a);
    } else if a.UpdateQueue? || a.Refresh? || a.TrapVmid? {
      RemapHung(cfg, s, a);
    } else if !Executes(a) {
      ControlHung(cfg, s, a);
    } else if !NeedsHardware(cfg, s, a) {
      OthersLeave(cfg, s, a);
    } else if a.EvictQueues? || a.RestoreQueues? || a.Suspend? || a.Resume? || a.Terminate? {
      var l := ProcessExecutes(cfg, s, a);
      ExecuteHung(cfg, l, s.sched, HwOf(a).value);
    } else {
      var l := QueueExecutes(cfg, s, a);
      ExecuteHung(cfg, l, s.sched, HwOf(a).value);
    }
  }

  lemma NoHardware(cfg: Config, s: State, a: Action)
    requires Defined(s.lists) && Enabled(s, a) && (IsMark(a) || IsProcess(a))
    ensures !NeedsHardware(cfg, s, a)
  {
  }

  /**
    Over every run: once a preemption has timed out, and until the next start that goes
    through, the scheduler stays hung, no runlist is built or sent, and every step that
    would have to come to the hardware while it is running fails as an I/O error.
   */
  lemma {:induction false} RunsFreezeAfterTimeout(cfg: Config, states: seq<State>, actions: seq<Action>, i: nat, n: nat)
    requires Run(cfg, states, actions) && i < n < |states|
    requires Busy(states[i].sched) && NeedsHardware(cfg, states[i], actions[i])
    requires HwOf(actions[i]).value.preempt == TimedOut
    requires forall k :: i < k < n ==> !Restarts(actions[k])
    ensures Frozen(states[i].sched, states[n].sched)
    ensures n < |actions| && states[n].sched.running && !Ignores(actions[n]) && NeedsHardware(cfg, states[n], actions[n])
      ==> Step(cfg, states[n], actions[n]).ret == Eio
    decreases n
  {
    hide Step, Enabled, NeedsHardware, Busy;
    if n == i + 1 {
      TimeoutHangs(cfg, states[i], actions[i]);
    } else {
      RunsFreezeAfterTimeout(cfg, states, actions, i, n - 1);
      HangStays(cfg, states[n - 1], actions[n - 1]);
    }
    if n < |actions| && !Restarts(actions[n]) {
      HangStays(cfg, states[n], actions[n]);
    }
  }

  // ----- return codes

  /** What an execute comes to: nothing while stopped, refused, stuck, or as far as the map. */
  lemma ExecuteOutcome(cfg: Config, l: Lists, sc: Sched, hw: Hw)
    requires Defined(l) && (sc.ibAllocated ==> sc.activeRunlist)
    ensures var e := Execute(cfg, l, sc, hw);
      && (Refused(sc) ==> e == SchedResult(sc, Eio))
      && (!sc.running && !sc.hang ==> e == SchedResult(sc, Ok))
      && (Busy(sc) && hw.preempt == SendFailed ==> e == SchedResult(sc, Enomem))
      && (Clears(sc, hw) ==> MapReports(e.sched, l.tally.active, l.processes, hw.send, e.ret))
  {
    hide Packets;
  }

  /** A hang, or a reset under way while the scheduler runs, keeps the driver from the hardware. */
  predicate Refused(sc: Sched) { sc.hang || (sc.running && sc.resetting) }

  /** The hardware is free for a new runlist. */
  predicate Clears(sc: Sched, hw: Hw) { sc.running && Healthy(sc) && (sc.activeRunlist ==> hw.preempt == Preempted) }

  /**
    There is a new runlist exactly if there are active queues and listed processes; or the
    map failed, says why, and leaves neither a runlist nor a buffer.
   */
  predicate MapReports(sc: Sched, active: int, processes: int, m: MapOutcome, ret: Ret) {
    if ret == Ok then sc.activeRunlist <==> active > 0 && processes > 0
    else ret == (match m case PacketFailed => Einval case _ => Enomem) && m != Sent && !sc.activeRunlist && !sc.ibAllocated
  }

  /**
    What every step that unmaps and maps in one go reports: success while stopped, an I/O
    error under a hang or a reset, no memory if the unmap cannot be sent, and otherwise
    success with a runlist if there is anything to map, or the failure of the map.
   */
  lemma StepReports(cfg: Config, s: State, a: Action)
    requires Defined(s.lists) && Enabled(s, a) && Executes(a) && NeedsHardware(cfg, s, a)
    requires s.sched.ibAllocated ==> s.sched.activeRunlist
    ensures var sc, hw, r := s.sched, HwOf(a).value, Step(cfg, s, a);
      && (Refused(sc) ==> r.s.sched == sc && (Ignores(a) || r.ret == Eio))
      && (!sc.running && !sc.hang ==> r.s.sched == sc && r.ret == Ok)
      && (Busy(sc) && hw.preempt == SendFailed ==> r.s.sched == sc && (Ignores(a) || r.ret == Enomem))
      && (Clears(sc, hw) && !Ignores(a) ==>
            MapReports(r.s.sched, r.s.lists.tally.active, r.s.lists.processes, hw.send, r.ret))
  {
    hide Step, Execute, NeedsHardware, Enabled, Refused, Clears, Busy;
    if a.EvictQueues? || a.RestoreQueues? || a.Suspend? || a.Resume? || a.Terminate? {
      var l := ProcessExecutes(cfg, s, a);
      ExecuteOutcome(cfg, l, s.sched, HwOf(a).value);
    } else {
      var l := QueueExecutes(cfg, s, a);
      ExecuteOutcome(cfg, l, s.sched, HwOf(a).value);
      if Ignores(a) {
        IgnoringIsOk(cfg, s, a);
      }
    }
  }

  lemma IgnoringIsOk(cfg: Config, s: State, a: Action)
    requires Defined(s.lists) && Enabled(s, a) && NeedsHardware(cfg, s, a) && (a.CreateKernelQueue? || a.DestroyKernelQueue?)
    ensures Step(cfg, s, a).ret == Ok
  {
    hide Execute, MarkStep, ProcessStep, Create, Destroy, FinishStep, UpdateStep, EvictStep, RestoreStep, SuspendStep,
         ResumeStep, TerminateStep, StartStep, StopStep, RefreshStep, TrapVmidStep, ResetStep;
  }

  lemma ExecuteEtime(cfg: Config, l: Lists, sc: Sched, hw: Hw)
    requires Defined(l)
    ensures Execute(cfg, l, sc, hw).ret == Etime ==> Execute(cfg, l, sc, hw).sched.hang
  {
  }

  /** Whatever the step and the state: who reports a timeout has marked the scheduler as hung. */
  lemma EtimeHangs(cfg: Config, s: State, a: Action)
    requires Defined(s.lists) && Enabled(s, a) && Step(cfg, s, a).ret == Etime
    ensures Step(cfg, s, a).s.sched.hang
  {
    hide Step, Execute, Reserve, NeedsHardware, Enabled;
    if !Executes(a) {
      ControlEtime(cfg, s, a);
    } else if !NeedsHardware(cfg, s, a) {
      OthersLeave(cfg, s, a);
    } else if a.EvictQueues? || a.RestoreQueues? || a.Suspend? || a.Resume? || a.Terminate? {
      var l := ProcessExecutes(cfg, s, a);
      ExecuteEtime(cfg, l, s.sched, HwOf(a).value);
    } else if Ignores(a) {
      IgnoringReports(cfg, s, a);
    } else {
      var l := QueueExecutes(cfg, s, a);
      ExecuteEtime(cfg, l, s.sched, HwOf(a).value);
    }
  }

  lemma ControlEtime(cfg: Config, s: State, a: Action)
    requires Defined(s.lists) && Enabled(s, a) && !Executes(a) && Step(cfg, s, a).ret == Etime
    ensures Step(cfg, s, a).s.sched.hang
  {
    hide UpdateLists, RunlistPackets, Execute, Create, AddKernelStep, RemoveKernelStep, Destroy, FinishStep,
         EvictStep, RestoreStep, SuspendStep, ResumeStep, TerminateStep;
  }

  lemma IgnoringReports(cfg: Config, s: State, a: Action)
    requires Defined(s.lists) && Enabled(s, a) && (a.CreateKernelQueue? || a.DestroyKernelQueue?)
    ensures Step(cfg, s, a).ret != Etime
  {
    hide Execute, MarkStep, ProcessStep, Create, Destroy, FinishStep, UpdateStep, EvictStep, RestoreStep, SuspendStep,
         ResumeStep, TerminateStep, StartStep, StopStep, RefreshStep, TrapVmidStep, ResetStep;
  }
}

/**
  Whole runs of the device queue manager: the invariant holds in every reachable state,
  whatever the hardware does, and runlist buffers are owned, freed and never reused as
  they should be.
 */
module SchedulerRuns {
  import opened Basics
  import opened Queues
  import opened RunlistIb
  import opened Scheduler
  import opened SchedulerInvariant
  import opened SchedulerSteps

  /** What it takes for a step to be defined: the device's list names processes that exist. */
  ghost predicate Defined(l: Lists) { forall n <- l.nodes :: n in l.procs }

  // ----- every action keeps the invariant

  lemma ThenKeeps(cfg: Config, l: Lists, sc: Sched, hw: Hw)
    requires cfg.Valid() && ListInv(cfg, l) && SchedInv(sc)
    ensures Inv(cfg, Then(cfg, l, sc, hw).s)
  {
    ExecuteKeeps(cfg, l, sc, hw);
  }

  lemma CreateStepKeeps(cfg: Config, s: State, p: nat, q: Queue, qd: Option<Criu>, mqdOk: bool, hw: Hw)
    requires Inv(cfg, s) && Alive(s.lists, p) && s.lists.procs[p].vmAcquired && q.kind != Diq
    requires FreshQueue(s.lists, p, q)
    ensures Inv(cfg, Create(cfg, s, p, q, qd, mqdOk, hw).s)
  {
    hide CountersAgree, ProcInv, SchedInv, Create;
    CreateSched(cfg, s, p, q, qd, mqdOk, hw);
    if Create(cfg, s, p, q, qd, mqdOk, hw).ret != Ok {
      CreateAllOrNothing(cfg, s, p, q, qd, mqdOk, hw);
    } else {
      CreateListsKeep(cfg, s, p, q, qd, mqdOk, hw);
    }
  }

  lemma CreateListsKeep(cfg: Config, s: State, p: nat, q: Queue, qd: Option<Criu>, mqdOk: bool, hw: Hw)
    requires ListInv(cfg, s.lists) && Alive(s.lists, p) && s.lists.procs[p].vmAcquired && q.kind != Diq
    requires FreshQueue(s.lists, p, q)
    requires Create(cfg, s, p, q, qd, mqdOk, hw).ret == Ok
    ensures ListInv(cfg, Create(cfg, s, p, q, qd, mqdOk, hw).s.lists)
  {
    hide Reserve, CreateTail, CountersAgree, ProcInv;
    var a := Reserve(cfg, s.lists, p, q, qd);
    CreateKeeps(cfg, s.lists, p, q, qd);
    ReserveTakes(cfg, s.lists, p, q, qd);
    TailLists(cfg, s.(lists := a.lists), p, InitQueue(s.lists.procs[p], a.q, qd.Some?), hw);
  }

  lemma CreateSched(cfg: Config, s: State, p: nat, q: Queue, qd: Option<Criu>, mqdOk: bool, hw: Hw)
    requires Listed(s.lists) && SchedInv(s.sched) && p in s.lists.procs
    ensures SchedInv(Create(cfg, s, p, q, qd, mqdOk, hw).s.sched)
  {
    var a := Reserve(cfg, s.lists, p, q, qd);
    if a.ret == Ok {
      ExecuteKeeps(cfg, Link(a.lists, p, InitQueue(s.lists.procs[p], a.q, qd.Some?)), s.sched, hw);
    }
  }

  lemma MemberInv(cfg: Config, l: Lists, p: nat, i: nat)
    requires ListInv(cfg, l) && HasQueue(l, p, i)
    ensures QueueInv(l.procs[p].evicted, l.procs[p].queues[i])
  {
    assert ProcInv(cfg, l.procs[p]);
  }

  lemma MarkKeeps(cfg: Config, l: Lists, p: nat, i: nat, q: Queue)
    requires ListInv(cfg, l) && HasQueue(l, p, i)
    requires QueueInv(l.procs[p].evicted, q)
    requires q.id == l.procs[p].queues[i].id && q.kind == l.procs[p].queues[i].kind
    requires q.sdmaId == l.procs[p].queues[i].sdmaId && q.doorbell == l.procs[p].queues[i].doorbell
    requires q.active == l.procs[p].queues[i].active && q.isGws == l.procs[p].queues[i].isGws
    ensures ListInv(cfg, PutQueue(l, p, i, q))
  {
    QueueChange(cfg, l, p, i, q, l.tally);
    assert PutQueue(l, p, i, q).(tally := l.tally) == PutQueue(l, p, i, q);
  }

  lemma DestroyNowKeeps(cfg: Config, s: State, p: nat, i: nat, hw: Hw)
    requires Inv(cfg, s) && HasQueue(s.lists, p, i)
    ensures Inv(cfg, DestroyNow(cfg, s, p, i, hw).s)
  {
    hide CountersAgree, ProcInv, SchedInv, Execute;
    var pr := s.lists.procs[p];
    if !pr.isDebug {
      var l := DestroyLists(cfg, s.lists, p, i);
      DestroyKeeps(cfg, s.lists, p, i);
      ExecuteKeeps(cfg, l, s.sched, hw);
      QuietKeeps(cfg, l, p, l.procs[p].(resetWavefronts := true));
    }
  }

  /** Flags the invariant does not speak of. */
  lemma QuietKeeps(cfg: Config, l: Lists, p: nat, x: Proc)
    requires ListInv(cfg, l) && p in l.procs
    requires x == l.procs[p].(resetWavefronts := x.resetWavefronts, trapEnabled := x.trapEnabled, vmAcquired := x.vmAcquired)
    requires l.procs[p].vmAcquired ==> x.vmAcquired
    ensures ListInv(cfg, Put(l, p, x))
  {
    assert ProcInv(cfg, l.procs[p]);
    Unaffected(cfg, l.procs[p], x);
    QuietChange(cfg, l, p, x);
  }

  lemma DestroyStepKeeps(cfg: Config, s: State, p: nat, i: nat, hw: Hw)
    requires Inv(cfg, s) && HasQueue(s.lists, p, i) && s.lists.procs[p].queues[i].destroyWait == Idle
    ensures Inv(cfg, Destroy(cfg, s, p, i, hw).s)
  {
    MemberInv(cfg, s.lists, p, i);
    hide CountersAgree, ProcInv, SchedInv, DestroyNow;
    var pr := s.lists.procs[p];
    var q1 := pr.queues[i].(beingDestroyed := true);
    if !pr.isDebug {
      if MustWait(pr, pr.queues[i]) {
        MarkKeeps(cfg, s.lists, p, i, q1.(destroyWait := Waiting));
      } else {
        MarkKeeps(cfg, s.lists, p, i, q1);
        DestroyNowKeeps(cfg, s.(lists := PutQueue(s.lists, p, i, q1)), p, i, hw);
      }
    }
  }

  lemma FinishStepKeeps(cfg: Config, s: State, p: nat, i: nat, hw: Hw)
    requires Inv(cfg, s) && HasQueue(s.lists, p, i)
    ensures Inv(cfg, FinishStep(cfg, s, p, i, hw).s)
  {
    MemberInv(cfg, s.lists, p, i);
    hide CountersAgree, ProcInv, SchedInv, DestroyNow;
    var q := s.lists.procs[p].queues[i].(destroyWait := Idle);
    MarkKeeps(cfg, s.lists, p, i, q);
    DestroyNowKeeps(cfg, s.(lists := PutQueue(s.lists, p, i, q)), p, i, hw);
  }

  lemma UpdateStepKeeps(cfg: Config, s: State, p: nat, i: nat, hw: Hw)
    requires Inv(cfg, s) && HasQueue(s.lists, p, i)
    ensures Inv(cfg, UpdateStep(cfg, s, p, i, hw).s)
  {
    hide CountersAgree, ProcInv, SchedInv, Map, Unmap;
    UnmapKeeps(s.sched, hw.preempt);
    UpdateKeeps(cfg, s.lists, p, i);
    MapKeeps(cfg, UpdateLists(s.lists, p, i), Unmap(s.sched, hw.preempt).sched, hw.send);
  }

  lemma SuspendStepKeeps(cfg: Config, s: State, p: nat, ids: set<nat>, clearNew: bool, hw: Hw)
    requires Inv(cfg, s) && Alive(s.lists, p)
    ensures Inv(cfg, SuspendStep(cfg, s, p, ids, clearNew, hw).s)
  {
    hide CountersAgree, ProcInv, SchedInv, Execute, ClearNew, WalkQueues, WalkTallies;
    var l := WalkProc(SuspendIn(ids), s.lists, p);
    SuspendResumeKeeps(cfg, s.lists, p, SuspendIn(ids));
    ThenKeeps(cfg, l, s.sched, hw);
    ClearNewKeeps(cfg, l, p, ids);
  }

  lemma ResumeStepKeeps(cfg: Config, s: State, p: nat, which: Option<set<nat>>, hw: Hw)
    requires Inv(cfg, s) && Alive(s.lists, p)
    ensures Inv(cfg, ResumeStep(cfg, s, p, which, hw).s)
  {
    hide CountersAgree, ProcInv, SchedInv, Execute, WalkQueues, WalkTallies;
    var w := if which.Some? then ResumeIn(which.value) else ResumeAll;
    SuspendResumeKeeps(cfg, s.lists, p, w);
    ThenKeeps(cfg, WalkProc(w, s.lists, p), s.sched, hw);
  }

  lemma EvictStepKeeps(cfg: Config, s: State, p: nat, hw: Hw)
    requires Inv(cfg, s) && Alive(s.lists, p)
    ensures Inv(cfg, EvictStep(cfg, s, p, hw).s)
  {
    hide CountersAgree, ProcInv, SchedInv, Execute, EvictLists;
    EvictKeeps(cfg, s.lists, p);
    ThenKeeps(cfg, EvictLists(s.lists, p), s.sched, hw);
  }

  lemma RestoreStepKeeps(cfg: Config, s: State, p: nat, hw: Hw)
    requires Inv(cfg, s) && Alive(s.lists, p)
    ensures Inv(cfg, RestoreStep(cfg, s, p, hw).s)
  {
    hide CountersAgree, ProcInv, SchedInv, Execute, RestoreLists;
    RestoreKeeps(cfg, s.lists, p);
    ThenKeeps(cfg, RestoreLists(s.lists, p), s.sched, hw);
  }

  lemma TerminateStepKeeps(cfg: Config, s: State, p: nat, hw: Hw)
    requires Inv(cfg, s) && Alive(s.lists, p)
    ensures Inv(cfg, TerminateStep(cfg, s, p, hw).s)
  {
    hide CountersAgree, ProcInv, SchedInv, Execute, TerminateLists;
    var l := TerminateLists(cfg, s.lists, p);
    TerminateKeeps(cfg, s.lists, p);
    TerminateKeepsKeys(cfg, s.lists, p);
    ThenKeeps(cfg, l, s.sched, hw);
    QuietKeeps(cfg, l, p, l.procs[p].(resetWavefronts := false));
  }

  lemma AddKernelStepKeeps(cfg: Config, s: State, p: nat, q: Queue, hw: Hw)
    requires Inv(cfg, s) && Alive(s.lists, p) && q.kind == Diq && q.active && FreshQueue(s.lists, p, q)
    ensures Inv(cfg, AddKernelStep(cfg, s, p, q, hw).s)
  {
    hide CountersAgree, ProcInv, SchedInv, Execute, LinkKernel;
    LinkKernelKeeps(cfg, s.lists, p, q);
    ThenKeeps(cfg, LinkKernel(s.lists, p, q), s.sched, hw);
  }

  lemma RemoveKernelStepKeeps(cfg: Config, s: State, p: nat, i: nat, hw: Hw)
    requires Inv(cfg, s) && Alive(s.lists, p) && i < |s.lists.procs[p].kernelQueues|
    ensures Inv(cfg, RemoveKernelStep(cfg, s, p, i, hw).s)
  {
    hide CountersAgree, ProcInv, SchedInv, Execute, UnlinkKernel;
    UnlinkKernelKeeps(cfg, s.lists, p, i);
    ThenKeeps(cfg, UnlinkKernel(s.lists, p, i), s.sched, hw);
  }

  /** Steps that change only the scheduler's side. */
  lemma ControlStepKeeps(cfg: Config, s: State, hw: Hw, ok: bool)
    requires Inv(cfg, s)
    ensures !s.sched.running ==> Inv(cfg, StartStep(cfg, s, ok, hw).s)
    ensures Inv(cfg, StopStep(s, hw).s) && !StopStep(s, hw).s.sched.ibAllocated
    ensures Inv(cfg, RefreshStep(cfg, s, hw).s)
    ensures Inv(cfg, ResetStep(s, hw).s)
  {
    InvLists(cfg, s);
    hide ListInv, Listed, Map, Unmap, Execute;
    var u := Unmap(s.sched, hw.preempt);
    UnmapKeeps(s.sched, hw.preempt);
    MapKeeps(cfg, s.lists, u.sched, hw.send);
    ReleaseKeeps(if s.sched.hang then s.sched else u.sched);
    if !s.sched.running {
      var sc := s.sched.(ibAllocated := false, hang := false, resetting := false, running := true);
      ExecuteKeeps(cfg, s.lists, sc, hw);
    }
  }

  lemma TrapVmidStepKeeps(cfg: Config, s: State, reserve: bool, resourcesOk: bool, hw: Hw)
    requires Inv(cfg, s)
    ensures Inv(cfg, TrapVmidStep(cfg, s, reserve, resourcesOk, hw).s)
  {
    InvLists(cfg, s);
    hide ListInv, Listed, Map, Unmap;
    UnmapKeeps(s.sched, hw.preempt);
    MapKeeps(cfg, s.lists, Unmap(s.sched, hw.preempt).sched.(trapVmid := reserve), hw.send);
  }

  lemma InvLists(cfg: Config, s: State)
    requires Inv(cfg, s)
    ensures Listed(s.lists) && Defined(s.lists)
  {
  }

  /** Processes come and go. */
  lemma ProcessStepKeeps(cfg: Config, s: State, a: Action)
    requires Inv(cfg, s) && IsProcess(a) && ProcessEnabled(s.lists, a)
    ensures Inv(cfg, ProcessStep(cfg, s, a).s)
  {
    hide CountersAgree, ProcInv, SchedInv;
    var l := s.lists;
    match a
    case NewProcess(p) => AddProcessKeeps(cfg, l, p);
    case AcquireVm(p) => QuietKeeps(cfg, l, p, l.procs[p].(vmAcquired := true));
    case SetTrap(p, on) => QuietKeeps(cfg, l, p, l.procs[p].(trapEnabled := on));
    case Register(p, allocOk) => if allocOk { NodesKeep(cfg, l, [p] + l.nodes); }
    case Unregister(p) =>
      WithoutSubset(l.nodes, p);
      NodesKeep(cfg, l, Without(l.nodes, p));
    case Drain(p) => DrainKeeps(cfg, l, p);
  }

  lemma MarkStepKeeps(cfg: Config, s: State, a: Action)
    requires Inv(cfg, s) && IsMark(a) && MarkEnabled(s.lists, a)
    ensures Inv(cfg, MarkStep(s, a).s)
  {
    MemberInv(cfg, s.lists, a.p, a.i);
    hide CountersAgree, ProcInv, SchedInv, PutQueue;
    MarkKeeps(cfg, s.lists, a.p, a.i, Marked(s.lists.procs[a.p].queues[a.i], a));
  }

  /** Creating and destroying queues. */
  lemma QueueStepKeeps(cfg: Config, s: State, a: Action)
    requires Inv(cfg, s) && !IsMark(a) && !IsProcess(a) && OperationEnabled(s, a) && Defined(s.lists)
    requires a.CreateQueue? || a.CreateKernelQueue? || a.DestroyKernelQueue? || a.DestroyQueue? || a.DestroyFinish?
    ensures Inv(cfg, Step(cfg, s, a).s)
  {
    hide Inv, Create, AddKernelStep, RemoveKernelStep, Destroy, FinishStep, FreshQueue, MarkStep, ProcessStep,
         UpdateStep, EvictStep, RestoreStep, SuspendStep, ResumeStep, TerminateStep, StartStep, StopStep,
         RefreshStep, TrapVmidStep, ResetStep;
    match a
    case CreateQueue(p, q, qd, mqdOk, hw) => CreateStepKeeps(cfg, s, p, q, qd, mqdOk, hw);
    case CreateKernelQueue(p, q, hw) => AddKernelStepKeeps(cfg, s, p, q, hw);
    case DestroyKernelQueue(p, i, hw) => RemoveKernelStepKeeps(cfg, s, p, i, hw);
    case DestroyQueue(p, i, hw) => DestroyStepKeeps(cfg, s, p, i, hw);
    case DestroyFinish(p, i, hw) => FinishStepKeeps(cfg, s, p, i, hw);
  }

  /** Eviction, debugger control, updates and termination. */
  lemma WalkStepKeeps(cfg: Config, s: State, a: Action)
    requires Inv(cfg, s) && !IsMark(a) && !IsProcess(a) && OperationEnabled(s, a) && Defined(s.lists)
    requires a.UpdateQueue? || a.EvictQueues? || a.RestoreQueues? || a.Suspend? || a.Resume? || a.Terminate?
    ensures Inv(cfg, Step(cfg, s, a).s)
  {
    hide Inv, UpdateStep, EvictStep, RestoreStep, SuspendStep, ResumeStep, TerminateStep, MarkStep, ProcessStep,
         Create, AddKernelStep, RemoveKernelStep, Destroy, FinishStep, StartStep, StopStep, RefreshStep,
         TrapVmidStep, ResetStep;
    match a
    case UpdateQueue(p, i, hw) => UpdateStepKeeps(cfg, s, p, i, hw);
    case EvictQueues(p, hw) => EvictStepKeeps(cfg, s, p, hw);
    case RestoreQueues(p, hw) => RestoreStepKeeps(cfg, s, p, hw);
    case Suspend(p, ids, clearNew, hw) => SuspendStepKeeps(cfg, s, p, ids, clearNew, hw);
    case Resume(p, which, hw) => ResumeStepKeeps(cfg, s, p, which, hw);
    case Terminate(p, hw) => TerminateStepKeeps(cfg, s, p, hw);
  }

  /** Steps on the scheduler's side, on whole processes, and on single fields. */
  lemma OtherStepKeeps(cfg: Config, s: State, a: Action)
    requires Inv(cfg, s) && Enabled(s, a) && Defined(s.lists)
    requires a.Start? || a.Stop? || a.PreReset? || a.Refresh? || a.TrapVmid? || a.ResetQueues? || IsMark(a) || IsProcess(a)
    ensures Inv(cfg, Step(cfg, s, a).s)
  {
    hide Inv, MarkStep, ProcessStep, StartStep, StopStep, RefreshStep, TrapVmidStep, ResetStep, MarkEnabled,
         ProcessEnabled, Create, AddKernelStep, RemoveKernelStep, Destroy, FinishStep, UpdateStep, EvictStep,
         RestoreStep, SuspendStep, ResumeStep, TerminateStep;
    if IsMark(a) {
      MarkStepKeeps(cfg, s, a);
    } else if IsProcess(a) {
      ProcessStepKeeps(cfg, s, a);
    } else {
      match a
      case Start(resourcesOk, hw) => ControlStepKeeps(cfg, s, hw, resourcesOk);
      case Stop(hw) => ControlStepKeeps(cfg, s, hw, true);
      case PreReset => PreResetKeeps(cfg, s);
      case Refresh(hw) => ControlStepKeeps(cfg, s, hw, true);
      case TrapVmid(reserve, resourcesOk, hw) => TrapVmidStepKeeps(cfg, s, reserve, resourcesOk, hw);
      case ResetQueues(hw) => ControlStepKeeps(cfg, s, hw, true);
    }
  }

  /** The inductive step over all actions and all hardware outcomes. */
  lemma StepKeepsInv(cfg: Config, s: State, a: Action)
    requires Inv(cfg, s) && Enabled(s, a)
    ensures Inv(cfg, Step(cfg, s, a).s)
  {
    hide Inv, Step, Listed, OperationEnabled, MarkEnabled, ProcessEnabled;
    InvLists(cfg, s);
    if a.CreateQueue? || a.CreateKernelQueue? || a.DestroyKernelQueue? || a.DestroyQueue? || a.DestroyFinish? {
      QueueStepKeeps(cfg, s, a);
    } else if a.UpdateQueue? || a.EvictQueues? || a.RestoreQueues? || a.Suspend? || a.Resume? || a.Terminate? {
      WalkStepKeeps(cfg, s, a);
    } else {
      OtherStepKeeps(cfg, s, a);
    }
  }

  lemma PreResetKeeps(cfg: Config, s: State)
    requires Inv(cfg, s)
    ensures Inv(cfg, s.(sched := s.sched.(resetting := true)))
  {
  }

  // ----- runs

  /** initialize_cpsch: nothing registered, the scheduler not started. */
  function Init(cfg: Config): State {
    State(Lists([], [], map[], 0, Tally(0, 0, 0), 0, InitSlots(cfg, Sdma), InitSlots(cfg, SdmaXgmi)),
          Sched(false, false, false, false, false, 0, {}, 0, [], false, false))
  }

  ghost predicate Run(cfg: Config, states: seq<State>, actions: seq<Action>) {
    && |states| == |actions| + 1
    && states[0] == Init(cfg)
    && forall i :: 0 <= i < |actions| ==>
         && Defined(states[i].lists)
         && Enabled(states[i], actions[i])
         && states[i + 1] == Step(cfg, states[i], actions[i]).s
  }

  lemma InitInv(cfg: Config)
    requires cfg.Valid()
    ensures Inv(cfg, Init(cfg))
  {
    var l := Init(cfg).lists;
    forall m | Counted(m) ensures Counter(l, m) + Base(cfg, m) == Sum(m, l.known, l.procs) {
    }
  }

  /**
    In every state of every run, whatever fails along the way: each counter equals the
    number of queues of live processes it stands for, no evicted or suspended queue is active, a queue is
    marked evicted exactly while its process is, every SDMA slot is either free or held
    by exactly one queue, and a runlist buffer is allocated only while a runlist is active.
   */
  lemma {:induction false} RunsKeepInv(cfg: Config, states: seq<State>, actions: seq<Action>, n: nat)
    requires cfg.Valid() && Run(cfg, states, actions) && n < |states|
    ensures Inv(cfg, states[n])
  {
    if n == 0 {
      InitInv(cfg);
    } else {
      RunsKeepInv(cfg, states, actions, n - 1);
      StepKeepsInv(cfg, states[n - 1], actions[n - 1]);
    }
  }

  // ----- the buffer protocol between the two files

  /** In every run, with hangs, failures and restarts, no runlist is built over a buffer still allocated. */
  lemma RunsNeverWarn(cfg: Config, states: seq<State>, actions: seq<Action>, n: nat)
    requires cfg.Valid() && Run(cfg, states, actions) && n < |states|
    ensures !states[n].sched.warned
  {
    RunsKeepInv(cfg, states, actions, n);
  }

  /**
    Buffers are freed exactly once: over any run, every buffer handle ever issued is
    either the one in use or freed, and handles are never reissued.
   */
  lemma RunsOwnOneBuffer(cfg: Config, states: seq<State>, actions: seq<Action>, n: nat)
    requires cfg.Valid() && Run(cfg, states, actions) && n < |states|
    ensures var sc := states[n].sched;
      && |sc.live| <= 1
      && (sc.ibAllocated <==> sc.live == {sc.ib})
      && (forall h <- sc.live :: h < sc.nextIb)
      && (sc.ibAllocated ==> sc.activeRunlist)
  {
    RunsKeepInv(cfg, states, actions, n);
  }

  /** Handles only go out of use or are newly issued. */
  ghost predicate Advances(a: Sched, b: Sched) {
    a.nextIb <= b.nextIb && forall h <- b.live :: h in a.live || a.nextIb <= h
  }

  lemma ExecuteAdvances(cfg: Config, l: Lists, sc: Sched, hw: Hw)
    requires Defined(l)
    ensures Advances(sc, Unmap(sc, hw.preempt).sched)
    ensures Advances(sc, Map(cfg, l, Unmap(sc, hw.preempt).sched, hw.send).sched)
    ensures Advances(sc, Execute(cfg, l, sc, hw).sched)
  {
    hide Map, Unmap;
    UnmapAdvances(sc, hw.preempt);
    MapAdvances(cfg, l, Unmap(sc, hw.preempt).sched, hw.send);
  }

  lemma CreateAdvances(cfg: Config, s: State, p: nat, q: Queue, qd: Option<Criu>, mqdOk: bool, hw: Hw)
    requires Defined(s.lists) && p in s.lists.procs
    ensures Advances(s.sched, Create(cfg, s, p, q, qd, mqdOk, hw).s.sched)
  {
    hide Execute;
    var a := Reserve(cfg, s.lists, p, q, qd);
    if a.ret == Ok {
      ExecuteAdvances(cfg, Link(a.lists, p, InitQueue(s.lists.procs[p], a.q, qd.Some?)), s.sched, hw);
    }
  }

  lemma DestroyAdvances(cfg: Config, s: State, p: nat, i: nat, hw: Hw)
    requires Defined(s.lists) && p in s.lists.procs && i < |s.lists.procs[p].queues|
    ensures Advances(s.sched, DestroyNow(cfg, s, p, i, hw).s.sched)
  {
    hide Execute;
    ExecuteAdvances(cfg, DestroyLists(cfg, s.lists, p, i), s.sched, hw);
  }

  lemma TerminateAdvances(cfg: Config, s: State, p: nat, hw: Hw)
    requires Defined(s.lists) && p in s.lists.procs
    ensures Advances(s.sched, TerminateStep(cfg, s, p, hw).s.sched)
  {
    hide Execute, TerminateLists;
    TerminateKeepsKeys(cfg, s.lists, p);
    ExecuteAdvances(cfg, TerminateLists(cfg, s.lists, p), s.sched, hw);
  }

  lemma ThenAdvances(cfg: Config, l: Lists, sc: Sched, hw: Hw)
    requires Defined(l)
    ensures Advances(sc, Then(cfg, l, sc, hw).s.sched)
  {
    hide Execute, Advances;
    ExecuteAdvances(cfg, l, sc, hw);
  }

  lemma FinishAdvances(cfg: Config, s: State, p: nat, i: nat, hw: Hw)
    requires Defined(s.lists) && p in s.lists.procs && i < |s.lists.procs[p].queues|
    ensures Advances(s.sched, FinishStep(cfg, s, p, i, hw).s.sched)
    ensures Advances(s.sched, Destroy(cfg, s, p, i, hw).s.sched)
  {
    hide DestroyNow, Advances;
    Stays(s.sched);
    var q := s.lists.procs[p].queues[i];
    DestroyAdvances(cfg, s.(lists := PutQueue(s.lists, p, i, q.(destroyWait := Idle))), p, i, hw);
    DestroyAdvances(cfg, s.(lists := PutQueue(s.lists, p, i, q.(beingDestroyed := true))), p, i, hw);
  }

  lemma KernelAdvances(cfg: Config, s: State, p: nat, q: Queue, i: nat, hw: Hw)
    requires Defined(s.lists) && p in s.lists.procs
    ensures Advances(s.sched, AddKernelStep(cfg, s, p, q, hw).s.sched)
    ensures i < |s.lists.procs[p].kernelQueues| ==> Advances(s.sched, RemoveKernelStep(cfg, s, p, i, hw).s.sched)
  {
    hide Then, Advances;
    Stays(s.sched);
    ThenAdvances(cfg, LinkKernel(s.lists, p, q), s.sched, hw);
    if i < |s.lists.procs[p].kernelQueues| {
      ThenAdvances(cfg, UnlinkKernel(s.lists, p, i), s.sched, hw);
    }
  }

  lemma WalkAdvances(cfg: Config, s: State, p: nat, hw: Hw)
    requires Defined(s.lists) && p in s.lists.procs
    ensures Advances(s.sched, EvictStep(cfg, s, p, hw).s.sched)
    ensures Advances(s.sched, RestoreStep(cfg, s, p, hw).s.sched)
  {
    hide Then, Advances, WalkQueues, WalkTallies;
    Stays(s.sched);
    ThenAdvances(cfg, EvictLists(s.lists, p), s.sched, hw);
    ThenAdvances(cfg, RestoreLists(s.lists, p), s.sched, hw);
  }

  lemma SuspendAdvances(cfg: Config, s: State, p: nat, ids: set<nat>, clearNew: bool, hw: Hw)
    requires Defined(s.lists) && p in s.lists.procs
    ensures Advances(s.sched, SuspendStep(cfg, s, p, ids, clearNew, hw).s.sched)
  {
    hide Execute, Advances, WalkQueues, WalkTallies, ClearNew, Hits;
    Stays(s.sched);
    ThenAdvances(cfg, WalkProc(SuspendIn(ids), s.lists, p), s.sched, hw);
  }

  lemma ResumeAdvances(cfg: Config, s: State, p: nat, which: Option<set<nat>>, hw: Hw)
    requires Defined(s.lists) && p in s.lists.procs
    ensures Advances(s.sched, ResumeStep(cfg, s, p, which, hw).s.sched)
  {
    hide Then, Advances, WalkQueues, WalkTallies, Hits;
    Stays(s.sched);
    ThenAdvances(cfg, WalkProc(if which.Some? then ResumeIn(which.value) else ResumeAll, s.lists, p), s.sched, hw);
  }

  lemma UpdateAdvances(cfg: Config, s: State, p: nat, i: nat, hw: Hw)
    requires Defined(s.lists) && p in s.lists.procs && i < |s.lists.procs[p].queues|
    ensures Advances(s.sched, UpdateStep(cfg, s, p, i, hw).s.sched)
  {
    hide Map, Unmap, Advances;
    ExecuteAdvances(cfg, UpdateLists(s.lists, p, i), s.sched, hw);
  }

  lemma ControlAdvances(cfg: Config, s: State, ok: bool, hw: Hw)
    requires Defined(s.lists)
    ensures Advances(s.sched, StartStep(cfg, s, ok, hw).s.sched)
    ensures Advances(s.sched, StopStep(s, hw).s.sched)
    ensures Advances(s.sched, RefreshStep(cfg, s, hw).s.sched)
    ensures Advances(s.sched, ResetStep(s, hw).s.sched)
  {
    hide Map, Unmap, Execute;
    ExecuteAdvances(cfg, s.lists, s.sched, hw);
    ExecuteAdvances(cfg, s.lists, s.sched.(ibAllocated := false, hang := false, resetting := false, running := true), hw);
  }

  lemma TrapVmidAdvances(cfg: Config, s: State, reserve: bool, resourcesOk: bool, hw: Hw)
    requires Defined(s.lists)
    ensures Advances(s.sched, TrapVmidStep(cfg, s, reserve, resourcesOk, hw).s.sched)
  {
    hide Map, Unmap;
    UnmapAdvances(s.sched, hw.preempt);
    MapAdvances(cfg, s.lists, Unmap(s.sched, hw.preempt).sched.(trapVmid := reserve), hw.send);
  }

  lemma UnmapAdvances(sc: Sched, u: UnmapOutcome)
    ensures Advances(sc, Unmap(sc, u).sched)
  {
  }

  lemma MapAdvances(cfg: Config, l: Lists, sc: Sched, m: MapOutcome)
    requires Defined(l)
    ensures Advances(sc, Map(cfg, l, sc, m).sched)
  {
  }

  lemma Stays(sc: Sched)
    ensures Advances(sc, sc) && Advances(sc, sc.(resetting := true))
  {
  }

  lemma QueueAdvances(cfg: Config, s: State, a: Action)
    requires Defined(s.lists) && Enabled(s, a)
    requires a.CreateQueue? || a.CreateKernelQueue? || a.DestroyKernelQueue? || a.DestroyQueue? || a.DestroyFinish?
          || a.UpdateQueue?
    ensures Advances(s.sched, Step(cfg, s, a).s.sched)
  {
    hide Advances, Create, AddKernelStep, RemoveKernelStep, Destroy, FinishStep, UpdateStep, FreshQueue, MarkStep,
         ProcessStep, EvictStep, RestoreStep, SuspendStep, ResumeStep, TerminateStep, StartStep, StopStep,
         RefreshStep, TrapVmidStep, ResetStep;
    match a
    case CreateQueue(p, q, qd, mqdOk, hw) => CreateAdvances(cfg, s, p, q, qd, mqdOk, hw);
    case CreateKernelQueue(p, q, hw) => KernelAdvances(cfg, s, p, q, 0, hw);
    case DestroyKernelQueue(p, i, hw) => KernelAdvances(cfg, s, p, s.lists.procs[p].kernelQueues[i], i, hw);
    case DestroyQueue(p, i, hw) => FinishAdvances(cfg, s, p, i, hw);
    case DestroyFinish(p, i, hw) => FinishAdvances(cfg, s, p, i, hw);
    case UpdateQueue(p, i, hw) => UpdateAdvances(cfg, s, p, i, hw);
  }

  lemma ProcessAdvances(cfg: Config, s: State, a: Action)
    requires Defined(s.lists) && Enabled(s, a)
    requires a.EvictQueues? || a.RestoreQueues? || a.Suspend? || a.Resume? || a.Terminate?
    ensures Advances(s.sched, Step(cfg, s, a).s.sched)
  {
    hide Advances, EvictStep, RestoreStep, SuspendStep, ResumeStep, TerminateStep, MarkStep, ProcessStep, Create,
         AddKernelStep, RemoveKernelStep, Destroy, FinishStep, UpdateStep, StartStep, StopStep, RefreshStep,
         TrapVmidStep, ResetStep;
    match a
    case EvictQueues(p, hw) => WalkAdvances(cfg, s, p, hw);
    case RestoreQueues(p, hw) => WalkAdvances(cfg, s, p, hw);
    case Suspend(p, ids, clearNew, hw) => SuspendAdvances(cfg, s, p, ids, clearNew, hw);
    case Resume(p, which, hw) => ResumeAdvances(cfg, s, p, which, hw);
    case Terminate(p, hw) => TerminateAdvances(cfg, s, p, hw);
  }

  lemma BookkeepingKeepsSched(cfg: Config, s: State, a: Action)
    requires Defined(s.lists) && Enabled(s, a) && (IsMark(a) || IsProcess(a))
    ensures Step(cfg, s, a).s.sched == s.sched
  {
    hide PutQueue, Marked, AddProcess, MarkEnabled;
  }

  lemma SchedulerAdvances(cfg: Config, s: State, a: Action)
    requires Defined(s.lists) && Enabled(s, a)
    requires a.Start? || a.Stop? || a.PreReset? || a.Refresh? || a.TrapVmid? || a.ResetQueues?
    ensures Advances(s.sched, Step(cfg, s, a).s.sched)
  {
    hide Advances, StartStep, StopStep, RefreshStep, TrapVmidStep, ResetStep, MarkStep, ProcessStep, Enabled, Create,
         AddKernelStep, RemoveKernelStep, Destroy, FinishStep, UpdateStep, EvictStep, RestoreStep, SuspendStep,
         ResumeStep, TerminateStep;
    match a
    case Start(ok, hw) => ControlAdvances(cfg, s, ok, hw);
    case Stop(hw) => ControlAdvances(cfg, s, true, hw);
    case Refresh(hw) => ControlAdvances(cfg, s, true, hw);
    case TrapVmid(reserve, resourcesOk, hw) => TrapVmidAdvances(cfg, s, reserve, resourcesOk, hw);
    case ResetQueues(hw) => ControlAdvances(cfg, s, true, hw);
    case PreReset => Stays(s.sched);
  }

  lemma StepAdvances(cfg: Config, s: State, a: Action)
    requires Defined(s.lists) && Enabled(s, a)
    ensures Advances(s.sched, Step(cfg, s, a).s.sched)
  {
    hide Advances, Step, Enabled;
    if a.CreateQueue? || a.CreateKernelQueue? || a.DestroyKernelQueue? || a.DestroyQueue? || a.DestroyFinish?
      || a.UpdateQueue? {
      QueueAdvances(cfg, s, a);
    } else if a.EvictQueues? || a.RestoreQueues? || a.Suspend? || a.Resume? || a.Terminate? {
      ProcessAdvances(cfg, s, a);
    } else if IsMark(a) || IsProcess(a) {
      BookkeepingKeepsSched(cfg, s, a);
      Stays(s.sched);
    } else {
      SchedulerAdvances(cfg, s, a);
    }
  }

  /** A buffer, once freed, is never in use again, so none is freed twice. */
  lemma {:induction false} RunsFreeOnce(cfg: Config, states: seq<State>, actions: seq<Action>, i: nat, n: nat, h: nat)
    requires cfg.Valid() && Run(cfg, states, actions) && i <= n < |states|
    requires h < states[i].sched.nextIb && h !in states[i].sched.live
    ensures h < states[n].sched.nextIb && h !in states[n].sched.live
    decreases n
  {
    hide Step, Enabled;
    if i < n {
      RunsFreeOnce(cfg, states, actions, i, n - 1, h);
      StepAdvances(cfg, states[n - 1], actions[n - 1]);
    }
  }

  // ----- destroy and suspend

  /** The queue an action unlinks by destroying it. */
  predicate Destroys(cfg: Config, s: State, a: Action)
    requires Defined(s.lists) && Enabled(s, a)
  {
    && (a.DestroyQueue? || a.DestroyFinish?)
    && |Step(cfg, s, a).s.lists.procs[a.p].queues| < |s.lists.procs[a.p].queues|
  }

  /**
    With the debug trap enabled a queue is never unlinked while suspended, in any
    interleaving around the wait: once marked as being destroyed it can be resumed but
    not suspended again. More exactly, a suspended queue is unlinked only by a destroy
    that found the trap disabled.
   */
  lemma RunsNeverDestroySuspended(cfg: Config, states: seq<State>, actions: seq<Action>, n: nat)
    requires cfg.Valid() && Run(cfg, states, actions) && n < |actions|
    requires Defined(states[n].lists) && Destroys(cfg, states[n], actions[n])
    ensures var a := actions[n];
      var pr := states[n].lists.procs[a.p];
      pr.queues[a.i].suspended ==> a.DestroyQueue? && !pr.trapEnabled
  {
    hide CountersAgree, ProcInv, SchedInv, DestroyNow, Execute;
    RunsKeepInv(cfg, states, actions, n);
    MemberInv(cfg, states[n].lists, actions[n].p, actions[n].i);
  }

  /** Which lists a destroy leaves, apart from slots and counters. */
  lemma DestroyShape(cfg: Config, s: State, p: nat, i: nat, hw: Hw)
    requires Defined(s.lists) && p in s.lists.procs && i < |s.lists.procs[p].queues|
    ensures var l, r := s.lists, DestroyNow(cfg, s, p, i, hw).s.lists;
      && r.nodes == l.nodes && r.known == l.known && r.processes == l.processes
      && p in r.procs && r.procs == l.procs[p := r.procs[p]]
      && (l.procs[p].isDebug ==> r == l)
      && (!l.procs[p].isDebug ==>
            && r.procs[p].queues == RemoveAt(l.procs[p].queues, i)
            && r.procs[p] == l.procs[p].(queues := r.procs[p].queues, doorbells := r.procs[p].doorbells,
                                         resetWavefronts := r.procs[p].resetWavefronts))
  {
    hide Execute;
    var l := s.lists;
    var d := DestroyLists(cfg, l, p, i);
    UnlinkShape(cfg, l, p, i);
    assert d.procs[p := d.procs[p].(resetWavefronts := true)] == l.procs[p := d.procs[p].(resetWavefronts := true)];
  }

  lemma UnlinkShape(cfg: Config, l: Lists, p: nat, i: nat)
    requires p in l.procs && i < |l.procs[p].queues|
    ensures var d := DestroyLists(cfg, l, p, i);
      && d.nodes == l.nodes && d.known == l.known && d.processes == l.processes
      && p in d.procs && d.procs == l.procs[p := d.procs[p]]
      && d.procs[p] == l.procs[p].(queues := RemoveAt(l.procs[p].queues, i), doorbells := d.procs[p].doorbells)
  {
    hide FreeSdma, FreeDoorbell;
    var pr := l.procs[p];
    var q := pr.queues[i];
    var x := pr.(doorbells := FreeDoorbell(cfg, pr.doorbells, q));
    SlotsOnly(cfg, Put(l, p, x), q);
    PutTwice(l, p, x, x.(queues := RemoveAt(pr.queues, i)));
  }

  lemma SlotsOnly(cfg: Config, l: Lists, q: Queue)
    ensures FreeSdma(cfg, l, q)
         == l.(sdmaFree := FreeSdma(cfg, l, q).sdmaFree, xgmiFree := FreeSdma(cfg, l, q).xgmiFree)
  {
  }

  /** Which lists a successful create leaves, apart from slots and counters. */
  lemma CreateAdds(cfg: Config, s: State, p: nat, q: Queue, qd: Option<Criu>, mqdOk: bool, hw: Hw)
    requires ListInv(cfg, s.lists) && p in s.lists.procs && q.kind != Diq
    requires Create(cfg, s, p, q, qd, mqdOk, hw).ret == Ok
    ensures var l, r := s.lists, Create(cfg, s, p, q, qd, mqdOk, hw).s.lists;
      && r.nodes == l.nodes && r.known == l.known && r.processes == l.processes
      && p in r.procs && r.procs == l.procs[p := r.procs[p]]
      && |r.procs[p].queues| > 0 && r.procs[p].queues == [r.procs[p].queues[0]] + l.procs[p].queues
      && r.procs[p].queues[0].id == q.id
      && r.procs[p] == l.procs[p].(queues := r.procs[p].queues, doorbells := r.procs[p].doorbells)
  {
    hide Reserve, CreateTail, CountersAgree, ProcInv;
    var l := s.lists;
    var a := Reserve(cfg, l, p, q, qd);
    ReserveTakes(cfg, l, p, q, qd);
    TailLists(cfg, s.(lists := a.lists), p, InitQueue(l.procs[p], a.q, qd.Some?), hw);
    PutTwice(l, p, a.lists.procs[p], Create(cfg, s, p, q, qd, mqdOk, hw).s.lists.procs[p]);
  }
}

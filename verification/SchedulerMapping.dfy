/**
  What the operations are for: after each of them that met no failure, the hardware has
  exactly the queues mapped that the operation promises.
 */
module SchedulerMapping {
  import opened Basics
  import opened Queues
  import opened RunlistIb
  import opened Scheduler
  import opened SchedulerInvariant
  import opened SchedulerSteps
  import opened SchedulerRuns
  import opened SchedulerSound
  import opened SchedulerCoherence
  import opened SchedulerDescriptors
  import opened SchedulerStatus

  // ----- which queues are mapped

  /** The hardware has the queue: a runlist is active and names it. */
  predicate IsMapped(s: State, p: nat, id: nat) { s.sched.activeRunlist && (p, id) in MappedQueues(s.sched.runlist) }

  ghost predicate HasActive(pr: Proc, id: nat) {
    (exists q <- pr.queues :: q.active && q.id == id) || (exists q <- pr.kernelQueues :: q.active && q.id == id)
  }

  lemma {:induction false} ActiveInHas(pid: nat, qs: seq<Queue>, p: nat, id: nat)
    ensures (p, id) in ActiveIn(pid, qs) <==> p == pid && exists q <- qs :: q.active && q.id == id
  {
    if qs != [] {
      var n := |qs| - 1;
      ActiveInHas(pid, qs[..n], p, id);
      assert qs == qs[..n] + [qs[n]];
      assert forall q :: q in qs <==> q in qs[..n] || q == qs[n];
    }
  }

  lemma {:induction false} ActiveQueuesHas(nodes: seq<nat>, procs: map<nat, Proc>, p: nat, id: nat)
    requires forall n <- nodes :: n in procs
    ensures (p, id) in ActiveQueues(nodes, procs) <==> p in nodes && HasActive(procs[p], id)
  {
    if nodes != [] {
      var n := |nodes| - 1;
      ActiveQueuesHas(nodes[..n], procs, p, id);
      ActiveInHas(nodes[n], procs[nodes[n]].queues, p, id);
      ActiveInHas(nodes[n], procs[nodes[n]].kernelQueues, p, id);
      assert nodes == nodes[..n] + [nodes[n]];
    }
  }

  /** With everything in order, a queue is mapped exactly while the scheduler runs and the queue is active. */
  lemma MappedIff(s: State, p: nat, id: nat)
    requires Steady(s) && p in s.lists.procs && (NoQueues(s.lists.procs[p]) || p in s.lists.nodes)
    ensures IsMapped(s, p, id) <==> s.sched.running && HasActive(s.lists.procs[p], id)
  {
    hide Sound;
    ActiveQueuesHas(s.lists.nodes, s.lists.procs, p, id);
  }

  lemma OnlyNamed(cfg: Config, pr: Proc, i: nat)
    requires ProcInv(cfg, pr) && i < |pr.queues|
    ensures HasActive(pr, pr.queues[i].id) <==> pr.queues[i].active
  {
    var q := pr.queues[i];
    hide ProcInv;
    if x :| x in pr.queues && x.active && x.id == q.id {
      var j :| 0 <= j < |pr.queues| && pr.queues[j] == x;
      UniqueName(cfg, pr, i, j);
    }
    if x :| x in pr.kernelQueues && x.id == q.id {
      var j :| 0 <= j < |pr.kernelQueues| && pr.kernelQueues[j] == x;
      NamesApart(cfg, pr, i, j);
    }
  }

  lemma NamesApart(cfg: Config, pr: Proc, i: nat, j: nat)
    requires ProcInv(cfg, pr) && i < |pr.queues| && j < |pr.kernelQueues|
    ensures pr.queues[i].id != pr.kernelQueues[j].id
  {
    var m := Named(pr.queues[i].id);
    assert SumP(m, pr) <= 1;
    SumQSplit(m, pr.queues, i);
    SumQSplit(m, pr.kernelQueues, j);
  }

  lemma ListedQueue(cfg: Config, s: State, p: nat, i: nat)
    requires Inv(cfg, s) && Sound(s.lists) && HasQueue(s.lists, p, i)
    ensures p in s.lists.nodes && ProcInv(cfg, s.lists.procs[p])
  {
    hide CountersAgree, SchedInv, ProcInv;
    assert p in s.lists.known;
  }

  lemma QueueMappedIff(cfg: Config, s: State, p: nat, i: nat)
    requires Inv(cfg, s) && Steady(s) && HasQueue(s.lists, p, i)
    ensures var q := s.lists.procs[p].queues[i];
      IsMapped(s, p, q.id) <==> s.sched.running && q.active
  {
    hide Inv, Coherent, Listed, Sound, ProcInv, HasActive;
    ListedQueue(cfg, s, p, i);
    MappedIff(s, p, s.lists.procs[p].queues[i].id);
    OnlyNamed(cfg, s.lists.procs[p], i);
  }

  /**
    Over every run in order, from initialisation or a successful start on, while nothing
    fails: the hardware has a live queue if and only if the scheduler runs and the queue is
    active.
   */
  lemma RunsMapExactly(cfg: Config, states: seq<State>, actions: seq<Action>, i: nat, n: nat, p: nat, j: nat)
    requires cfg.Valid() && Run(cfg, states, actions) && i <= n <= |actions| && Fresh(actions, i)
    requires AllInOrder(cfg, states, actions, n) && forall k :: i <= k < n ==> Smooth(states[k], actions[k])
    requires HasQueue(states[n].lists, p, j)
    ensures var q := states[n].lists.procs[p].queues[j];
      IsMapped(states[n], p, q.id) <==> states[n].sched.running && q.active
  {
    hide Inv, Steady, AllInOrder, Fresh, Smooth, Step, Enabled;
    RunsAreCoherent(cfg, states, actions, i, n);
    RunsKeepInv(cfg, states, actions, n);
    QueueMappedIff(cfg, states[n], p, j);
  }

  // ----- what each operation promises

  /** Everything is in order, the scheduler runs, and nothing fails in this step. */
  ghost predicate Fine(cfg: Config, s: State, a: Action) {
    Inv(cfg, s) && Steady(s) && Enabled(s, a) && Smooth(s, a) && Defined(s.lists) && InOrder(cfg, s, a) && s.sched.running
  }

  lemma FineStep(cfg: Config, s: State, a: Action)
    requires Fine(cfg, s, a)
    ensures Inv(cfg, Step(cfg, s, a).s) && Steady(Step(cfg, s, a).s)
  {
    hide Inv, Steady, Enabled, Smooth, InOrder, Step;
    StepKeepsInv(cfg, s, a);
    StepCoheres(cfg, s, a);
  }

  lemma StaysUp(cfg: Config, s: State, a: Action)
    requires Fine(cfg, s, a) && (Executes(a) || a.UpdateQueue?)
    ensures Step(cfg, s, a).s.sched.running && Healthy(s.sched)
  {
    hide Inv, Steady, InOrder, Step;
    StepControls(cfg, s, a);
  }

  /** After an update the queue is mapped if and only if it is fully configured and nothing holds it back. */
  lemma UpdateMaps(cfg: Config, s: State, p: nat, i: nat, hw: Hw)
    requires Fine(cfg, s, UpdateQueue(p, i, hw))
    ensures var q := s.lists.procs[p].queues[i];
      IsMapped(Step(cfg, s, UpdateQueue(p, i, hw)).s, p, q.id) <==>
        q.size > 0 && q.address != 0 && q.percent > 0 && !q.evicted && !q.suspended
  {
    hide Inv, Steady, InOrder, Step, IsMapped;
    var a := UpdateQueue(p, i, hw);
    FineStep(cfg, s, a);
    StaysUp(cfg, s, a);
    UpdateIs(cfg, s, a);
    UpdateRewrites(cfg, s, p, i, hw);
    QueueMappedIff(cfg, Step(cfg, s, a).s, p, i);
  }

  // ----- walks

  lemma WalkIs(cfg: Config, s: State, p: nat, hw: Hw)
    requires Defined(s.lists) && p in s.lists.procs
    ensures EvictStep(cfg, s, p, hw).s.lists == EvictLists(s.lists, p)
    ensures RestoreStep(cfg, s, p, hw).s.lists == RestoreLists(s.lists, p)
  {
    hide Execute, WalkQueues, WalkTallies;
  }

  lemma MemberOf(cfg: Config, s: State, p: nat, i: nat)
    requires Inv(cfg, s) && HasQueue(s.lists, p, i)
    ensures QueueInv(s.lists.procs[p].evicted, s.lists.procs[p].queues[i])
  {
    assert ProcInv(cfg, s.lists.procs[p]);
  }

  lemma EvictedQueue(l: Lists, p: nat, i: nat)
    requires HasQueue(l, p, i) && l.procs[p].vmAcquired
    ensures var e := EvictLists(l, p);
      && HasQueue(e, p, i) && e.procs[p].evicted == l.procs[p].evicted + 1
      && e.procs[p].queues[i].id == l.procs[p].queues[i].id
  {
    hide WalkQueues, WalkTallies;
  }

  /** An evicted process has no queue mapped. */
  lemma EvictUnmaps(cfg: Config, s: State, p: nat, i: nat, hw: Hw)
    requires Fine(cfg, s, EvictQueues(p, hw)) && HasQueue(s.lists, p, i)
    ensures !IsMapped(Step(cfg, s, EvictQueues(p, hw)).s, p, s.lists.procs[p].queues[i].id)
  {
    hide Inv, Steady, InOrder, Step, IsMapped, EvictLists, EvictStep, QueueInv;
    var a := EvictQueues(p, hw);
    FineStep(cfg, s, a);
    HasVm(cfg, s, p);
    StepIs(cfg, s, a);
    WalkIs(cfg, s, p, hw);
    EvictedQueue(s.lists, p, i);
    var t := Step(cfg, s, a).s;
    MemberOf(cfg, t, p, i);
    EvictedInactive(t.lists.procs[p].evicted, t.lists.procs[p].queues[i]);
    QueueMappedIff(cfg, t, p, i);
  }

  lemma EvictedInactive(evicted: nat, q: Queue)
    requires QueueInv(evicted, q) && evicted > 0
    ensures !q.active
  {
  }

  lemma HasVm(cfg: Config, s: State, p: nat)
    requires Inv(cfg, s) && p in s.lists.procs && s.lists.procs[p].queues != []
    ensures s.lists.procs[p].vmAcquired
  {
    assert ProcInv(cfg, s.lists.procs[p]);
  }

  lemma StepIs(cfg: Config, s: State, a: Action)
    requires Defined(s.lists) && Enabled(s, a)
    requires a.EvictQueues? || a.RestoreQueues? || a.Suspend? || a.Resume? || a.CreateQueue? || a.DestroyQueue?
    ensures a.p in s.lists.procs
    ensures a.EvictQueues? ==> Step(cfg, s, a) == EvictStep(cfg, s, a.p, a.hw)
    ensures a.RestoreQueues? ==> Step(cfg, s, a) == RestoreStep(cfg, s, a.p, a.hw)
    ensures a.Suspend? ==> Step(cfg, s, a) == SuspendStep(cfg, s, a.p, a.ids, a.clearNew, a.hw)
    ensures a.Resume? ==> Step(cfg, s, a) == ResumeStep(cfg, s, a.p, a.which, a.hw)
    ensures a.CreateQueue? ==> Step(cfg, s, a) == Create(cfg, s, a.p, a.q, a.qd, a.mqdOk, a.hw)
    ensures a.DestroyQueue? ==> HasQueue(s.lists, a.p, a.i) && Step(cfg, s, a) == Destroy(cfg, s, a.p, a.i, a.hw)
  {
    hide EvictStep, RestoreStep, SuspendStep, ResumeStep, Create, Destroy, MarkStep, ProcessStep, AddKernelStep,
         RemoveKernelStep, FinishStep, UpdateStep, TerminateStep, StartStep, StopStep, RefreshStep, TrapVmidStep, ResetStep,
         FreshQueue;
  }

  lemma RestoredQueue(l: Lists, p: nat, i: nat)
    requires HasQueue(l, p, i) && l.procs[p].vmAcquired && l.procs[p].evicted == 1
    ensures var r, q := RestoreLists(l, p), l.procs[p].queues[i];
      && HasQueue(r, p, i) && r.procs[p].queues[i].id == q.id
      && (r.procs[p].queues[i].active <==> q.active || Runnable(q.(evicted := false)))
  {
    hide WalkQueues, WalkTallies;
  }

  /** The restore that ends an eviction maps exactly the queues that nothing else holds back. */
  lemma RestoreMaps(cfg: Config, s: State, p: nat, i: nat, hw: Hw)
    requires Fine(cfg, s, RestoreQueues(p, hw)) && HasQueue(s.lists, p, i) && s.lists.procs[p].evicted == 1
    ensures var q := s.lists.procs[p].queues[i];
      IsMapped(Step(cfg, s, RestoreQueues(p, hw)).s, p, q.id) <==>
        q.size > 0 && q.address != 0 && q.percent > 0 && !q.suspended
  {
    hide Inv, Steady, InOrder, Step, IsMapped, RestoreLists, RestoreStep, QueueInv;
    var a := RestoreQueues(p, hw);
    FineStep(cfg, s, a);
    StaysUp(cfg, s, a);
    HasVm(cfg, s, p);
    StepIs(cfg, s, a);
    WalkIs(cfg, s, p, hw);
    RestoredQueue(s.lists, p, i);
    MemberOf(cfg, s, p, i);
    EvictedInactive(s.lists.procs[p].evicted, s.lists.procs[p].queues[i]);
    QueueMappedIff(cfg, Step(cfg, s, a).s, p, i);
  }

  lemma WalkedQueue(w: Walk, l: Lists, p: nat, i: nat)
    requires HasQueue(l, p, i)
    ensures var r := WalkProc(w, l, p);
      HasQueue(r, p, i) && r.nodes == l.nodes && r.procs[p].queues[i] == WalkQueue(w, l.procs[p].queues[i])
  {
    hide WalkQueues, WalkTallies, WalkQueue;
  }

  lemma ClearedQueue(l: Lists, p: nat, i: nat, ids: set<nat>)
    requires HasQueue(l, p, i)
    ensures var r := Put(l, p, l.procs[p].(queues := ClearNew(l.procs[p].queues, ids)));
      HasQueue(r, p, i) && r.procs[p].queues[i] == l.procs[p].queues[i].(isNew := r.procs[p].queues[i].isNew)
  {
    hide ClearNew;
  }

  lemma SuspendedQueue(cfg: Config, s: State, p: nat, i: nat, ids: set<nat>, clearNew: bool, hw: Hw)
    requires Defined(s.lists) && HasQueue(s.lists, p, i)
    ensures var t, q := SuspendStep(cfg, s, p, ids, clearNew, hw).s.lists, s.lists.procs[p].queues[i];
      && HasQueue(t, p, i)
      && t.procs[p].queues[i] == WalkQueue(SuspendIn(ids), q).(isNew := t.procs[p].queues[i].isNew)
  {
    hide Execute, WalkProc, WalkQueue, Hits, ClearNew;
    WalkedQueue(SuspendIn(ids), s.lists, p, i);
    ClearedQueue(WalkProc(SuspendIn(ids), s.lists, p), p, i, ids);
  }

  /** A suspend takes exactly the selected queues from the hardware that it does not refuse. */
  lemma SuspendUnmaps(cfg: Config, s: State, p: nat, i: nat, ids: set<nat>, clearNew: bool, hw: Hw)
    requires Fine(cfg, s, Suspend(p, ids, clearNew, hw)) && HasQueue(s.lists, p, i)
    ensures var q := s.lists.procs[p].queues[i];
      IsMapped(Step(cfg, s, Suspend(p, ids, clearNew, hw)).s, p, q.id) <==>
        IsMapped(s, p, q.id) && (q.id !in ids || q.isNew || q.beingDestroyed)
  {
    hide Inv, Steady, InOrder, Step, IsMapped, SuspendStep, QueueInv;
    var a := Suspend(p, ids, clearNew, hw);
    FineStep(cfg, s, a);
    StaysUp(cfg, s, a);
    StepIs(cfg, s, a);
    SuspendedQueue(cfg, s, p, i, ids, clearNew, hw);
    MemberOf(cfg, s, p, i);
    if s.lists.procs[p].queues[i].suspended {
      SuspendedInactive(s.lists.procs[p].evicted, s.lists.procs[p].queues[i]);
    }
    QueueMappedIff(cfg, s, p, i);
    QueueMappedIff(cfg, Step(cfg, s, a).s, p, i);
  }

  lemma SuspendedInactive(evicted: nat, q: Queue)
    requires QueueInv(evicted, q) && q.suspended
    ensures !q.active
  {
  }

  /** A resume gives the hardware every selected suspended queue that nothing else holds back. */
  lemma ResumeMaps(cfg: Config, s: State, p: nat, i: nat, which: Option<set<nat>>, hw: Hw)
    requires Fine(cfg, s, Resume(p, which, hw)) && HasQueue(s.lists, p, i)
    ensures var q := s.lists.procs[p].queues[i];
      IsMapped(Step(cfg, s, Resume(p, which, hw)).s, p, q.id) <==>
        if q.suspended && (which.None? || q.id in which.value)
        then q.size > 0 && q.address != 0 && q.percent > 0 && !q.evicted
        else IsMapped(s, p, q.id)
  {
    hide Inv, Steady, InOrder, Step, IsMapped, ResumeStep, QueueInv;
    var a := Resume(p, which, hw);
    FineStep(cfg, s, a);
    StaysUp(cfg, s, a);
    StepIs(cfg, s, a);
    ResumedQueue(cfg, s, p, i, which, hw);
    MemberOf(cfg, s, p, i);
    if s.lists.procs[p].queues[i].suspended {
      SuspendedInactive(s.lists.procs[p].evicted, s.lists.procs[p].queues[i]);
    }
    QueueMappedIff(cfg, s, p, i);
    QueueMappedIff(cfg, Step(cfg, s, a).s, p, i);
  }

  lemma ResumedQueue(cfg: Config, s: State, p: nat, i: nat, which: Option<set<nat>>, hw: Hw)
    requires Defined(s.lists) && HasQueue(s.lists, p, i)
    ensures var t, q := ResumeStep(cfg, s, p, which, hw).s.lists, s.lists.procs[p].queues[i];
      && HasQueue(t, p, i)
      && t.procs[p].queues[i] == WalkQueue(if which.Some? then ResumeIn(which.value) else ResumeAll, q)
  {
    hide Execute, WalkProc, WalkQueue, Hits;
    WalkedQueue(if which.Some? then ResumeIn(which.value) else ResumeAll, s.lists, p, i);
  }

  // ----- create and destroy

  /** A free slot: the requested one, or the lowest. */
  predicate SlotGiven(free: set<nat>, id: nat, rid: Option<nat>) {
    id in free && if rid.Some? then id == rid.value else forall k <- free :: id <= k
  }

  /** The requested doorbell, if any; for a compute queue one that was not taken, and the lowest unless requested. */
  predicate DoorbellGiven(cfg: Config, bits: set<nat>, bits': set<nat>, q: Queue, d: nat, rid: Option<nat>) {
    && (rid.Some? ==> d == rid.value)
    && (!cfg.soc15 ==> d == q.id)
    && (cfg.soc15 && q.kind == Compute ==>
          && d !in bits && bits' == bits + {d}
          && (rid.None? ==> d < 1024 && forall k :: 0 <= k < d ==> k in bits))
  }

  /**
    The queue a successful create links: what was asked for, with a slot and a doorbell,
    and active exactly if it is new, fully configured and its process not evicted. A queue
    restored from a checkpoint gets the slot and the doorbell it had.
   */
  lemma CreateGives(cfg: Config, s: State, p: nat, q: Queue, qd: Option<Criu>, mqdOk: bool, hw: Hw)
    requires ListInv(cfg, s.lists) && p in s.lists.procs && q.kind != Diq && !q.suspended
    requires Create(cfg, s, p, q, qd, mqdOk, hw).ret == Ok
    ensures var l, r := s.lists, Create(cfg, s, p, q, qd, mqdOk, hw).s.lists;
      && p in r.procs && r.procs == l.procs[p := r.procs[p]] && |r.procs[p].queues| > 0
      && r.procs[p] == l.procs[p].(queues := r.procs[p].queues, doorbells := r.procs[p].doorbells)
      && var x := r.procs[p].queues[0];
         && r.procs[p].queues == [x] + l.procs[p].queues
         && x == q.(evicted := x.evicted, active := x.active, sdmaId := x.sdmaId, doorbell := x.doorbell)
         && (x.evicted <==> l.procs[p].evicted > 0)
         && (x.active <==> qd.None? && q.size > 0 && q.address != 0 && q.percent > 0 && l.procs[p].evicted == 0)
         && (IsSdma(q.kind) ==> SlotGiven(FreeSlots(l, q.kind), x.sdmaId, SlotOf(qd)))
         && DoorbellGiven(cfg, l.procs[p].doorbells, r.procs[p].doorbells, q, x.doorbell, DoorbellOf(qd))
  {
    hide Reserve, Create, ListInv, SlotGiven, DoorbellGiven, InitQueue;
    CreateAdds(cfg, s, p, q, qd, mqdOk, hw);
    LinkedQueue(cfg, s, p, q, qd, mqdOk, hw);
    ReserveTakes(cfg, s.lists, p, q, qd);
    ReserveGives(cfg, s.lists, p, q, qd);
    NewQueueIs(s.lists.procs[p], Reserve(cfg, s.lists, p, q, qd).q, qd.Some?);
  }

  lemma NewQueueIs(pr: Proc, q: Queue, restored: bool)
    requires !q.suspended
    ensures var x := InitQueue(pr, q, restored);
      && x == q.(evicted := x.evicted, active := x.active) && (x.evicted <==> pr.evicted > 0)
      && (x.active <==> !restored && q.size > 0 && q.address != 0 && q.percent > 0 && pr.evicted == 0)
  {
  }

  lemma LinkedQueue(cfg: Config, s: State, p: nat, q: Queue, qd: Option<Criu>, mqdOk: bool, hw: Hw)
    requires ListInv(cfg, s.lists) && p in s.lists.procs && q.kind != Diq
    requires Create(cfg, s, p, q, qd, mqdOk, hw).ret == Ok
    ensures Reserve(cfg, s.lists, p, q, qd).ret == Ok
    ensures var a, r := Reserve(cfg, s.lists, p, q, qd), Create(cfg, s, p, q, qd, mqdOk, hw).s.lists;
      && p in r.procs && p in a.lists.procs && |r.procs[p].queues| > 0
      && r.procs[p].queues[0] == InitQueue(s.lists.procs[p], a.q, qd.Some?)
      && r.procs[p].doorbells == a.lists.procs[p].doorbells
  {
    hide Reserve, CreateTail, CountersAgree, ProcInv, InitQueue;
    var a := Reserve(cfg, s.lists, p, q, qd);
    ReserveTakes(cfg, s.lists, p, q, qd);
    TailLists(cfg, s.(lists := a.lists), p, InitQueue(s.lists.procs[p], a.q, qd.Some?), hw);
  }

  function SlotOf(qd: Option<Criu>): Option<nat> { if qd.Some? then Some(qd.value.sdmaId) else None }

  function DoorbellOf(qd: Option<Criu>): Option<nat> { if qd.Some? then Some(qd.value.doorbell) else None }

  lemma ReserveGives(cfg: Config, l: Lists, p: nat, q: Queue, qd: Option<Criu>)
    requires ListInv(cfg, l) && p in l.procs && q.kind != Diq && Reserve(cfg, l, p, q, qd).ret == Ok
    ensures var a := Reserve(cfg, l, p, q, qd);
      && p in a.lists.procs
      && (IsSdma(q.kind) ==> SlotGiven(FreeSlots(l, q.kind), a.q.sdmaId, SlotOf(qd)))
      && DoorbellGiven(cfg, l.procs[p].doorbells, a.lists.procs[p].doorbells, q, a.q.doorbell, DoorbellOf(qd))
  {
    hide ListInv, AllocSdma, AllocDoorbell, FreeSdma, SlotGiven;
    SdmaGives(cfg, l, q, SlotOf(qd));
    DoorbellGives(cfg, l.procs[p].doorbells, AllocSdma(cfg, l, q, SlotOf(qd)).q, DoorbellOf(qd));
  }

  lemma SdmaGives(cfg: Config, l: Lists, q: Queue, rid: Option<nat>)
    requires ListInv(cfg, l)
    ensures var a := AllocSdma(cfg, l, q, rid);
      && a.lists.procs == l.procs && a.q == q.(sdmaId := a.q.sdmaId)
      && (a.ret == Ok && IsSdma(q.kind) ==> SlotGiven(FreeSlots(l, q.kind), a.q.sdmaId, rid))
  {
    hide ListInv, FreeSlots;
    AllocSdmaTakes(cfg, l, q, rid);
  }

  lemma DoorbellGives(cfg: Config, bits: set<nat>, q: Queue, rid: Option<nat>)
    requires q.kind != Diq
    ensures var d := AllocDoorbell(cfg, bits, q, rid);
      d.ret == Ok ==> DoorbellGiven(cfg, bits, d.doorbells, q, d.doorbell, rid)
  {
    hide SdmaDoorbell;
  }

  /** What the doorbell allocation asks for: with a checkpoint the right or a free doorbell, otherwise any. */
  predicate DoorbellThere(cfg: Config, bits: set<nat>, q: Queue, rid: Option<nat>) {
    if !cfg.soc15 then rid.Some? ==> rid.value == q.id
    else if IsSdma(q.kind) then rid.Some? ==> rid.value == SdmaDoorbell(cfg, q)
    else if rid.Some? then rid.value !in bits
    else exists d :: 0 <= d < 1024 && d !in bits
  }

  /**
    Which reservations fail, and how: no slot left is no memory, a requested slot that is
    taken is busy, a wrong or taken doorbell is invalid, and no doorbell left is busy.
   */
  lemma ReserveFails(cfg: Config, l: Lists, p: nat, q: Queue, qd: Option<Criu>)
    requires p in l.procs
    ensures var ret := Reserve(cfg, l, p, q, qd).ret;
      if IsSdma(q.kind) && FreeSlots(l, q.kind) == {} then ret == Enomem
      else if IsSdma(q.kind) && qd.Some? && qd.value.sdmaId !in FreeSlots(l, q.kind) then ret == Ebusy
      else if DoorbellThere(cfg, l.procs[p].doorbells, AllocSdma(cfg, l, q, SlotOf(qd)).q, DoorbellOf(qd)) then ret == Ok
      else ret == if qd.Some? then Einval else Ebusy
  {
    hide DoorbellThere, AllocDoorbell, FreeSdma, PickSlot;
    DoorbellFails(cfg, l.procs[p].doorbells, AllocSdma(cfg, l, q, SlotOf(qd)).q, DoorbellOf(qd));
  }

  lemma DoorbellFails(cfg: Config, bits: set<nat>, q: Queue, rid: Option<nat>)
    ensures AllocDoorbell(cfg, bits, q, rid).ret ==
      if DoorbellThere(cfg, bits, q, rid) then Ok else if rid.Some? then Einval else Ebusy
  {
    hide SdmaDoorbell, FindFirstZero;
  }

  /** The stages of a create: the limit, the reservation, the descriptor's memory. */
  lemma CreateFails(cfg: Config, s: State, p: nat, q: Queue, qd: Option<Criu>, mqdOk: bool, hw: Hw)
    requires Defined(s.lists) && p in s.lists.procs
    ensures var ret, a := Create(cfg, s, p, q, qd, mqdOk, hw).ret, Reserve(cfg, s.lists, p, q, qd);
      && (s.lists.total >= cfg.maxQueues ==> ret == Eperm)
      && (s.lists.total < cfg.maxQueues && a.ret != Ok ==> ret == a.ret)
      && (s.lists.total < cfg.maxQueues && a.ret == Ok && !mqdOk ==> ret == Enomem)
  {
    hide Reserve, Unreserve, CreateTail;
    ReserveShape(cfg, s.lists, p, q, qd);
  }

  /** A created queue is mapped at once, unless it is restored, incomplete or its process evicted. */
  lemma CreateMaps(cfg: Config, s: State, p: nat, q: Queue, qd: Option<Criu>, mqdOk: bool, hw: Hw)
    requires Fine(cfg, s, CreateQueue(p, q, qd, mqdOk, hw))
    requires Step(cfg, s, CreateQueue(p, q, qd, mqdOk, hw)).ret == Ok
    ensures p in s.lists.procs
    ensures IsMapped(Step(cfg, s, CreateQueue(p, q, qd, mqdOk, hw)).s, p, q.id) <==>
      qd.None? && q.size > 0 && q.address != 0 && q.percent > 0 && s.lists.procs[p].evicted == 0
  {
    hide Inv, ListInv, Steady, InOrder, Step, IsMapped, Create;
    var a := CreateQueue(p, q, qd, mqdOk, hw);
    FineStep(cfg, s, a);
    StaysUp(cfg, s, a);
    StepIs(cfg, s, a);
    InvList(cfg, s);
    CreateGives(cfg, s, p, q, qd, mqdOk, hw);
    QueueMappedIff(cfg, Step(cfg, s, a).s, p, 0);
  }

  lemma InvList(cfg: Config, s: State)
    requires Inv(cfg, s)
    ensures ListInv(cfg, s.lists)
  {
  }

  /** A destroyed queue is gone and no longer mapped. */
  lemma DestroyUnmaps(cfg: Config, s: State, p: nat, i: nat, hw: Hw)
    requires Fine(cfg, s, DestroyQueue(p, i, hw)) && HasQueue(s.lists, p, i)
    requires !s.lists.procs[p].isDebug && !(s.lists.procs[p].trapEnabled && s.lists.procs[p].queues[i].suspended)
    ensures var t := Step(cfg, s, DestroyQueue(p, i, hw)).s;
      && p in t.lists.procs && t.lists.procs[p].queues == RemoveAt(s.lists.procs[p].queues, i)
      && !IsMapped(t, p, s.lists.procs[p].queues[i].id)
  {
    hide Inv, Listed, Sound, Coherent, InOrder, Step, IsMapped, HasActive, Destroy, ProcInv;
    var a := DestroyQueue(p, i, hw);
    FineStep(cfg, s, a);
    StepIs(cfg, s, a);
    ListedQueue(cfg, s, p, i);
    DestroyedQueue(cfg, s, p, i, hw);
    GoneInactive(cfg, s.lists.procs[p], i);
    SameActive(s.lists.procs[p], Step(cfg, s, a).s.lists.procs[p], i);
    MappedIff(Step(cfg, s, a).s, p, s.lists.procs[p].queues[i].id);
  }

  lemma DestroyedQueue(cfg: Config, s: State, p: nat, i: nat, hw: Hw)
    requires Defined(s.lists) && HasQueue(s.lists, p, i)
    requires !s.lists.procs[p].isDebug && !(s.lists.procs[p].trapEnabled && s.lists.procs[p].queues[i].suspended)
    ensures var r := Destroy(cfg, s, p, i, hw).s.lists;
      && r.nodes == s.lists.nodes && p in r.procs
      && r.procs[p].queues == RemoveAt(s.lists.procs[p].queues, i) && r.procs[p].kernelQueues == s.lists.procs[p].kernelQueues
  {
    hide DestroyNow;
    var m := PutQueue(s.lists, p, i, s.lists.procs[p].queues[i].(beingDestroyed := true));
    DestroyShape(cfg, s.(lists := m), p, i, hw);
    assert RemoveAt(m.procs[p].queues, i) == RemoveAt(s.lists.procs[p].queues, i);
  }

  /** Without the queue, its name means nothing. */
  lemma GoneInactive(cfg: Config, pr: Proc, i: nat)
    requires ProcInv(cfg, pr) && i < |pr.queues|
    ensures forall x <- RemoveAt(pr.queues, i) :: x.id != pr.queues[i].id
    ensures forall x <- pr.kernelQueues :: x.id != pr.queues[i].id
  {
    hide ProcInv;
    var r := RemoveAt(pr.queues, i);
    forall x | x in r ensures x.id != pr.queues[i].id {
      var j :| 0 <= j < |r| && r[j] == x;
      if x.id == pr.queues[i].id {
        UniqueName(cfg, pr, i, if j < i then j else j + 1);
      }
    }
    forall x | x in pr.kernelQueues ensures x.id != pr.queues[i].id {
      var j :| 0 <= j < |pr.kernelQueues| && pr.kernelQueues[j] == x;
      NamesApart(cfg, pr, i, j);
    }
  }

  lemma SameActive(pr: Proc, pr1: Proc, i: nat)
    requires i < |pr.queues| && pr1.queues == RemoveAt(pr.queues, i) && pr1.kernelQueues == pr.kernelQueues
    requires forall x <- RemoveAt(pr.queues, i) :: x.id != pr.queues[i].id
    requires forall x <- pr.kernelQueues :: x.id != pr.queues[i].id
    ensures !HasActive(pr1, pr.queues[i].id)
  {
  }
}

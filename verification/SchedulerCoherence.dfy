/**
  Runlist coherence: an active runlist maps exactly the active queues of the
  registered processes, and a running scheduler with an active queue has one.
 */
module SchedulerCoherence {
  import opened Basics
  import opened Queues
  import opened RunlistIb
  import opened Scheduler
  import opened SchedulerInvariant
  import opened SchedulerSteps
  import opened SchedulerRuns
  import opened SchedulerSound

  ghost predicate Coherent(l: Lists, sc: Sched)
    requires forall n <- l.nodes :: n in l.procs
  {
    && (sc.activeRunlist ==> MappedQueues(sc.runlist) == ActiveQueues(l.nodes, l.procs))
    && (sc.running && ActiveQueues(l.nodes, l.procs) != [] ==> sc.activeRunlist)
    && (!sc.running ==> !sc.activeRunlist)
  }

  // ----- active queues as a list

  lemma {:induction false} ActiveInCount(pid: nat, qs: seq<Queue>)
    ensures |ActiveIn(pid, qs)| == SumQ(Active, qs)
  {
    if qs != [] {
      ActiveInCount(pid, qs[..|qs| - 1]);
    }
  }

  lemma {:induction false} ActiveQueuesCount(nodes: seq<nat>, procs: map<nat, Proc>)
    requires forall n <- nodes :: n in procs
    ensures |ActiveQueues(nodes, procs)| == Sum(Active, nodes, procs)
  {
    if nodes != [] {
      var n := |nodes| - 1;
      ActiveQueuesCount(nodes[..n], procs);
      SumSnoc(Active, nodes, procs);
      ActiveInCount(nodes[n], procs[nodes[n]].kernelQueues);
      ActiveInCount(nodes[n], procs[nodes[n]].queues);
    }
  }

  lemma {:induction false} ActiveQueuesConcat(a: seq<nat>, b: seq<nat>, procs: map<nat, Proc>)
    requires forall n <- a :: n in procs
    requires forall n <- b :: n in procs
    ensures ActiveQueues(a + b, procs) == ActiveQueues(a, procs) + ActiveQueues(b, procs)
  {
    hide ActiveOf;
    if b == [] {
      assert a + b == a;
    } else {
      ActiveQueuesConcat(a, b[..|b| - 1], procs);
      assert (a + b)[..|a + b| - 1] == a + b[..|b| - 1];
    }
  }

  lemma ActiveQueuesCons(n: nat, b: seq<nat>, procs: map<nat, Proc>)
    requires n in procs && (forall m <- b :: m in procs)
    requires ActiveOf(n, procs[n]) == []
    ensures ActiveQueues([n] + b, procs) == ActiveQueues(b, procs)
  {
    ActiveQueuesConcat([n], b, procs);
    assert [n][..0] == [];
    assert ActiveQueues([n], procs) == ActiveQueues([], procs) + ActiveOf(n, procs[n]);
  }

  /** A process with no active queue can come and go without being noticed. */
  lemma ActiveQueuesWithout(nodes: seq<nat>, procs: map<nat, Proc>, i: nat)
    requires forall n <- nodes :: n in procs
    requires i < |nodes| && ActiveOf(nodes[i], procs[nodes[i]]) == []
    ensures ActiveQueues(RemoveAt(nodes, i), procs) == ActiveQueues(nodes, procs)
  {
    hide ActiveQueues, ActiveOf;
    var a, b := nodes[..i], nodes[i + 1..];
    assert nodes == a + ([nodes[i]] + b);
    ActiveQueuesConcat(a, [nodes[i]] + b, procs);
    ActiveQueuesCons(nodes[i], b, procs);
    ActiveQueuesConcat(a, b, procs);
  }

  /** One process changes, but not which of its queues are active. */
  lemma {:induction false} ActiveQueuesFrame(nodes: seq<nat>, procs: map<nat, Proc>, p: nat, x: Proc)
    requires forall n <- nodes :: n in procs
    requires p in nodes ==> ActiveOf(p, x) == ActiveOf(p, procs[p])
    ensures ActiveQueues(nodes, procs[p := x]) == ActiveQueues(nodes, procs)
  {
    if nodes != [] {
      ActiveQueuesFrame(nodes[..|nodes| - 1], procs, p, x);
    }
  }

  lemma {:induction false} ActiveInConcat(pid: nat, a: seq<Queue>, b: seq<Queue>)
    ensures ActiveIn(pid, a + b) == ActiveIn(pid, a) + ActiveIn(pid, b)
  {
    if b == [] {
      assert a + b == a;
    } else {
      ActiveInConcat(pid, a, b[..|b| - 1]);
      assert (a + b)[..|a + b| - 1] == a + b[..|b| - 1];
    }
  }

  lemma {:induction false} ActiveInSame(pid: nat, a: seq<Queue>, b: seq<Queue>)
    requires |a| == |b|
    requires forall i :: 0 <= i < |a| ==> a[i].active == b[i].active && a[i].id == b[i].id
    ensures ActiveIn(pid, a) == ActiveIn(pid, b)
  {
    if a != [] {
      ActiveInSame(pid, a[..|a| - 1], b[..|b| - 1]);
    }
  }

  lemma ActiveInOne(pid: nat, q: Queue)
    requires !q.active
    ensures ActiveIn(pid, [q]) == []
  {
    assert [q][..0] == [];
    assert ActiveIn(pid, [q]) == ActiveIn(pid, []) + [];
  }

  lemma ActiveInCons(pid: nat, q: Queue, qs: seq<Queue>)
    requires !q.active
    ensures ActiveIn(pid, [q] + qs) == ActiveIn(pid, qs)
  {
    ActiveInOne(pid, q);
    ActiveInConcat(pid, [q], qs);
  }

  lemma ActiveInRemove(pid: nat, qs: seq<Queue>, i: nat)
    requires i < |qs| && !qs[i].active
    ensures ActiveIn(pid, RemoveAt(qs, i)) == ActiveIn(pid, qs)
  {
    assert qs == qs[..i] + ([qs[i]] + qs[i + 1..]);
    ActiveInConcat(pid, qs[..i], [qs[i]] + qs[i + 1..]);
    ActiveInCons(pid, qs[i], qs[i + 1..]);
    ActiveInConcat(pid, qs[..i], qs[i + 1..]);
  }

  // ----- a successful execute restores coherence, whatever was there before

  predicate Good(hw: Hw) { hw.preempt == Preempted && hw.send == Sent }

  lemma MapCoheres(cfg: Config, l: Lists, sc: Sched, m: MapOutcome)
    requires ListInv(cfg, l) && Sound(l) && SchedInv(sc) && !sc.activeRunlist
    requires Map(cfg, l, sc, m).ret == Ok
    ensures Coherent(l, Map(cfg, l, sc, m).sched)
  {
    hide CountersAgree, ProcInv, Sound, Sum, RunlistPackets;
    ActiveCounted(cfg, l);
    ActiveQueuesCount(l.nodes, l.procs);
    MappedInRunlist(l.nodes, l.procs, l.processes, l.tally, cfg.layout);
  }

  /**
    Whatever failed earlier and however stale the previous runlist is, an execute that
    succeeds on a running scheduler leaves a runlist of exactly the active queues.
   */
  lemma ExecuteCoheres(cfg: Config, l: Lists, sc: Sched, hw: Hw)
    requires ListInv(cfg, l) && Sound(l) && SchedInv(sc) && sc.running
    requires Execute(cfg, l, sc, hw).ret == Ok
    ensures Coherent(l, Execute(cfg, l, sc, hw).sched)
  {
    hide Map, ListInv, Coherent, Sound;
    UnmapKeeps(sc, hw.preempt);
    MapCoheres(cfg, l, Unmap(sc, hw.preempt).sched, hw.send);
  }

  lemma GoodExecuteCoheres(cfg: Config, l: Lists, sc: Sched, hw: Hw)
    requires ListInv(cfg, l) && Sound(l) && SchedInv(sc) && Good(hw) && Healthy(sc)
    requires !sc.running ==> !sc.activeRunlist
    ensures Execute(cfg, l, sc, hw).ret == Ok
    ensures Coherent(l, Execute(cfg, l, sc, hw).sched)
  {
    if sc.running {
      hide ListInv, Sound, Coherent, Execute;
      DefinedList(cfg, l);
      GoodExecuteSucceeds(cfg, l, sc, hw);
      ExecuteCoheres(cfg, l, sc, hw);
    }
  }

  lemma DefinedList(cfg: Config, l: Lists)
    requires ListInv(cfg, l)
    ensures Defined(l)
  {
  }

  lemma GoodExecuteSucceeds(cfg: Config, l: Lists, sc: Sched, hw: Hw)
    requires Defined(l) && SchedInv(sc) && Good(hw) && Healthy(sc) && sc.running
    ensures Execute(cfg, l, sc, hw).ret == Ok
  {
    hide Packets;
    ReleaseKeeps(sc);
  }

  // ----- steps

  /** No map, unmap or resource packet fails in this step, and it is not the RAS queue reset. */
  predicate Smooth(s: State, a: Action) {
    && !a.ResetQueues?
    && (a.TrapVmid? ==> a.resourcesOk)
    && (HwOf(a).Some? ==> Good(HwOf(a).value) && (a.Start? || Healthy(s.sched)))
  }

  ghost predicate Steady(s: State) {
    Listed(s.lists) && Sound(s.lists) && Coherent(s.lists, s.sched)
  }

  /** Steady, with the invariant, and nothing in the way of mapping. */
  ghost predicate Ready(cfg: Config, s: State, hw: Hw) {
    Inv(cfg, s) && Steady(s) && Good(hw) && Healthy(s.sched)
  }

  lemma SteadyStopped(s: State)
    requires Steady(s)
    ensures !s.sched.running ==> !s.sched.activeRunlist
  {
  }

  /** The lists change, the scheduler does not, and neither do the active queues. */
  lemma UnchangedCoheres(l: Lists, l': Lists, sc: Sched)
    requires Defined(l) && Defined(l') && Coherent(l, sc)
    requires ActiveQueues(l'.nodes, l'.procs) == ActiveQueues(l.nodes, l.procs)
    ensures Coherent(l', sc)
  {
  }

  /** One process's record changes without affecting which queues are active. */
  lemma PutCoheres(l: Lists, p: nat, l': Lists, sc: Sched)
    requires Defined(l) && Coherent(l, sc) && p in l'.procs
    requires l'.nodes == l.nodes && l'.procs == l.procs[p := l'.procs[p]]
    requires p in l.nodes ==> ActiveOf(p, l'.procs[p]) == ActiveOf(p, l.procs[p])
    ensures Defined(l') && Coherent(l', sc)
  {
    hide ActiveOf;
    ActiveQueuesFrame(l.nodes, l.procs, p, l'.procs[p]);
  }

  lemma ThenCoheres(cfg: Config, l: Lists, sc: Sched, hw: Hw)
    requires ListInv(cfg, l) && Sound(l) && SchedInv(sc) && Good(hw) && Healthy(sc)
    requires !sc.running ==> !sc.activeRunlist
    ensures Steady(Then(cfg, l, sc, hw).s) && Then(cfg, l, sc, hw).ret == Ok
  {
    hide CountersAgree, ProcInv, Sound, Execute, Coherent;
    GoodExecuteCoheres(cfg, l, sc, hw);
  }

  /** An unmap and a map with nothing failing in between. */
  lemma RemapCoheres(cfg: Config, l: Lists, sc: Sched, hw: Hw, reserved: bool)
    requires ListInv(cfg, l) && Sound(l) && SchedInv(sc) && Good(hw) && Healthy(sc)
    requires !sc.running ==> !sc.activeRunlist
    ensures var u := Unmap(sc, hw.preempt);
      && u.ret == Ok
      && Coherent(l, Map(cfg, l, u.sched, hw.send).sched)
      && Coherent(l, Map(cfg, l, u.sched.(trapVmid := reserved), hw.send).sched)
  {
    GoodExecuteCoheres(cfg, l, sc, hw);
    hide ListInv, Sound;
    GoodExecuteCoheresTrap(cfg, l, sc, hw, reserved);
  }

  lemma GoodExecuteCoheresTrap(cfg: Config, l: Lists, sc: Sched, hw: Hw, reserved: bool)
    requires ListInv(cfg, l) && Sound(l) && SchedInv(sc) && Good(hw) && Healthy(sc)
    requires !sc.running ==> !sc.activeRunlist
    ensures Coherent(l, Map(cfg, l, Unmap(sc, hw.preempt).sched.(trapVmid := reserved), hw.send).sched)
  {
    var sc1 := sc.(trapVmid := reserved);
    assert SchedInv(sc1);
    GoodExecuteCoheres(cfg, l, sc1, hw);
    assert Unmap(sc1, hw.preempt).sched == Unmap(sc, hw.preempt).sched.(trapVmid := reserved);
  }

  lemma MarkCoheres(l: Lists, p: nat, i: nat, q: Queue, sc: Sched)
    requires Steady(State(l, sc)) && HasQueue(l, p, i)
    requires q.active == l.procs[p].queues[i].active && q.id == l.procs[p].queues[i].id
    ensures Steady(State(PutQueue(l, p, i, q), sc))
  {
    MarkSound(l, p, i, q);
    hide Sound, Coherent;
    var l' := PutQueue(l, p, i, q);
    ActiveInSame(p, l'.procs[p].queues, l.procs[p].queues);
    PutCoheres(l, p, l', sc);
  }

  lemma MarkStepCoheres(s: State, a: Action)
    requires Steady(s) && IsMark(a) && MarkEnabled(s.lists, a)
    ensures Steady(MarkStep(s, a).s)
  {
    hide Steady, PutQueue;
    MarkCoheres(s.lists, a.p, a.i, Marked(s.lists.procs[a.p].queues[a.i], a), s.sched);
  }

  lemma ProcessStepCoheres(cfg: Config, s: State, a: Action)
    requires Inv(cfg, s) && Steady(s) && IsProcess(a) && ProcessEnabled(s.lists, a)
    requires a.Register? && a.allocOk ==> a.p !in s.lists.nodes
    ensures Steady(ProcessStep(cfg, s, a).s)
  {
    ProcessStepKeeps(cfg, s, a);
    ProcessSoundIff(cfg, s, a);
    hide CountersAgree, ProcInv, SchedInv, Sound, Coherent, ActiveOf;
    var l, l' := s.lists, ProcessStep(cfg, s, a).s.lists;
    match a
    case Register(p, allocOk) =>
      if allocOk {
        NothingActive(p, l.procs[p]);
        ActiveQueuesCons(p, l.nodes, l.procs);
        UnchangedCoheres(l, l', s.sched);
      }
    case Unregister(p) =>
      if p in l.nodes {
        NothingActive(p, l.procs[p]);
        ActiveQueuesWithout(l.nodes, l.procs, IndexOf(l.nodes, p));
        UnchangedCoheres(l, l', s.sched);
      }
    case Drain(p) =>
      NotListed(l, p);
      PutCoheres(l, p, l', s.sched);
    case NewProcess(p) => PutCoheres(l, p, l', s.sched);
    case AcquireVm(p) => SameActive(p, l.procs[p], l'.procs[p]); PutCoheres(l, p, l', s.sched);
    case SetTrap(p, _) => SameActive(p, l.procs[p], l'.procs[p]); PutCoheres(l, p, l', s.sched);
  }

  lemma NothingActive(p: nat, pr: Proc)
    requires NoQueues(pr)
    ensures ActiveOf(p, pr) == []
  {
  }

  lemma SameActive(p: nat, pr: Proc, x: Proc)
    requires x.queues == pr.queues && x.kernelQueues == pr.kernelQueues
    ensures ActiveOf(p, x) == ActiveOf(p, pr)
  {
  }

  /** A sound list names no terminated process. */
  lemma NotListed(l: Lists, p: nat)
    requires Listed(l) && Sound(l) && p in l.procs && l.procs[p].terminated
    ensures p !in l.nodes
  {
  }

  lemma CreateStepCoheres(cfg: Config, s: State, p: nat, q: Queue, qd: Option<Criu>, mqdOk: bool, hw: Hw)
    requires Ready(cfg, s, hw) && Alive(s.lists, p) && s.lists.procs[p].vmAcquired && q.kind != Diq
    requires FreshQueue(s.lists, p, q)
    requires Create(cfg, s, p, q, qd, mqdOk, hw).ret == Ok ==> p in s.lists.nodes
    ensures Steady(Create(cfg, s, p, q, qd, mqdOk, hw).s)
  {
    hide Reserve, CountersAgree, ProcInv, Execute, Coherent, Sound, CreateTail;
    var a := Reserve(cfg, s.lists, p, q, qd);
    ReserveUndone(cfg, s.lists, p, q, qd);
    if s.lists.total < cfg.maxQueues && a.ret == Ok && mqdOk {
      CreateTailSucceeds(cfg, s.(lists := a.lists), p, InitQueue(s.lists.procs[p], a.q, qd.Some?), hw);
      CreateTailCoheres(cfg, s, p, q, qd, hw);
    } else {
      CreateAllOrNothing(cfg, s, p, q, qd, mqdOk, hw);
    }
  }

  /** With nothing failing, the locked tail of a create goes through. */
  lemma CreateTailSucceeds(cfg: Config, s: State, p: nat, q: Queue, hw: Hw)
    requires Defined(s.lists) && p in s.lists.procs && SchedInv(s.sched) && Good(hw) && Healthy(s.sched)
    ensures CreateTail(cfg, s, p, q, hw).ret == Ok
  {
    hide Execute, SchedInv;
    if q.active {
      UnlistedExecute(cfg, Link(s.lists, p, q), s.sched, hw);
    }
  }

  lemma CreateTailCoheres(cfg: Config, s: State, p: nat, q: Queue, qd: Option<Criu>, hw: Hw)
    requires Ready(cfg, s, hw) && Alive(s.lists, p) && s.lists.procs[p].vmAcquired && q.kind != Diq
    requires p in s.lists.nodes && FreshQueue(s.lists, p, q) && Reserve(cfg, s.lists, p, q, qd).ret == Ok
    ensures var a := Reserve(cfg, s.lists, p, q, qd);
      && p in a.lists.procs && Defined(a.lists)
      && Steady(CreateTail(cfg, s.(lists := a.lists), p, InitQueue(s.lists.procs[p], a.q, qd.Some?), hw).s)
  {
    hide Reserve, CountersAgree, ProcInv, SchedInv, Execute, Coherent, Sound, FreshQueue, Unreserve, Unlink;
    var l := s.lists;
    var a := Reserve(cfg, l, p, q, qd);
    ReserveUndone(cfg, l, p, q, qd);
    ReserveTakes(cfg, l, p, q, qd);
    CreateKeeps(cfg, l, p, q, qd);
    var q1 := InitQueue(l.procs[p], a.q, qd.Some?);
    var l1 := Link(a.lists, p, q1);
    var l2 := l1.(total := l1.total + 1);
    PutTwice(l, p, a.lists.procs[p], l2.procs[p]);
    SoundPut(l, p, l2);
    ExecuteIgnoresTotal(cfg, l1, s.sched, hw);
    LinkedCoheres(cfg, s, l2, p, q1, hw);
  }

  /** The linked queue is scheduled with the others, or is not active. */
  lemma LinkedCoheres(cfg: Config, s: State, l: Lists, p: nat, q: Queue, hw: Hw)
    requires Ready(cfg, s, hw) && p in s.lists.procs && p in l.procs && ListInv(cfg, l) && Sound(l)
    requires l.nodes == s.lists.nodes && l.procs == s.lists.procs[p := l.procs[p]]
    requires l.procs[p].queues == [q] + s.lists.procs[p].queues
    requires l.procs[p].kernelQueues == s.lists.procs[p].kernelQueues
    ensures Defined(l)
    ensures q.active ==> Execute(cfg, l, s.sched, hw).ret == Ok && Steady(State(l, Execute(cfg, l, s.sched, hw).sched))
    ensures !q.active ==> Steady(State(l, s.sched))
  {
    hide CountersAgree, ProcInv, Execute, Coherent, Sound;
    SteadyStopped(s);
    if q.active {
      GoodExecuteCoheres(cfg, l, s.sched, hw);
    } else {
      ActiveInCons(p, q, s.lists.procs[p].queues);
      PutCoheres(s.lists, p, l, s.sched);
    }
  }

  /** The total count plays no part in scheduling. */
  lemma ExecuteIgnoresTotal(cfg: Config, l: Lists, sc: Sched, hw: Hw)
    requires Defined(l)
    ensures Execute(cfg, l, sc, hw) == Execute(cfg, l.(total := l.total + 1), sc, hw)
  {
  }

  lemma UnlistedExecute(cfg: Config, l: Lists, sc: Sched, hw: Hw)
    requires Defined(l) && SchedInv(sc) && Good(hw) && Healthy(sc)
    ensures Execute(cfg, l, sc, hw).ret == Ok
  {
    if sc.running {
      GoodExecuteSucceeds(cfg, l, sc, hw);
    }
  }

  lemma KernelStepCoheres(cfg: Config, s: State, p: nat, q: Queue, i: nat, hw: Hw)
    requires Ready(cfg, s, hw) && Alive(s.lists, p)
    ensures q.kind == Diq && q.active && FreshQueue(s.lists, p, q) && (s.lists.total < cfg.maxQueues ==> p in s.lists.nodes)
        ==> Steady(AddKernelStep(cfg, s, p, q, hw).s)
    ensures i < |s.lists.procs[p].kernelQueues| ==> Steady(RemoveKernelStep(cfg, s, p, i, hw).s)
  {
    hide CountersAgree, ProcInv, Execute, Sound, Coherent, LinkKernel, UnlinkKernel;
    SteadyStopped(s);
    var l := s.lists;
    if q.kind == Diq && q.active && FreshQueue(l, p, q) && p in l.nodes {
      LinkKernelKeeps(cfg, l, p, q);
      AddKernelSoundIff(cfg, s, p, q, hw);
      ThenCoheres(cfg, LinkKernel(l, p, q), s.sched, hw);
    }
    if i < |l.procs[p].kernelQueues| {
      UnlinkKernelKeeps(cfg, l, p, i);
      RemoveKernelSound(cfg, s, p, i, hw);
      ThenCoheres(cfg, UnlinkKernel(l, p, i), s.sched, hw);
    }
  }

  lemma DestroyNowCoheres(cfg: Config, s: State, p: nat, i: nat, hw: Hw)
    requires Ready(cfg, s, hw) && HasQueue(s.lists, p, i)
    ensures Steady(DestroyNow(cfg, s, p, i, hw).s)
  {
    hide CountersAgree, ProcInv, Execute, Coherent, Sound, DestroyLists;
    SteadyStopped(s);
    var pr := s.lists.procs[p];
    if !pr.isDebug {
      var l := DestroyLists(cfg, s.lists, p, i);
      DestroyKeeps(cfg, s.lists, p, i);
      DestroyNowSound(cfg, s, p, i, hw);
      if pr.queues[i].active {
        ThenCoheres(cfg, l, s.sched, hw);
      } else {
        UnlinkShape(cfg, s.lists, p, i);
        ActiveInRemove(p, pr.queues, i);
        PutCoheres(s.lists, p, l, s.sched);
      }
    }
  }

  lemma MarkDestroyCoheres(cfg: Config, s: State, p: nat, i: nat, q: Queue, hw: Hw)
    requires Ready(cfg, s, hw) && HasQueue(s.lists, p, i)
    requires var o := s.lists.procs[p].queues[i];
      q == o.(beingDestroyed := q.beingDestroyed, destroyWait := q.destroyWait) && QueueInv(s.lists.procs[p].evicted, q)
    ensures var m := s.(lists := PutQueue(s.lists, p, i, q));
      Steady(m) && Steady(DestroyNow(cfg, m, p, i, hw).s)
  {
    hide CountersAgree, ProcInv, DestroyNow, Steady, QueueInv, SchedInv;
    MarkCoheres(s.lists, p, i, q, s.sched);
    MarkKeeps(cfg, s.lists, p, i, q);
    DestroyNowCoheres(cfg, s.(lists := PutQueue(s.lists, p, i, q)), p, i, hw);
  }

  lemma DestroyStepCoheres(cfg: Config, s: State, p: nat, i: nat, hw: Hw)
    requires Ready(cfg, s, hw) && HasQueue(s.lists, p, i)
    ensures s.lists.procs[p].queues[i].destroyWait == Idle ==> Steady(Destroy(cfg, s, p, i, hw).s)
    ensures Steady(FinishStep(cfg, s, p, i, hw).s)
  {
    hide CountersAgree, ProcInv, SchedInv, DestroyNow, Steady, PutQueue;
    MemberInv(cfg, s.lists, p, i);
    var q := s.lists.procs[p].queues[i];
    MarkDestroyCoheres(cfg, s, p, i, q.(destroyWait := Idle), hw);
    if q.destroyWait == Idle {
      MarkDestroyCoheres(cfg, s, p, i, q.(beingDestroyed := true, destroyWait := Waiting), hw);
      MarkDestroyCoheres(cfg, s, p, i, q.(beingDestroyed := true), hw);
    }
  }

  lemma UpdateStepCoheres(cfg: Config, s: State, p: nat, i: nat, hw: Hw)
    requires Ready(cfg, s, hw) && HasQueue(s.lists, p, i)
    ensures Steady(UpdateStep(cfg, s, p, i, hw).s)
  {
    hide CountersAgree, ProcInv, Sound, Coherent, Map, Unmap, UpdateLists, SameLengths;
    SteadyStopped(s);
    var l := UpdateLists(s.lists, p, i);
    UpdateKeeps(cfg, s.lists, p, i);
    UpdateLengths(cfg, s, p, i, hw);
    SoundSameLengths(s.lists, l);
    RemapCoheres(cfg, l, s.sched, hw, false);
  }

  lemma EvictStepCoheres(cfg: Config, s: State, p: nat, hw: Hw)
    requires Ready(cfg, s, hw) && Alive(s.lists, p)
    ensures Steady(EvictStep(cfg, s, p, hw).s)
  {
    hide CountersAgree, ProcInv, WalkProc, Execute, Coherent, Sound, SameLengths;
    SteadyStopped(s);
    EvictKeeps(cfg, s.lists, p);
    WalkLengths(cfg, s, p, hw);
    var l := EvictLists(s.lists, p);
    SoundSameLengths(s.lists, l);
    if EvictActs(s.lists.procs[p]) {
      ThenCoheres(cfg, l, s.sched, hw);
    } else {
      PutCoheres(s.lists, p, l, s.sched);
    }
  }

  lemma RestoreStepCoheres(cfg: Config, s: State, p: nat, hw: Hw)
    requires Ready(cfg, s, hw) && Alive(s.lists, p)
    ensures Steady(RestoreStep(cfg, s, p, hw).s)
  {
    hide CountersAgree, ProcInv, WalkProc, Execute, Coherent, Sound, SameLengths;
    SteadyStopped(s);
    RestoreKeeps(cfg, s.lists, p);
    WalkLengths(cfg, s, p, hw);
    var l := RestoreLists(s.lists, p);
    SoundSameLengths(s.lists, l);
    if RestoreActs(s.lists.procs[p]) {
      ThenCoheres(cfg, l, s.sched, hw);
    } else if s.lists.procs[p].evicted > 0 {
      PutCoheres(s.lists, p, l, s.sched);
    }
  }

  /** A walk that handles no queue changes nothing. */
  lemma {:induction false} NoHitsNoChange(w: Walk, qs: seq<Queue>)
    requires w.SuspendIn? || w.ResumeIn? || w.ResumeAll?
    requires Hits(w, qs) == 0
    ensures WalkQueues(w, qs) == qs
  {
    if qs != [] {
      NoHitsNoChange(w, qs[..|qs| - 1]);
    }
  }

  /** A debugger's walk over a process, and the execute that follows if it handled any queue. */
  lemma WalkCoheres(cfg: Config, s: State, p: nat, w: Walk, hw: Hw)
    requires Ready(cfg, s, hw) && Alive(s.lists, p)
    requires w.SuspendIn? || w.ResumeIn? || w.ResumeAll?
    ensures var l := WalkProc(w, s.lists, p);
      && Defined(l)
      && (Hits(w, s.lists.procs[p].queues) == 0 ==> Steady(s.(lists := l)))
      && Steady(Then(cfg, l, s.sched, hw).s)
  {
    hide CountersAgree, ProcInv, Execute, Coherent, Sound, SameLengths;
    SteadyStopped(s);
    var l := WalkProc(w, s.lists, p);
    SuspendResumeKeeps(cfg, s.lists, p, w);
    WalkProcLengths(w, s.lists, p);
    SoundSameLengths(s.lists, l);
    ThenCoheres(cfg, l, s.sched, hw);
    if Hits(w, s.lists.procs[p].queues) == 0 {
      NoHitsNoChange(w, s.lists.procs[p].queues);
      PutCoheres(s.lists, p, l, s.sched);
    }
  }

  lemma ClearNewCoheres(l: Lists, p: nat, ids: set<nat>, sc: Sched)
    requires p in l.procs && Steady(State(l, sc))
    ensures Steady(State(Put(l, p, l.procs[p].(queues := ClearNew(l.procs[p].queues, ids))), sc))
  {
    var l' := Put(l, p, l.procs[p].(queues := ClearNew(l.procs[p].queues, ids)));
    PutSameLengths(l, p, l');
    SoundSameLengths(l, l');
    hide Sound, Coherent;
    ActiveInSame(p, l'.procs[p].queues, l.procs[p].queues);
    PutCoheres(l, p, l', sc);
  }

  lemma SuspendStepCoheres(cfg: Config, s: State, p: nat, ids: set<nat>, clearNew: bool, hw: Hw)
    requires Ready(cfg, s, hw) && Alive(s.lists, p)
    ensures Steady(SuspendStep(cfg, s, p, ids, clearNew, hw).s)
  {
    WalkCoheres(cfg, s, p, SuspendIn(ids), hw);
    hide Inv, Steady, Execute, Hits, WalkQueues, WalkTallies, ClearNew;
    var l := WalkProc(SuspendIn(ids), s.lists, p);
    ClearNewCoheres(l, p, ids, Then(cfg, l, s.sched, hw).s.sched);
  }

  lemma ResumeStepCoheres(cfg: Config, s: State, p: nat, which: Option<set<nat>>, hw: Hw)
    requires Ready(cfg, s, hw) && Alive(s.lists, p)
    ensures Steady(ResumeStep(cfg, s, p, which, hw).s)
  {
    WalkCoheres(cfg, s, p, if which.Some? then ResumeIn(which.value) else ResumeAll, hw);
    hide Inv, Steady, Then, Hits, WalkProc;
  }

  lemma TerminateStepCoheres(cfg: Config, s: State, p: nat, hw: Hw)
    requires Ready(cfg, s, hw) && Alive(s.lists, p)
    ensures Steady(TerminateStep(cfg, s, p, hw).s)
  {
    hide CountersAgree, ProcInv, Execute, TerminateLists, Sound, Coherent, ActiveOf;
    SteadyStopped(s);
    var l := TerminateLists(cfg, s.lists, p);
    TerminateKeeps(cfg, s.lists, p);
    TerminateKeepsKeys(cfg, s.lists, p);
    TerminateSound(cfg, s, p, hw);
    ThenCoheres(cfg, l, s.sched, hw);
    ResetFlagCoheres(l, p, Then(cfg, l, s.sched, hw).s.sched);
  }

  lemma ResetFlagCoheres(l: Lists, p: nat, sc: Sched)
    requires p in l.procs && Steady(State(l, sc))
    ensures Steady(State(Put(l, p, l.procs[p].(resetWavefronts := false)), sc))
  {
    var l' := Put(l, p, l.procs[p].(resetWavefronts := false));
    PutSameLengths(l, p, l');
    SoundSameLengths(l, l');
    hide Sound, Coherent, ActiveOf;
    SameActive(p, l.procs[p], l'.procs[p]);
    PutCoheres(l, p, l', sc);
  }

  lemma ControlCoheres(cfg: Config, s: State, hw: Hw)
    requires Ready(cfg, s, hw)
    ensures Steady(StopStep(s, hw).s) && Steady(RefreshStep(cfg, s, hw).s)
  {
    SteadyStopped(s);
    RemapCoheres(cfg, s.lists, s.sched, hw, false);
    ReleaseKeeps(s.sched);
    hide ListInv, Sound, Map, ActiveQueues;
  }

  /** A start that fails for lack of resources leaves the scheduler as it was. */
  lemma StartFailsCoheres(cfg: Config, s: State, hw: Hw)
    requires Steady(s) && !s.sched.running
    ensures Steady(StartStep(cfg, s, false, hw).s)
  {
  }

  /**
    The debug trap VMID: with nothing else failing, the scheduler stays coherent exactly if
    the new resources were accepted, it is stopped, or there is nothing to map. Otherwise
    a running scheduler is left with active queues and no runlist.
   */
  lemma TrapVmidCoheresIff(cfg: Config, s: State, reserve: bool, resourcesOk: bool, hw: Hw)
    requires Ready(cfg, s, hw) && s.sched.trapVmid != reserve
    ensures Defined(s.lists)
    ensures Steady(TrapVmidStep(cfg, s, reserve, resourcesOk, hw).s)
       <==> resourcesOk || !s.sched.running || ActiveQueues(s.lists.nodes, s.lists.procs) == []
  {
    SteadyStopped(s);
    RemapCoheres(cfg, s.lists, s.sched, hw, reserve);
    ReleaseKeeps(s.sched);
    hide ListInv, Sound, Map, ActiveQueues;
  }

  lemma PreResetCoheres(s: State)
    requires Steady(s)
    ensures Steady(s.(sched := s.sched.(resetting := true)))
  {
  }

  lemma StepCoheres(cfg: Config, s: State, a: Action)
    requires Inv(cfg, s) && Steady(s) && Enabled(s, a) && Smooth(s, a) && InOrder(cfg, s, a)
    ensures Steady(Step(cfg, s, a).s)
  {
    hide Inv, Sound, Coherent, MarkStep, ProcessStep, Create, AddKernelStep, RemoveKernelStep, Destroy, FinishStep,
         UpdateStep, EvictStep, RestoreStep, SuspendStep, ResumeStep, TerminateStep, StartStep, StopStep, RefreshStep,
         TrapVmidStep, ResetStep, FreshQueue, MarkEnabled, ProcessEnabled;
    if IsMark(a) {
      MarkStepCoheres(s, a);
    } else if IsProcess(a) {
      ProcessStepCoheres(cfg, s, a);
    } else {
      hide Step;
      OperationCoheres(cfg, s, a);
    }
  }

  lemma QueueOperationCoheres(cfg: Config, s: State, a: Action)
    requires Inv(cfg, s) && Steady(s) && Enabled(s, a) && Smooth(s, a) && InOrder(cfg, s, a)
    requires a.CreateQueue? || a.CreateKernelQueue? || a.DestroyKernelQueue? || a.DestroyQueue? || a.DestroyFinish?
          || a.UpdateQueue?
    ensures Steady(Step(cfg, s, a).s)
  {
    hide Inv, Sound, Coherent, Listed, MarkStep, ProcessStep, Create, AddKernelStep, RemoveKernelStep, Destroy, FinishStep,
         UpdateStep, EvictStep, RestoreStep, SuspendStep, ResumeStep, TerminateStep, StartStep, StopStep, RefreshStep,
         TrapVmidStep, ResetStep, FreshQueue;
    match a
    case CreateQueue(p, q, qd, mqdOk, hw) => CreateStepCoheres(cfg, s, p, q, qd, mqdOk, hw);
    case CreateKernelQueue(p, q, hw) => KernelStepCoheres(cfg, s, p, q, 0, hw);
    case DestroyKernelQueue(p, i, hw) => KernelStepCoheres(cfg, s, p, s.lists.procs[p].kernelQueues[i], i, hw);
    case DestroyQueue(p, i, hw) => DestroyStepCoheres(cfg, s, p, i, hw);
    case DestroyFinish(p, i, hw) => DestroyStepCoheres(cfg, s, p, i, hw);
    case UpdateQueue(p, i, hw) => UpdateStepCoheres(cfg, s, p, i, hw);
  }

  lemma ProcessOperationCoheres(cfg: Config, s: State, a: Action)
    requires Inv(cfg, s) && Steady(s) && Enabled(s, a) && Smooth(s, a)
    requires a.EvictQueues? || a.RestoreQueues? || a.Suspend? || a.Resume? || a.Terminate?
    ensures Steady(Step(cfg, s, a).s)
  {
    hide Inv, Sound, Coherent, Listed, InOrder, MarkStep, ProcessStep, Create, AddKernelStep, RemoveKernelStep, Destroy,
         FinishStep, UpdateStep, EvictStep, RestoreStep, SuspendStep, ResumeStep, TerminateStep, StartStep, StopStep,
         RefreshStep, TrapVmidStep, ResetStep, FreshQueue;
    match a
    case EvictQueues(p, hw) => EvictStepCoheres(cfg, s, p, hw);
    case RestoreQueues(p, hw) => RestoreStepCoheres(cfg, s, p, hw);
    case Suspend(p, ids, clearNew, hw) => SuspendStepCoheres(cfg, s, p, ids, clearNew, hw);
    case Resume(p, which, hw) => ResumeStepCoheres(cfg, s, p, which, hw);
    case Terminate(p, hw) => TerminateStepCoheres(cfg, s, p, hw);
  }

  lemma ControlOperationCoheres(cfg: Config, s: State, a: Action)
    requires Inv(cfg, s) && Steady(s) && Enabled(s, a) && Smooth(s, a)
    requires a.Start? || a.Stop? || a.PreReset? || a.Refresh? || a.TrapVmid?
    ensures Steady(Step(cfg, s, a).s)
  {
    hide Inv, Sound, Coherent, Listed, InOrder, MarkStep, ProcessStep, Create, AddKernelStep, RemoveKernelStep, Destroy,
         FinishStep, UpdateStep, EvictStep, RestoreStep, SuspendStep, ResumeStep, TerminateStep, StartStep, StopStep,
         RefreshStep, TrapVmidStep, ResetStep, FreshQueue;
    match a
    case Start(ok, hw) => if ok { StartRecovers(cfg, s, hw); } else { StartFailsCoheres(cfg, s, hw); }
    case Stop(hw) => ControlCoheres(cfg, s, hw);
    case PreReset => PreResetCoheres(s);
    case Refresh(hw) => ControlCoheres(cfg, s, hw);
    case TrapVmid(reserve, ok, hw) => TrapVmidCoheres(cfg, s, reserve, hw);
  }

  lemma OperationCoheres(cfg: Config, s: State, a: Action)
    requires Inv(cfg, s) && Steady(s) && Enabled(s, a) && Smooth(s, a) && InOrder(cfg, s, a)
    requires !IsMark(a) && !IsProcess(a)
    ensures Steady(Step(cfg, s, a).s)
  {
    hide Inv, Steady, Enabled, Step, InOrder;
    if a.CreateQueue? || a.CreateKernelQueue? || a.DestroyKernelQueue? || a.DestroyQueue? || a.DestroyFinish?
      || a.UpdateQueue? {
      QueueOperationCoheres(cfg, s, a);
    } else if a.EvictQueues? || a.RestoreQueues? || a.Suspend? || a.Resume? || a.Terminate? {
      ProcessOperationCoheres(cfg, s, a);
    } else {
      ControlOperationCoheres(cfg, s, a);
    }
  }

  lemma TrapVmidCoheres(cfg: Config, s: State, reserve: bool, hw: Hw)
    requires Ready(cfg, s, hw)
    ensures Steady(TrapVmidStep(cfg, s, reserve, true, hw).s)
  {
    if s.sched.trapVmid != reserve {
      TrapVmidCoheresIff(cfg, s, reserve, true, hw);
    }
  }

  // ----- runs

  /** A successful start makes the scheduler coherent, whatever happened before it. */
  lemma StartRecovers(cfg: Config, s: State, hw: Hw)
    requires Inv(cfg, s) && Sound(s.lists) && !s.sched.running && Good(hw)
    ensures Defined(s.lists) && Steady(StartStep(cfg, s, true, hw).s)
  {
    InvLists(cfg, s);
    hide CountersAgree, ProcInv, Execute, Coherent, Sound;
    var sc := s.sched.(ibAllocated := false, hang := false, resetting := false, running := true);
    GoodExecuteSucceeds(cfg, s.lists, sc, hw);
    ExecuteCoheres(cfg, s.lists, sc, hw);
  }

  /** Where coherence begins: at initialisation, or right after a start that succeeded. */
  ghost predicate Fresh(actions: seq<Action>, i: nat)
    requires i <= |actions|
  {
    i == 0 || (actions[i - 1].Start? && actions[i - 1].resourcesOk && Good(actions[i - 1].hw))
  }

  /**
    Runlist coherence over runs in order: from initialisation, and again from every
    successful start however the scheduler got there, as long as no map, unmap or resource
    packet fails, an active runlist maps exactly the active queues of the registered
    processes, in list order, and a running scheduler with an active queue has an active
    runlist.
   */
  lemma {:induction false} RunsAreCoherent(cfg: Config, states: seq<State>, actions: seq<Action>, i: nat, n: nat)
    requires cfg.Valid() && Run(cfg, states, actions) && i <= n <= |actions| && Fresh(actions, i)
    requires AllInOrder(cfg, states, actions, n)
    requires forall k :: i <= k < n ==> Smooth(states[k], actions[k])
    ensures Steady(states[n])
    decreases n
  {
    hide Inv, Sound, Coherent, Enabled, InOrder, Smooth;
    if n == i {
      if i == 0 {
        InitSteady(cfg);
      } else {
        RunsKeepInv(cfg, states, actions, i - 1);
        RunsSoundIff(cfg, states, actions, i - 1);
        StartIs(cfg, states[i - 1], actions[i - 1].hw, actions[i - 1]);
      }
    } else {
      hide Step;
      RunsAreCoherent(cfg, states, actions, i, n - 1);
      RunsKeepInv(cfg, states, actions, n - 1);
      StepCoheres(cfg, states[n - 1], actions[n - 1]);
    }
  }

  lemma InitSteady(cfg: Config)
    ensures Steady(Init(cfg))
  {
  }

  lemma StartIs(cfg: Config, s: State, hw: Hw, a: Action)
    requires Inv(cfg, s) && Sound(s.lists) && Enabled(s, a) && Good(hw) && a == Start(true, hw)
    ensures Defined(s.lists) && Steady(Step(cfg, s, a).s)
  {
    hide Inv, Sound, Steady, StartStep;
    StartRecovers(cfg, s, hw);
  }
}

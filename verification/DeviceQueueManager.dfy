/**
  The device queue manager as the object the driver keeps: counters, lists, bitmaps and
  the packet manager's buffer are fields that each operation updates step by step. Every
  operation is proved to do exactly the step of the state machine that stands for it,
  and to keep the invariant.
 */
module DeviceQueueManager {
  import opened Basics
  import opened Queues
  import opened RunlistIb
  import opened Scheduler
  import opened SchedulerInvariant
  import opened SchedulerSteps
  import opened SchedulerRuns
  import opened SchedulerSound

  // ----- how far a walk over one process's queues has come

  ghost function WalkedTo(w: Walk, l: Lists, p: nat, i: nat): Lists
    requires p in l.procs && i <= |l.procs[p].queues|
  {
    var qs := l.procs[p].queues;
    Put(l, p, l.procs[p].(queues := WalkQueues(w, qs[..i]) + qs[i..])).(tally := WalkTallies(w, qs[..i], l.tally))
  }

  lemma WalkedNone(w: Walk, l: Lists, p: nat)
    requires p in l.procs
    ensures WalkedTo(w, l, p, 0) == l
  {
    var qs := l.procs[p].queues;
    assert WalkQueues(w, qs[..0]) + qs[0..] == qs;
    assert l.procs[p := l.procs[p]] == l.procs;
  }

  lemma WalkedQueues(w: Walk, qs: seq<Queue>, i: nat)
    requires i < |qs|
    ensures (WalkQueues(w, qs[..i]) + qs[i..])[i := WalkQueue(w, qs[i])] == WalkQueues(w, qs[..i + 1]) + qs[i + 1..]
  {
    hide WalkQueue;
    assert qs[..i + 1][..i] == qs[..i];
    assert WalkQueues(w, qs[..i + 1]) == WalkQueues(w, qs[..i]) + [WalkQueue(w, qs[i])];
  }

  lemma WalkedStep(w: Walk, l: Lists, p: nat, i: nat)
    requires p in l.procs && i < |l.procs[p].queues|
    ensures var a := WalkedTo(w, l, p, i);
      && p in a.procs && |a.procs[p].queues| == |l.procs[p].queues|
      && a.procs[p].queues[i] == l.procs[p].queues[i]
      && WalkedTo(w, l, p, i + 1)
         == PutQueue(a, p, i, WalkQueue(w, a.procs[p].queues[i])).(tally := WalkTally(w, a.procs[p].queues[i], a.tally))
  {
    hide WalkQueue, WalkTally, WalkQueues;
    var qs := l.procs[p].queues;
    var a := WalkedTo(w, l, p, i);
    assert qs[..i + 1][..i] == qs[..i];
    WalkedQueues(w, qs, i);
    PutTwice(l, p, a.procs[p], a.procs[p].(queues := a.procs[p].queues[i := WalkQueue(w, qs[i])]));
  }

  lemma WalkedAll(w: Walk, l: Lists, p: nat)
    requires p in l.procs
    ensures WalkedTo(w, l, p, |l.procs[p].queues|) == WalkProc(w, l, p)
  {
    var qs := l.procs[p].queues;
    assert qs[..|qs|] == qs && WalkQueues(w, qs) + qs[|qs|..] == WalkQueues(w, qs);
  }

  // ----- what the debugger's calls report

  /** The ids of the queues the walk counts as handled. */
  function HitIds(w: Walk, qs: seq<Queue>): set<nat> { set q | q in qs && Hit(w, q) :: q.id }

  function SelectedIds(ids: set<nat>, qs: seq<Queue>): set<nat> { set q | q in qs && q.id in ids :: q.id }

  lemma HitNone(w: Walk)
    ensures HitIds(w, []) == {}
  {
  }

  lemma HitNext(w: Walk, qs: seq<Queue>, i: nat)
    requires i < |qs|
    ensures HitIds(w, qs[..i + 1]) == HitIds(w, qs[..i]) + if Hit(w, qs[i]) then {qs[i].id} else {}
  {
    hide Hit;
    assert qs[..i + 1] == qs[..i] + [qs[i]];
  }

  lemma SelectedNext(ids: set<nat>, qs: seq<Queue>, i: nat)
    requires i < |qs|
    ensures SelectedIds(ids, qs[..i + 1]) == SelectedIds(ids, qs[..i]) + if qs[i].id in ids then {qs[i].id} else {}
  {
    assert qs[..i + 1] == qs[..i] + [qs[i]];
  }

  lemma WalkKeepsIds(w: Walk, qs: seq<Queue>, ids: set<nat>)
    ensures SelectedIds(ids, WalkQueues(w, qs)) == SelectedIds(ids, qs)
  {
    hide WalkQueues;
    forall i | 0 <= i < |qs| ensures WalkQueues(w, qs)[i].id == qs[i].id {
      WalkKeepsId(w, qs[i]);
    }
    SameIds(ids, qs, WalkQueues(w, qs));
  }

  lemma WalkKeepsId(w: Walk, q: Queue)
    ensures WalkQueue(w, q).id == q.id
  {
  }

  lemma SameIds(ids: set<nat>, qs: seq<Queue>, r: seq<Queue>)
    requires |r| == |qs| && forall i :: 0 <= i < |qs| ==> r[i].id == qs[i].id
    ensures SelectedIds(ids, r) == SelectedIds(ids, qs)
  {
    forall q | q in qs && q.id in ids ensures q.id in SelectedIds(ids, r) {
      var i :| 0 <= i < |qs| && qs[i] == q;
      assert r[i] in r && r[i].id == q.id;
    }
    forall q | q in r && q.id in ids ensures q.id in SelectedIds(ids, qs) {
      var i :| 0 <= i < |r| && r[i] == q;
      assert qs[i] in qs && qs[i].id == q.id;
    }
  }

  /** All the runlist builder asks of the lists and the counters. */
  ghost predicate Schedulable(l: Lists) {
    Defined(l) && l.processes == |l.nodes| && Sum(Active, l.nodes, l.procs) <= l.tally.active
  }

  lemma Countable(l: Lists)
    requires Schedulable(l)
    ensures (forall n <- l.nodes :: n in l.procs) && l.processes == |l.nodes|
    ensures Sum(Active, l.nodes, l.procs) <= l.tally.active
  {
  }

  lemma SingleSchedulable(cfg: Config, l: Lists)
    requires ListInv(cfg, l) && Single(l)
    ensures Schedulable(l)
  {
    hide CountersAgree, ProcInv, Single;
    SingleCounted(cfg, l);
  }

  // ----- what each operation has to do, in terms of the steps of the state machine

  /** The invariant, and a device list that names no process twice. */
  ghost predicate FullInv(cfg: Config, s: State) { Inv(cfg, s) && Single(s.lists) }

  ghost predicate Ready(cfg: Config, s: State, a: Action) { FullInv(cfg, s) && Enabled(s, a) }

  /** The operation did the action's step: new state and return code both. */
  ghost predicate Performs(cfg: Config, s: State, a: Action, r: Result) {
    Ready(cfg, s, a) && Defined(s.lists) && r == Step(cfg, s, a)
  }

  lemma StepKeepsFull(cfg: Config, s: State, a: Action)
    requires Ready(cfg, s, a) && !Relists(s.lists, a)
    ensures Defined(s.lists) && FullInv(cfg, Step(cfg, s, a).s)
  {
    hide Inv, Single, Enabled, Step, Relists;
    StepSingleIff(cfg, s, a);
    StepKeepsInv(cfg, s, a);
  }

  lemma FullFacts(cfg: Config, s: State)
    requires FullInv(cfg, s)
    ensures cfg.Valid() && Listed(s.lists) && Defined(s.lists) && ListInv(cfg, s.lists) && Single(s.lists)
    ensures Schedulable(s.lists)
  {
    SingleSchedulable(cfg, s.lists);
  }

  lemma EvictFacts(cfg: Config, s: State, p: nat, hw: Hw)
    requires Ready(cfg, s, EvictQueues(p, hw))
    ensures p in s.lists.procs && cfg.Valid() && Defined(s.lists) && Schedulable(EvictLists(s.lists, p))
    ensures var r := EvictStep(cfg, s, p, hw);
      Performs(cfg, s, EvictQueues(p, hw), r) && FullInv(cfg, r.s)
  {
    hide Inv, Single, ListInv, EvictStep, EvictLists, Schedulable, SameLengths;
    FullFacts(cfg, s);
    StepKeepsFull(cfg, s, EvictQueues(p, hw));
    EvictKeeps(cfg, s.lists, p);
    WalkLengths(cfg, s, p, hw);
    LengthsSingle(s.lists, EvictLists(s.lists, p));
    SingleSchedulable(cfg, EvictLists(s.lists, p));
  }

  lemma RestoreFacts(cfg: Config, s: State, p: nat, hw: Hw)
    requires Ready(cfg, s, RestoreQueues(p, hw))
    ensures p in s.lists.procs && cfg.Valid() && Defined(s.lists) && Schedulable(RestoreLists(s.lists, p))
    ensures var r := RestoreStep(cfg, s, p, hw);
      Performs(cfg, s, RestoreQueues(p, hw), r) && FullInv(cfg, r.s)
  {
    hide Inv, Single, ListInv, RestoreStep, RestoreLists, Schedulable, SameLengths;
    FullFacts(cfg, s);
    StepKeepsFull(cfg, s, RestoreQueues(p, hw));
    RestoreKeeps(cfg, s.lists, p);
    WalkLengths(cfg, s, p, hw);
    LengthsSingle(s.lists, RestoreLists(s.lists, p));
    SingleSchedulable(cfg, RestoreLists(s.lists, p));
  }

  lemma WalkSchedulable(cfg: Config, l: Lists, p: nat, w: Walk)
    requires ListInv(cfg, l) && Single(l) && Alive(l, p)
    requires w.SuspendIn? || w.ResumeIn? || w.ResumeAll?
    ensures Schedulable(WalkProc(w, l, p))
  {
    hide ListInv, Single, WalkProc, Schedulable, SameLengths;
    SuspendResumeKeeps(cfg, l, p, w);
    WalkProcLengths(w, l, p);
    LengthsSingle(l, WalkProc(w, l, p));
    SingleSchedulable(cfg, WalkProc(w, l, p));
  }

  lemma SuspendFacts(cfg: Config, s: State, p: nat, ids: set<nat>, clearNew: bool, hw: Hw)
    requires Ready(cfg, s, Suspend(p, ids, clearNew, hw))
    ensures Defined(s.lists) && p in s.lists.procs && cfg.Valid() && Schedulable(WalkProc(SuspendIn(ids), s.lists, p))
    ensures var r := SuspendStep(cfg, s, p, ids, clearNew, hw);
      Performs(cfg, s, Suspend(p, ids, clearNew, hw), r) && FullInv(cfg, r.s)
  {
    hide Inv, Single, ListInv, SuspendStep, WalkProc, Schedulable;
    FullFacts(cfg, s);
    StepKeepsFull(cfg, s, Suspend(p, ids, clearNew, hw));
    WalkSchedulable(cfg, s.lists, p, SuspendIn(ids));
  }

  lemma ResumeFacts(cfg: Config, s: State, p: nat, which: Option<set<nat>>, hw: Hw)
    requires Ready(cfg, s, Resume(p, which, hw))
    ensures Defined(s.lists) && p in s.lists.procs && cfg.Valid()
    ensures Schedulable(WalkProc(if which.Some? then ResumeIn(which.value) else ResumeAll, s.lists, p))
    ensures var r := ResumeStep(cfg, s, p, which, hw);
      Performs(cfg, s, Resume(p, which, hw), r) && FullInv(cfg, r.s)
  {
    hide Inv, Single, ListInv, ResumeStep, WalkProc, Schedulable;
    FullFacts(cfg, s);
    StepKeepsFull(cfg, s, Resume(p, which, hw));
    WalkSchedulable(cfg, s.lists, p, if which.Some? then ResumeIn(which.value) else ResumeAll);
  }

  lemma UpdateFacts(cfg: Config, s: State, p: nat, i: nat, hw: Hw)
    requires Ready(cfg, s, UpdateQueue(p, i, hw))
    ensures Defined(s.lists) && HasQueue(s.lists, p, i) && cfg.Valid() && Schedulable(UpdateLists(s.lists, p, i))
    ensures var r := UpdateStep(cfg, s, p, i, hw);
      Performs(cfg, s, UpdateQueue(p, i, hw), r) && FullInv(cfg, r.s)
  {
    hide Inv, Single, ListInv, UpdateStep, UpdateLists, Schedulable, SameLengths;
    FullFacts(cfg, s);
    StepKeepsFull(cfg, s, UpdateQueue(p, i, hw));
    UpdateKeeps(cfg, s.lists, p, i);
    UpdateLengths(cfg, s, p, i, hw);
    LengthsSingle(s.lists, UpdateLists(s.lists, p, i));
    SingleSchedulable(cfg, UpdateLists(s.lists, p, i));
  }

  /** A registration always does its step; no process is listed twice exactly if it was not on the list. */
  lemma RegisterFacts(cfg: Config, s: State, p: nat, allocOk: bool)
    requires Ready(cfg, s, Register(p, allocOk))
    ensures var r := if allocOk
                     then Result(s.(lists := s.lists.(nodes := [p] + s.lists.nodes, processes := s.lists.processes + 1)), Ok)
                     else Result(s, Enomem);
      && Performs(cfg, s, Register(p, allocOk), r) && Inv(cfg, r.s)
      && (Single(r.s.lists) <==> (allocOk ==> p !in s.lists.nodes))
  {
    hide Inv, Single, ListInv;
    FullFacts(cfg, s);
    StepKeepsInv(cfg, s, Register(p, allocOk));
    StepSingleIff(cfg, s, Register(p, allocOk));
  }

  lemma UnregisterFacts(cfg: Config, s: State, p: nat)
    requires Ready(cfg, s, Unregister(p))
    ensures var n := if p in s.lists.nodes then 1 else 0;
      var r := Result(s.(lists := s.lists.(nodes := Without(s.lists.nodes, p), processes := s.lists.processes - n)),
                      if n == 1 then Ok else Einval);
      Performs(cfg, s, Unregister(p), r) && FullInv(cfg, r.s)
  {
    hide Inv, Single, ListInv;
    FullFacts(cfg, s);
    StepKeepsFull(cfg, s, Unregister(p));
  }

  lemma LinkSchedulable(cfg: Config, l: Lists, p: nat, q: Queue, qd: Option<Criu>)
    requires ListInv(cfg, l) && Single(l) && Alive(l, p) && l.procs[p].vmAcquired
    requires q.kind != Diq && FreshQueue(l, p, q) && Reserve(cfg, l, p, q, qd).ret == Ok
    ensures var a := Reserve(cfg, l, p, q, qd);
      && p in a.lists.procs && a.lists.procs[p].evicted == l.procs[p].evicted
      && Schedulable(Link(a.lists, p, InitQueue(l.procs[p], a.q, qd.Some?)))
  {
    hide CountersAgree, ProcInv, Single, Reserve, FreshQueue, Sum;
    var a := Reserve(cfg, l, p, q, qd);
    ReserveTakes(cfg, l, p, q, qd);
    CreateKeeps(cfg, l, p, q, qd);
    var l1 := Link(a.lists, p, InitQueue(l.procs[p], a.q, qd.Some?));
    var l2 := l1.(total := l1.total + 1);
    PutTwice(l, p, a.lists.procs[p], l2.procs[p]);
    SameSingle(l, l2);
    SingleSchedulable(cfg, l2);
  }

  lemma CreateFacts(cfg: Config, s: State, p: nat, q: Queue, qd: Option<Criu>, mqdOk: bool, hw: Hw)
    requires Ready(cfg, s, CreateQueue(p, q, qd, mqdOk, hw))
    ensures Defined(s.lists) && p in s.lists.procs && cfg.Valid()
    ensures var r := Create(cfg, s, p, q, qd, mqdOk, hw);
      Performs(cfg, s, CreateQueue(p, q, qd, mqdOk, hw), r) && FullInv(cfg, r.s)
    ensures var a := Reserve(cfg, s.lists, p, q, qd);
      && p in a.lists.procs && Defined(a.lists)
      && (a.ret == Ok ==>
          && a.lists.procs[p].evicted == s.lists.procs[p].evicted
          && Schedulable(Link(a.lists, p, InitQueue(s.lists.procs[p], a.q, qd.Some?))))
  {
    hide Inv, Single, ListInv, Create, Reserve, FreshQueue, Schedulable, Link;
    FullFacts(cfg, s);
    StepKeepsFull(cfg, s, CreateQueue(p, q, qd, mqdOk, hw));
    ReserveUndone(cfg, s.lists, p, q, qd);
    if Reserve(cfg, s.lists, p, q, qd).ret == Ok {
      LinkSchedulable(cfg, s.lists, p, q, qd);
    }
  }

  lemma MarkDestroyFacts(cfg: Config, s: State, p: nat, i: nat, q: Queue, hw: Hw)
    requires FullInv(cfg, s) && HasQueue(s.lists, p, i)
    requires var o := s.lists.procs[p].queues[i];
      q == o.(beingDestroyed := q.beingDestroyed, destroyWait := q.destroyWait) && QueueInv(s.lists.procs[p].evicted, q)
    ensures Schedulable(DestroyLists(cfg, PutQueue(s.lists, p, i, q), p, i))
  {
    hide CountersAgree, ProcInv, SchedInv, Single, QueueInv, Schedulable, DestroyLists;
    var m := PutQueue(s.lists, p, i, q);
    MarkKeeps(cfg, s.lists, p, i, q);
    SameSingle(s.lists, m);
    DestroyKeeps(cfg, m, p, i);
    UnlinkShape(cfg, m, p, i);
    SameSingle(m, DestroyLists(cfg, m, p, i));
    SingleSchedulable(cfg, DestroyLists(cfg, m, p, i));
  }

  lemma DestroyFacts(cfg: Config, s: State, p: nat, i: nat, hw: Hw)
    requires Ready(cfg, s, DestroyQueue(p, i, hw))
    ensures Defined(s.lists) && HasQueue(s.lists, p, i) && cfg.Valid()
    ensures var r := Destroy(cfg, s, p, i, hw);
      Performs(cfg, s, DestroyQueue(p, i, hw), r) && FullInv(cfg, r.s)
    ensures var q := s.lists.procs[p].queues[i].(beingDestroyed := true);
      Schedulable(DestroyLists(cfg, PutQueue(s.lists, p, i, q), p, i))
  {
    hide Inv, Single, ListInv, Destroy, DestroyLists, PutQueue, Schedulable;
    FullFacts(cfg, s);
    StepKeepsFull(cfg, s, DestroyQueue(p, i, hw));
    MemberInv(cfg, s.lists, p, i);
    MarkDestroyFacts(cfg, s, p, i, s.lists.procs[p].queues[i].(beingDestroyed := true), hw);
  }

  lemma FinishFacts(cfg: Config, s: State, p: nat, i: nat, hw: Hw)
    requires Ready(cfg, s, DestroyFinish(p, i, hw))
    ensures Defined(s.lists) && HasQueue(s.lists, p, i) && cfg.Valid()
    ensures var r := FinishStep(cfg, s, p, i, hw);
      Performs(cfg, s, DestroyFinish(p, i, hw), r) && FullInv(cfg, r.s)
    ensures var q := s.lists.procs[p].queues[i].(destroyWait := Idle);
      Schedulable(DestroyLists(cfg, PutQueue(s.lists, p, i, q), p, i))
  {
    hide Inv, Single, ListInv, FinishStep, DestroyLists, PutQueue, Schedulable;
    FullFacts(cfg, s);
    StepKeepsFull(cfg, s, DestroyFinish(p, i, hw));
    MemberInv(cfg, s.lists, p, i);
    MarkDestroyFacts(cfg, s, p, i, s.lists.procs[p].queues[i].(destroyWait := Idle), hw);
  }

  lemma KernelLists(l: Lists, p: nat, q: Queue, i: nat)
    requires p in l.procs
    ensures LinkKernel(l, p, q).nodes == l.nodes && LinkKernel(l, p, q).known == l.known
    ensures i < |l.procs[p].kernelQueues| ==> UnlinkKernel(l, p, i).nodes == l.nodes && UnlinkKernel(l, p, i).known == l.known
  {
  }

  lemma AddKernelFacts(cfg: Config, s: State, p: nat, q: Queue, hw: Hw)
    requires Ready(cfg, s, CreateKernelQueue(p, q, hw))
    ensures Defined(s.lists) && p in s.lists.procs && cfg.Valid() && Schedulable(LinkKernel(s.lists, p, q))
    ensures var r := AddKernelStep(cfg, s, p, q, hw);
      Performs(cfg, s, CreateKernelQueue(p, q, hw), r) && FullInv(cfg, r.s)
  {
    hide Inv, Single, ListInv, AddKernelStep, LinkKernel, FreshQueue, Schedulable;
    FullFacts(cfg, s);
    StepKeepsFull(cfg, s, CreateKernelQueue(p, q, hw));
    LinkKernelKeeps(cfg, s.lists, p, q);
    KernelLists(s.lists, p, q, 0);
    SameSingle(s.lists, LinkKernel(s.lists, p, q));
    SingleSchedulable(cfg, LinkKernel(s.lists, p, q));
  }

  lemma RemoveKernelFacts(cfg: Config, s: State, p: nat, i: nat, hw: Hw)
    requires Ready(cfg, s, DestroyKernelQueue(p, i, hw))
    ensures Defined(s.lists) && p in s.lists.procs && i < |s.lists.procs[p].kernelQueues| && cfg.Valid()
    ensures Schedulable(UnlinkKernel(s.lists, p, i))
    ensures var r := RemoveKernelStep(cfg, s, p, i, hw);
      Performs(cfg, s, DestroyKernelQueue(p, i, hw), r) && FullInv(cfg, r.s)
  {
    hide Inv, Single, ListInv, RemoveKernelStep, UnlinkKernel, Schedulable;
    FullFacts(cfg, s);
    StepKeepsFull(cfg, s, DestroyKernelQueue(p, i, hw));
    UnlinkKernelKeeps(cfg, s.lists, p, i);
    KernelLists(s.lists, p, s.lists.procs[p].kernelQueues[i], i);
    SameSingle(s.lists, UnlinkKernel(s.lists, p, i));
    SingleSchedulable(cfg, UnlinkKernel(s.lists, p, i));
  }

  lemma TerminateFacts(cfg: Config, s: State, p: nat, hw: Hw)
    requires Ready(cfg, s, Terminate(p, hw))
    ensures Defined(s.lists) && Alive(s.lists, p) && cfg.Valid() && Schedulable(TerminateLists(cfg, s.lists, p))
    ensures var r := TerminateStep(cfg, s, p, hw);
      Performs(cfg, s, Terminate(p, hw), r) && FullInv(cfg, r.s)
  {
    hide Inv, Single, ListInv, TerminateStep, TerminateLists, Schedulable;
    FullFacts(cfg, s);
    StepKeepsFull(cfg, s, Terminate(p, hw));
    TerminateKeeps(cfg, s.lists, p);
    TerminateSingle(cfg, s.lists, p);
    SingleSchedulable(cfg, TerminateLists(cfg, s.lists, p));
  }

  lemma StartFacts(cfg: Config, s: State, ok: bool, hw: Hw)
    requires Ready(cfg, s, Start(ok, hw))
    ensures Schedulable(s.lists) && cfg.Valid()
    ensures var r := StartStep(cfg, s, ok, hw);
      Performs(cfg, s, Start(ok, hw), r) && FullInv(cfg, r.s)
  {
    hide Inv, Single, ListInv, StartStep;
    FullFacts(cfg, s);
    StepKeepsFull(cfg, s, Start(ok, hw));
  }

  lemma StopFacts(cfg: Config, s: State, hw: Hw)
    requires Ready(cfg, s, Stop(hw))
    ensures var r := StopStep(s, hw);
      Performs(cfg, s, Stop(hw), r) && FullInv(cfg, r.s)
  {
    hide Inv, Single, ListInv, StopStep;
    FullFacts(cfg, s);
    StepKeepsFull(cfg, s, Stop(hw));
  }

  lemma TrapVmidFacts(cfg: Config, s: State, reserve: bool, resourcesOk: bool, hw: Hw)
    requires Ready(cfg, s, TrapVmid(reserve, resourcesOk, hw))
    ensures Schedulable(s.lists) && cfg.Valid()
    ensures var r := TrapVmidStep(cfg, s, reserve, resourcesOk, hw);
      Performs(cfg, s, TrapVmid(reserve, resourcesOk, hw), r) && FullInv(cfg, r.s)
  {
    hide Inv, Single, ListInv, TrapVmidStep;
    FullFacts(cfg, s);
    StepKeepsFull(cfg, s, TrapVmid(reserve, resourcesOk, hw));
  }

  class DeviceQueueManager {
    const cfg: Config

    var nodes: seq<nat>
    var procs: map<nat, Proc>
    var processes: int
    var activeQueues: int
    var activeCpQueues: int
    var gwsQueues: int
    var totalQueues: int
    var sdmaBitmap: set<nat>
    var xgmiBitmap: set<nat>

    var running: bool
    var hang: bool
    var resetting: bool
    var activeRunlist: bool
    var ibAllocated: bool
    var trapVmid: bool
    var ibBuffer: seq<Word>

    ghost var ib: nat
    ghost var live: set<nat>
    ghost var nextIb: nat
    ghost var runlist: seq<Packet>
    ghost var warned: bool
    ghost var known: seq<nat>

    // ----- abstraction

    ghost function L(): Lists
      reads this`known, this`nodes, this`procs, this`processes, this`activeQueues, this`activeCpQueues, this`gwsQueues,
            this`totalQueues, this`sdmaBitmap, this`xgmiBitmap
    {
      Lists(known, nodes, procs, processes, Tally(activeQueues, activeCpQueues, gwsQueues), totalQueues, sdmaBitmap, xgmiBitmap)
    }

    ghost function S(): Sched
      reads this`running, this`hang, this`resetting, this`activeRunlist, this`ibAllocated, this`ib, this`live,
            this`nextIb, this`runlist, this`warned, this`trapVmid
    {
      Sched(running, hang, resetting, activeRunlist, ibAllocated, ib, live, nextIb, runlist, warned, trapVmid)
    }

    ghost function Abs(): State
      reads this
    {
      State(L(), S())
    }

    /** The buffer holds the runlist in force, dword for dword, and is blank behind it. */
    ghost predicate BufferHolds()
      reads this`ibAllocated, this`ibBuffer, this`runlist
    {
      ibAllocated ==> HoldsPackets(ibBuffer, runlist, cfg.layout)
    }

    ghost predicate Valid()
      reads this
    {
      FullInv(cfg, Abs()) && BufferHolds()
    }

    constructor (c: Config)
      requires c.Valid()
      ensures Valid() && cfg == c && Abs() == Init(c)
    {
      cfg := c;
      nodes, procs, processes := [], map[], 0;
      activeQueues, activeCpQueues, gwsQueues, totalQueues := 0, 0, 0, 0;
      sdmaBitmap := InitSlots(c, Sdma);
      xgmiBitmap := InitSlots(c, SdmaXgmi);
      running, hang, resetting, activeRunlist, ibAllocated, trapVmid := false, false, false, false, false, false;
      ib, live, nextIb, runlist, warned, known := 0, {}, 0, [], false, [];
      ibBuffer := [];
      InitInv(c);
      InitSound(c);
    }

    // ----- single fields

    lemma ProcsField()
      ensures L().procs == procs && L().nodes == nodes && L().total == totalQueues && L().processes == processes
      ensures L().tally == Tally(activeQueues, activeCpQueues, gwsQueues)
    {
    }

    lemma StatusFields()
      ensures S().running == running && S().hang == hang && S().ibAllocated == ibAllocated && S().trapVmid == trapVmid
      ensures ibAllocated ==> (BufferHolds() <==> HoldsPackets(ibBuffer, S().runlist, cfg.layout))
      ensures !ibAllocated ==> BufferHolds()
    {
    }

    method SetProc(p: nat, pr: Proc)
      modifies this`procs
      ensures L() == Put(old(L()), p, pr) && procs == old(procs)[p := pr]
    {
      procs := procs[p := pr];
    }

    method AddTotal(n: int)
      modifies this`totalQueues
      ensures L() == old(L()).(total := old(L()).total + n)
    {
      totalQueues := totalQueues + n;
    }

    method AddGws(n: int)
      modifies this`gwsQueues
      ensures L() == old(L()).(tally := old(L()).tally.(gws := old(L()).tally.gws + n))
    {
      gwsQueues := gwsQueues + n;
    }

    /** What start_cpsch sets before it executes. */
    method MarkStarted()
      modifies this`hang, this`resetting, this`running
      ensures S() == old(S()).(hang := false, resetting := false, running := true)
    {
      hang, resetting, running := false, false, true;
    }

    method MarkStopped()
      modifies this`running
      ensures S() == old(S()).(running := false)
    {
      running := false;
    }

    method ForgetIb()
      modifies this`ibAllocated
      ensures S() == old(S()).(ibAllocated := false) && BufferHolds()
    {
      ibAllocated := false;
    }

    method SetTrapField(reserve: bool)
      modifies this`trapVmid
      ensures S() == old(S()).(trapVmid := reserve)
    {
      trapVmid := reserve;
    }

    method Warn()
      modifies this`warned
      ensures S() == old(S()).(warned := true)
    {
      warned := true;
    }

    // ----- counters

    method IncrementQueueCount(q: Queue)
      modifies this`activeQueues, this`activeCpQueues, this`gwsQueues
      ensures L() == old(L()).(tally := Inc(old(L()).tally, q))
    {
      activeQueues := activeQueues + 1;
      if IsCp(q.kind) {
        activeCpQueues := activeCpQueues + 1;
      }
      if q.isGws {
        gwsQueues := gwsQueues + 1;
      }
    }

    method DecrementQueueCount(q: Queue)
      modifies this`activeQueues, this`activeCpQueues, this`gwsQueues
      ensures L() == old(L()).(tally := Dec(old(L()).tally, q))
    {
      activeQueues := activeQueues - 1;
      if IsCp(q.kind) {
        activeCpQueues := activeCpQueues - 1;
      }
      if q.isGws {
        gwsQueues := gwsQueues - 1;
      }
    }

    /** Write one queue's properties back. */
    method SetQueue(p: nat, i: nat, q: Queue)
      requires p in procs && i < |procs[p].queues|
      modifies this`procs
      ensures L() == PutQueue(old(L()), p, i, q)
    {
      var pr := procs[p];
      procs := procs[p := pr.(queues := pr.queues[i := q])];
    }

    // ----- the runlist

    method ReleaseIb()
      modifies this`ibAllocated, this`live
      ensures S() == Release(old(S())) && !ibAllocated && BufferHolds()
    {
      if ibAllocated {
        live := live - {ib};
        ibAllocated := false;
      }
    }

    method UnmapQueues(outcome: UnmapOutcome) returns (ret: Ret)
      modifies this`ibAllocated, this`live, this`hang, this`activeRunlist
      ensures SchedResult(S(), ret) == Unmap(old(S()), outcome)
      ensures old(BufferHolds()) ==> BufferHolds()
    {
      if !running { return Ok; }
      if hang || resetting { return Eio; }
      if !activeRunlist { return Ok; }
      if outcome == SendFailed { return Enomem; }
      if outcome == TimedOut {
        hang := true;
        return Etime;
      }
      ReleaseIb();
      activeRunlist := false;
      return Ok;
    }

    /** pm_create_runlist_ib: allocate a buffer of the computed size and fill it. */
    method AllocateRunlistIb()
      requires cfg.Valid() && Schedulable(L()) && !ibAllocated
      modifies this`ibAllocated, this`ibBuffer, this`ib, this`live, this`nextIb, this`runlist
      ensures BufferHolds()
      ensures S() == old(S()).(ibAllocated := true, ib := old(S()).nextIb, live := old(S()).live + {old(S()).nextIb},
                               nextIb := old(S()).nextIb + 1, runlist := Packets(cfg, L()))
    {
      hide L, S, BufferHolds, HoldsPackets, Encode, RunlistPackets, Schedulable;
      Countable(L());
      ProcsField();
      var t := Tally(activeQueues, activeCpQueues, gwsQueues);
      var buf := CreateRunlistIb(nodes, procs, processes, t, cfg.layout);
      StoreIb(buf[..], Packets(cfg, L()));
    }

    /** Keep the filled buffer under a new handle. */
    method StoreIb(words: seq<Word>, ghost ps: seq<Packet>)
      requires HoldsPackets(words, ps, cfg.layout)
      modifies this`ibAllocated, this`ibBuffer, this`ib, this`live, this`nextIb, this`runlist
      ensures BufferHolds()
      ensures S() == old(S()).(ibAllocated := true, ib := old(S()).nextIb, live := old(S()).live + {old(S()).nextIb},
                               nextIb := old(S()).nextIb + 1, runlist := ps)
    {
      hide HoldsPackets;
      ibBuffer := words;
      ib, live, nextIb, runlist := nextIb, live + {nextIb}, nextIb + 1, ps;
      ibAllocated := true;
    }

    /** pm_send_runlist */
    method SendRunlistIb(outcome: MapOutcome) returns (ret: Ret)
      requires cfg.Valid() && Schedulable(L()) && BufferHolds()
      modifies this`ibAllocated, this`ibBuffer, this`ib, this`live, this`nextIb, this`runlist, this`warned
      ensures BufferHolds()
      ensures SchedResult(S(), ret) == SendRunlist(old(S()), Packets(cfg, L()), outcome)
    {
      hide L, S, BufferHolds, Schedulable, Release, Packets;
      StatusFields();
      if ibAllocated {
        ReleaseIb();
        Warn();
        return Einval;
      }
      if outcome == IbAllocFailed { return Enomem; }
      AllocateRunlistIb();
      if outcome == PacketFailed {
        ReleaseIb();
        return Einval;
      }
      if outcome == HiqFull {
        ReleaseIb();
        return Enomem;
      }
      return Ok;
    }

    method MapQueues(outcome: MapOutcome) returns (ret: Ret)
      requires cfg.Valid() && Schedulable(L()) && BufferHolds()
      modifies this`ibAllocated, this`ibBuffer, this`ib, this`live, this`nextIb, this`runlist, this`activeRunlist, this`warned
      ensures BufferHolds()
      ensures SchedResult(S(), ret) == Map(cfg, old(L()), old(S()), outcome)
    {
      hide L, BufferHolds, Schedulable, SendRunlist, Packets;
      ProcsField();
      if !running { return Ok; }
      if activeQueues <= 0 || processes <= 0 { return Ok; }
      if activeRunlist { return Ok; }
      ret := SendRunlistIb(outcome);
      if ret != Ok { return; }
      activeRunlist := true;
    }

    method ExecuteQueues(hw: Hw) returns (ret: Ret)
      requires cfg.Valid() && Schedulable(L()) && BufferHolds()
      modifies this`hang, this`ibAllocated, this`ibBuffer, this`ib, this`live, this`nextIb, this`runlist, this`activeRunlist, this`warned
      ensures BufferHolds()
      ensures SchedResult(S(), ret) == Execute(cfg, old(L()), old(S()), hw)
    {
      hide Schedulable, Map;
      if hang { return Eio; }
      ret := UnmapQueues(hw.preempt);
      if ret != Ok { return; }
      ret := MapQueues(hw.send);
    }

    // ----- processes

    /**
      The step is done whether or not the process is listed already; the object stays
      usable exactly if it was not.
     */
    method RegisterProcess(p: nat, allocOk: bool) returns (ret: Ret)
      requires Valid() && Ready(cfg, Abs(), Register(p, allocOk))
      modifies this`nodes, this`processes
      ensures Inv(cfg, Abs()) && BufferHolds()
      ensures Valid() <==> (allocOk ==> p !in old(nodes))
      ensures Performs(cfg, old(Abs()), Register(p, allocOk), Result(Abs(), ret))
    {
      hide Inv, Single, Ready, Performs;
      RegisterFacts(cfg, Abs(), p, allocOk);
      if !allocOk { return Enomem; }
      nodes := [p] + nodes;
      processes := processes + 1;
      ret := Ok;
    }

    /** The loop looks for the process's node and unlinks the first match. */
    method UnlinkNode(p: nat) returns (found: bool)
      modifies this`nodes, this`processes
      ensures found == (p in old(nodes))
      ensures nodes == Without(old(nodes), p)
      ensures processes == old(processes) - (if found then 1 else 0)
    {
      for i := 0 to |nodes|
        invariant nodes == old(nodes) && processes == old(processes)
        invariant p !in nodes[..i]
      {
        if nodes[i] == p {
          assert IndexOf(nodes, p) == i;
          nodes := nodes[..i] + nodes[i + 1..];
          processes := processes - 1;
          return true;
        }
      }
      return false;
    }

    method UnregisterProcess(p: nat) returns (ret: Ret)
      requires Valid() && Ready(cfg, Abs(), Unregister(p))
      modifies this`nodes, this`processes
      ensures Valid()
      ensures Performs(cfg, old(Abs()), Unregister(p), Result(Abs(), ret))
    {
      hide FullInv, Ready, Performs, Without;
      UnregisterFacts(cfg, Abs(), p);
      var found := UnlinkNode(p);
      ret := if found then Ok else Einval;
    }

    // ----- eviction

    method EvictProcessQueues(p: nat, hw: Hw) returns (ret: Ret)
      requires Valid() && Ready(cfg, Abs(), EvictQueues(p, hw))
      modifies this
      ensures Valid()
      ensures Performs(cfg, old(Abs()), EvictQueues(p, hw), Result(Abs(), ret))
    {
      hide L, S, BufferHolds, FullInv, Schedulable, Ready, Performs, Execute, EvictLists, EvictActs;
      ProcsField();
      EvictFacts(cfg, Abs(), p, hw);
      var acts := EvictQueuesOf(p);
      if !acts { return Ok; }
      ret := ExecuteQueues(hw);
    }

    method EvictQueuesOf(p: nat) returns (acts: bool)
      requires p in procs
      modifies this`procs, this`activeQueues, this`activeCpQueues, this`gwsQueues
      ensures L() == EvictLists(old(L()), p) && acts == EvictActs(old(procs)[p])
    {
      hide WalkProc;
      var pr := procs[p];
      procs := procs[p := pr.(evicted := pr.evicted + 1)];
      if pr.evicted > 0 || !pr.vmAcquired { return false; }
      EvictLoop(p);
      return true;
    }

    method EvictLoop(p: nat)
      requires p in procs
      modifies this`procs, this`activeQueues, this`activeCpQueues, this`gwsQueues
      ensures L() == WalkProc(EvictAll, old(L()), p)
    {
      hide L, WalkedTo, Runnable, WalkQueues, WalkTallies, HitIds;
      ghost var l := L();
      ProcsField();
      WalkedNone(EvictAll, l, p);
      for i := 0 to |procs[p].queues|
        invariant L() == WalkedTo(EvictAll, l, p, i)
      {
        ProcsField();
        WalkedStep(EvictAll, l, p, i);
        var q := procs[p].queues[i];
        var q1 := q.(evicted := true);
        if q1.active {
          q1 := q1.(active := false);
          DecrementQueueCount(q1);
        }
        SetQueue(p, i, q1);
      }
      WalkedAll(EvictAll, l, p);
    }

    method RestoreProcessQueues(p: nat, hw: Hw) returns (ret: Ret)
      requires Valid() && Ready(cfg, Abs(), RestoreQueues(p, hw))
      modifies this
      ensures Valid()
      ensures Performs(cfg, old(Abs()), RestoreQueues(p, hw), Result(Abs(), ret))
    {
      hide L, S, BufferHolds, FullInv, Schedulable, Ready, Performs, Execute, RestoreLists, RestoreActs;
      ProcsField();
      RestoreFacts(cfg, Abs(), p, hw);
      var acts := RestoreQueuesOf(p);
      if !acts { return Ok; }
      ret := ExecuteQueues(hw);
    }

    method RestoreQueuesOf(p: nat) returns (acts: bool)
      requires p in procs
      modifies this`procs, this`activeQueues, this`activeCpQueues, this`gwsQueues
      ensures L() == RestoreLists(old(L()), p) && acts == RestoreActs(old(procs)[p])
    {
      hide WalkProc;
      var pr := procs[p];
      if pr.evicted == 0 { return false; }
      procs := procs[p := pr.(evicted := pr.evicted - 1)];
      if pr.evicted > 1 || !pr.vmAcquired { return false; }
      RestoreLoop(p);
      return true;
    }

    method RestoreLoop(p: nat)
      requires p in procs
      modifies this`procs, this`activeQueues, this`activeCpQueues, this`gwsQueues
      ensures L() == WalkProc(RestoreAll, old(L()), p)
    {
      hide L, WalkedTo, Runnable, WalkQueues, WalkTallies, HitIds;
      ghost var l := L();
      ProcsField();
      WalkedNone(RestoreAll, l, p);
      for i := 0 to |procs[p].queues|
        invariant L() == WalkedTo(RestoreAll, l, p, i)
      {
        ProcsField();
        WalkedStep(RestoreAll, l, p, i);
        var q := procs[p].queues[i].(evicted := false);
        if Runnable(q) {
          q := q.(active := true);
          IncrementQueueCount(q);
        }
        SetQueue(p, i, q);
      }
      WalkedAll(RestoreAll, l, p);
    }

    // ----- debugger suspend and resume

    /** suspend_single_queue; true unless the queue is refused as busy. */
    method SuspendSingleQueue(p: nat, i: nat) returns (done: bool)
      requires p in procs && i < |procs[p].queues|
      modifies this`procs, this`activeQueues, this`activeCpQueues, this`gwsQueues
      ensures var q := old(procs)[p].queues[i];
        && done == !Refuses(q)
        && L() == if done && !q.suspended
                  then PutQueue(old(L()), p, i, q.(suspended := true, active := false))
                         .(tally := if q.active then Dec(old(L()).tally, q) else old(L()).tally)
                  else old(L())
    {
      var q := procs[p].queues[i];
      if q.suspended { return true; }
      if q.isNew || q.beingDestroyed { return false; }
      if q.active {
        DecrementQueueCount(q);
      }
      SetQueue(p, i, q.(suspended := true, active := false));
      return true;
    }

    method ResumeSingleQueue(p: nat, i: nat)
      requires p in procs && i < |procs[p].queues|
      modifies this`procs, this`activeQueues, this`activeCpQueues, this`gwsQueues
      ensures var q := old(procs)[p].queues[i];
        L() == if q.suspended
               then PutQueue(old(L()), p, i, WalkQueue(ResumeAll, q)).(tally := WalkTally(ResumeAll, q, old(L()).tally))
               else old(L())
    {
      var q := procs[p].queues[i];
      if !q.suspended { return; }
      q := q.(suspended := false);
      if Runnable(q) {
        q := q.(active := true);
        IncrementQueueCount(q);
      }
      SetQueue(p, i, q);
    }

    lemma PutSame(l: Lists, p: nat, i: nat)
      requires p in l.procs && i < |l.procs[p].queues|
      ensures PutQueue(l, p, i, l.procs[p].queues[i]) == l
    {
      var qs := l.procs[p].queues;
      assert qs[i := qs[i]] == qs;
      assert l.procs[p := l.procs[p]] == l.procs;
    }

    method SuspendLoop(p: nat, ids: set<nat>) returns (suspended: nat, valid: set<nat>)
      requires p in procs
      modifies this`procs, this`activeQueues, this`activeCpQueues, this`gwsQueues
      ensures L() == WalkProc(SuspendIn(ids), old(L()), p)
      ensures suspended == Hits(SuspendIn(ids), old(procs)[p].queues)
      ensures valid == HitIds(SuspendIn(ids), old(procs)[p].queues)
    {
      hide L, WalkedTo, Runnable, WalkQueues, WalkTallies, HitIds;
      ProcsField();
      ghost var l := L();
      ghost var qs := procs[p].queues;
      ghost var w := SuspendIn(ids);
      WalkedNone(w, l, p);
      HitNone(w);
      suspended, valid := 0, {};
      for i := 0 to |procs[p].queues|
        invariant L() == WalkedTo(w, l, p, i)
        invariant suspended == Hits(w, qs[..i]) && valid == HitIds(w, qs[..i])
      {
        ProcsField();
        WalkedStep(w, l, p, i);
        PutSame(L(), p, i);
        HitNext(w, qs, i);
        assert qs[..i + 1][..i] == qs[..i];
        var id := procs[p].queues[i].id;
        if id in ids {
          var done := SuspendSingleQueue(p, i);
          if done {
            suspended, valid := suspended + 1, valid + {id};
          }
        }
      }
      WalkedAll(w, l, p);
      assert qs[..|qs|] == qs;
    }

    method ResumeLoop(p: nat, which: Option<set<nat>>) returns (resumed: nat, valid: set<nat>)
      requires p in procs
      modifies this`procs, this`activeQueues, this`activeCpQueues, this`gwsQueues
      ensures var w := if which.Some? then ResumeIn(which.value) else ResumeAll;
        && L() == WalkProc(w, old(L()), p)
        && resumed == Hits(w, old(procs)[p].queues)
        && valid == HitIds(w, old(procs)[p].queues)
    {
      hide L, WalkedTo, Runnable, WalkQueues, WalkTallies, HitIds;
      ProcsField();
      ghost var l := L();
      ghost var qs := procs[p].queues;
      ghost var w := if which.Some? then ResumeIn(which.value) else ResumeAll;
      WalkedNone(w, l, p);
      HitNone(w);
      resumed, valid := 0, {};
      for i := 0 to |procs[p].queues|
        invariant L() == WalkedTo(w, l, p, i)
        invariant resumed == Hits(w, qs[..i]) && valid == HitIds(w, qs[..i])
      {
        ProcsField();
        WalkedStep(w, l, p, i);
        PutSame(L(), p, i);
        HitNext(w, qs, i);
        assert qs[..i + 1][..i] == qs[..i];
        var id := procs[p].queues[i].id;
        if which.None? || id in which.value {
          ResumeSingleQueue(p, i);
          resumed, valid := resumed + 1, valid + {id};
        }
      }
      WalkedAll(w, l, p);
      assert qs[..|qs|] == qs;
    }

    /** The ids of the selected queues, as the loop that marks them finds them. */
    method SelectedQueues(p: nat, ids: set<nat>) returns (found: set<nat>)
      requires p in procs
      ensures found == SelectedIds(ids, procs[p].queues)
    {
      found := {};
      for i := 0 to |procs[p].queues|
        invariant found == SelectedIds(ids, procs[p].queues[..i])
      {
        if procs[p].queues[i].id in ids {
          found := found + {procs[p].queues[i].id};
        }
        SelectedNext(ids, procs[p].queues, i);
      }
      assert procs[p].queues[..|procs[p].queues|] == procs[p].queues;
    }

    /**
      suspend_queues for one device: how many queues it counts as suspended, the ids it
      marks valid, and those it marks as failed.
     */
    method SuspendQueues(p: nat, ids: set<nat>, clearNew: bool, hw: Hw)
      returns (ret: Ret, suspended: nat, valid: set<nat>, failed: set<nat>)
      requires Valid() && Ready(cfg, Abs(), Suspend(p, ids, clearNew, hw))
      modifies this
      ensures Valid()
      ensures Performs(cfg, old(Abs()), Suspend(p, ids, clearNew, hw), Result(Abs(), ret))
      ensures p in old(procs)
      ensures suspended == if ret == Ok then Hits(SuspendIn(ids), old(procs)[p].queues) else 0
      ensures valid == HitIds(SuspendIn(ids), old(procs)[p].queues)
      ensures failed == if ret == Ok then {} else SelectedIds(ids, old(procs)[p].queues)
    {
      hide L, S, BufferHolds, FullInv, Schedulable, Ready, Performs, Execute, Hits, HitIds, WalkQueues, WalkTallies;
      ProcsField();
      SuspendFacts(cfg, Abs(), p, ids, clearNew, hw);
      ghost var qs := procs[p].queues;
      failed := {};
      suspended, valid := SuspendLoop(p, ids);
      if suspended == 0 { return Ok, 0, valid, {}; }
      ret := ExecuteQueues(hw);
      ProcsField();
      if ret != Ok {
        suspended := 0;
        failed := SelectedQueues(p, ids);
        WalkKeepsIds(SuspendIn(ids), qs, ids);
      } else if clearNew {
        SetProc(p, procs[p].(queues := ClearNew(procs[p].queues, ids)));
      }
    }

    /** resume_queues for one device, likewise; without an array of ids there is nothing to mark. */
    method ResumeQueues(p: nat, which: Option<set<nat>>, hw: Hw)
      returns (ret: Ret, resumed: nat, valid: set<nat>, failed: set<nat>)
      requires Valid() && Ready(cfg, Abs(), Resume(p, which, hw))
      modifies this
      ensures Valid()
      ensures Performs(cfg, old(Abs()), Resume(p, which, hw), Result(Abs(), ret))
      ensures p in old(procs)
      ensures var w := if which.Some? then ResumeIn(which.value) else ResumeAll;
        && resumed == (if ret == Ok then Hits(w, old(procs)[p].queues) else 0)
        && valid == (if which.Some? then HitIds(w, old(procs)[p].queues) else {})
        && failed == (if ret == Ok || which.None? then {} else SelectedIds(which.value, old(procs)[p].queues))
    {
      hide L, S, BufferHolds, FullInv, Schedulable, Ready, Performs, Execute, WalkQueues, WalkTallies, Hits, HitIds;
      ProcsField();
      ResumeFacts(cfg, Abs(), p, which, hw);
      ghost var qs := procs[p].queues;
      failed := {};
      resumed, valid := ResumeLoop(p, which);
      if which.None? {
        valid := {};
      }
      if resumed == 0 { return Ok, 0, valid, {}; }
      ret := ExecuteQueues(hw);
      ProcsField();
      if ret != Ok {
        resumed := 0;
        if which.Some? {
          failed := SelectedQueues(p, which.value);
          WalkKeepsIds(ResumeIn(which.value), qs, which.value);
        }
      }
    }

    // ----- update

    method UpdateQueueProperties(p: nat, i: nat, hw: Hw) returns (ret: Ret)
      requires Valid() && Ready(cfg, Abs(), UpdateQueue(p, i, hw))
      modifies this
      ensures Valid()
      ensures Performs(cfg, old(Abs()), UpdateQueue(p, i, hw), Result(Abs(), ret))
    {
      hide L, S, BufferHolds, FullInv, Schedulable, Ready, Performs, UpdateStep, UpdateLists;
      ProcsField();
      UpdateFacts(cfg, Abs(), p, i, hw);
      ret := UpdateAndRemap(p, i, hw);
    }

    method UpdateAndRemap(p: nat, i: nat, hw: Hw) returns (ret: Ret)
      requires cfg.Valid() && Defined(L()) && BufferHolds()
      requires p in procs && i < |procs[p].queues| && Schedulable(UpdateLists(L(), p, i))
      modifies this
      ensures BufferHolds()
      ensures Result(Abs(), ret) == UpdateStep(cfg, old(Abs()), p, i, hw)
    {
      hide L, S, BufferHolds, Schedulable, Map, Unmap, UpdateLists;
      ret := UnmapQueues(hw.preempt);
      if ret != Ok { return; }
      ProcsField();
      UpdateMqd(p, i);
      ret := MapQueues(hw.send);
    }

    /** The middle of update_queue: rewrite the descriptor and move the counters. */
    method UpdateMqd(p: nat, i: nat)
      requires p in procs && i < |procs[p].queues|
      modifies this`procs, this`activeQueues, this`activeCpQueues, this`gwsQueues
      ensures L() == UpdateLists(old(L()), p, i)
    {
      hide L, Inc, Dec;
      ProcsField();
      var q := procs[p].queues[i];
      var prevActive := q.active;
      q := q.(active := Runnable(q), mqd := q.mqd + 1);
      if q.active && !prevActive {
        IncrementQueueCount(q);
      } else if !q.active && prevActive {
        DecrementQueueCount(q);
      } else if q.gwsAssigned && !q.isGws {
        if q.active {
          AddGws(1);
        }
        q := q.(isGws := true);
      } else if !q.gwsAssigned && q.isGws {
        if q.active {
          AddGws(-1);
        }
        q := q.(isGws := false);
      }
      SetQueue(p, i, q);
    }

    // ----- SDMA slots and doorbells

    method AllocateSdmaQueue(q: Queue, restoreId: Option<nat>) returns (q1: Queue, ret: Ret)
      modifies this`sdmaBitmap, this`xgmiBitmap
      ensures Alloc(L(), q1, ret) == AllocSdma(cfg, old(L()), q, restoreId)
    {
      if !IsSdma(q.kind) { return q, Ok; }
      var free := if q.kind == Sdma then sdmaBitmap else xgmiBitmap;
      if free == {} { return q, Enomem; }
      var id: nat;
      if restoreId.Some? {
        if restoreId.value !in free { return q, Ebusy; }
        id := restoreId.value;
      } else {
        id := FindFirst(free, 0, cfg.Slots(q.kind));
      }
      if q.kind == Sdma {
        sdmaBitmap := sdmaBitmap - {id};
      } else {
        xgmiBitmap := xgmiBitmap - {id};
      }
      return q.(sdmaId := id), Ok;
    }

    method DeallocateSdmaQueue(q: Queue)
      modifies this`sdmaBitmap, this`xgmiBitmap
      ensures L() == FreeSdma(cfg, old(L()), q)
    {
      if q.kind == Sdma {
        if q.sdmaId >= cfg.Slots(Sdma) { return; }
        sdmaBitmap := sdmaBitmap + {q.sdmaId};
      } else if q.kind == SdmaXgmi {
        if q.sdmaId >= cfg.Slots(SdmaXgmi) { return; }
        xgmiBitmap := xgmiBitmap + {q.sdmaId};
      }
    }

    /** The slot and the doorbell of a new queue; a failed doorbell gives the slot back. */
    method ReserveQueue(p: nat, q: Queue, qd: Option<Criu>) returns (q1: Queue, ret: Ret)
      requires p in procs
      modifies this`sdmaBitmap, this`xgmiBitmap, this`procs
      ensures Alloc(L(), q1, ret) == Reserve(cfg, old(L()), p, q, qd)
    {
      hide AllocSdma, AllocDoorbell, FreeSdma;
      q1, ret := AllocateSdmaQueue(q, if qd.Some? then Some(qd.value.sdmaId) else None);
      if ret != Ok { return; }
      var pr := procs[p];
      var d := AllocDoorbell(cfg, pr.doorbells, q1, if qd.Some? then Some(qd.value.doorbell) else None);
      if d.ret != Ok {
        DeallocateSdmaQueue(q1);
        return q1, d.ret;
      }
      procs := procs[p := pr.(doorbells := d.doorbells)];
      q1 := q1.(doorbell := d.doorbell);
    }

    method UnreserveQueue(p: nat, q: Queue)
      requires p in procs
      modifies this`sdmaBitmap, this`xgmiBitmap, this`procs
      ensures L() == Unreserve(cfg, old(L()), p, q)
      ensures p in procs && procs[p].queues == old(procs)[p].queues
    {
      var pr := procs[p];
      procs := procs[p := pr.(doorbells := FreeDoorbell(cfg, pr.doorbells, q))];
      DeallocateSdmaQueue(q);
    }

    method LinkQueue(p: nat, q: Queue)
      requires p in procs
      modifies this`procs, this`activeQueues, this`activeCpQueues, this`gwsQueues
      ensures L() == Link(old(L()), p, q)
      ensures p in procs && procs[p].queues == [q] + old(procs)[p].queues
    {
      procs := procs[p := procs[p].(queues := [q] + procs[p].queues)];
      if q.active {
        IncrementQueueCount(q);
      }
    }

    method UnlinkQueue(p: nat, i: nat)
      requires p in procs && i < |procs[p].queues|
      modifies this`procs, this`activeQueues, this`activeCpQueues, this`gwsQueues
      ensures L() == Unlink(old(L()), p, i) && p in procs
    {
      var q := procs[p].queues[i];
      procs := procs[p := procs[p].(queues := RemoveAt(procs[p].queues, i))];
      if q.active {
        DecrementQueueCount(q);
      }
    }

    // ----- create

    method CreateUserQueue(p: nat, q: Queue, qd: Option<Criu>, mqdOk: bool, hw: Hw) returns (ret: Ret)
      requires Valid() && Ready(cfg, Abs(), CreateQueue(p, q, qd, mqdOk, hw))
      modifies this
      ensures Valid()
      ensures Performs(cfg, old(Abs()), CreateQueue(p, q, qd, mqdOk, hw), Result(Abs(), ret))
    {
      hide L, S, BufferHolds, FullInv, Schedulable, Ready, Performs, Reserve, Unreserve, CreateTail, Link;
      ProcsField();
      CreateFacts(cfg, Abs(), p, q, qd, mqdOk, hw);
      if totalQueues >= cfg.maxQueues { return Eperm; }
      var q1;
      q1, ret := ReserveQueue(p, q, qd);
      ProcsField();
      if ret != Ok { return; }
      if !mqdOk {
        UnreserveQueue(p, q1);
        return Enomem;
      }
      ret := LinkAndSchedule(p, InitQueue(procs[p], q1, qd.Some?), hw);
    }

    method LinkAndSchedule(p: nat, q: Queue, hw: Hw) returns (ret: Ret)
      requires cfg.Valid() && Defined(L()) && BufferHolds() && p in procs && Schedulable(Link(L(), p, q))
      modifies this
      ensures BufferHolds()
      ensures Result(Abs(), ret) == CreateTail(cfg, old(Abs()), p, q, hw)
    {
      hide L, S, BufferHolds, Schedulable, Execute, Unreserve, Unlink, Link;
      LinkQueue(p, q);
      if q.active {
        ret := ExecuteQueues(hw);
        if ret != Ok {
          UndoLink(p, q);
          return;
        }
      }
      AddTotal(1);
      ret := Ok;
    }

    /** The cleanup_queue path. */
    method UndoLink(p: nat, q: Queue)
      requires p in procs && procs[p].queues != []
      modifies this`procs, this`activeQueues, this`activeCpQueues, this`gwsQueues, this`sdmaBitmap, this`xgmiBitmap
      ensures L() == Unreserve(cfg, Unlink(old(L()), p, 0), p, q)
    {
      hide Unreserve, Unlink;
      UnlinkQueue(p, 0);
      UnreserveQueue(p, q);
    }

    // ----- destroy

    /** wait_on_destroy_queue up to the wait, then the rest when there is nothing to wait for. */
    method DestroyUserQueue(p: nat, i: nat, hw: Hw) returns (ret: Ret)
      requires Valid() && Ready(cfg, Abs(), DestroyQueue(p, i, hw))
      modifies this
      ensures Valid()
      ensures Performs(cfg, old(Abs()), DestroyQueue(p, i, hw), Result(Abs(), ret))
    {
      hide L, S, BufferHolds, FullInv, Schedulable, Ready, Performs, DestroyNow, DestroyLists, PutQueue;
      ProcsField();
      DestroyFacts(cfg, Abs(), p, i, hw);
      PutQueueShape(L(), p, i);
      var pr := procs[p];
      if pr.isDebug { return Ebusy; }
      var q := pr.queues[i].(beingDestroyed := true);
      if pr.trapEnabled && q.suspended {
        SetQueue(p, i, q.(destroyWait := Waiting));
        return Ok;
      }
      SetQueue(p, i, q);
      ProcsField();
      ret := DestroyUnlink(p, i, hw);
    }

    lemma PutQueueShape(l: Lists, p: nat, i: nat)
      requires Defined(l) && p in l.procs && i < |l.procs[p].queues|
      ensures forall q :: var r := PutQueue(l, p, i, q);
        Defined(r) && p in r.procs && i < |r.procs[p].queues| && r.procs[p].isDebug == l.procs[p].isDebug
    {
    }

    /** destroy_queue_cpsch once the wait is over. */
    method FinishDestroy(p: nat, i: nat, hw: Hw) returns (ret: Ret)
      requires Valid() && Ready(cfg, Abs(), DestroyFinish(p, i, hw))
      modifies this
      ensures Valid()
      ensures Performs(cfg, old(Abs()), DestroyFinish(p, i, hw), Result(Abs(), ret))
    {
      hide L, S, BufferHolds, FullInv, Schedulable, Ready, Performs, DestroyNow, DestroyLists, PutQueue;
      ProcsField();
      FinishFacts(cfg, Abs(), p, i, hw);
      PutQueueShape(L(), p, i);
      SetQueue(p, i, procs[p].queues[i].(destroyWait := Idle));
      ProcsField();
      ret := DestroyUnlink(p, i, hw);
    }

    method DestroyUnlink(p: nat, i: nat, hw: Hw) returns (ret: Ret)
      requires cfg.Valid() && Defined(L()) && BufferHolds() && p in procs && i < |procs[p].queues|
      requires Schedulable(DestroyLists(cfg, L(), p, i))
      modifies this
      ensures BufferHolds()
      ensures Result(Abs(), ret) == DestroyNow(cfg, old(Abs()), p, i, hw)
    {
      hide L, S, BufferHolds, Schedulable, Execute, DestroyLists;
      ProcsField();
      if procs[p].isDebug { return Ebusy; }
      var active := procs[p].queues[i].active;
      TakeOut(p, i);
      ret := Ok;
      if active {
        ProcsField();
        ret := ExecuteResetting(p, hw);
      }
    }

    /** Executes, and has the waves of the process reset when the unmap times out. */
    method ExecuteResetting(p: nat, hw: Hw) returns (ret: Ret)
      requires cfg.Valid() && BufferHolds() && Schedulable(L()) && p in L().procs
      modifies this
      ensures BufferHolds()
      ensures var e := Execute(cfg, old(L()), old(S()), hw);
        && ret == e.ret && S() == e.sched
        && L() == if e.ret == Etime then Put(old(L()), p, old(L()).procs[p].(resetWavefronts := true)) else old(L())
    {
      hide L, S, BufferHolds, Schedulable, Execute;
      ret := ExecuteQueues(hw);
      if ret == Etime {
        ProcsField();
        SetProc(p, procs[p].(resetWavefronts := true));
      }
    }

    method TakeOut(p: nat, i: nat)
      requires p in procs && i < |procs[p].queues|
      modifies this`sdmaBitmap, this`xgmiBitmap, this`procs, this`activeQueues, this`activeCpQueues, this`gwsQueues,
               this`totalQueues
      ensures L() == DestroyLists(cfg, old(L()), p, i) && p in procs
    {
      hide Unreserve, Unlink;
      var q := procs[p].queues[i];
      UnreserveQueue(p, q);
      UnlinkQueue(p, i);
      totalQueues := totalQueues - 1;
    }

    // ----- kernel queues

    method AddKernelQueue(p: nat, q: Queue, hw: Hw) returns (ret: Ret)
      requires Valid() && Ready(cfg, Abs(), CreateKernelQueue(p, q, hw))
      modifies this
      ensures Valid()
      ensures Performs(cfg, old(Abs()), CreateKernelQueue(p, q, hw), Result(Abs(), ret))
    {
      hide L, S, BufferHolds, FullInv, Schedulable, Ready, Performs, Execute, LinkKernel;
      ProcsField();
      AddKernelFacts(cfg, Abs(), p, q, hw);
      if totalQueues >= cfg.maxQueues { return Eperm; }
      LinkKernelQueue(p, q);
      var _ := ExecuteQueues(hw);
      return Ok;
    }

    method LinkKernelQueue(p: nat, q: Queue)
      requires p in procs
      modifies this`procs, this`activeQueues, this`activeCpQueues, this`gwsQueues, this`totalQueues
      ensures L() == LinkKernel(old(L()), p, q)
    {
      totalQueues := totalQueues + 1;
      procs := procs[p := procs[p].(kernelQueues := [q] + procs[p].kernelQueues, isDebug := true)];
      IncrementQueueCount(q);
    }

    method RemoveKernelQueue(p: nat, i: nat, hw: Hw)
      requires Valid() && Ready(cfg, Abs(), DestroyKernelQueue(p, i, hw))
      modifies this
      ensures Valid()
      ensures Performs(cfg, old(Abs()), DestroyKernelQueue(p, i, hw), Result(Abs(), Ok))
    {
      hide L, S, BufferHolds, FullInv, Schedulable, Ready, Performs, Execute, UnlinkKernel;
      ProcsField();
      RemoveKernelFacts(cfg, Abs(), p, i, hw);
      UnlinkKernelQueue(p, i);
      var _ := ExecuteQueues(hw);
    }

    method UnlinkKernelQueue(p: nat, i: nat)
      requires p in procs && i < |procs[p].kernelQueues|
      modifies this`procs, this`activeQueues, this`activeCpQueues, this`gwsQueues, this`totalQueues
      ensures L() == UnlinkKernel(old(L()), p, i)
    {
      var pr := procs[p];
      procs := procs[p := pr.(kernelQueues := RemoveAt(pr.kernelQueues, i), isDebug := false)];
      DecrementQueueCount(pr.kernelQueues[i]);
      totalQueues := totalQueues - 1;
    }

    // ----- termination

    method TerminateProcess(p: nat, hw: Hw) returns (ret: Ret)
      requires Valid() && Ready(cfg, Abs(), Terminate(p, hw))
      modifies this
      ensures Valid()
      ensures Performs(cfg, old(Abs()), Terminate(p, hw), Result(Abs(), ret))
    {
      hide L, S, BufferHolds, FullInv, Schedulable, Ready, Performs, Execute, TerminateLists;
      TerminateFacts(cfg, Abs(), p, hw);
      TerminateKeepsKeys(cfg, L(), p);
      ProcsField();
      RemoveProcess(p);
      ret := ExecuteQueues(hw);
      ProcsField();
      StatusFields();
      if !hang && (ret != Ok || procs[p].resetWavefronts) {
        SetProc(p, procs[p].(resetWavefronts := false));
      }
    }

    method RemoveProcess(p: nat)
      requires p in procs
      modifies this`known, this`nodes, this`processes, this`procs, this`activeQueues, this`activeCpQueues, this`gwsQueues,
               this`totalQueues, this`sdmaBitmap, this`xgmiBitmap
      ensures L() == TerminateLists(cfg, old(L()), p)
    {
      hide TerminateUser, DetachKernel;
      ghost var l := L();
      var qs := procs[p].queues;
      DetachKernelQueues(p);
      ghost var l1 := L();
      UncountQueues(qs);
      TerminateUserFrame(cfg, l1, qs);
      DetachFrame(l, p);
      var _ := UnlinkNode(p);
      known := Without(known, p);
    }

    lemma DetachFrame(l: Lists, p: nat)
      requires p in l.procs
      ensures DetachKernel(l, p).nodes == l.nodes && DetachKernel(l, p).known == l.known
    {
    }

    method DetachKernelQueues(p: nat)
      requires p in procs
      modifies this`procs, this`activeQueues, this`activeCpQueues, this`gwsQueues, this`totalQueues
      ensures L() == DetachKernel(old(L()), p)
    {
      var pr := procs[p];
      var kqs := pr.kernelQueues;
      var isDebug := pr.isDebug;
      ghost var l := L();
      for i := 0 to |kqs|
        invariant procs == l.procs
        invariant L() == l.(tally := TerminateKernel(l.tally, kqs[..i]), total := l.total - i)
        invariant isDebug == (pr.isDebug && i == 0)
      {
        assert kqs[..i + 1][..i] == kqs[..i];
        DecrementQueueCount(kqs[i]);
        isDebug := false;
        totalQueues := totalQueues - 1;
      }
      assert kqs[..|kqs|] == kqs;
      procs := procs[p := pr.(kernelQueues := [], isDebug := isDebug, terminated := true)];
    }

    method UncountQueues(qs: seq<Queue>)
      modifies this`activeQueues, this`activeCpQueues, this`gwsQueues, this`totalQueues, this`sdmaBitmap, this`xgmiBitmap
      ensures L() == TerminateUser(cfg, old(L()), qs)
    {
      hide FreeSdma;
      ghost var l := L();
      for i := 0 to |qs|
        invariant L() == TerminateUser(cfg, l, qs[..i])
      {
        assert qs[..i + 1][..i] == qs[..i];
        DeallocateSdmaQueue(qs[i]);
        if qs[i].active {
          DecrementQueueCount(qs[i]);
        }
        totalQueues := totalQueues - 1;
      }
      assert qs[..|qs|] == qs;
    }

    // ----- start and stop

    method StartScheduler(resourcesOk: bool, hw: Hw) returns (ret: Ret)
      requires Valid() && Ready(cfg, Abs(), Start(resourcesOk, hw))
      modifies this
      ensures Valid()
      ensures Performs(cfg, old(Abs()), Start(resourcesOk, hw), Result(Abs(), ret))
    {
      hide L, S, BufferHolds, FullInv, Schedulable, Ready, Performs, Execute;
      StartFacts(cfg, Abs(), resourcesOk, hw);
      ForgetIb();
      if !resourcesOk { return Enomem; }
      MarkStarted();
      var _ := ExecuteQueues(hw);
      return Ok;
    }

    method StopScheduler(hw: Hw) returns (ret: Ret)
      requires Valid() && Ready(cfg, Abs(), Stop(hw))
      modifies this
      ensures Valid()
      ensures Performs(cfg, old(Abs()), Stop(hw), Result(Abs(), ret))
    {
      hide L, S, BufferHolds, FullInv, Schedulable, Ready, Performs, Unmap, Release;
      StopFacts(cfg, Abs(), hw);
      StatusFields();
      if !running { return Ok; }
      if !hang {
        var _ := UnmapQueues(hw.preempt);
      }
      MarkStopped();
      ReleaseIb();
      return Ok;
    }

    // ----- debug trap VMID

    /** reserve_debug_trap_vmid and release_debug_trap_vmid. */
    method SetTrapVmid(reserve: bool, resourcesOk: bool, hw: Hw) returns (ret: Ret)
      requires Valid() && Ready(cfg, Abs(), TrapVmid(reserve, resourcesOk, hw))
      modifies this
      ensures Valid()
      ensures Performs(cfg, old(Abs()), TrapVmid(reserve, resourcesOk, hw), Result(Abs(), ret))
    {
      hide L, S, BufferHolds, FullInv, Schedulable, Ready, Performs, Map, Unmap;
      TrapVmidFacts(cfg, Abs(), reserve, resourcesOk, hw);
      StatusFields();
      if trapVmid == reserve {
        return if reserve then Ebusy else Einval;
      }
      ret := UnmapQueues(hw.preempt);
      if ret != Ok { return; }
      SetTrapField(reserve);
      if !resourcesOk { return Enomem; }
      ret := MapQueues(hw.send);
    }
  }
}

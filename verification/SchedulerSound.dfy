/**
  The device's list of processes. The process queue manager registers a process whenever
  its queue lists are empty, ignores a failed registration, and skips unregistering after
  some failed destroys, so the list may miss a process with queues or name one twice. This
  module says exactly which steps keep the list sound, what an unsound list does to the
  runlist buffer, and which failures a caller has to rule out.
 */
module SchedulerSound {
  import opened Arithmetic
  import opened Basics
  import opened Queues
  import opened RunlistIb
  import opened Scheduler
  import opened SchedulerInvariant
  import opened SchedulerSteps
  import opened SchedulerRuns

  /** Only live processes are listed, and none of them twice. */
  ghost predicate Single(l: Lists) {
    Distinct(l.nodes) && forall n <- l.nodes :: n in l.known
  }

  /** And every one with queues is. */
  ghost predicate Sound(l: Lists) {
    && Single(l)
    && (forall p <- l.known :: p in l.procs && (p in l.nodes || NoQueues(l.procs[p])))
  }

  // ----- what a sound list is good for

  /** Two lists that name the same queues, each once, have the same sums. */
  lemma {:induction false} SameSums(m: Metric, a: seq<nat>, b: seq<nat>, procs: map<nat, Proc>)
    requires forall n <- b :: n in procs
    requires Distinct(a) && Distinct(b) && forall n <- a :: n in b
    requires forall n <- b :: n in a || SumP(m, procs[n]) == 0
    ensures Sum(m, a, procs) == Sum(m, b, procs)
    decreases |b|
  {
    assert a == [] || a[0] in b;
    if b != [] {
      var x, rest := b[0], b[1..];
      if x in a {
        var i := IndexOf(a, x);
        SumUnlink(m, a, procs, i);
        DistinctRemove(a, i);
        SameSums(m, RemoveAt(a, i), rest, procs);
      } else {
        SameSums(m, a, rest, procs);
      }
    }
  }

  lemma SoundSums(m: Metric, l: Lists)
    requires Listed(l) && Sound(l)
    ensures Sum(m, l.nodes, l.procs) == Sum(m, l.known, l.procs)
  {
    SameSums(m, l.nodes, l.known, l.procs);
  }

  lemma CountedActive(cfg: Config, l: Lists)
    requires ListInv(cfg, l)
    ensures l.tally.active == Sum(Active, l.known, l.procs)
  {
    hide ProcInv;
    assert Counter(l, Active) + Base(cfg, Active) == Sum(Active, l.known, l.procs);
  }

  /** With the invariant and a sound list, the active count is what the list walk meets. */
  lemma ActiveCounted(cfg: Config, l: Lists)
    requires ListInv(cfg, l) && Sound(l)
    ensures l.tally.active == Sum(Active, l.nodes, l.procs)
  {
    hide CountersAgree, ProcInv, Sound;
    CountedActive(cfg, l);
    SoundSums(Active, l);
  }

  /** A list without repetitions never meets more queues than there are. */
  lemma {:induction false} SubSums(m: Metric, a: seq<nat>, b: seq<nat>, procs: map<nat, Proc>)
    requires forall n <- b :: n in procs
    requires Distinct(a) && Distinct(b) && forall n <- a :: n in b
    ensures Sum(m, a, procs) <= Sum(m, b, procs)
    decreases |b|
  {
    assert a == [] || a[0] in b;
    if b != [] {
      var x, rest := b[0], b[1..];
      if x in a {
        var i := IndexOf(a, x);
        SumUnlink(m, a, procs, i);
        DistinctRemove(a, i);
        SubSums(m, RemoveAt(a, i), rest, procs);
      } else {
        SubSums(m, a, rest, procs);
      }
    }
  }

  lemma SingleCounted(cfg: Config, l: Lists)
    requires ListInv(cfg, l) && Single(l)
    ensures Sum(Active, l.nodes, l.procs) <= l.tally.active
  {
    hide CountersAgree, ProcInv;
    CountedActive(cfg, l);
    SubSums(Active, l.nodes, l.known, l.procs);
  }

  // ----- which steps keep the list sound

  /**
    The steps that find the list as they should: a registration that goes through finds the
    process not listed, and a create that goes through finds it listed.
   */
  ghost predicate InOrder(cfg: Config, s: State, a: Action)
    requires Defined(s.lists) && Enabled(s, a)
  {
    match a
    case Register(p, allocOk) => allocOk ==> p !in s.lists.nodes
    case CreateQueue(p, q, qd, mqdOk, hw) => Create(cfg, s, p, q, qd, mqdOk, hw).ret == Ok ==> p in s.lists.nodes
    case CreateKernelQueue(p, q, hw) => s.lists.total < cfg.maxQueues ==> p in s.lists.nodes
    case _ => true
  }

  /** No process appears, goes, or changes how many queues it has. */
  ghost predicate SameLengths(l: Lists, l': Lists) {
    && l'.nodes == l.nodes && l'.known == l.known && l'.procs.Keys == l.procs.Keys
    && forall p <- l.procs ::
         && |l'.procs[p].queues| == |l.procs[p].queues| && |l'.procs[p].kernelQueues| == |l.procs[p].kernelQueues|
         && l'.procs[p].terminated == l.procs[p].terminated
  }

  predicate Structural(a: Action) {
    || a.NewProcess? || a.Register? || a.Unregister? || a.Drain? || a.CreateQueue? || a.CreateKernelQueue?
    || a.DestroyKernelQueue? || a.DestroyQueue? || a.DestroyFinish? || a.Terminate?
  }

  lemma PutSameLengths(l: Lists, p: nat, l': Lists)
    requires p in l.procs && p in l'.procs && l'.procs == l.procs[p := l'.procs[p]]
    requires l'.nodes == l.nodes && l'.known == l.known && l'.procs[p].terminated == l.procs[p].terminated
    requires |l'.procs[p].queues| == |l.procs[p].queues| && |l'.procs[p].kernelQueues| == |l.procs[p].kernelQueues|
    ensures SameLengths(l, l')
  {
  }

  lemma WalkLengths(cfg: Config, s: State, p: nat, hw: Hw)
    requires Defined(s.lists) && p in s.lists.procs
    ensures SameLengths(s.lists, EvictLists(s.lists, p)) && SameLengths(s.lists, EvictStep(cfg, s, p, hw).s.lists)
    ensures SameLengths(s.lists, RestoreLists(s.lists, p)) && SameLengths(s.lists, RestoreStep(cfg, s, p, hw).s.lists)
  {
    hide Execute, SameLengths, EvictLists, RestoreLists;
    EvictLengths(s.lists, p);
    RestoreLengths(s.lists, p);
    SelfLengths(s.lists);
  }

  lemma EvictLengths(l: Lists, p: nat)
    requires p in l.procs
    ensures SameLengths(l, EvictLists(l, p))
  {
    hide WalkTallies, WalkQueue, SameLengths;
    PutSameLengths(l, p, EvictLists(l, p));
  }

  lemma RestoreLengths(l: Lists, p: nat)
    requires p in l.procs
    ensures SameLengths(l, RestoreLists(l, p))
  {
    hide WalkTallies, WalkQueue, SameLengths;
    var r := RestoreLists(l, p);
    assert r.procs == l.procs[p := r.procs[p]];
    PutSameLengths(l, p, r);
  }

  lemma WalkProcLengths(w: Walk, l: Lists, p: nat)
    requires p in l.procs
    ensures SameLengths(l, WalkProc(w, l, p))
  {
  }

  lemma SuspendLengths(cfg: Config, s: State, p: nat, ids: set<nat>, clearNew: bool, hw: Hw)
    requires Defined(s.lists) && p in s.lists.procs
    ensures SameLengths(s.lists, SuspendStep(cfg, s, p, ids, clearNew, hw).s.lists)
  {
    hide Execute, WalkTallies, WalkQueue, Hits, SameLengths;
    var l, l' := s.lists, SuspendStep(cfg, s, p, ids, clearNew, hw).s.lists;
    assert l'.procs == l.procs[p := l'.procs[p]];
    PutSameLengths(l, p, l');
  }

  lemma ResumeLengths(cfg: Config, s: State, p: nat, which: Option<set<nat>>, hw: Hw)
    requires Defined(s.lists) && p in s.lists.procs
    ensures SameLengths(s.lists, ResumeStep(cfg, s, p, which, hw).s.lists)
  {
    hide Execute, WalkTallies, WalkQueue, Hits, SameLengths, WalkProc;
    WalkProcLengths(if which.Some? then ResumeIn(which.value) else ResumeAll, s.lists, p);
  }

  lemma UpdateLengths(cfg: Config, s: State, p: nat, i: nat, hw: Hw)
    requires Defined(s.lists) && p in s.lists.procs && i < |s.lists.procs[p].queues|
    ensures SameLengths(s.lists, UpdateLists(s.lists, p, i))
    ensures SameLengths(s.lists, UpdateStep(cfg, s, p, i, hw).s.lists)
  {
    hide Map, Unmap, SameLengths;
    PutSameLengths(s.lists, p, UpdateLists(s.lists, p, i));
    SelfLengths(s.lists);
  }

  lemma SelfLengths(l: Lists)
    ensures SameLengths(l, l)
  {
  }

  /** Most steps do not touch the structure of the lists. */
  lemma BookkeepingLengths(cfg: Config, s: State, a: Action)
    requires Defined(s.lists) && Enabled(s, a)
    requires IsMark(a) || a.AcquireVm? || a.SetTrap?
    ensures SameLengths(s.lists, Step(cfg, s, a).s.lists)
  {
    hide SameLengths, Marked;
    if IsMark(a) {
      PutSameLengths(s.lists, a.p, MarkStep(s, a).s.lists);
    } else {
      PutSameLengths(s.lists, a.p, ProcessStep(cfg, s, a).s.lists);
    }
  }

  lemma ControlLengths(cfg: Config, s: State, a: Action)
    requires Defined(s.lists) && Enabled(s, a) && !IsMark(a) && !IsProcess(a)
    requires a.Start? || a.Stop? || a.PreReset? || a.Refresh? || a.TrapVmid? || a.ResetQueues?
    ensures SameLengths(s.lists, Step(cfg, s, a).s.lists)
  {
    hide SameLengths, Execute, Map, Unmap, MarkStep, ProcessStep, Create, AddKernelStep, RemoveKernelStep, Destroy,
         FinishStep, UpdateStep, EvictStep, RestoreStep, SuspendStep, ResumeStep, TerminateStep;
    SelfLengths(s.lists);
  }

  lemma StepSameLengths(cfg: Config, s: State, a: Action)
    requires Defined(s.lists) && Enabled(s, a) && !Structural(a)
    ensures SameLengths(s.lists, Step(cfg, s, a).s.lists)
  {
    hide SameLengths, UpdateStep, EvictStep, RestoreStep, SuspendStep, ResumeStep, MarkStep, ProcessStep, Create,
         AddKernelStep, RemoveKernelStep, Destroy, FinishStep, TerminateStep, StartStep, StopStep, RefreshStep,
         TrapVmidStep, ResetStep;
    if IsMark(a) || a.AcquireVm? || a.SetTrap? {
      BookkeepingLengths(cfg, s, a);
    } else {
      match a
      case UpdateQueue(p, i, hw) => UpdateLengths(cfg, s, p, i, hw);
      case EvictQueues(p, hw) => WalkLengths(cfg, s, p, hw);
      case RestoreQueues(p, hw) => WalkLengths(cfg, s, p, hw);
      case Suspend(p, ids, clearNew, hw) => SuspendLengths(cfg, s, p, ids, clearNew, hw);
      case Resume(p, which, hw) => ResumeLengths(cfg, s, p, which, hw);
      case _ => ControlLengths(cfg, s, a);
    }
  }

  lemma SoundSameLengths(l: Lists, l': Lists)
    requires SameLengths(l, l') && Sound(l)
    ensures Sound(l')
  {
    forall p | p in l'.known ensures p in l'.procs && (p in l'.nodes || NoQueues(l'.procs[p])) {
      assert p in l.procs;
    }
  }

  /** One process changes: a listed one freely, an unlisted one if it stays without queues. */
  lemma SoundPut(l: Lists, p: nat, l': Lists)
    requires Sound(l) && p in l'.procs && l'.procs == l.procs[p := l'.procs[p]]
    requires l'.nodes == l.nodes && l'.known == l.known
    requires p in l.nodes || p !in l.known || NoQueues(l'.procs[p])
    ensures Sound(l')
  {
  }

  lemma UnsoundPut(l: Lists, p: nat, l': Lists)
    requires p in l.known && p !in l.nodes && l'.nodes == l.nodes && l'.known == l.known
    requires p in l'.procs && !NoQueues(l'.procs[p])
    ensures !Sound(l')
  {
  }

  lemma CreateSoundIff(cfg: Config, s: State, p: nat, q: Queue, qd: Option<Criu>, mqdOk: bool, hw: Hw)
    requires ListInv(cfg, s.lists) && Sound(s.lists) && Alive(s.lists, p) && q.kind != Diq
    ensures var r := Create(cfg, s, p, q, qd, mqdOk, hw);
      Sound(r.s.lists) <==> (r.ret == Ok ==> p in s.lists.nodes)
  {
    hide CountersAgree, ProcInv, Create, Sound;
    var r := Create(cfg, s, p, q, qd, mqdOk, hw);
    if r.ret != Ok {
      CreateAllOrNothing(cfg, s, p, q, qd, mqdOk, hw);
    } else {
      CreateAdds(cfg, s, p, q, qd, mqdOk, hw);
      if p in s.lists.nodes {
        SoundPut(s.lists, p, r.s.lists);
      } else {
        UnsoundPut(s.lists, p, r.s.lists);
      }
    }
  }

  lemma AddKernelSoundIff(cfg: Config, s: State, p: nat, q: Queue, hw: Hw)
    requires Listed(s.lists) && Sound(s.lists) && Alive(s.lists, p)
    ensures Sound(AddKernelStep(cfg, s, p, q, hw).s.lists) <==> (s.lists.total < cfg.maxQueues ==> p in s.lists.nodes)
    ensures p in s.lists.nodes ==> Sound(LinkKernel(s.lists, p, q))
  {
    hide Execute, Sound;
    if p in s.lists.nodes {
      SoundPut(s.lists, p, LinkKernel(s.lists, p, q));
    } else {
      UnsoundPut(s.lists, p, LinkKernel(s.lists, p, q));
    }
  }

  lemma RemoveKernelSound(cfg: Config, s: State, p: nat, i: nat, hw: Hw)
    requires Listed(s.lists) && Sound(s.lists) && Alive(s.lists, p) && i < |s.lists.procs[p].kernelQueues|
    ensures Sound(UnlinkKernel(s.lists, p, i)) && Sound(RemoveKernelStep(cfg, s, p, i, hw).s.lists)
  {
    hide Execute;
    SoundPut(s.lists, p, UnlinkKernel(s.lists, p, i));
  }

  lemma DestroyNowSound(cfg: Config, s: State, p: nat, i: nat, hw: Hw)
    requires Listed(s.lists) && Sound(s.lists) && HasQueue(s.lists, p, i)
    ensures Sound(DestroyNow(cfg, s, p, i, hw).s.lists)
    ensures Sound(DestroyLists(cfg, s.lists, p, i))
  {
    hide DestroyNow, DestroyLists;
    DestroyShape(cfg, s, p, i, hw);
    SoundPut(s.lists, p, DestroyNow(cfg, s, p, i, hw).s.lists);
    UnlinkShape(cfg, s.lists, p, i);
    SoundPut(s.lists, p, DestroyLists(cfg, s.lists, p, i));
  }

  lemma MarkSound(l: Lists, p: nat, i: nat, q: Queue)
    requires Listed(l) && Sound(l) && HasQueue(l, p, i)
    ensures Listed(PutQueue(l, p, i, q)) && Sound(PutQueue(l, p, i, q))
  {
    SoundPut(l, p, PutQueue(l, p, i, q));
  }

  lemma DestroySound(cfg: Config, s: State, p: nat, i: nat, hw: Hw)
    requires Listed(s.lists) && Sound(s.lists) && HasQueue(s.lists, p, i)
    ensures Sound(Destroy(cfg, s, p, i, hw).s.lists) && Sound(FinishStep(cfg, s, p, i, hw).s.lists)
  {
    hide DestroyNow, Sound, Listed, PutQueue;
    var q := s.lists.procs[p].queues[i];
    MarkDestroySound(cfg, s, p, i, q.(beingDestroyed := true, destroyWait := Waiting), hw);
    MarkDestroySound(cfg, s, p, i, q.(beingDestroyed := true), hw);
    MarkDestroySound(cfg, s, p, i, q.(destroyWait := Idle), hw);
  }

  lemma MarkDestroySound(cfg: Config, s: State, p: nat, i: nat, q: Queue, hw: Hw)
    requires Listed(s.lists) && Sound(s.lists) && HasQueue(s.lists, p, i)
    ensures var m := PutQueue(s.lists, p, i, q);
      && Defined(m) && HasQueue(m, p, i)
      && Sound(m) && Sound(DestroyNow(cfg, s.(lists := m), p, i, hw).s.lists)
  {
    hide DestroyNow, Sound;
    MarkSound(s.lists, p, i, q);
    DestroyNowSound(cfg, s.(lists := PutQueue(s.lists, p, i, q)), p, i, hw);
  }

  lemma TerminateSound(cfg: Config, s: State, p: nat, hw: Hw)
    requires Listed(s.lists) && Sound(s.lists) && Alive(s.lists, p)
    ensures Sound(TerminateLists(cfg, s.lists, p)) && Sound(TerminateStep(cfg, s, p, hw).s.lists)
  {
    hide Execute, TerminateLists;
    var l, l' := s.lists, TerminateLists(cfg, s.lists, p);
    TerminateKeepsKeys(cfg, l, p);
    WithoutDistinct(l.known, p);
    if p in l.nodes {
      WithoutDistinct(l.nodes, p);
    }
    forall n | n in l'.known ensures n in l'.procs && (n in l'.nodes || NoQueues(l'.procs[n])) {
      assert n in l.known && n != p;
    }
  }

  lemma ProcessSoundIff(cfg: Config, s: State, a: Action)
    requires Listed(s.lists) && Sound(s.lists) && IsProcess(a) && ProcessEnabled(s.lists, a)
    ensures Sound(ProcessStep(cfg, s, a).s.lists)
       <==> (a.Register? && a.allocOk ==> a.p !in s.lists.nodes)
  {
    var l, l' := s.lists, ProcessStep(cfg, s, a).s.lists;
    match a
    case Register(p, allocOk) =>
      if allocOk && p in l.nodes {
        var i :| 0 <= i < |l.nodes| && l.nodes[i] == p;
        assert l'.nodes[0] == l'.nodes[i + 1];
      }
    case Unregister(p) =>
      if p in l.nodes {
        WithoutDistinct(l.nodes, p);
      }
    case _ =>
  }

  // ----- operations on queues change one process and leave the device's list alone

  predicate IsDestroy(a: Action) { a.DestroyQueue? || a.DestroyFinish? }

  predicate IsCreate(a: Action) { a.CreateQueue? || a.CreateKernelQueue? }

  /** Only the lists of process x change. */
  ghost predicate OnlyOne(l: Lists, l': Lists, x: nat) {
    && l'.nodes == l.nodes && l'.known == l.known
    && x in l.procs && x in l'.procs && l'.procs == l.procs[x := l'.procs[x]]
  }

  lemma CreateShape(cfg: Config, s: State, p: nat, q: Queue, qd: Option<Criu>, mqdOk: bool, hw: Hw)
    requires ListInv(cfg, s.lists) && p in s.lists.procs && q.kind != Diq
    ensures var r := Create(cfg, s, p, q, qd, mqdOk, hw);
      && OnlyOne(s.lists, r.s.lists, p)
      && (r.ret == Ok ==> !NoQueues(r.s.lists.procs[p]))
      && (r.ret != Ok ==> r.s.lists == s.lists)
  {
    hide CountersAgree, ProcInv, Create;
    if Create(cfg, s, p, q, qd, mqdOk, hw).ret != Ok {
      CreateAllOrNothing(cfg, s, p, q, qd, mqdOk, hw);
      assert s.lists.procs[p := s.lists.procs[p]] == s.lists.procs;
    } else {
      CreateAdds(cfg, s, p, q, qd, mqdOk, hw);
    }
  }

  lemma KernelShape(cfg: Config, s: State, p: nat, q: Queue, i: nat, hw: Hw)
    requires Defined(s.lists) && p in s.lists.procs
    ensures var r := AddKernelStep(cfg, s, p, q, hw);
      && OnlyOne(s.lists, r.s.lists, p)
      && (r.ret == Ok ==> !NoQueues(r.s.lists.procs[p]))
      && (r.ret != Ok ==> r.s.lists == s.lists)
    ensures i < |s.lists.procs[p].kernelQueues| ==> OnlyOne(s.lists, RemoveKernelStep(cfg, s, p, i, hw).s.lists, p)
  {
    hide Execute;
    assert s.lists.procs[p := s.lists.procs[p]] == s.lists.procs;
  }

  /** A destroy marks or unlinks one queue. */
  lemma DestroyOnlyOne(cfg: Config, s: State, p: nat, i: nat, hw: Hw)
    requires Defined(s.lists) && p in s.lists.procs && i < |s.lists.procs[p].queues|
    ensures var l := s.lists;
      && (forall r | r == Destroy(cfg, s, p, i, hw) || r == FinishStep(cfg, s, p, i, hw) ::
            && OnlyOne(l, r.s.lists, p)
            && r.s.lists.procs[p].kernelQueues == l.procs[p].kernelQueues
            && (|r.s.lists.procs[p].queues| == |l.procs[p].queues| || |r.s.lists.procs[p].queues| == |l.procs[p].queues| - 1))
  {
    hide DestroyNow, PutQueue;
    var q := s.lists.procs[p].queues[i];
    MarkDestroyShape(cfg, s, p, i, q.(beingDestroyed := true, destroyWait := Waiting), hw);
    MarkDestroyShape(cfg, s, p, i, q.(beingDestroyed := true), hw);
    MarkDestroyShape(cfg, s, p, i, q.(destroyWait := Idle), hw);
    assert s.lists.procs[p := s.lists.procs[p]] == s.lists.procs;
  }

  lemma MarkDestroyShape(cfg: Config, s: State, p: nat, i: nat, q: Queue, hw: Hw)
    requires Defined(s.lists) && p in s.lists.procs && i < |s.lists.procs[p].queues|
    ensures var l, m := s.lists, PutQueue(s.lists, p, i, q);
      && Defined(m) && OnlyOne(l, m, p)
      && |m.procs[p].queues| == |l.procs[p].queues| && m.procs[p].kernelQueues == l.procs[p].kernelQueues
      && var r := DestroyNow(cfg, s.(lists := m), p, i, hw).s.lists;
         && OnlyOne(l, r, p) && r.procs[p].kernelQueues == l.procs[p].kernelQueues
         && (|r.procs[p].queues| == |l.procs[p].queues| || |r.procs[p].queues| == |l.procs[p].queues| - 1)
  {
    hide DestroyNow;
    var l, m := s.lists, PutQueue(s.lists, p, i, q);
    DestroyShape(cfg, s.(lists := m), p, i, hw);
    var r := DestroyNow(cfg, s.(lists := m), p, i, hw).s.lists;
    assert r.procs == l.procs[p := r.procs[p]];
  }

  /** Every structural operation on queues changes one process only. */
  lemma OperationOnlyOne(cfg: Config, s: State, a: Action)
    requires ListInv(cfg, s.lists) && Defined(s.lists) && Enabled(s, a)
    requires IsCreate(a) || IsDestroy(a) || a.DestroyKernelQueue?
    ensures OnlyOne(s.lists, Step(cfg, s, a).s.lists, a.p)
  {
    hide ListInv, OnlyOne, Step, Enabled;
    StepResult(cfg, s, a);
  }

  /** What an operation on queues leaves of its process. */
  lemma StepResult(cfg: Config, s: State, a: Action)
    requires ListInv(cfg, s.lists) && Defined(s.lists) && Enabled(s, a)
    requires IsCreate(a) || IsDestroy(a) || a.DestroyKernelQueue?
    ensures a.p in s.lists.procs
    ensures var l, r := s.lists, Step(cfg, s, a);
      && OnlyOne(l, r.s.lists, a.p)
      && (IsCreate(a) ==> if r.ret == Ok then !NoQueues(r.s.lists.procs[a.p]) else r.s.lists == l)
      && (IsDestroy(a) ==>
            && r.s.lists.procs[a.p].kernelQueues == l.procs[a.p].kernelQueues && l.procs[a.p].queues != []
            && (|r.s.lists.procs[a.p].queues| == |l.procs[a.p].queues|
                || |r.s.lists.procs[a.p].queues| == |l.procs[a.p].queues| - 1))
  {
    hide ListInv, Create, AddKernelStep, RemoveKernelStep, Destroy, FinishStep, FreshQueue, OnlyOne, MarkStep,
         ProcessStep, UpdateStep, EvictStep, RestoreStep, SuspendStep, ResumeStep, TerminateStep, StartStep,
         StopStep, RefreshStep, TrapVmidStep, ResetStep;
    match a
    case CreateQueue(x, q, qd, mqdOk, hw) => CreateShape(cfg, s, x, q, qd, mqdOk, hw);
    case CreateKernelQueue(x, q, hw) => KernelShape(cfg, s, x, q, 0, hw);
    case DestroyKernelQueue(x, i, hw) => KernelShape(cfg, s, x, s.lists.procs[x].kernelQueues[i], i, hw);
    case DestroyQueue(x, i, hw) => DestroyOnlyOne(cfg, s, x, i, hw);
    case DestroyFinish(x, i, hw) => DestroyOnlyOne(cfg, s, x, i, hw);
  }

  /**
    Exactly the steps in order keep the list sound. Whatever the hardware does, a step out
    of order breaks it at once.
   */
  lemma StepSoundIff(cfg: Config, s: State, a: Action)
    requires Inv(cfg, s) && Sound(s.lists) && Enabled(s, a)
    ensures Defined(s.lists)
    ensures Sound(Step(cfg, s, a).s.lists) <==> InOrder(cfg, s, a)
  {
    hide CountersAgree, ProcInv, SchedInv, Sound, ProcessStep, Create, FreshQueue, MarkEnabled, ProcessEnabled, SameLengths;
    InvLists(cfg, s);
    if !Structural(a) {
      hide Step;
      StepSameLengths(cfg, s, a);
      SoundSameLengths(s.lists, Step(cfg, s, a).s.lists);
    } else if IsProcess(a) {
      ProcessSoundIff(cfg, s, a);
    } else {
      hide Step;
      OperationSoundIff(cfg, s, a);
    }
  }

  lemma OperationSoundIff(cfg: Config, s: State, a: Action)
    requires Inv(cfg, s) && Sound(s.lists) && Enabled(s, a) && Structural(a) && !IsProcess(a)
    ensures Defined(s.lists)
    ensures Sound(Step(cfg, s, a).s.lists) <==> InOrder(cfg, s, a)
  {
    hide CountersAgree, ProcInv, SchedInv, Sound, Create, AddKernelStep, RemoveKernelStep, Destroy, FinishStep,
         TerminateStep, FreshQueue, MarkStep, ProcessStep, UpdateStep, EvictStep, RestoreStep, SuspendStep,
         ResumeStep, StartStep, StopStep, RefreshStep, TrapVmidStep, ResetStep;
    InvLists(cfg, s);
    match a
    case CreateQueue(p, q, qd, mqdOk, hw) => CreateSoundIff(cfg, s, p, q, qd, mqdOk, hw);
    case CreateKernelQueue(p, q, hw) => AddKernelSoundIff(cfg, s, p, q, hw);
    case DestroyKernelQueue(p, i, hw) => RemoveKernelSound(cfg, s, p, i, hw);
    case DestroyQueue(p, i, hw) => DestroySound(cfg, s, p, i, hw);
    case DestroyFinish(p, i, hw) => DestroySound(cfg, s, p, i, hw);
    case Terminate(p, hw) => TerminateSound(cfg, s, p, hw);
  }

  // ----- which steps list a process twice

  /** A registration that goes through for a process already on the list. */
  predicate Relists(l: Lists, a: Action) { a.Register? && a.allocOk && a.p in l.nodes }

  lemma SameSingle(l: Lists, l': Lists)
    requires l'.nodes == l.nodes && l'.known == l.known
    ensures Single(l') <==> Single(l)
  {
  }

  lemma LengthsSingle(l: Lists, l': Lists)
    requires SameLengths(l, l')
    ensures Single(l') <==> Single(l)
  {
  }

  lemma TerminateSingle(cfg: Config, l: Lists, p: nat)
    requires Listed(l) && Single(l) && Alive(l, p)
    ensures Single(TerminateLists(cfg, l, p))
  {
    hide TerminateLists, Without;
    TerminateKeepsKeys(cfg, l, p);
    WithoutDistinct(l.known, p);
    if p in l.nodes {
      WithoutDistinct(l.nodes, p);
    } else {
      WithoutSubset(l.nodes, p);
      WithoutNone(l.nodes, p);
    }
  }

  lemma WithoutNone(s: seq<nat>, p: nat)
    requires p !in s
    ensures Without(s, p) == s
  {
  }

  lemma ProcessSingleIff(cfg: Config, s: State, a: Action)
    requires Listed(s.lists) && Single(s.lists) && IsProcess(a) && ProcessEnabled(s.lists, a)
    ensures Single(ProcessStep(cfg, s, a).s.lists) <==> !Relists(s.lists, a)
  {
    var l, l' := s.lists, ProcessStep(cfg, s, a).s.lists;
    match a
    case Register(p, allocOk) =>
      if allocOk && p in l.nodes {
        var i :| 0 <= i < |l.nodes| && l.nodes[i] == p;
        assert l'.nodes[0] == l'.nodes[i + 1];
      }
    case Unregister(p) =>
      if p in l.nodes {
        WithoutDistinct(l.nodes, p);
      }
    case _ =>
  }

  /** Exactly a registration of a listed process lists one twice. */
  lemma StepSingleIff(cfg: Config, s: State, a: Action)
    requires Inv(cfg, s) && Single(s.lists) && Enabled(s, a)
    ensures Defined(s.lists)
    ensures Single(Step(cfg, s, a).s.lists) <==> !Relists(s.lists, a)
  {
    hide CountersAgree, ProcInv, SchedInv, Single, ProcessStep, TerminateStep, MarkEnabled, ProcessEnabled, SameLengths;
    InvLists(cfg, s);
    if IsProcess(a) {
      ProcessSingleIff(cfg, s, a);
    } else if a.Terminate? {
      TerminateStepSingle(cfg, s, a.p, a.hw);
    } else {
      hide Step;
      StepKeepsNodes(cfg, s, a);
      SameSingle(s.lists, Step(cfg, s, a).s.lists);
    }
  }

  lemma TerminateStepSingle(cfg: Config, s: State, p: nat, hw: Hw)
    requires Listed(s.lists) && Single(s.lists) && Alive(s.lists, p)
    ensures Single(TerminateStep(cfg, s, p, hw).s.lists)
  {
    hide Execute, TerminateLists;
    TerminateSingle(cfg, s.lists, p);
    TerminateKeepsKeys(cfg, s.lists, p);
  }

  lemma StepKeepsNodes(cfg: Config, s: State, a: Action)
    requires ListInv(cfg, s.lists) && Defined(s.lists) && Enabled(s, a) && !IsProcess(a) && !a.Terminate?
    ensures Step(cfg, s, a).s.lists.nodes == s.lists.nodes && Step(cfg, s, a).s.lists.known == s.lists.known
  {
    hide ListInv, Step, Enabled;
    if Structural(a) {
      OperationOnlyOne(cfg, s, a);
    } else {
      StepSameLengths(cfg, s, a);
    }
  }

  // ----- runs

  ghost predicate NoneRelisted(states: seq<State>, actions: seq<Action>, n: nat)
    requires n <= |actions| < |states|
  {
    forall k :: 0 <= k < n ==> !Relists(states[k].lists, actions[k])
  }

  /**
    Over every run: no process was ever listed twice if and only if every registration
    that went through found its process not listed.
   */
  lemma {:induction false} RunsSingleIff(cfg: Config, states: seq<State>, actions: seq<Action>, n: nat)
    requires cfg.Valid() && Run(cfg, states, actions) && n <= |actions|
    ensures (forall k :: 0 <= k <= n ==> Single(states[k].lists)) <==> NoneRelisted(states, actions, n)
  {
    hide Single, Relists, Enabled, Step;
    if n == 0 {
      InitSound(cfg);
    } else {
      RunsSingleIff(cfg, states, actions, n - 1);
      RunsKeepInv(cfg, states, actions, n - 1);
      hide Inv;
      if NoneRelisted(states, actions, n - 1) {
        StepSingleIff(cfg, states[n - 1], actions[n - 1]);
        assert states[n] == Step(cfg, states[n - 1], actions[n - 1]).s;
      } else {
        assert !NoneRelisted(states, actions, n);
      }
    }
  }

  /** As long as that holds, the packets fit the buffer and its overflow warning is not reached. */
  lemma RunsNeverOverflow(cfg: Config, states: seq<State>, actions: seq<Action>, n: nat)
    requires cfg.Valid() && Run(cfg, states, actions) && n <= |actions| && NoneRelisted(states, actions, n)
    ensures var l := states[n].lists;
      && Defined(l)
      && 4 * |Encode(Packets(cfg, l), cfg.layout)| <= RlibSize(l.processes, l.tally, cfg.layout)
  {
    hide CountersAgree, ProcInv, SchedInv, Encode, Sum, RlibSize, Enabled, Step, Single, Relists;
    RunsKeepInv(cfg, states, actions, n);
    RunsSingleIff(cfg, states, actions, n);
    var l := states[n].lists;
    SingleCounted(cfg, l);
    SizeSuffices(l.nodes, l.procs, l.tally, cfg.layout);
  }

  ghost predicate AllInOrder(cfg: Config, states: seq<State>, actions: seq<Action>, n: nat)
    requires Run(cfg, states, actions) && n <= |actions|
  {
    forall k :: 0 <= k < n ==> InOrder(cfg, states[k], actions[k])
  }

  /**
    Over every run: the device's list has been sound all along if and only if every step so
    far was in order.
   */
  lemma {:induction false} RunsSoundIff(cfg: Config, states: seq<State>, actions: seq<Action>, n: nat)
    requires cfg.Valid() && Run(cfg, states, actions) && n <= |actions|
    ensures (forall k :: 0 <= k <= n ==> Sound(states[k].lists)) <==> AllInOrder(cfg, states, actions, n)
  {
    hide Sound, InOrder, Enabled, Step;
    if n == 0 {
      InitSound(cfg);
    } else {
      RunsSoundIff(cfg, states, actions, n - 1);
      RunsKeepInv(cfg, states, actions, n - 1);
      hide Inv;
      if AllInOrder(cfg, states, actions, n - 1) {
        StepSoundIff(cfg, states[n - 1], actions[n - 1]);
        assert states[n] == Step(cfg, states[n - 1], actions[n - 1]).s;
      } else {
        assert !AllInOrder(cfg, states, actions, n);
      }
    }
  }

  lemma InitSound(cfg: Config)
    ensures Sound(Init(cfg).lists) && Single(Init(cfg).lists)
  {
  }

  /**
    In every state of every run, the packets the list walk writes miss the size computed
    from the counters by one map-queues packet per active queue listed too often or not at
    all.
   */
  lemma RunsFillGap(cfg: Config, states: seq<State>, actions: seq<Action>, n: nat)
    requires cfg.Valid() && Run(cfg, states, actions) && n < |states|
    ensures var l := states[n].lists;
      && Defined(l) && Listed(l)
      && 4 * |Encode(Packets(cfg, l), cfg.layout)|
         == RlibSize(l.processes, l.tally, cfg.layout)
          + (Sum(Active, l.nodes, l.procs) - Sum(Active, l.known, l.procs)) * cfg.layout.mapQueuesSize
  {
    hide CountersAgree, ProcInv, SchedInv, Encode, Sum, RlibSize, Enabled, Step;
    RunsKeepInv(cfg, states, actions, n);
    var l := states[n].lists;
    CountedActive(cfg, l);
    SizeGap(l.nodes, l.procs, l.tally, cfg.layout);
  }

  /** As long as every step was in order, the buffer is filled exactly. */
  lemma RunsFillExactly(cfg: Config, states: seq<State>, actions: seq<Action>, n: nat)
    requires cfg.Valid() && Run(cfg, states, actions) && n <= |actions| && AllInOrder(cfg, states, actions, n)
    ensures var l := states[n].lists;
      && Defined(l)
      && 4 * |Encode(Packets(cfg, l), cfg.layout)| == RlibSize(l.processes, l.tally, cfg.layout)
  {
    hide InOrder, Enabled, Step, Encode, RlibSize, Sum, Packets, Sound;
    RunsSoundIff(cfg, states, actions, n);
    RunsFillGap(cfg, states, actions, n);
    SoundSums(Active, states[n].lists);
  }
}

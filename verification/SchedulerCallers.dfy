/**
  How the process queue manager drives the device queue manager: it registers a process
  before its first queue, unregisters it after its last one or when the first one comes to
  nothing, and under the process mutex does one such thing at a time. Following that protocol keeps the device's list sound as
  long as two kinds of failure do not happen.
 */
module SchedulerCallers {
  import opened Arithmetic
  import opened Basics
  import opened Queues
  import opened RunlistIb
  import opened Scheduler
  import opened SchedulerInvariant
  import opened SchedulerSteps
  import opened SchedulerRuns
  import opened SchedulerSound

  // ----- the caller's protocol

  /** What the caller is in the middle of for one process. */
  datatype Phase = Resting | Creating | Leaving

  /** The destroy results after which the caller goes on to clean up. */
  predicate Cleaned(ret: Ret) { ret == Ok || ret == Etime || ret == Eio }

  /** The process a structural action is about. */
  predicate About(a: Action, p: nat) {
    (a.Register? || a.Unregister? || IsCreate(a) || IsDestroy(a) || a.DestroyKernelQueue? || a.Terminate?) && a.p == p
  }

  /** Where the caller stands for process p after a step. */
  ghost function NextPhase(cfg: Config, s: State, a: Action, p: nat, ph: Phase): Phase
    requires Defined(s.lists) && Enabled(s, a)
  {
    var r := Step(cfg, s, a);
    if a == NewProcess(p) then Resting
    else if !About(a, p) then ph
    else if a.Register? then Creating
    else if a.Unregister? then Resting
    else
      var empty := p in r.s.lists.procs && NoQueues(r.s.lists.procs[p]);
      if IsCreate(a) then if r.ret != Ok && empty then Leaving else Resting
      else if a.DestroyKernelQueue? then if empty then Leaving else Resting
      else if IsDestroy(a) then if Unlinked(s, a, r) && empty && Cleaned(r.ret) then Leaving else Resting
      else Resting
  }

  /** The destroy took its queue off the list. */
  ghost predicate Unlinked(s: State, a: Action, r: Result)
    requires IsDestroy(a)
  {
    a.p in s.lists.procs && a.p in r.s.lists.procs && |r.s.lists.procs[a.p].queues| < |s.lists.procs[a.p].queues|
  }

  /** The step is one the caller takes in that phase. */
  ghost predicate Obeys(s: State, a: Action, ph: Phase) {
    match a
    case Register(p, _) => ph == Resting
    case Unregister(p) => ph == Leaving || ph == Creating
    case CreateQueue(p, _, _, _, _) => p in s.lists.procs && ph == (if NoQueues(s.lists.procs[p]) then Creating else Resting)
    case CreateKernelQueue(p, _, _) => p in s.lists.procs && ph == (if NoQueues(s.lists.procs[p]) then Creating else Resting)
    case DestroyKernelQueue(_, _, _) => ph == Resting
    case DestroyQueue(_, _, _) => ph == Resting
    case DestroyFinish(_, _, _) => ph == Resting
    case Terminate(_, _) => ph == Resting
    case _ => true
  }

  /**
    What has to be ruled out: a destroy that unlinks its queue but then returns an error
    after which the caller gives up and, where `registered` asks for it, a registration
    that fails for lack of memory.
   */
  ghost predicate Benign(cfg: Config, s: State, a: Action, registered: bool)
    requires Defined(s.lists) && Enabled(s, a)
  {
    && (registered && a.Register? ==> a.allocOk)
    && (IsDestroy(a) ==> var r := Step(cfg, s, a); Unlinked(s, a, r) ==> Cleaned(r.ret))
  }

  // ----- the protocol keeps the list sound

  /** A listed process without queues is one the caller is busy with; one being created for is listed. */
  ghost predicate Tidy(l: Lists, p: nat, ph: Phase, registered: bool)
    requires p in l.procs
  {
    && (p in l.nodes && NoQueues(l.procs[p]) ==> ph != Resting)
    && (registered && ph == Creating ==> p in l.nodes && NoQueues(l.procs[p]))
  }

  lemma OrderFromTidy(cfg: Config, s: State, a: Action, ph: Phase)
    requires Inv(cfg, s) && Sound(s.lists) && Enabled(s, a) && Defined(s.lists)
    requires a.Register? || IsCreate(a)
    requires Tidy(s.lists, a.p, ph, true) && Obeys(s, a, ph)
    ensures InOrder(cfg, s, a)
  {
    hide CountersAgree, ProcInv, SchedInv, Create;
    assert a.p in s.lists.known;
  }

  /** The step changes neither whether p is listed nor whether it has queues. */
  ghost predicate Untouched(l: Lists, l': Lists, p: nat) {
    p in l.procs && p in l'.procs && (p in l'.nodes <==> p in l.nodes)
      && (NoQueues(l'.procs[p]) <==> NoQueues(l.procs[p]))
  }

  lemma WithoutOther(s: seq<nat>, x: nat, p: nat)
    requires p != x
    ensures p in Without(s, x) <==> p in s
  {
    if x in s {
      var i := IndexOf(s, x);
      if p in s {
        var j :| 0 <= j < |s| && s[j] == p;
        assert RemoveAt(s, i)[if j < i then j else j - 1] == p;
      }
    }
  }

  lemma OnlyOneUntouched(l: Lists, l': Lists, x: nat, p: nat)
    requires OnlyOne(l, l', x) && p in l.procs && p != x
    ensures Untouched(l, l', p)
  {
  }

  lemma LengthsUntouched(l: Lists, l': Lists, p: nat)
    requires SameLengths(l, l') && p in l.procs
    ensures Untouched(l, l', p)
  {
  }

  lemma ProcessUntouched(cfg: Config, s: State, a: Action, p: nat)
    requires IsProcess(a) && ProcessEnabled(s.lists, a) && Alive(s.lists, p) && !About(a, p)
    ensures Untouched(s.lists, ProcessStep(cfg, s, a).s.lists, p)
  {
    if a.Unregister? {
      WithoutOther(s.lists.nodes, a.p, p);
    }
  }

  /** Steps about other processes leave this one alone. */
  lemma StepUntouched(cfg: Config, s: State, a: Action, p: nat)
    requires Inv(cfg, s) && Enabled(s, a) && Alive(s.lists, p) && !About(a, p)
    ensures Defined(s.lists) && Untouched(s.lists, Step(cfg, s, a).s.lists, p)
  {
    hide CountersAgree, ProcInv, SchedInv, Untouched, SameLengths, ProcessStep, TerminateStep, OnlyOne, MarkEnabled,
         ProcessEnabled;
    InvLists(cfg, s);
    if !Structural(a) {
      hide Step;
      StepSameLengths(cfg, s, a);
      LengthsUntouched(s.lists, Step(cfg, s, a).s.lists, p);
    } else if IsProcess(a) {
      ProcessUntouched(cfg, s, a, p);
    } else if a.Terminate? {
      TerminateUntouched(cfg, s, a.p, a.hw, p);
    } else {
      hide Step;
      OperationOnlyOne(cfg, s, a);
      OnlyOneUntouched(s.lists, Step(cfg, s, a).s.lists, a.p, p);
    }
  }

  lemma TerminateUntouched(cfg: Config, s: State, x: nat, hw: Hw, p: nat)
    requires Defined(s.lists) && x in s.lists.procs && p in s.lists.procs && p != x
    ensures Untouched(s.lists, TerminateStep(cfg, s, x, hw).s.lists, p)
  {
    hide Execute, TerminateLists, Without;
    TerminateKeepsKeys(cfg, s.lists, x);
    WithoutOther(s.lists.nodes, x, p);
  }

  /** Registering and unregistering move the phase as the protocol says. */
  lemma RegisterTidy(cfg: Config, s: State, a: Action, ph: Phase, registered: bool)
    requires Single(s.lists) && Defined(s.lists) && Enabled(s, a) && (a.Register? || a.Unregister?) && Benign(cfg, s, a, registered)
    ensures var l' := Step(cfg, s, a).s.lists;
      a.p in l'.procs && Tidy(l', a.p, NextPhase(cfg, s, a, a.p, ph), registered)
  {
    if a.Unregister? && a.p in s.lists.nodes {
      WithoutDistinct(s.lists.nodes, a.p);
    }
  }

  /** And so does every operation on the process's queues. */
  lemma QueueTidy(cfg: Config, s: State, a: Action, ph: Phase, registered: bool)
    requires ListInv(cfg, s.lists) && Defined(s.lists) && Enabled(s, a) && Benign(cfg, s, a, registered)
    requires IsCreate(a) || IsDestroy(a) || a.DestroyKernelQueue?
    requires a.p in s.lists.procs && Tidy(s.lists, a.p, ph, registered)
    ensures var l' := Step(cfg, s, a).s.lists;
      a.p in l'.procs && Tidy(l', a.p, NextPhase(cfg, s, a, a.p, ph), registered)
  {
    hide ListInv, Step, Enabled, FreshQueue, Obeys;
    StepResult(cfg, s, a);
  }

  // ----- runs

  /** The caller's phase for p when the run has come to state k. */
  ghost function PhaseAt(cfg: Config, states: seq<State>, actions: seq<Action>, p: nat, k: nat): Phase
    requires Run(cfg, states, actions) && k <= |actions|
  {
    if k == 0 then Resting
    else NextPhase(cfg, states[k - 1], actions[k - 1], p, PhaseAt(cfg, states, actions, p, k - 1))
  }

  /** Every step is one the caller takes in its phase for the process it concerns. */
  ghost predicate Disciplined(cfg: Config, states: seq<State>, actions: seq<Action>, n: nat)
    requires Run(cfg, states, actions) && n <= |actions|
  {
    forall k, p :: 0 <= k < n && About(actions[k], p) ==>
      Obeys(states[k], actions[k], PhaseAt(cfg, states, actions, p, k))
  }

  ghost predicate AllBenign(cfg: Config, states: seq<State>, actions: seq<Action>, n: nat, registered: bool)
    requires Run(cfg, states, actions) && n <= |actions|
  {
    forall k :: 0 <= k < n ==> Benign(cfg, states[k], actions[k], registered)
  }

  lemma TidyStep(cfg: Config, s: State, a: Action, p: nat, ph: Phase, registered: bool)
    requires Inv(cfg, s) && Single(s.lists) && Defined(s.lists) && Enabled(s, a) && Benign(cfg, s, a, registered)
    requires p in s.lists.known && p in s.lists.procs && Tidy(s.lists, p, ph, registered)
    requires About(a, p) ==> Obeys(s, a, ph)
    ensures var l' := Step(cfg, s, a).s.lists;
      p in l'.known ==> p in l'.procs && Tidy(l', p, NextPhase(cfg, s, a, p, ph), registered)
  {
    assert Alive(s.lists, p);
    hide Inv, Single, Step, Tidy, Obeys, Benign, Enabled;
    if !About(a, p) {
      StepUntouched(cfg, s, a, p);
      UntouchedTidy(s.lists, Step(cfg, s, a).s.lists, p, ph, registered);
    } else if a.Terminate? {
      TerminateGone(cfg, s, a.p, a.hw);
    } else if a.Register? || a.Unregister? {
      RegisterTidy(cfg, s, a, ph, registered);
    } else {
      InvListInv(cfg, s);
      QueueTidy(cfg, s, a, ph, registered);
    }
  }

  lemma InvListInv(cfg: Config, s: State)
    requires Inv(cfg, s)
    ensures ListInv(cfg, s.lists)
  {
  }

  lemma UntouchedTidy(l: Lists, l': Lists, p: nat, ph: Phase, registered: bool)
    requires p in l.procs && Tidy(l, p, ph, registered) && Untouched(l, l', p)
    ensures Tidy(l', p, ph, registered)
  {
  }

  lemma TerminateGone(cfg: Config, s: State, p: nat, hw: Hw)
    requires Inv(cfg, s) && Defined(s.lists) && Enabled(s, Terminate(p, hw))
    ensures p !in Step(cfg, s, Terminate(p, hw)).s.lists.known
  {
    hide CountersAgree, ProcInv, Execute, TerminateLists;
    TerminateKeepsKeys(cfg, s.lists, p);
    WithoutDistinct(s.lists.known, p);
  }

  /** Only a new process becomes known. */
  lemma StepKnown(cfg: Config, s: State, a: Action, p: nat)
    requires Inv(cfg, s) && Enabled(s, a) && Defined(s.lists)
    requires p in Step(cfg, s, a).s.lists.known
    ensures p in s.lists.known || a == NewProcess(p)
  {
    hide CountersAgree, ProcInv, SchedInv, TerminateLists, Execute, MarkStep, Create, FreshQueue, MarkEnabled,
         AddKernelStep, RemoveKernelStep, Destroy, FinishStep, UpdateStep, EvictStep, RestoreStep, SuspendStep,
         ResumeStep, StartStep, StopStep, RefreshStep, TrapVmidStep, ResetStep;
    if !Structural(a) {
      hide Step;
      StepSameLengths(cfg, s, a);
    } else if IsProcess(a) {
      hide SameLengths;
    } else if a.Terminate? {
      TerminateKeepsKeys(cfg, s.lists, a.p);
      WithoutSubset(s.lists.known, a.p);
    } else {
      hide Step;
      OperationOnlyOne(cfg, s, a);
    }
  }

  lemma NewIsTidy(cfg: Config, s: State, p: nat, ph: Phase, registered: bool)
    requires Defined(s.lists) && Enabled(s, NewProcess(p))
    ensures var l' := Step(cfg, s, NewProcess(p)).s.lists;
      p in l'.procs && Tidy(l', p, NextPhase(cfg, s, NewProcess(p), p, ph), registered)
  {
  }

  /** One step of the argument. */
  lemma DisciplineStep(cfg: Config, s: State, a: Action, p: nat, ph: Phase, registered: bool)
    requires Inv(cfg, s) && Single(s.lists) && Defined(s.lists) && Enabled(s, a) && Benign(cfg, s, a, registered)
    requires p in s.lists.known ==> p in s.lists.procs && Tidy(s.lists, p, ph, registered)
    requires About(a, p) ==> Obeys(s, a, ph)
    ensures var l' := Step(cfg, s, a).s.lists;
      p in l'.known ==> p in l'.procs && Tidy(l', p, NextPhase(cfg, s, a, p, ph), registered)
  {
    hide Inv, Single, Step, Tidy, Obeys, Benign, Enabled, NextPhase;
    if p in Step(cfg, s, a).s.lists.known {
      StepKnown(cfg, s, a, p);
      if p in s.lists.known {
        TidyStep(cfg, s, a, p, ph, registered);
      } else {
        NewIsTidy(cfg, s, p, ph, registered);
      }
    }
  }

  /** A step about its own process is in order. */
  lemma DisciplineInOrder(cfg: Config, s: State, a: Action, ph: Phase)
    requires Inv(cfg, s) && Sound(s.lists) && Defined(s.lists) && Enabled(s, a)
    requires a.Register? || IsCreate(a) ==>
      (a.p in s.lists.known ==> a.p in s.lists.procs && Tidy(s.lists, a.p, ph, true))
    requires a.Register? || IsCreate(a) ==> Obeys(s, a, ph)
    ensures InOrder(cfg, s, a)
  {
    hide CountersAgree, ProcInv, SchedInv, Create, FreshQueue, Sound, Tidy, Obeys;
    if a.Register? || IsCreate(a) {
      assert Alive(s.lists, a.p);
      OrderFromTidy(cfg, s, a, ph);
    }
  }

  lemma RegisterFindsNone(cfg: Config, s: State, a: Action, ph: Phase, registered: bool)
    requires Inv(cfg, s) && Enabled(s, a) && a.Register? && Obeys(s, a, ph)
    requires a.p in s.lists.known ==> a.p in s.lists.procs && Tidy(s.lists, a.p, ph, registered)
    ensures !Relists(s.lists, a)
  {
    hide CountersAgree, ProcInv, SchedInv;
    assert Alive(s.lists, a.p);
  }

  lemma {:induction false} DisciplineKeepsTidy(cfg: Config, states: seq<State>, actions: seq<Action>, n: nat, registered: bool)
    requires cfg.Valid() && Run(cfg, states, actions) && n <= |actions|
    requires Disciplined(cfg, states, actions, n) && AllBenign(cfg, states, actions, n, registered)
    ensures NoneRelisted(states, actions, n)
    ensures forall p <- states[n].lists.known ::
      p in states[n].lists.procs && Tidy(states[n].lists, p, PhaseAt(cfg, states, actions, p, n), registered)
  {
    hide Inv, Single, Tidy, Obeys, Benign, Step, Enabled, NextPhase, Relists;
    if n > 0 {
      var s, a := states[n - 1], actions[n - 1];
      assert Disciplined(cfg, states, actions, n - 1) && AllBenign(cfg, states, actions, n - 1, registered);
      DisciplineKeepsTidy(cfg, states, actions, n - 1, registered);
      RunsSingleIff(cfg, states, actions, n - 1);
      RunsKeepInv(cfg, states, actions, n - 1);
      if a.Register? {
        assert About(a, a.p);
        RegisterFindsNone(cfg, s, a, PhaseAt(cfg, states, actions, a.p, n - 1), registered);
      } else {
        OthersRelistNone(s.lists, a);
      }
      forall p | p in states[n].lists.known
        ensures p in states[n].lists.procs && Tidy(states[n].lists, p, PhaseAt(cfg, states, actions, p, n), registered)
      {
        DisciplineStep(cfg, s, a, p, PhaseAt(cfg, states, actions, p, n - 1), registered);
      }
    }
  }

  lemma OthersRelistNone(l: Lists, a: Action)
    requires !a.Register?
    ensures !Relists(l, a)
  {
  }

  /**
    The condition a caller can see: in every run that follows the protocol, if no destroy
    that unlinked its queue returned anything but success, a timeout or an I/O error, then
    no process was ever listed twice and no runlist buffer overflows.
   */
  lemma DisciplineNeverOverflows(cfg: Config, states: seq<State>, actions: seq<Action>, n: nat)
    requires cfg.Valid() && Run(cfg, states, actions) && n <= |actions|
    requires Disciplined(cfg, states, actions, n) && AllBenign(cfg, states, actions, n, false)
    ensures forall k :: 0 <= k <= n ==> Single(states[k].lists)
    ensures var l := states[n].lists;
      Defined(l) && 4 * |Encode(Packets(cfg, l), cfg.layout)| <= RlibSize(l.processes, l.tally, cfg.layout)
  {
    hide Single, Encode, Packets, RlibSize, Step, Enabled, Disciplined, AllBenign, NoneRelisted;
    DisciplineKeepsTidy(cfg, states, actions, n, false);
    RunsSingleIff(cfg, states, actions, n);
    RunsNeverOverflow(cfg, states, actions, n);
  }

  /**
    If no registration ran out of memory either, every step was in order: the list is
    sound all along and every runlist buffer is filled exactly.
   */
  lemma {:induction false} DisciplineKeepsOrder(cfg: Config, states: seq<State>, actions: seq<Action>, n: nat)
    requires cfg.Valid() && Run(cfg, states, actions) && n <= |actions|
    requires Disciplined(cfg, states, actions, n) && AllBenign(cfg, states, actions, n, true)
    ensures AllInOrder(cfg, states, actions, n)
  {
    hide Inv, Sound, Tidy, Obeys, Benign, Step, Enabled, InOrder, NextPhase;
    if n > 0 {
      var s, a := states[n - 1], actions[n - 1];
      assert Disciplined(cfg, states, actions, n - 1) && AllBenign(cfg, states, actions, n - 1, true);
      DisciplineKeepsOrder(cfg, states, actions, n - 1);
      DisciplineKeepsTidy(cfg, states, actions, n - 1, true);
      RunsSoundIff(cfg, states, actions, n - 1);
      RunsKeepInv(cfg, states, actions, n - 1);
      if a.Register? || IsCreate(a) {
        assert About(a, a.p);
        DisciplineInOrder(cfg, s, a, PhaseAt(cfg, states, actions, a.p, n - 1));
      } else {
        DisciplineInOrder(cfg, s, a, Resting);
      }
    }
  }
}

/**
  Doorbells over whole runs: a live queue keeps the doorbell that belongs to its slot or its
  id, SDMA doorbells stay in their engine's window, and no two live queues that could
  disturb each other share one.
 */
module SdmaDoorbells {
  import opened Arithmetic
  import opened Basics
  import opened Queues
  import opened Scheduler
  import opened SchedulerInvariant
  import opened SchedulerSteps
  import opened SchedulerRuns
  import opened SchedulerDescriptors
  import opened SchedulerMapping
  import opened SdmaSlots

  // ----- what a doorbell is tied to

  /** The first doorbell of an engine. */
  function FirstDoorbell(cfg: Config, e: nat): nat {
    if e < |cfg.sdmaDoorbellIdx| then cfg.sdmaDoorbellIdx[e] else 0
  }

  /**
    Before SOC15 the doorbell is the queue's id. On SOC15 the even queues of an SDMA engine
    follow each other from its first doorbell on, and the odd ones 512 behind them.
   */
  predicate Tied(cfg: Config, q: Queue) {
    if !cfg.soc15 then q.doorbell == q.id
    else IsSdma(q.kind) ==>
      var first, n := FirstDoorbell(cfg, EngineOf(cfg, q)), EngineQueueOf(cfg, q);
      q.doorbell == if n % 2 == 0 then first + n / 2 else first + 512 + n / 2
  }

  ghost predicate AllTied(cfg: Config, l: Lists) {
    forall p, q | p in l.procs && q in l.procs[p].queues :: Tied(cfg, q)
  }

  lemma SameTied(cfg: Config, x: Queue, y: Queue)
    requires Tied(cfg, x) && y.id == x.id && y.kind == x.kind && y.sdmaId == x.sdmaId && y.doorbell == x.doorbell
    ensures Tied(cfg, y)
  {
  }

  lemma CarriedTied(cfg: Config, l: Lists, l': Lists)
    requires AllTied(cfg, l) && AllCarried(l, l', false)
    ensures AllTied(cfg, l')
  {
    forall p, y | p in l'.procs && y in l'.procs[p].queues ensures Tied(cfg, y) {
      if p in l.procs {
        assert Carried(l.procs[p].queues, l'.procs[p].queues, false);
        assert HasSame(l.procs[p].queues, y);
        var x :| x in l.procs[p].queues && Same(x, y);
        SameTied(cfg, x, y);
      }
    }
  }

  lemma NewTied(cfg: Config, bits: set<nat>, q: Queue, rid: Option<nat>)
    requires AllocDoorbell(cfg, bits, q, rid).ret == Ok
    ensures Tied(cfg, q.(doorbell := AllocDoorbell(cfg, bits, q, rid).doorbell))
  {
    hide FindFirstZero;
  }

  lemma ReserveTied(cfg: Config, l: Lists, p: nat, q: Queue, qd: Option<Criu>)
    requires p in l.procs && Reserve(cfg, l, p, q, qd).ret == Ok
    ensures Tied(cfg, Reserve(cfg, l, p, q, qd).q)
  {
    hide AllocSdma, AllocDoorbell, Tied;
    var a := AllocSdma(cfg, l, q, SlotOf(qd));
    NewTied(cfg, l.procs[p].doorbells, a.q, DoorbellOf(qd));
  }

  lemma CreateTied(cfg: Config, s: State, p: nat, q: Queue, qd: Option<Criu>, mqdOk: bool, hw: Hw)
    requires ListInv(cfg, s.lists) && Defined(s.lists) && p in s.lists.procs && q.kind != Diq && AllTied(cfg, s.lists)
    ensures AllTied(cfg, Create(cfg, s, p, q, qd, mqdOk, hw).s.lists)
  {
    hide ListInv, Create, Reserve, Tied;
    var l, r := s.lists, Create(cfg, s, p, q, qd, mqdOk, hw);
    if r.ret != Ok {
      CreateAllOrNothing(cfg, s, p, q, qd, mqdOk, hw);
    } else {
      CreateAdds(cfg, s, p, q, qd, mqdOk, hw);
      LinkedQueue(cfg, s, p, q, qd, mqdOk, hw);
      ReserveTied(cfg, l, p, q, qd);
      var y, x := r.s.lists.procs[p].queues[0], Reserve(cfg, l, p, q, qd).q;
      SameTied(cfg, x, y);
      forall n, z | n in r.s.lists.procs && z in r.s.lists.procs[n].queues ensures Tied(cfg, z) {
        assert n == p ==> z == y || z in l.procs[p].queues;
      }
    }
  }

  lemma UpdateTied(cfg: Config, s: State, p: nat, i: nat, hw: Hw)
    requires Inv(cfg, s) && Defined(s.lists) && HasQueue(s.lists, p, i) && AllTied(cfg, s.lists)
    ensures AllTied(cfg, UpdateStep(cfg, s, p, i, hw).s.lists)
  {
    hide Inv, UpdateStep, Tied, Unmaps;
    UpdateRewrites(cfg, s, p, i, hw);
    var l, l' := s.lists, UpdateStep(cfg, s, p, i, hw).s.lists;
    if l' != l {
      var qs := l'.procs[p].queues;
      SameTied(cfg, l.procs[p].queues[i], qs[i]);
      forall z | z in qs ensures Tied(cfg, z) {
        var k :| 0 <= k < |qs| && qs[k] == z;
        assert l.procs[p].queues[k] in l.procs[p].queues;
      }
    }
  }

  lemma StepKeepsTied(cfg: Config, s: State, a: Action)
    requires Inv(cfg, s) && Enabled(s, a) && AllTied(cfg, s.lists)
    ensures Defined(s.lists) && AllTied(cfg, Step(cfg, s, a).s.lists)
  {
    hide ListInv, SchedInv, Step, Enabled, AllTied, AllCarried;
    InvLists(cfg, s);
    if a.CreateQueue? {
      CreateIs(cfg, s, a);
      CreateTied(cfg, s, a.p, a.q, a.qd, a.mqdOk, a.hw);
    } else if a.UpdateQueue? {
      UpdateIs(cfg, s, a);
      UpdateTied(cfg, s, a.p, a.i, a.hw);
    } else {
      StepCarries(cfg, s, a);
      CarriedTied(cfg, s.lists, Step(cfg, s, a).s.lists);
    }
  }

  lemma CreateIs(cfg: Config, s: State, a: Action)
    requires Inv(cfg, s) && Enabled(s, a) && a.CreateQueue?
    ensures Defined(s.lists) && ListInv(cfg, s.lists) && a.p in s.lists.procs && a.q.kind != Diq
    ensures Step(cfg, s, a) == Create(cfg, s, a.p, a.q, a.qd, a.mqdOk, a.hw)
  {
    hide CountersAgree, ProcInv, SchedInv;
    StepIs(cfg, s, a);
  }

  lemma {:induction false} RunsKeepTied(cfg: Config, states: seq<State>, actions: seq<Action>, n: nat)
    requires cfg.Valid() && Run(cfg, states, actions) && n < |states|
    ensures AllTied(cfg, states[n].lists)
  {
    hide Inv, Step, Enabled, Tied;
    if n > 0 {
      RunsKeepTied(cfg, states, actions, n - 1);
      RunsKeepInv(cfg, states, actions, n - 1);
      StepKeepsTied(cfg, states[n - 1], actions[n - 1]);
    }
  }

  // ----- windows

  /** The doorbells of an engine: half of its queues from its first doorbell on, half 512 behind. */
  predicate InWindow(cfg: Config, e: nat, d: nat) {
    var first, half := FirstDoorbell(cfg, e), (cfg.queuesPerEngine + 1) / 2;
    first <= d < first + half || first + 512 <= d < first + 512 + half
  }

  /** What the platform's table of first doorbells has to guarantee. */
  ghost predicate WindowsApart(cfg: Config) {
    && cfg.queuesPerEngine <= 1024
    && forall e, f, d :: 0 <= e < f < |cfg.sdmaDoorbellIdx| && InWindow(cfg, e, d) ==> !InWindow(cfg, f, d)
  }

  lemma TiedInWindow(cfg: Config, q: Queue)
    requires cfg.soc15 && IsSdma(q.kind) && Tied(cfg, q) && EngineQueueOf(cfg, q) < cfg.queuesPerEngine
    ensures InWindow(cfg, EngineOf(cfg, q), q.doorbell)
  {
    hide EngineOf, EngineQueueOf, FirstDoorbell;
  }

  lemma TiedApart(cfg: Config, a: Queue, b: Queue)
    requires cfg.soc15 && WindowsApart(cfg) && IsSdma(a.kind) && IsSdma(b.kind) && Tied(cfg, a) && Tied(cfg, b)
    requires EngineQueueOf(cfg, a) < cfg.queuesPerEngine && EngineQueueOf(cfg, b) < cfg.queuesPerEngine
    requires EngineOf(cfg, a) < |cfg.sdmaDoorbellIdx| && EngineOf(cfg, b) < |cfg.sdmaDoorbellIdx|
    requires (EngineOf(cfg, a), EngineQueueOf(cfg, a)) != (EngineOf(cfg, b), EngineQueueOf(cfg, b))
    ensures a.doorbell != b.doorbell
  {
    hide EngineOf, EngineQueueOf, FirstDoorbell, InWindow;
    TiedInWindow(cfg, a);
    TiedInWindow(cfg, b);
    var e, f := EngineOf(cfg, a), EngineOf(cfg, b);
    if e == f {
      SameEngine(FirstDoorbell(cfg, e), EngineQueueOf(cfg, a), EngineQueueOf(cfg, b));
    }
  }

  lemma SameEngine(first: nat, m: nat, n: nat)
    requires m != n && m < 1024 && n < 1024
    ensures (if m % 2 == 0 then first + m / 2 else first + 512 + m / 2) != (if n % 2 == 0 then first + n / 2 else first + 512 + n / 2)
  {
  }

  /**
    Over every run on SOC15, two live SDMA queues of whatever processes have different
    doorbells, each in its engine's window, provided the engines' windows are apart.
   */
  lemma RunsNeverShareSdmaDoorbell(cfg: Config, states: seq<State>, actions: seq<Action>, n: nat,
                                   p: nat, i: nat, r: nat, j: nat)
    requires cfg.Valid() && Run(cfg, states, actions) && n < |states| && cfg.soc15 && WindowsApart(cfg)
    requires LiveSdma(states[n].lists, p, i) && LiveSdma(states[n].lists, r, j) && (p, i) != (r, j)
    ensures var a, b := states[n].lists.procs[p].queues[i], states[n].lists.procs[r].queues[j];
      a.doorbell != b.doorbell && InWindow(cfg, EngineOf(cfg, a), a.doorbell)
  {
    hide Inv, Run, Tied, WindowsApart, EngineOf, EngineQueueOf, InWindow;
    var l := states[n].lists;
    var a, b := l.procs[p].queues[i], l.procs[r].queues[j];
    RunsKeepInv(cfg, states, actions, n);
    RunsKeepTied(cfg, states, actions, n);
    InvList(cfg, states[n]);
    SlotHeld(cfg, l, p, i);
    SlotHeld(cfg, l, r, j);
    EngineInRange(cfg, a);
    EngineInRange(cfg, b);
    EnginesDistinct(cfg, l, p, i, r, j);
    TiedInWindow(cfg, a);
    TiedApart(cfg, a, b);
  }

  // ----- one process's doorbell page

  /** The doorbells withheld from compute queues cover the windows of all engines. */
  ghost predicate WindowsReserved(cfg: Config) {
    forall e, d :: 0 <= e < cfg.pcieEngines + cfg.xgmiEngines && InWindow(cfg, e, d) ==> d in cfg.reservedDoorbells
  }

  lemma ComputeApart(cfg: Config, pr: Proc, i: nat, j: nat)
    requires ProcInv(cfg, pr) && cfg.soc15 && !pr.terminated && i < |pr.queues| && j < |pr.queues| && i != j
    requires pr.queues[i].kind == Compute
    ensures pr.queues[i].doorbell !in cfg.reservedDoorbells
    ensures pr.queues[j].kind == Compute ==> pr.queues[i].doorbell != pr.queues[j].doorbell
  {
    var d := pr.queues[i].doorbell;
    var m := Doorbell(d);
    assert DoorbellInv(cfg, pr, d);
    SumQSplit(m, pr.queues, i);
    if pr.queues[j].kind == Compute && pr.queues[j].doorbell == d {
      TwoInList(m, pr.queues, if i < j then i else j, if i < j then j else i);
    }
  }

  /**
    Over every run, two live queues of one process never share a doorbell: before SOC15
    always, and on SOC15 provided the engines' windows are apart and withheld from compute
    queues.
   */
  lemma RunsNeverShareDoorbell(cfg: Config, states: seq<State>, actions: seq<Action>, n: nat, p: nat, i: nat, j: nat)
    requires cfg.Valid() && Run(cfg, states, actions) && n < |states|
    requires cfg.soc15 ==> WindowsApart(cfg) && WindowsReserved(cfg)
    requires HasQueue(states[n].lists, p, i) && HasQueue(states[n].lists, p, j) && i != j
    ensures states[n].lists.procs[p].queues[i].doorbell != states[n].lists.procs[p].queues[j].doorbell
  {
    hide Inv, Run, WindowsApart, InWindow, EngineOf, EngineQueueOf, ProcInv, Tied;
    var l := states[n].lists;
    var a, b := l.procs[p].queues[i], l.procs[p].queues[j];
    RunsKeepInv(cfg, states, actions, n);
    RunsKeepTied(cfg, states, actions, n);
    MemberInvs(cfg, states[n], p, i);
    MemberInvs(cfg, states[n], p, j);
    if !cfg.soc15 {
      IdsApart(cfg, l.procs[p], i, j);
    } else if IsSdma(a.kind) && IsSdma(b.kind) {
      RunsNeverShareSdmaDoorbell(cfg, states, actions, n, p, i, p, j);
    } else if a.kind == Compute {
      ComputeApart(cfg, l.procs[p], i, j);
      if IsSdma(b.kind) {
        SdmaReserved(cfg, l, p, j);
      }
    } else {
      ComputeApart(cfg, l.procs[p], j, i);
      SdmaReserved(cfg, l, p, i);
    }
  }

  lemma IdsApart(cfg: Config, pr: Proc, i: nat, j: nat)
    requires ProcInv(cfg, pr) && !cfg.soc15 && i < |pr.queues| && j < |pr.queues| && i != j
    requires Tied(cfg, pr.queues[i]) && Tied(cfg, pr.queues[j])
    ensures pr.queues[i].doorbell != pr.queues[j].doorbell
  {
    hide ProcInv;
    if pr.queues[i].id == pr.queues[j].id {
      UniqueName(cfg, pr, i, j);
    }
  }

  lemma MemberInvs(cfg: Config, s: State, p: nat, i: nat)
    requires Inv(cfg, s) && HasQueue(s.lists, p, i)
    ensures ListInv(cfg, s.lists) && ProcInv(cfg, s.lists.procs[p]) && s.lists.procs[p].queues[i].kind != Diq
  {
    assert ProcInv(cfg, s.lists.procs[p]);
    MemberOf(cfg, s, p, i);
  }

  lemma ReservedAt(cfg: Config, e: nat, d: nat)
    requires WindowsReserved(cfg) && e < cfg.pcieEngines + cfg.xgmiEngines && InWindow(cfg, e, d)
    ensures d in cfg.reservedDoorbells
  {
  }

  lemma SdmaReserved(cfg: Config, l: Lists, p: nat, i: nat)
    requires cfg.Valid() && ListInv(cfg, l) && LiveSdma(l, p, i)
    requires cfg.soc15 && WindowsReserved(cfg) && AllTied(cfg, l)
    ensures l.procs[p].queues[i].doorbell in cfg.reservedDoorbells
  {
    hide ListInv, Tied, EngineOf, EngineQueueOf, InWindow, WindowsReserved;
    var q := l.procs[p].queues[i];
    assert q in l.procs[p].queues;
    SlotHeld(cfg, l, p, i);
    EngineInRange(cfg, q);
    TiedInWindow(cfg, q);
    ReservedAt(cfg, EngineOf(cfg, q), q.doorbell);
  }
}

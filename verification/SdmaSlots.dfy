/**
  SDMA slots over whole runs: which engine and queue a slot stands for, that live queues
  never share one, and that their descriptors lie apart inside the trunk allocated at
  initialisation.
 */
module SdmaSlots {
  import opened Arithmetic
  import opened Basics
  import opened Queues
  import opened Scheduler
  import opened SchedulerInvariant
  import opened SchedulerSteps
  import opened SchedulerRuns

  datatype EngineSplit = EngineSplit(pcie: nat, xgmi: nat)

  /**
    kfd_get_num_sdma_engines and kfd_get_num_xgmi_sdma_engines: every engine of the node
    belongs to exactly one of the two groups, and XGMI gets none before PCIe has two.
   */
  function SplitEngines(instances: nat, nodes: nat, xgmiSupported: bool): (r: EngineSplit)
    requires nodes > 0
    ensures r.pcie + r.xgmi == instances / nodes
    ensures !xgmiSupported ==> r.xgmi == 0
    ensures xgmiSupported ==> r.pcie <= 2 && (r.xgmi > 0 ==> r.pcie == 2)
  {
    var n := instances / nodes;
    var pcie := if !xgmiSupported then n else if n < 2 then n else 2;
    EngineSplit(pcie, n - pcie)
  }

  /** A live queue: linked, and its process not terminated. */
  predicate LiveSdma(l: Lists, p: nat, i: nat) {
    HasQueue(l, p, i) && IsSdma(l.procs[p].queues[i].kind)
  }

  // ----- slots

  lemma TwoInList(m: Metric, qs: seq<Queue>, i: nat, j: nat)
    requires i < j < |qs| && Weight(m, qs[i]) == 1 && Weight(m, qs[j]) == 1
    ensures SumQ(m, qs) >= 2
  {
    SumQSplit(m, qs, j);
    SumQSplit(m, qs[..j], i);
  }

  lemma TwoInLists(m: Metric, nodes: seq<nat>, procs: map<nat, Proc>, p: nat, r: nat)
    requires forall n <- nodes :: n in procs
    requires p in nodes && r in nodes && p != r
    ensures SumP(m, procs[p]) + SumP(m, procs[r]) <= Sum(m, nodes, procs)
  {
    var i := IndexOf(nodes, p);
    SumUnlink(m, nodes, procs, i);
    var j := IndexOf(nodes, r);
    assert RemoveAt(nodes, i)[if j < i then j else j - 1] == r;
    SumAtLeast(m, RemoveAt(nodes, i), procs, r);
  }

  lemma SlotsDistinct(cfg: Config, l: Lists, p: nat, i: nat, r: nat, j: nat)
    requires ListInv(cfg, l) && LiveSdma(l, p, i) && LiveSdma(l, r, j) && (p, i) != (r, j)
    requires l.procs[p].queues[i].kind == l.procs[r].queues[j].kind
    ensures l.procs[p].queues[i].sdmaId != l.procs[r].queues[j].sdmaId
  {
    var q := l.procs[p].queues[i];
    var m := Slot(q.kind, q.sdmaId);
    assert Counter(l, m) + Base(cfg, m) == Sum(m, l.known, l.procs);
    if l.procs[r].queues[j].sdmaId == q.sdmaId {
      if p == r {
        TwoInList(m, l.procs[p].queues, if i < j then i else j, if i < j then j else i);
        SumAtLeast(m, l.known, l.procs, p);
      } else {
        SumQSplit(m, l.procs[p].queues, i);
        SumQSplit(m, l.procs[r].queues, j);
        TwoInLists(m, l.known, l.procs, p, r);
      }
    }
  }

  // ----- engines

  lemma ProductPositive(a: nat, b: nat, x: nat)
    requires x < a * b
    ensures a > 0 && b > 0
  {
  }

  lemma QuotientBound(a: nat, b: nat, x: nat)
    requires a > 0 && x < a * b
    ensures x / a < b
  {
    var n := x / a;
    assert x == a * n + x % a;
    if n >= b {
      MulMono(b, n, a);
    }
  }

  /** An allocated queue sits on an existing engine of its own kind, at an existing queue of it. */
  lemma EngineInRange(cfg: Config, q: Queue)
    requires IsSdma(q.kind) && OwnsSlot(cfg, q.kind, q.sdmaId)
    ensures cfg.Engines(q.kind) > 0
    ensures q.kind == Sdma ==> EngineOf(cfg, q) < cfg.pcieEngines
    ensures q.kind == SdmaXgmi ==> cfg.pcieEngines <= EngineOf(cfg, q) < cfg.pcieEngines + cfg.xgmiEngines
    ensures EngineQueueOf(cfg, q) < cfg.queuesPerEngine
  {
    ProductPositive(cfg.Engines(q.kind), cfg.queuesPerEngine, q.sdmaId);
    QuotientBound(cfg.Engines(q.kind), cfg.queuesPerEngine, q.sdmaId);
  }

  lemma SlotFromEngine(cfg: Config, q: Queue)
    requires IsSdma(q.kind) && cfg.Engines(q.kind) > 0
    ensures q.sdmaId == EngineQueueOf(cfg, q) * cfg.Engines(q.kind)
                      + EngineOf(cfg, q) - (if q.kind == SdmaXgmi then cfg.pcieEngines else 0)
  {
  }

  /**
    No two live queues share an engine queue, none sits on a reserved slot, and no
    engine count divided by was zero.
   */
  lemma EnginesDistinct(cfg: Config, l: Lists, p: nat, i: nat, r: nat, j: nat)
    requires ListInv(cfg, l) && LiveSdma(l, p, i) && LiveSdma(l, r, j) && (p, i) != (r, j)
    ensures var a, b := l.procs[p].queues[i], l.procs[r].queues[j];
      (EngineOf(cfg, a), EngineQueueOf(cfg, a)) != (EngineOf(cfg, b), EngineQueueOf(cfg, b))
  {
    hide ListInv;
    var a, b := l.procs[p].queues[i], l.procs[r].queues[j];
    SlotHeld(cfg, l, p, i);
    SlotHeld(cfg, l, r, j);
    EngineInRange(cfg, a);
    EngineInRange(cfg, b);
    if a.kind == b.kind {
      SlotsDistinct(cfg, l, p, i, r, j);
      SlotFromEngine(cfg, a);
      SlotFromEngine(cfg, b);
    }
  }

  // ----- descriptors in the trunk

  /** Sizes that allocate_hiq_sdma_mqd and allocate_sdma_mqd multiply with. */
  datatype Trunk = Trunk(sdmaMqd: nat, hiqMqd: nat, xccs: nat)

  /** allocate_sdma_mqd */
  function MqdOffset(cfg: Config, t: Trunk, q: Queue): nat {
    (EngineOf(cfg, q) * cfg.queuesPerEngine + EngineQueueOf(cfg, q)) * t.sdmaMqd + t.hiqMqd * t.xccs
  }

  /** allocate_hiq_sdma_mqd */
  function TrunkSize(cfg: Config, t: Trunk): nat {
    t.sdmaMqd * (cfg.pcieEngines + cfg.xgmiEngines) * cfg.queuesPerEngine + t.hiqMqd * t.xccs
  }

  lemma CellOrder(w: nat, e1: nat, n1: nat, e2: nat, n2: nat)
    requires n1 < w && n2 < w && e1 < e2
    ensures e1 * w + n1 < e2 * w + n2
  {
    MulMono(e1 + 1, e2, w);
    assert (e1 + 1) * w == e1 * w + w;
  }

  lemma StrideApart(a: nat, b: nat, size: nat)
    requires a < b
    ensures a * size + size <= b * size
  {
    MulMono(a + 1, b, size);
    assert (a + 1) * size == a * size + size;
  }

  /** Descriptors of queues on different engine queues do not overlap. */
  lemma MqdsApart(cfg: Config, t: Trunk, a: Queue, b: Queue)
    requires EngineQueueOf(cfg, a) < cfg.queuesPerEngine && EngineQueueOf(cfg, b) < cfg.queuesPerEngine
    requires (EngineOf(cfg, a), EngineQueueOf(cfg, a)) != (EngineOf(cfg, b), EngineQueueOf(cfg, b))
    ensures MqdOffset(cfg, t, a) + t.sdmaMqd <= MqdOffset(cfg, t, b)
         || MqdOffset(cfg, t, b) + t.sdmaMqd <= MqdOffset(cfg, t, a)
  {
    hide EngineOf, EngineQueueOf;
    var w := cfg.queuesPerEngine;
    var ea, na, eb, nb := EngineOf(cfg, a), EngineQueueOf(cfg, a), EngineOf(cfg, b), EngineQueueOf(cfg, b);
    var x, y := ea * w + na, eb * w + nb;
    if ea < eb {
      CellOrder(w, ea, na, eb, nb);
    } else if eb < ea {
      CellOrder(w, eb, nb, ea, na);
    }
    if x < y {
      StrideApart(x, y, t.sdmaMqd);
    } else {
      StrideApart(y, x, t.sdmaMqd);
    }
  }

  lemma MqdInside(cfg: Config, t: Trunk, q: Queue)
    requires EngineOf(cfg, q) < cfg.pcieEngines + cfg.xgmiEngines && EngineQueueOf(cfg, q) < cfg.queuesPerEngine
    ensures t.hiqMqd * t.xccs <= MqdOffset(cfg, t, q)
    ensures MqdOffset(cfg, t, q) + t.sdmaMqd <= TrunkSize(cfg, t)
  {
    hide EngineOf, EngineQueueOf;
    var w, n := cfg.queuesPerEngine, cfg.pcieEngines + cfg.xgmiEngines;
    var x := EngineOf(cfg, q) * w + EngineQueueOf(cfg, q);
    MulMono(EngineOf(cfg, q) + 1, n, w);
    assert (EngineOf(cfg, q) + 1) * w == EngineOf(cfg, q) * w + w;
    StrideApart(x, n * w, t.sdmaMqd);
    assert n * w * t.sdmaMqd == t.sdmaMqd * n * w;
  }

  // ----- runs

  /**
    Over every run of creates, restores from a checkpoint, destroys and terminations:
    distinct live SDMA queues use distinct engine queues, their descriptors are disjoint,
    and reserved slots are never handed out.
   */
  lemma RunsNeverAliasSdma(cfg: Config, t: Trunk, states: seq<State>, actions: seq<Action>, n: nat,
                           p: nat, i: nat, r: nat, j: nat)
    requires cfg.Valid() && Run(cfg, states, actions) && n < |states|
    requires LiveSdma(states[n].lists, p, i) && LiveSdma(states[n].lists, r, j) && (p, i) != (r, j)
    ensures var a, b := states[n].lists.procs[p].queues[i], states[n].lists.procs[r].queues[j];
      && (EngineOf(cfg, a), EngineQueueOf(cfg, a)) != (EngineOf(cfg, b), EngineQueueOf(cfg, b))
      && (MqdOffset(cfg, t, a) + t.sdmaMqd <= MqdOffset(cfg, t, b)
          || MqdOffset(cfg, t, b) + t.sdmaMqd <= MqdOffset(cfg, t, a))
  {
    hide ListInv, MqdOffset, EngineOf, EngineQueueOf, Run;
    RunsKeepInv(cfg, states, actions, n);
    var l := states[n].lists;
    EnginesDistinct(cfg, l, p, i, r, j);
    SlotHeld(cfg, l, p, i);
    SlotHeld(cfg, l, r, j);
    EngineInRange(cfg, l.procs[p].queues[i]);
    EngineInRange(cfg, l.procs[r].queues[j]);
    MqdsApart(cfg, t, l.procs[p].queues[i], l.procs[r].queues[j]);
  }

  lemma RunsStayInTrunk(cfg: Config, t: Trunk, states: seq<State>, actions: seq<Action>, n: nat, p: nat, i: nat)
    requires cfg.Valid() && Run(cfg, states, actions) && n < |states| && LiveSdma(states[n].lists, p, i)
    ensures var q := states[n].lists.procs[p].queues[i];
      && cfg.Engines(q.kind) > 0
      && q.sdmaId < cfg.Slots(q.kind) && (q.kind == Sdma ==> q.sdmaId !in cfg.reservedSdma)
      && q.sdmaId !in FreeSlots(states[n].lists, q.kind)
      && t.hiqMqd * t.xccs <= MqdOffset(cfg, t, q)
      && MqdOffset(cfg, t, q) + t.sdmaMqd <= TrunkSize(cfg, t)
  {
    hide ListInv, MqdOffset, TrunkSize, EngineOf, EngineQueueOf, Run;
    RunsKeepInv(cfg, states, actions, n);
    var q := states[n].lists.procs[p].queues[i];
    SlotHeld(cfg, states[n].lists, p, i);
    EngineInRange(cfg, q);
    MqdInside(cfg, t, q);
  }
}

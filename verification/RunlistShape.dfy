/**
  What a runlist says to the hardware, packet by packet: each process is introduced before
  its queues, and a chain packet, if there has to be one, closes the list and gives its
  length.
 */
module RunlistShape {
  import opened Arithmetic
  import opened Basics
  import opened Queues
  import opened RunlistIb
  import opened Scheduler
  import opened SchedulerInvariant
  import opened SchedulerRuns
  import opened SchedulerSound

  // ----- processes and their queues

  /** The k-th packet belongs to the process introduced last before it. */
  ghost predicate Introduced(ps: seq<Packet>, k: nat)
    requires k < |ps| && ps[k].MapQueue?
  {
    exists m :: 0 <= m < k && ps[m] == MapProcess(ps[k].pid) && forall x :: m < x < k ==> !ps[x].MapProcess?
  }

  /** Every queue follows its process, and is marked static exactly if the process is under a debug queue. */
  ghost predicate InBlocks(ps: seq<Packet>, procs: map<nat, Proc>) {
    forall k :: 0 <= k < |ps| && ps[k].MapQueue? ==>
      Introduced(ps, k) && ps[k].pid in procs && ps[k].isStatic == procs[ps[k].pid].isDebug
  }

  /** The processes a runlist introduces, in order. */
  function MappedProcesses(ps: seq<Packet>): seq<nat> {
    if ps == [] then [] else
      var p := ps[|ps| - 1];
      MappedProcesses(ps[..|ps| - 1]) + if p.MapProcess? then [p.pid] else []
  }

  lemma {:induction false} ProcessesConcat(a: seq<Packet>, b: seq<Packet>)
    ensures MappedProcesses(a + b) == MappedProcesses(a) + MappedProcesses(b)
  {
    if b == [] {
      assert a + b == a;
    } else {
      ProcessesConcat(a, b[..|b| - 1]);
      assert (a + b)[..|a + b| - 1] == a + b[..|b| - 1];
    }
  }

  lemma {:induction false} OnlyQueues(pid: nat, isStatic: bool, qs: seq<Queue>)
    ensures MappedProcesses(QueuePackets(pid, isStatic, qs)) == []
    ensures forall k :: 0 <= k < |QueuePackets(pid, isStatic, qs)| ==>
      var p := QueuePackets(pid, isStatic, qs)[k]; p.MapQueue? && p.pid == pid && p.isStatic == isStatic
  {
    if qs != [] {
      var n := |qs| - 1;
      OnlyQueues(pid, isStatic, qs[..n]);
      var tail := if qs[n].active then [MapQueue(pid, qs[n].id, isStatic)] else [];
      ProcessesConcat(QueuePackets(pid, isStatic, qs[..n]), tail);
      assert MappedProcesses(tail) == [] by {
        if tail != [] {
          assert tail[..0] == [];
        }
      }
    }
  }

  /** One process: introduced once, then its queues. */
  lemma ProcBlock(pid: nat, p: Proc)
    ensures var b := ProcPackets(pid, p);
      && b != [] && b[0] == MapProcess(pid) && MappedProcesses(b) == [pid]
      && forall k :: 1 <= k < |b| ==> b[k].MapQueue? && b[k].pid == pid && b[k].isStatic == p.isDebug
  {
    var k, u := QueuePackets(pid, p.isDebug, p.kernelQueues), QueuePackets(pid, p.isDebug, p.queues);
    OnlyQueues(pid, p.isDebug, p.kernelQueues);
    OnlyQueues(pid, p.isDebug, p.queues);
    ProcessesConcat([MapProcess(pid)], k);
    ProcessesConcat([MapProcess(pid)] + k, u);
    assert MappedProcesses([MapProcess(pid)]) == MappedProcesses([]) + [pid];
  }

  lemma BlockAppended(ps: seq<Packet>, b: seq<Packet>, procs: map<nat, Proc>, pid: nat)
    requires InBlocks(ps, procs) && pid in procs
    requires b != [] && b[0] == MapProcess(pid)
    requires forall k :: 1 <= k < |b| ==> b[k].MapQueue? && b[k].pid == pid && b[k].isStatic == procs[pid].isDebug
    ensures InBlocks(ps + b, procs)
  {
    var r := ps + b;
    forall k | 0 <= k < |r| && r[k].MapQueue? ensures Introduced(r, k) && r[k].pid in procs && r[k].isStatic == procs[r[k].pid].isDebug {
      if k < |ps| {
        assert Introduced(ps, k);
        var m :| 0 <= m < k && ps[m] == MapProcess(ps[k].pid) && forall x :: m < x < k ==> !ps[x].MapProcess?;
        assert r[m] == MapProcess(r[k].pid) && forall x :: m < x < k ==> !r[x].MapProcess?;
      } else {
        assert r[|ps|] == MapProcess(r[k].pid) && forall x :: |ps| < x < k ==> !r[x].MapProcess?;
      }
    }
  }

  lemma {:induction false} ListInBlocks(nodes: seq<nat>, procs: map<nat, Proc>)
    requires forall p <- nodes :: p in procs
    ensures InBlocks(ListPackets(nodes, procs), procs) && MappedProcesses(ListPackets(nodes, procs)) == nodes
    ensures forall k :: 0 <= k < |ListPackets(nodes, procs)| ==> !ListPackets(nodes, procs)[k].Chain?
  {
    if nodes != [] {
      var n := |nodes| - 1;
      ListInBlocks(nodes[..n], procs);
      ProcBlock(nodes[n], procs[nodes[n]]);
      BlockAppended(ListPackets(nodes[..n], procs), ProcPackets(nodes[n], procs[nodes[n]]), procs, nodes[n]);
      ProcessesConcat(ListPackets(nodes[..n], procs), ProcPackets(nodes[n], procs[nodes[n]]));
    }
  }

  /** The chain packet, if any, changes nothing about that. */
  lemma RunlistInBlocks(nodes: seq<nat>, procs: map<nat, Proc>, processes: int, t: Tally, lay: Layout)
    requires forall p <- nodes :: p in procs
    ensures var ps := RunlistPackets(nodes, procs, processes, t, lay);
      InBlocks(ps, procs) && MappedProcesses(ps) == nodes
  {
    hide ListPackets;
    ListInBlocks(nodes, procs);
    var list, ps := ListPackets(nodes, procs), RunlistPackets(nodes, procs, processes, t, lay);
    var tail := ps[|list|..];
    assert ps == list + tail;
    ProcessesConcat(list, tail);
    assert MappedProcesses(tail) == [] by {
      if tail != [] {
        assert tail[..0] == [];
      }
    }
    forall k | 0 <= k < |ps| && ps[k].MapQueue?
      ensures Introduced(ps, k) && ps[k].pid in procs && ps[k].isStatic == procs[ps[k].pid].isDebug
    {
      assert Introduced(list, k);
      var m :| 0 <= m < k && list[m] == MapProcess(list[k].pid) && forall x :: m < x < k ==> !list[x].MapProcess?;
      assert ps[m] == MapProcess(ps[k].pid) && forall x :: m < x < k ==> !ps[x].MapProcess?;
    }
  }

  // ----- the chain packet

  /** What is counted: active queues, those among them on compute or debug rings, and those with GWS. */
  lemma CountedAs(q: Queue)
    ensures Weight(Active, q) == if q.active then 1 else 0
    ensures Weight(ActiveCp, q) == if q.active && (q.kind == Compute || q.kind == Diq) then 1 else 0
    ensures Weight(ActiveGws, q) == if q.active && q.isGws then 1 else 0
  {
  }

  /** More than fits at once: processes for a quantum, compute queues for the hardware, or users of GWS. */
  predicate TooMany(nodes: seq<nat>, procs: map<nat, Proc>, lay: Layout)
    requires forall p <- nodes :: p in procs
  {
    || (|nodes| > 1 && |nodes| > lay.maxProcPerQuantum)
    || Sum(ActiveCp, nodes, procs) > lay.cpQueues
    || Sum(ActiveGws, nodes, procs) > 1
  }

  /**
    If the counters agree with what the list walk meets, a chain packet occurs exactly if
    there is too much for the hardware at once, and then as the last packet, with the
    number of dwords of the whole runlist.
   */
  lemma ChainClosesList(nodes: seq<nat>, procs: map<nat, Proc>, t: Tally, lay: Layout)
    requires lay.Valid() && forall p <- nodes :: p in procs
    requires t == Tally(Sum(Active, nodes, procs), Sum(ActiveCp, nodes, procs), Sum(ActiveGws, nodes, procs))
    ensures var ps := RunlistPackets(nodes, procs, |nodes|, t, lay);
      && (forall k :: 0 <= k < |ps| && ps[k].Chain? ==> k == |ps| - 1 && ps[k].ibWords == |Encode(ps, lay)|)
      && ((exists p <- ps :: p.Chain?) <==> TooMany(nodes, procs, lay))
  {
    hide Encode, Sum, ListPackets, RlibSize;
    ListInBlocks(nodes, procs);
    SizeIsExact(nodes, procs, t, lay);
    var list, ps := ListPackets(nodes, procs), RunlistPackets(nodes, procs, |nodes|, t, lay);
    if OverSubscribed(|nodes|, t, lay) {
      assert ps[|list|].Chain? && ps[|list|] in ps;
    } else {
      assert ps == list;
    }
  }

  /** Over every run in order: what a runlist built in any state of it would say. */
  lemma RunsSayIt(cfg: Config, states: seq<State>, actions: seq<Action>, n: nat)
    requires cfg.Valid() && Run(cfg, states, actions) && n <= |actions| && AllInOrder(cfg, states, actions, n)
    ensures var l := states[n].lists;
      && Defined(l)
      && var ps := Packets(cfg, l);
         && InBlocks(ps, l.procs) && MappedProcesses(ps) == l.nodes
         && (forall k :: 0 <= k < |ps| && ps[k].Chain? ==> k == |ps| - 1 && ps[k].ibWords == |Encode(ps, cfg.layout)|)
         && ((exists p <- ps :: p.Chain?) <==> TooMany(l.nodes, l.procs, cfg.layout))
  {
    hide InBlocks, RunlistPackets, Encode, Sum, TooMany, AllInOrder, Enabled, Step, CountersAgree, ProcInv, SchedInv, Sound;
    RunsKeepInv(cfg, states, actions, n);
    RunsSoundIff(cfg, states, actions, n);
    var l := states[n].lists;
    TalliesMet(cfg, l);
    RunlistInBlocks(l.nodes, l.procs, l.processes, l.tally, cfg.layout);
    ChainClosesList(l.nodes, l.procs, l.tally, cfg.layout);
  }

  lemma TalliesMet(cfg: Config, l: Lists)
    requires ListInv(cfg, l) && Sound(l)
    ensures l.tally == Tally(Sum(Active, l.nodes, l.procs), Sum(ActiveCp, l.nodes, l.procs), Sum(ActiveGws, l.nodes, l.procs))
  {
    hide ProcInv, Sum, Sound;
    SoundSums(Active, l);
    SoundSums(ActiveCp, l);
    SoundSums(ActiveGws, l);
    assert Counter(l, Active) + Base(cfg, Active) == Sum(Active, l.known, l.procs);
    assert Counter(l, ActiveCp) + Base(cfg, ActiveCp) == Sum(ActiveCp, l.known, l.procs);
    assert Counter(l, ActiveGws) + Base(cfg, ActiveGws) == Sum(ActiveGws, l.known, l.procs);
  }
}

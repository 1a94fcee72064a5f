/**
  Queues, the per-process queue lists of one GPU, and the sums over those lists
  that the scheduler's counters are meant to agree with.

  A process's side of one device is `Proc` (struct qcm_process_device); the
  device's process list is a sequence of process ids, newest first, because the
  driver links new entries at the head.
 */
module Queues {
  import opened Basics

  /** Return codes of the modelled operations: 0 or the negative errno values. */
  datatype Ret = Ok | Eperm | Enomem | Ebusy | Einval | Eio | Etime | Erestartsys | Enospc | Efault

  datatype Kind = Compute | Sdma | SdmaXgmi | Diq

  /** Where a destroy call stands that had to wait for the debugger to resume the queue. */
  datatype DestroyWait = Idle | Waiting | Awake

  /** `mqd` numbers the versions of the queue's descriptor in memory. */
  datatype Queue = Queue(
    id: nat,
    kind: Kind,
    size: nat, address: nat, percent: nat,
    evicted: bool, suspended: bool, beingDestroyed: bool, isNew: bool,
    active: bool,
    gwsAssigned: bool, isGws: bool,
    sdmaId: nat, doorbell: nat,
    mqd: nat,
    destroyWait: DestroyWait)

  /** QUEUE_IS_ACTIVE: the queue is fully configured and nothing holds it back. */
  predicate Runnable(q: Queue) {
    q.size > 0 && q.address != 0 && q.percent > 0 && !q.evicted && !q.suspended
  }

  predicate IsCp(k: Kind) { k == Compute || k == Diq }

  predicate IsSdma(k: Kind) { k == Sdma || k == SdmaXgmi }

  /** One process's state on the device. `terminated` is set once termination has run. */
  datatype Proc = Proc(
    queues: seq<Queue>,
    kernelQueues: seq<Queue>,
    evicted: nat,
    vmAcquired: bool,
    isDebug: bool,
    trapEnabled: bool,
    terminated: bool,
    resetWavefronts: bool,
    doorbells: set<nat>)

  // ----- sums over queue lists

  /** What is being counted. */
  datatype Metric =
    | Any
    | Active
    | ActiveCp
    | ActiveGws
    | Slot(kind: Kind, id: nat)
    | Doorbell(door: nat)
    | Named(qid: nat)

  function Weight(m: Metric, q: Queue): nat {
    match m
    case Any => 1
    case Active => if q.active then 1 else 0
    case ActiveCp => if q.active && IsCp(q.kind) then 1 else 0
    case ActiveGws => if q.active && q.isGws then 1 else 0
    case Slot(k, id) => if IsSdma(k) && q.kind == k && q.sdmaId == id then 1 else 0
    case Doorbell(d) => if q.kind == Compute && q.doorbell == d then 1 else 0
    case Named(id) => if q.id == id then 1 else 0
  }

  function SumQ(m: Metric, qs: seq<Queue>): nat {
    if qs == [] then 0 else SumQ(m, qs[..|qs| - 1]) + Weight(m, qs[|qs| - 1])
  }

  function SumP(m: Metric, p: Proc): nat {
    SumQ(m, p.queues) + SumQ(m, p.kernelQueues)
  }

  function Sum(m: Metric, nodes: seq<nat>, procs: map<nat, Proc>): nat
    requires forall p <- nodes :: p in procs
  {
    if nodes == [] then 0 else Sum(m, nodes[1..], procs) + SumP(m, procs[nodes[0]])
  }

  lemma {:induction false} SumQConcat(m: Metric, a: seq<Queue>, b: seq<Queue>)
    ensures SumQ(m, a + b) == SumQ(m, a) + SumQ(m, b)
  {
    if b == [] {
      assert a + b == a;
    } else {
      var c := b[..|b| - 1];
      SumQConcat(m, a, c);
      assert (a + b)[..|a + b| - 1] == a + c;
    }
  }

  lemma SumQCons(m: Metric, q: Queue, qs: seq<Queue>)
    ensures SumQ(m, [q] + qs) == Weight(m, q) + SumQ(m, qs)
  {
    SumQConcat(m, [q], qs);
    assert SumQ(m, [q]) == SumQ(m, []) + Weight(m, q);
  }

  lemma SumQSplit(m: Metric, qs: seq<Queue>, i: nat)
    requires i < |qs|
    ensures SumQ(m, qs) == SumQ(m, qs[..i]) + Weight(m, qs[i]) + SumQ(m, qs[i + 1..])
  {
    assert qs == qs[..i] + ([qs[i]] + qs[i + 1..]);
    SumQConcat(m, qs[..i], [qs[i]] + qs[i + 1..]);
    SumQCons(m, qs[i], qs[i + 1..]);
  }

  lemma SumQUpdate(m: Metric, qs: seq<Queue>, i: nat, q: Queue)
    requires i < |qs|
    ensures SumQ(m, qs[i := q]) + Weight(m, qs[i]) == SumQ(m, qs) + Weight(m, q)
  {
    SumQSplit(m, qs, i);
    SumQSplit(m, qs[i := q], i);
    assert qs[i := q][..i] == qs[..i] && qs[i := q][i + 1..] == qs[i + 1..];
  }

  function RemoveAt<T>(s: seq<T>, i: nat): seq<T>
    requires i < |s|
  {
    s[..i] + s[i + 1..]
  }

  lemma SumQRemove(m: Metric, qs: seq<Queue>, i: nat)
    requires i < |qs|
    ensures SumQ(m, RemoveAt(qs, i)) + Weight(m, qs[i]) == SumQ(m, qs)
  {
    SumQSplit(m, qs, i);
    SumQConcat(m, qs[..i], qs[i + 1..]);
  }

  /** Changing a process outside the list does not change the sum. */
  lemma {:induction false} SumFrame(m: Metric, nodes: seq<nat>, procs: map<nat, Proc>, p: nat, x: Proc)
    requires forall n <- nodes :: n in procs
    requires p !in nodes
    ensures Sum(m, nodes, procs[p := x]) == Sum(m, nodes, procs)
  {
    if nodes != [] {
      SumFrame(m, nodes[1..], procs, p, x);
    }
  }

  /** Changing one listed process changes the sum by the difference of its own sums. */
  lemma {:induction false} SumChange(m: Metric, nodes: seq<nat>, procs: map<nat, Proc>, p: nat, x: Proc)
    requires forall n <- nodes :: n in procs
    requires Distinct(nodes) && p in nodes
    ensures Sum(m, nodes, procs[p := x]) + SumP(m, procs[p]) == Sum(m, nodes, procs) + SumP(m, x)
  {
    if nodes[0] == p {
      SumFrame(m, nodes[1..], procs, p, x);
    } else {
      SumChange(m, nodes[1..], procs, p, x);
    }
  }

  function IndexOf<T(==)>(s: seq<T>, x: T): (i: nat)
    requires x in s
    ensures i < |s| && s[i] == x
    ensures forall j :: 0 <= j < i ==> s[j] != x
  {
    if s[0] == x then 0 else 1 + IndexOf(s[1..], x)
  }

  function Without<T(==)>(s: seq<T>, x: T): seq<T> {
    if x in s then RemoveAt(s, IndexOf(s, x)) else s
  }

  /** Unlinking one process from the list takes its own sum out of the total. */
  lemma {:induction false} SumUnlink(m: Metric, nodes: seq<nat>, procs: map<nat, Proc>, i: nat)
    requires forall n <- nodes :: n in procs
    requires i < |nodes|
    ensures Sum(m, RemoveAt(nodes, i), procs) + SumP(m, procs[nodes[i]]) == Sum(m, nodes, procs)
  {
    if i == 0 {
      assert RemoveAt(nodes, 0) == nodes[1..];
    } else {
      SumUnlink(m, nodes[1..], procs, i - 1);
      assert RemoveAt(nodes, i) == [nodes[0]] + RemoveAt(nodes[1..], i - 1);
    }
  }

  /** A listed process's sum is part of the total. */
  lemma {:induction false} SumAtLeast(m: Metric, nodes: seq<nat>, procs: map<nat, Proc>, p: nat)
    requires forall n <- nodes :: n in procs
    requires p in nodes
    ensures SumP(m, procs[p]) <= Sum(m, nodes, procs)
  {
    SumUnlink(m, nodes, procs, IndexOf(nodes, p));
  }
}

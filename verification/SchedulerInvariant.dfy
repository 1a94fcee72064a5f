/**
  The invariant of the device queue manager and its preservation by every action:
  counters equal the numbers they summarise, SDMA slots are conserved, eviction
  flags follow the nesting count, and the runlist buffer has exactly one owner.
 */
module SchedulerInvariant {
  import opened Basics
  import opened Queues
  import opened RunlistIb
  import opened Scheduler

  // ----- the invariant

  ghost predicate QueueInv(evicted: nat, q: Queue) {
    && (q.active ==> !q.evicted && !q.suspended)
    && (q.evicted <==> evicted > 0)
    && q.kind != Diq
    && (q.destroyWait != Idle ==> q.beingDestroyed)
    && (q.destroyWait == Awake ==> !q.suspended)
  }

  ghost predicate KernelQueueInv(q: Queue) { q.active && q.kind == Diq && !q.isGws }

  ghost predicate DoorbellInv(cfg: Config, pr: Proc, d: nat) {
    && SumQ(Doorbell(d), pr.queues) + (if d in cfg.reservedDoorbells then 1 else 0)
       == if d in pr.doorbells then 1 else 0
  }

  ghost predicate ProcInv(cfg: Config, pr: Proc) {
    && (forall q <- pr.queues :: QueueInv(pr.evicted, q))
    && (forall q <- pr.kernelQueues :: KernelQueueInv(q))
    && (pr.queues != [] ==> pr.vmAcquired)
    && (forall id: nat :: SumP(Named(id), pr) <= 1)
    && (cfg.soc15 && !pr.terminated ==> forall d: nat :: DoorbellInv(cfg, pr, d))
    && (pr.terminated ==> pr.kernelQueues == [])
  }

  predicate Activity(m: Metric) { m.Active? || m.ActiveCp? || m.ActiveGws? }

  /** The metrics some counter or bitmap of the manager keeps track of. */
  predicate Counted(m: Metric) {
    m.Any? || Activity(m) || (m.Slot? && IsSdma(m.kind))
  }

  /** The counter for a metric; a free slot counts as minus one queue using it. */
  function Counter(l: Lists, m: Metric): int {
    match m
    case Any => l.total
    case Active => l.tally.active
    case ActiveCp => l.tally.cp
    case ActiveGws => l.tally.gws
    case Slot(k, id) => if id in FreeSlots(l, k) then -1 else 0
    case _ => 0
  }

  function Base(cfg: Config, m: Metric): int {
    if m.Slot? && OwnsSlot(cfg, m.kind, m.id) then 1 else 0
  }

  /** The live processes are known once each, and the device's list is counted. */
  ghost predicate Listed(l: Lists) {
    && (forall n <- l.nodes :: n in l.procs)
    && l.processes == |l.nodes|
    && Distinct(l.known)
    && (forall p <- l.known :: Alive(l, p))
    && (forall p <- l.procs :: Alive(l, p) ==> p in l.known)
  }

  /** Every counter and bitmap agrees with the queues of the live processes. */
  ghost predicate CountersAgree(cfg: Config, l: Lists)
    requires forall p <- l.known :: p in l.procs
  {
    forall m | Counted(m) :: Counter(l, m) + Base(cfg, m) == Sum(m, l.known, l.procs)
  }

  ghost predicate ListInv(cfg: Config, l: Lists) {
    && Listed(l)
    && CountersAgree(cfg, l)
    && (forall p <- l.procs :: ProcInv(cfg, l.procs[p]))
  }

  /** pm->allocated and active_runlist, and who owns the buffers that are still allocated. */
  ghost predicate SchedInv(sc: Sched) {
    && (sc.ibAllocated ==> sc.activeRunlist && sc.running && sc.ib < sc.nextIb)
    && sc.live == (if sc.ibAllocated then {sc.ib} else {})
    && !sc.warned
  }

  ghost predicate Inv(cfg: Config, s: State) {
    cfg.Valid() && ListInv(cfg, s.lists) && SchedInv(s.sched)
  }

  // ----- one process changes

  /** The counters move by what one process's own sums move by. */
  ghost predicate Balanced(l: Lists, p: nat, l': Lists) {
    && p in l.procs && p in l'.procs
    && l'.procs == l.procs[p := l'.procs[p]]
    && l'.known == l.known && l'.nodes == l.nodes && l'.processes == l.processes
    && forall m | Counted(m) ::
         Counter(l', m) - Counter(l, m) == SumP(m, l'.procs[p]) - SumP(m, l.procs[p])
  }

  lemma ListedChange(cfg: Config, l: Lists, p: nat, l': Lists)
    requires ListInv(cfg, l) && Balanced(l, p, l') && Alive(l, p)
    requires ProcInv(cfg, l'.procs[p]) && !l'.procs[p].terminated
    ensures ListInv(cfg, l')
  {
    hide ProcInv, Sum, SumP;
    forall m | Counted(m)
      ensures Counter(l', m) + Base(cfg, m) == Sum(m, l'.known, l'.procs)
    {
      SumChange(m, l.known, l.procs, p, l'.procs[p]);
    }
  }

  /** A process that is gone no longer matters to the counters. */
  lemma UnlistedChange(cfg: Config, l: Lists, p: nat, l': Lists)
    requires ListInv(cfg, l) && !Alive(l, p) && p in l'.procs
    requires l' == l.(procs := l.procs[p := l'.procs[p]])
    requires ProcInv(cfg, l'.procs[p]) && l'.procs[p].terminated
    ensures ListInv(cfg, l')
  {
    hide ProcInv, Sum, SumP;
    forall m | Counted(m)
      ensures Counter(l', m) + Base(cfg, m) == Sum(m, l'.known, l'.procs)
    {
      SumFrame(m, l.known, l.procs, p, l'.procs[p]);
    }
  }

  /** Changes that touch neither queues nor counters, on any live process. */
  lemma QuietChange(cfg: Config, l: Lists, p: nat, pr: Proc)
    requires ListInv(cfg, l) && p in l.procs
    requires pr.queues == l.procs[p].queues && pr.kernelQueues == l.procs[p].kernelQueues
    requires pr.terminated == l.procs[p].terminated
    requires ProcInv(cfg, pr)
    ensures ListInv(cfg, Put(l, p, pr))
  {
    if Alive(l, p) {
      forall m | Counted(m)
        ensures Counter(Put(l, p, pr), m) - Counter(l, m) == SumP(m, pr) - SumP(m, l.procs[p])
      {
      }
      ListedChange(cfg, l, p, Put(l, p, pr));
    } else {
      UnlistedChange(cfg, l, p, Put(l, p, pr));
    }
  }

  // ----- walks

  ghost predicate WalkReady(w: Walk, q: Queue) {
    match w
    case RestoreAll => !q.active
    case ResumeIn(_) => q.suspended ==> !q.active
    case ResumeAll => q.suspended ==> !q.active
    case _ => true
  }

  function TallyAt(t: Tally, m: Metric): int {
    match m
    case Active => t.active
    case ActiveCp => t.cp
    case ActiveGws => t.gws
    case _ => 0
  }

  /** One queue's weight moves exactly as the walk moves the counters. */
  lemma WalkOne(w: Walk, q: Queue, t: Tally, m: Metric)
    requires WalkReady(w, q)
    ensures Activity(m) ==>
      TallyAt(WalkTally(w, q, t), m) - TallyAt(t, m) == Weight(m, WalkQueue(w, q)) - Weight(m, q)
    ensures !Activity(m) ==> Weight(m, WalkQueue(w, q)) == Weight(m, q)
  {
  }

  lemma {:induction false} WalkSums(w: Walk, qs: seq<Queue>, t: Tally, m: Metric)
    requires forall q <- qs :: WalkReady(w, q)
    ensures Activity(m) ==>
      TallyAt(WalkTallies(w, qs, t), m) - TallyAt(t, m) == SumQ(m, WalkQueues(w, qs)) - SumQ(m, qs)
    ensures !Activity(m) ==> SumQ(m, WalkQueues(w, qs)) == SumQ(m, qs)
  {
    if qs != [] {
      var n := |qs| - 1;
      WalkSums(w, qs[..n], t, m);
      WalkOne(w, qs[n], WalkTallies(w, qs[..n], t), m);
      var r := WalkQueues(w, qs);
      assert r[..n] == WalkQueues(w, qs[..n]);
      assert SumQ(m, r) == SumQ(m, r[..n]) + Weight(m, r[n]);
    }
  }

  /** A per-queue property that holds of every walked queue holds of the walked list. */
  lemma WalkInv(w: Walk, qs: seq<Queue>, evicted: nat)
    requires forall q <- qs :: QueueInv(evicted, WalkQueue(w, q))
    ensures forall q <- WalkQueues(w, qs) :: QueueInv(evicted, q)
  {
    forall q | q in WalkQueues(w, qs) ensures QueueInv(evicted, q) {
      var i :| 0 <= i < |qs| && WalkQueues(w, qs)[i] == q;
      assert qs[i] in qs;
    }
  }

  /** Two processes whose queue lists weigh the same outside the activity counters. */
  lemma SameShape(cfg: Config, old_: Proc, new_: Proc)
    requires ProcInv(cfg, old_)
    requires new_.kernelQueues == old_.kernelQueues && new_.doorbells == old_.doorbells
    requires new_.terminated == old_.terminated
    requires new_.queues != [] ==> new_.vmAcquired
    requires forall q <- new_.queues :: QueueInv(new_.evicted, q)
    requires forall m | !Activity(m) :: SumQ(m, new_.queues) == SumQ(m, old_.queues)
    ensures ProcInv(cfg, new_)
  {
    forall id: nat ensures SumP(Named(id), new_) <= 1 {
      assert SumP(Named(id), old_) <= 1;
    }
    forall d: nat | cfg.soc15 && !new_.terminated ensures DoorbellInv(cfg, new_, d) {
      assert DoorbellInv(cfg, old_, d);
    }
  }

  /** A new queue list for a live process, with counters that follow it. */
  lemma QueuesChange(cfg: Config, l: Lists, p: nat, new_: Proc, t: Tally)
    requires ListInv(cfg, l) && Alive(l, p)
    requires ProcInv(cfg, new_) && !new_.terminated
    requires new_.kernelQueues == l.procs[p].kernelQueues && |new_.queues| == |l.procs[p].queues|
    requires forall m | Activity(m) ::
      TallyAt(t, m) - TallyAt(l.tally, m) == SumQ(m, new_.queues) - SumQ(m, l.procs[p].queues)
    requires forall m | !Activity(m) :: SumQ(m, new_.queues) == SumQ(m, l.procs[p].queues)
    ensures ListInv(cfg, Put(l, p, new_).(tally := t))
  {
    hide CountersAgree, ProcInv;
    var l' := Put(l, p, new_).(tally := t);
    forall m | Counted(m)
      ensures Counter(l', m) - Counter(l, m) == SumP(m, new_) - SumP(m, l.procs[p])
    {
      if Activity(m) {
        assert Counter(l', m) - Counter(l, m) == TallyAt(t, m) - TallyAt(l.tally, m);
      } else {
        assert SumQ(m, new_.queues) == SumQ(m, l.procs[p].queues);
      }
    }
    ListedChange(cfg, l, p, l');
  }

  /** Replacing one queue by one that keeps its identity, with counters that follow its activity. */
  lemma QueueChange(cfg: Config, l: Lists, p: nat, i: nat, q: Queue, t: Tally)
    requires ListInv(cfg, l) && HasQueue(l, p, i)
    requires QueueInv(l.procs[p].evicted, q)
    requires q.id == l.procs[p].queues[i].id && q.kind == l.procs[p].queues[i].kind
    requires q.sdmaId == l.procs[p].queues[i].sdmaId && q.doorbell == l.procs[p].queues[i].doorbell
    requires forall m | Activity(m) ::
      TallyAt(t, m) - TallyAt(l.tally, m) == Weight(m, q) - Weight(m, l.procs[p].queues[i])
    ensures ListInv(cfg, PutQueue(l, p, i, q).(tally := t))
  {
    var old_ := l.procs[p];
    var new_ := old_.(queues := old_.queues[i := q]);
    assert ProcInv(cfg, old_);
    forall m ensures SumQ(m, new_.queues) - SumQ(m, old_.queues) == Weight(m, q) - Weight(m, old_.queues[i]) {
      SumQUpdate(m, old_.queues, i, q);
    }
    SameShape(cfg, old_, new_);
    QueuesChange(cfg, l, p, new_, t);
  }

  lemma PutTwice(l: Lists, p: nat, a: Proc, b: Proc)
    ensures Put(Put(l, p, a), p, b) == Put(l, p, b)
  {
    assert l.procs[p := a][p := b] == l.procs[p := b];
  }

  lemma WalkTalliesFollow(w: Walk, qs: seq<Queue>, t: Tally)
    requires forall q <- qs :: WalkReady(w, q)
    ensures forall m | Activity(m) ::
      TallyAt(WalkTallies(w, qs, t), m) - TallyAt(t, m) == SumQ(m, WalkQueues(w, qs)) - SumQ(m, qs)
    ensures forall m | !Activity(m) :: SumQ(m, WalkQueues(w, qs)) == SumQ(m, qs)
  {
    forall m ensures
      && (Activity(m) ==>
            TallyAt(WalkTallies(w, qs, t), m) - TallyAt(t, m) == SumQ(m, WalkQueues(w, qs)) - SumQ(m, qs))
      && (!Activity(m) ==> SumQ(m, WalkQueues(w, qs)) == SumQ(m, qs))
    {
      WalkSums(w, qs, t, m);
    }
  }

  lemma WalkKeeps(cfg: Config, l: Lists, p: nat, w: Walk, evicted: nat)
    requires ListInv(cfg, l) && Alive(l, p)
    requires forall q <- l.procs[p].queues :: WalkReady(w, q)
    requires forall q <- WalkQueues(w, l.procs[p].queues) :: QueueInv(evicted, q)
    ensures ListInv(cfg, WalkProc(w, Put(l, p, l.procs[p].(evicted := evicted)), p))
  {
    var old_ := l.procs[p];
    var mid := old_.(evicted := evicted);
    var new_ := mid.(queues := WalkQueues(w, old_.queues));
    var t := WalkTallies(w, old_.queues, l.tally);
    WalkTalliesFollow(w, old_.queues, l.tally);
    SameShape(cfg, old_, new_);
    QueuesChange(cfg, l, p, new_, t);
    PutTwice(l, p, mid, new_);
  }

  lemma Unaffected(cfg: Config, pr: Proc, x: Proc)
    requires ProcInv(cfg, pr)
    requires x.queues == pr.queues && x.kernelQueues == pr.kernelQueues && x.doorbells == pr.doorbells
    requires x.terminated == pr.terminated && (pr.vmAcquired ==> x.vmAcquired)
    requires forall q <- pr.queues :: QueueInv(x.evicted, q)
    ensures ProcInv(cfg, x)
  {
    forall id: nat ensures SumP(Named(id), x) <= 1 {
      assert SumP(Named(id), pr) <= 1;
    }
    forall d: nat | cfg.soc15 && !x.terminated ensures DoorbellInv(cfg, x, d) {
      assert DoorbellInv(cfg, pr, d);
    }
  }

  /** Only the nesting count changes. */
  lemma NestingKeeps(cfg: Config, l: Lists, p: nat, evicted: nat)
    requires ListInv(cfg, l) && Alive(l, p)
    requires l.procs[p].queues == [] || (evicted > 0 <==> l.procs[p].evicted > 0)
    ensures ListInv(cfg, Put(l, p, l.procs[p].(evicted := evicted)))
  {
    var pr := l.procs[p];
    var x := pr.(evicted := evicted);
    assert ProcInv(cfg, pr);
    Unaffected(cfg, pr, x);
    QuietChange(cfg, l, p, x);
  }

  lemma EvictWalkInv(qs: seq<Queue>)
    requires forall q <- qs :: QueueInv(0, q)
    ensures forall q <- qs :: WalkReady(EvictAll, q)
    ensures forall q <- WalkQueues(EvictAll, qs) :: QueueInv(1, q)
  {
    WalkInv(EvictAll, qs, 1);
  }

  lemma RestoreWalkInv(qs: seq<Queue>)
    requires forall q <- qs :: QueueInv(1, q)
    ensures forall q <- qs :: WalkReady(RestoreAll, q)
    ensures forall q <- WalkQueues(RestoreAll, qs) :: QueueInv(0, q)
  {
    WalkInv(RestoreAll, qs, 0);
  }

  lemma MembersInv(cfg: Config, pr: Proc)
    requires ProcInv(cfg, pr)
    ensures forall q <- pr.queues :: QueueInv(pr.evicted, q)
    ensures !pr.vmAcquired ==> pr.queues == []
  {
  }

  lemma EvictActsKeeps(cfg: Config, l: Lists, p: nat)
    requires ListInv(cfg, l) && Alive(l, p) && EvictActs(l.procs[p])
    ensures ListInv(cfg, EvictLists(l, p))
  {
    hide CountersAgree, ProcInv, QueueInv, WalkReady, WalkQueues, WalkTallies;
    var pr := l.procs[p];
    MembersInv(cfg, pr);
    EvictWalkInv(pr.queues);
    var l1 := Put(l, p, pr.(evicted := 1));
    assert EvictLists(l, p) == WalkProc(EvictAll, l1, p);
    assert ListInv(cfg, WalkProc(EvictAll, l1, p)) by { WalkKeeps(cfg, l, p, EvictAll, 1); }
  }

  lemma EvictKeeps(cfg: Config, l: Lists, p: nat)
    requires ListInv(cfg, l) && Alive(l, p)
    ensures ListInv(cfg, EvictLists(l, p))
  {
    hide CountersAgree, ProcInv, WalkProc;
    if EvictActs(l.procs[p]) {
      EvictActsKeeps(cfg, l, p);
    } else {
      MembersInv(cfg, l.procs[p]);
      NestingKeeps(cfg, l, p, l.procs[p].evicted + 1);
    }
  }

  lemma RestoreKeeps(cfg: Config, l: Lists, p: nat)
    requires ListInv(cfg, l) && Alive(l, p)
    ensures ListInv(cfg, RestoreLists(l, p))
  {
    hide CountersAgree, ProcInv, WalkProc;
    var pr := l.procs[p];
    MembersInv(cfg, pr);
    if RestoreActs(pr) {
      RestoreWalkInv(pr.queues);
      WalkKeeps(cfg, l, p, RestoreAll, 0);
    } else if pr.evicted > 0 {
      NestingKeeps(cfg, l, p, pr.evicted - 1);
    }
  }

  lemma SuspendResumeKeeps(cfg: Config, l: Lists, p: nat, w: Walk)
    requires ListInv(cfg, l) && Alive(l, p)
    requires w.SuspendIn? || w.ResumeIn? || w.ResumeAll?
    ensures ListInv(cfg, WalkProc(w, l, p))
  {
    var pr := l.procs[p];
    assert ProcInv(cfg, pr);
    assert l.procs[p := pr] == l.procs;
    WalkInv(w, pr.queues, pr.evicted);
    WalkKeeps(cfg, l, p, w, pr.evicted);
  }

  lemma {:induction false} ClearNewSums(qs: seq<Queue>, ids: set<nat>, m: Metric)
    ensures SumQ(m, ClearNew(qs, ids)) == SumQ(m, qs)
  {
    if qs != [] {
      var n := |qs| - 1;
      ClearNewSums(qs[..n], ids, m);
      assert ClearNew(qs, ids)[..n] == ClearNew(qs[..n], ids);
    }
  }

  lemma ClearNewKeeps(cfg: Config, l: Lists, p: nat, ids: set<nat>)
    requires ListInv(cfg, l) && Alive(l, p)
    ensures ListInv(cfg, Put(l, p, l.procs[p].(queues := ClearNew(l.procs[p].queues, ids))))
  {
    var old_ := l.procs[p];
    var new_ := old_.(queues := ClearNew(old_.queues, ids));
    forall m ensures SumQ(m, new_.queues) == SumQ(m, old_.queues) {
      ClearNewSums(old_.queues, ids, m);
    }
    forall q | q in new_.queues ensures QueueInv(new_.evicted, q) {
      var i :| 0 <= i < |old_.queues| && new_.queues[i] == q;
      assert old_.queues[i] in old_.queues;
    }
    SameShape(cfg, old_, new_);
    QueuesChange(cfg, l, p, new_, l.tally);
    assert Put(l, p, new_).(tally := l.tally) == Put(l, p, new_);
  }

  // ----- update

  lemma UpdateKeeps(cfg: Config, l: Lists, p: nat, i: nat)
    requires ListInv(cfg, l) && HasQueue(l, p, i)
    ensures ListInv(cfg, UpdateLists(l, p, i))
  {
    hide CountersAgree;
    var l' := UpdateLists(l, p, i);
    var q := l'.procs[p].queues[i];
    assert QueueInv(l.procs[p].evicted, l.procs[p].queues[i]);
    assert l' == PutQueue(l, p, i, q).(tally := l'.tally);
    QueueChange(cfg, l, p, i, q, l'.tally);
  }

  // ----- the runlist side

  lemma ReleaseKeeps(sc: Sched)
    requires SchedInv(sc)
    ensures SchedInv(Release(sc)) && !Release(sc).ibAllocated
    ensures Release(sc).live == {}
  {
  }

  lemma UnmapKeeps(sc: Sched, u: UnmapOutcome)
    requires SchedInv(sc)
    ensures SchedInv(Unmap(sc, u).sched)
    ensures Unmap(sc, u).ret == Ok ==> !sc.running || !Unmap(sc, u).sched.activeRunlist
  {
    ReleaseKeeps(sc);
  }

  lemma MapKeeps(cfg: Config, l: Lists, sc: Sched, m: MapOutcome)
    requires SchedInv(sc) && forall p <- l.nodes :: p in l.procs
    ensures SchedInv(Map(cfg, l, sc, m).sched)
  {
  }

  lemma ExecuteKeeps(cfg: Config, l: Lists, sc: Sched, hw: Hw)
    requires SchedInv(sc) && forall p <- l.nodes :: p in l.procs
    ensures SchedInv(Execute(cfg, l, sc, hw).sched)
  {
    UnmapKeeps(sc, hw.preempt);
    MapKeeps(cfg, l, Unmap(sc, hw.preempt).sched, hw.send);
  }
}

/**
  Queue creation without the hardware scheduler: the driver itself hands out VMIDs and
  hardware queue descriptors, and a failing create has to give everything back. A create
  drops the lock half-way, so it is two sections with anything in between.
 */
module NoHws {
  import opened Basics
  import opened Queues
  import opened RunlistIb
  import opened Scheduler
  import opened SchedulerInvariant
  import opened SchedulerSteps

  /** Queues per pipe are bits of an unsigned int. */
  const MASK_BITS := 32

  /** The pipe reached after `i` steps of the round-robin scan. */
  function Cyclic(start: nat, i: nat, pipes: nat): (r: nat)
    requires start < pipes && i < pipes
    ensures r < pipes
  {
    if start + i < pipes then start + i else start + i - pipes
  }

  /** Every pipe is met by a full scan. */
  lemma CyclicCovers(start: nat, k: nat, pipes: nat)
    requires start < pipes && k < pipes
    ensures exists i :: 0 <= i < pipes && Cyclic(start, i, pipes) == k
  {
    assert Cyclic(start, if k >= start then k - start else k + pipes - start, pipes) == k;
  }

  lemma CyclicStep(start: nat, i: nat, pipes: nat)
    requires start < pipes && i + 1 < pipes
    ensures (Cyclic(start, i, pipes) + 1) % pipes == Cyclic(start, i + 1, pipes)
  {
  }

  ghost predicate FreeInRange(cfg: Config, l: Lists) {
    && (forall id <- l.sdmaFree :: id < cfg.Slots(Sdma))
    && (forall id <- l.xgmiFree :: id < cfg.Slots(SdmaXgmi))
  }

  ghost predicate SlotsOk(cfg: Config, l: Lists, free: seq<set<nat>>, next: nat, pipes: nat) {
    && |free| == pipes && next < pipes
    && (forall k, b :: 0 <= k < |free| && b in free[k] ==> b < MASK_BITS)
    && FreeInRange(cfg, l)
  }

  lemma SdmaUndone(cfg: Config, l: Lists, q: Queue, rid: Option<nat>)
    requires FreeInRange(cfg, l)
    ensures var a := AllocSdma(cfg, l, q, rid);
      && (a.ret == Ok ==> FreeSdma(cfg, a.lists, a.q) == l)
      && (a.ret != Ok ==> a.lists == l)
      && a.q.kind == q.kind
      && a.lists.procs == l.procs && FreeInRange(cfg, a.lists)
      && (!IsSdma(q.kind) ==> a.ret == Ok)
  {
    var a := AllocSdma(cfg, l, q, rid);
    if a.ret == Ok && IsSdma(q.kind) {
      var free := FreeSlots(l, q.kind);
      var x :| x in free;
      assert x < cfg.Slots(q.kind);
      assert a.q.sdmaId in free;
      assert (free - {a.q.sdmaId}) + {a.q.sdmaId} == free;
    }
  }

  lemma ReservationUndone(cfg: Config, l: Lists, p: nat, q: Queue, qd: Option<Criu>)
    requires FreeInRange(cfg, l) && p in l.procs && q.kind != Diq
    requires Reserve(cfg, l, p, q, qd).ret == Ok
    ensures var a := Reserve(cfg, l, p, q, qd);
      && p in a.lists.procs && a.q.kind == q.kind && FreeInRange(cfg, a.lists)
      && Unreserve(cfg, a.lists, p, a.q) == l
      && a.lists.procs == l.procs[p := l.procs[p].(doorbells := a.lists.procs[p].doorbells)]
  {
    var rid := if qd.Some? then Some(qd.value.sdmaId) else None;
    SdmaUndone(cfg, l, q, rid);
    var sa := AllocSdma(cfg, l, q, rid);
    DoorbellUndone(cfg, sa.lists, p, sa.q, if qd.Some? then Some(qd.value.doorbell) else None);
  }

  /** Compute queues take a hardware queue descriptor, the others none. */
  function TakeHqd(free: seq<set<nat>>, k: Kind, pipe: nat, bit: nat): (r: seq<set<nat>>)
    requires k == Compute ==> pipe < |free|
    ensures |r| == |free|
  {
    if k == Compute then free[pipe := free[pipe] - {bit}] else free
  }

  function GiveHqd(free: seq<set<nat>>, k: Kind, pipe: nat, bit: nat): (r: seq<set<nat>>)
    requires k == Compute ==> pipe < |free|
    ensures |r| == |free|
  {
    if k == Compute then free[pipe := free[pipe] + {bit}] else free
  }

  lemma Refilled(free: seq<set<nat>>, k: Kind, pipe: nat, bit: nat)
    requires k == Compute ==> pipe < |free| && bit in free[pipe]
    ensures GiveHqd(TakeHqd(free, k, pipe, bit), k, pipe, bit) == free
  {
    if k == Compute {
      assert (free[pipe] - {bit}) + {bit} == free[pipe];
    }
  }

  /** A process holds a VMID exactly while it has queues or a create of one is under way. */
  ghost predicate Holders(l: Lists, vmids: map<nat, nat>, creating: set<nat>) {
    forall p <- l.procs :: p in vmids && (l.procs[p].queues == [] && p !in creating <==> vmids[p] == 0)
  }

  lemma HoldersAt(l: Lists, vmids: map<nat, nat>, creating: set<nat>, p: nat)
    requires Holders(l, vmids, creating) && p in l.procs
    ensures p in vmids && (l.procs[p].queues == [] && p !in creating <==> vmids[p] == 0)
  {
  }

  /** One process and its VMID change. */
  lemma HoldersKept(l: Lists, l1: Lists, vmids: map<nat, nat>, vmids1: map<nat, nat>, creating: set<nat>, creating1: set<nat>,
                    p: nat)
    requires Holders(l, vmids, creating) && p in l.procs && l1.procs.Keys == l.procs.Keys
    requires forall x <- l1.procs :: x != p ==> l1.procs[x].queues == l.procs[x].queues
    requires p in vmids1 && (vmids1 == vmids || vmids1 == vmids[p := vmids1[p]])
    requires forall x :: x != p ==> (x in creating1 <==> x in creating)
    requires l1.procs[p].queues == [] && p !in creating1 <==> vmids1[p] == 0
    ensures Holders(l1, vmids1, creating1)
  {
  }

  /** Every VMID in the range is taken. */
  ghost predicate NoVmid(pasids: seq<nat>, first: nat, last: nat) {
    forall u :: first <= u <= last && u < |pasids| ==> pasids[u] != 0
  }

  /** The process had no VMID and has taken a free one. */
  ghost predicate VmidTaken(pasids: seq<nat>, vmids: map<nat, nat>, pasids1: seq<nat>, vmids1: map<nat, nat>, p: nat) {
    && p in vmids && vmids[p] == 0 && p in vmids1
    && var v := vmids1[p];
       && 0 < v < |pasids| && pasids[v] == 0
       && vmids1 == vmids[p := v] && pasids1 == pasids[v := p]
  }

  lemma VmidUndone(pasids: seq<nat>, vmids: map<nat, nat>, pasids1: seq<nat>, vmids1: map<nat, nat>, p: nat)
    requires VmidTaken(pasids, vmids, pasids1, vmids1, p)
    ensures vmids1[p] < |pasids1| && pasids1[vmids1[p] := 0] == pasids && vmids1[p := 0] == vmids
  {
  }

  // ----- the two sections of a create

  /** The queue as the second section links it, with the eviction flag the first one took. */
  function LateQueue(q: Queue, restored: bool): Queue { q.(active := !restored && Runnable(q)) }

  function LinkLate(l: Lists, p: nat, q: Queue, restored: bool): Lists
    requires p in l.procs
  {
    Link(l, p, LateQueue(q, restored)).(total := l.total + 1)
  }

  lemma LinkShape(l: Lists, p: nat, q: Queue, restored: bool)
    requires p in l.procs
    ensures var r := LinkLate(l, p, q, restored).procs;
      r.Keys == l.procs.Keys && r[p].queues != [] && forall x <- r :: x != p ==> r[x].queues == l.procs[x].queues
  {
  }

  lemma UnreserveShape(cfg: Config, l: Lists, p: nat, q: Queue)
    requires p in l.procs
    ensures var r := Unreserve(cfg, l, p, q).procs;
      r.Keys == l.procs.Keys && forall x <- r :: r[x].queues == l.procs[x].queues
  {
  }

  /** Neither linking a queue nor giving its resources back disturbs the free ones. */
  lemma SlotsKept(cfg: Config, l: Lists, free: seq<set<nat>>, next: nat, pipes: nat, p: nat, q: Queue, restored: bool,
                  pipe: nat, bit: nat)
    requires SlotsOk(cfg, l, free, next, pipes) && p in l.procs
    requires q.kind == Compute ==> pipe < |free| && bit < MASK_BITS
    ensures SlotsOk(cfg, LinkLate(l, p, q, restored), free, next, pipes)
    ensures SlotsOk(cfg, Unreserve(cfg, l, p, q), GiveHqd(free, q.kind, pipe, bit), next, pipes)
  {
  }

  lemma LateIsInit(l: Lists, p: nat, pr: Proc, q: Queue, restored: bool)
    requires p in l.procs
    ensures LinkLate(l, p, q.(evicted := pr.evicted > 0), restored)
         == Link(l, p, InitQueue(pr, q, restored)).(total := l.total + 1)
    ensures Link(l, p, InitQueue(pr, q, restored)).total == l.total
    ensures LateQueue(q.(evicted := pr.evicted > 0), restored).active == InitQueue(pr, q, restored).active
  {
  }

  /** Queues that a restore counts although they are counted already. */
  function CountedTwice(qs: seq<Queue>): nat {
    if qs == [] then 0
    else
      var q := qs[|qs| - 1];
      CountedTwice(qs[..|qs| - 1]) + if q.active && Runnable(q.(evicted := false)) then 1 else 0
  }

  /** What a restore does to the active count, for any queues: it is off by exactly those. */
  lemma {:induction false} RestoreMiscounts(qs: seq<Queue>, t: Tally)
    ensures WalkTallies(RestoreAll, qs, t).active - t.active
         == SumQ(Active, WalkQueues(RestoreAll, qs)) - SumQ(Active, qs) + CountedTwice(qs)
  {
    hide WalkQueue, WalkTally, Runnable, Weight;
    if qs != [] {
      var n := |qs| - 1;
      RestoreMiscounts(qs[..n], t);
      RestoreOne(qs[n], WalkTallies(RestoreAll, qs[..n], t));
      assert WalkQueues(RestoreAll, qs)[..n] == WalkQueues(RestoreAll, qs[..n]);
    }
  }

  lemma RestoreOne(q: Queue, t: Tally)
    ensures WalkTally(RestoreAll, q, t).active - t.active
         == Weight(Active, WalkQueue(RestoreAll, q)) - Weight(Active, q)
          + if q.active && Runnable(q.(evicted := false)) then 1 else 0
  {
  }

  function EvictFirst(l: Lists, p: nat): Lists
    requires p in l.procs
  {
    WalkProc(EvictAll, Put(l, p, l.procs[p].(evicted := 1)), p)
  }

  function RestoreLast(l: Lists, p: nat): Lists
    requires p in l.procs
  {
    WalkProc(RestoreAll, Put(l, p, l.procs[p].(evicted := 0)), p)
  }

  lemma {:induction false} NoneCountedTwice(qs: seq<Queue>)
    requires forall q <- qs :: !q.active
    ensures CountedTwice(qs) == 0
  {
    if qs != [] {
      assert qs[|qs| - 1] in qs && forall q <- qs[..|qs| - 1] :: q in qs;
      NoneCountedTwice(qs[..|qs| - 1]);
    }
  }

  lemma {:induction false} CountedTwiceCons(q: Queue, qs: seq<Queue>)
    ensures CountedTwice([q] + qs) == CountedTwice(qs) + if q.active && Runnable(q.(evicted := false)) then 1 else 0
  {
    if qs == [] {
      assert [q] + qs == [q] && CountedTwice([q][..0]) == 0;
    } else {
      CountedTwiceCons(q, qs[..|qs| - 1]);
      assert ([q] + qs)[..|[q] + qs| - 1] == [q] + qs[..|qs| - 1];
    }
  }

  /**
    An eviction of the process between the two sections misses the new queue, which is then
    linked as active. The restore counts it a second time: afterwards the active count has
    moved by one more than the active queues, if and only if the queue is fit to run.
   */
  lemma EvictionBetweenMiscounts(l: Lists, p: nat, q: Queue)
    requires p in l.procs && l.procs[p].evicted == 0 && !q.evicted
    ensures var m := LinkLate(EvictFirst(l, p), p, q, false);
      var r := RestoreLast(m, p);
      && p in m.procs && m.procs[p].evicted > 0 && p in r.procs
      && m.procs[p].queues[0].active == Runnable(q)
      && r.tally.active - l.tally.active
         == SumQ(Active, r.procs[p].queues) - SumQ(Active, l.procs[p].queues) + if Runnable(q) then 1 else 0
  {
    var e := EvictFirst(l, p);
    var m := LinkLate(e, p, q, false);
    WalkTalliesFollow(EvictAll, l.procs[p].queues, l.tally);
    assert Activity(Active);
    RestoreMiscounts(m.procs[p].queues, m.tally);
    SumQCons(Active, LateQueue(q, false), e.procs[p].queues);
    CountedTwiceCons(LateQueue(q, false), e.procs[p].queues);
    NoneCountedTwice(e.procs[p].queues);
  }

  class NoHwsManager {
    const cfg: Config
    const firstVmid: nat
    const lastVmid: nat
    const pipeEnabled: seq<bool>

    var lists: Lists
    var vmidPasid: seq<nat>
    var vmids: map<nat, nat>
    var freeHqds: seq<set<nat>>
    var nextPipe: nat
    var running: bool

    /** The processes with a create between its two sections. */
    ghost var creating: set<nat>

    ghost predicate SlotsValid()
      reads this`lists, this`freeHqds, this`nextPipe
    {
      SlotsOk(cfg, lists, freeHqds, nextPipe, |pipeEnabled|)
    }

    lemma SlotsInRange()
      requires SlotsValid()
      ensures FreeInRange(cfg, lists) && |freeHqds| == |pipeEnabled|
    {
    }

    /** The table gives each VMID to the process that holds it. */
    ghost predicate VmidsValid()
      reads this`vmidPasid, this`vmids
    {
      && 0 < firstVmid <= lastVmid < |vmidPasid|
      && (forall p <- vmids :: vmids[p] != 0 ==> p > 0 && firstVmid <= vmids[p] <= lastVmid && vmidPasid[vmids[p]] == p)
    }

    ghost predicate Valid()
      reads this
    {
      SlotsValid() && VmidsValid() && Holders(lists, vmids, creating)
    }

    lemma VmidOf(p: nat)
      requires VmidsValid() && p in vmids && vmids[p] != 0
      ensures firstVmid <= vmids[p] <= lastVmid < |vmidPasid| && vmidPasid[vmids[p]] == p
    {
    }

    method AllocateVmid(p: nat) returns (ret: Ret)
      requires VmidsValid() && p in vmids && vmids[p] == 0 && p > 0
      modifies this`vmidPasid, this`vmids
      ensures VmidsValid() && ret == if NoVmid(old(vmidPasid), firstVmid, lastVmid) then Enospc else Ok
      ensures ret == Ok ==>
        && p in vmids && firstVmid <= vmids[p] <= lastVmid
        && old(vmidPasid)[vmids[p]] == 0
        && (forall u :: firstVmid <= u < vmids[p] ==> old(vmidPasid)[u] != 0)
        && VmidTaken(old(vmidPasid), old(vmids), vmidPasid, vmids, p)
        && vmids[p] != 0 && vmids == old(vmids)[p := vmids[p]]
      ensures ret != Ok ==>
        && ret == Enospc && vmids == old(vmids) && vmidPasid == old(vmidPasid)
        && NoVmid(vmidPasid, firstVmid, lastVmid)
    {
      var i := firstVmid;
      while i <= lastVmid
        invariant firstVmid <= i <= lastVmid + 1
        invariant vmidPasid == old(vmidPasid) && vmids == old(vmids)
        invariant forall u :: firstVmid <= u < i ==> vmidPasid[u] != 0
      {
        if vmidPasid[i] == 0 {
          vmidPasid := vmidPasid[i := p];
          vmids := vmids[p := i];
          return Ok;
        }
        i := i + 1;
      }
      return Enospc;
    }

    method DeallocateVmid(p: nat)
      requires VmidsValid() && p in vmids && vmids[p] != 0
      modifies this`vmidPasid, this`vmids
      ensures VmidsValid() && old(vmids)[p] < |old(vmidPasid)|
      ensures vmidPasid == old(vmidPasid)[old(vmids)[p] := 0] && vmids == old(vmids)[p := 0]
    {
      vmidPasid := vmidPasid[vmids[p] := 0];
      vmids := vmids[p := 0];
    }

    /** Nothing to take on this pipe. */
    ghost predicate Exhausted(free: seq<set<nat>>, k: nat)
      requires |free| == |pipeEnabled|
    {
      k < |free| ==> !pipeEnabled[k] || free[k] == {}
    }

    /** No enabled pipe has a descriptor left. */
    ghost predicate NoHqd(free: seq<set<nat>>)
      requires |free| == |pipeEnabled|
    {
      forall k :: 0 <= k < |free| ==> Exhausted(free, k)
    }

    /**
      Horizontal allocation: the first enabled pipe with a free descriptor in round-robin
      order, the lowest descriptor on it, and busy only when no enabled pipe has any.
     */
    method AllocateHqd() returns (pipe: nat, bit: nat, ret: Ret)
      requires SlotsValid()
      modifies this`freeHqds, this`nextPipe
      ensures SlotsValid()
      ensures |old(freeHqds)| == |pipeEnabled| && ret == if NoHqd(old(freeHqds)) then Ebusy else Ok
      ensures ret == Ok ==>
        && pipe < |freeHqds| && pipeEnabled[pipe] && bit in old(freeHqds)[pipe]
        && (forall b :: b in old(freeHqds)[pipe] ==> bit <= b)
        && freeHqds == old(freeHqds)[pipe := old(freeHqds)[pipe] - {bit}]
        && nextPipe == (pipe + 1) % |freeHqds|
        && exists n :: 0 <= n < |freeHqds| && Cyclic(old(nextPipe), n, |freeHqds|) == pipe
             && forall m :: 0 <= m < n ==> Exhausted(old(freeHqds), Cyclic(old(nextPipe), m, |freeHqds|))
      ensures ret != Ok ==>
        && freeHqds == old(freeHqds) && nextPipe == old(nextPipe) && NoHqd(freeHqds)
    {
      var pipes := |freeHqds|;
      pipe, bit := nextPipe, 0;
      var i := 0;
      while i < pipes
        invariant 0 <= i <= pipes && freeHqds == old(freeHqds) && nextPipe == old(nextPipe)
        invariant i < pipes ==> pipe == Cyclic(nextPipe, i, pipes)
        invariant forall m :: 0 <= m < i ==> Exhausted(freeHqds, Cyclic(nextPipe, m, pipes))
      {
        if pipeEnabled[pipe] && freeHqds[pipe] != {} {
          bit := FindFirst(freeHqds[pipe], 0, MASK_BITS);
          LowestIsFree(pipe);
          assert !Exhausted(freeHqds, pipe);
          freeHqds := freeHqds[pipe := freeHqds[pipe] - {bit}];
          nextPipe := (pipe + 1) % pipes;
          return pipe, bit, Ok;
        }
        if i + 1 < pipes {
          CyclicStep(nextPipe, i, pipes);
        }
        pipe := (pipe + 1) % pipes;
        i := i + 1;
      }
      forall k | 0 <= k < pipes ensures Exhausted(freeHqds, k) {
        CyclicCovers(nextPipe, k, pipes);
      }
      return pipe, bit, Ebusy;
    }

    lemma LowestIsFree(pipe: nat)
      requires SlotsValid() && pipe < |freeHqds| && freeHqds[pipe] != {}
      ensures var bit := FindFirst(freeHqds[pipe], 0, MASK_BITS);
        bit in freeHqds[pipe] && forall b :: b in freeHqds[pipe] ==> bit <= b
    {
      var x :| x in freeHqds[pipe];
    }

    method DeallocateHqd(pipe: nat, bit: nat)
      requires pipe < |freeHqds|
      modifies this`freeHqds
      ensures freeHqds == old(freeHqds)[pipe := old(freeHqds)[pipe] + {bit}]
    {
      freeHqds := freeHqds[pipe := freeHqds[pipe] + {bit}];
    }

    /** The resources of one queue apart from the VMID: descriptor or slot, then the doorbell. */
    method AllocateQueue(p: nat, q: Queue, qd: Option<Criu>) returns (q1: Queue, pipe: nat, bit: nat, ret: Ret)
      requires SlotsValid() && p in lists.procs && q.kind != Diq
      modifies this`lists, this`freeHqds, this`nextPipe
      ensures SlotsValid()
      ensures ret == if q.kind == Compute && NoHqd(old(freeHqds)) then Ebusy else Reserve(cfg, old(lists), p, q, qd).ret
      ensures ret != Ok ==> lists == old(lists) && freeHqds == old(freeHqds)
      ensures ret == Ok ==>
        && Alloc(lists, q1, Ok) == Reserve(cfg, old(lists), p, q, qd)
        && (q.kind == Compute ==> pipe < |old(freeHqds)| && bit < MASK_BITS && bit in old(freeHqds)[pipe])
        && freeHqds == TakeHqd(old(freeHqds), q.kind, pipe, bit)
    {
      hide AllocSdma, AllocDoorbell;
      pipe, bit := 0, 0;
      q1 := q;
      if q.kind == Compute {
        pipe, bit, ret := AllocateHqd();
        if ret != Ok { return; }
      }
      var rid := if qd.Some? then Some(qd.value.sdmaId) else None;
      var a := AllocSdma(cfg, lists, q, rid);
      SdmaUndone(cfg, lists, q, rid);
      if a.ret != Ok {
        return q, pipe, bit, a.ret;
      }
      lists := a.lists;
      q1 := a.q;
      var d := AllocDoorbell(cfg, lists.procs[p].doorbells, q1, if qd.Some? then Some(qd.value.doorbell) else None);
      if d.ret != Ok {
        Return(q1, pipe, bit);
        assert freeHqds == old(freeHqds) by { Refilled(old(freeHqds), q.kind, pipe, bit); }
        return q1, pipe, bit, d.ret;
      }
      lists := Put(lists, p, lists.procs[p].(doorbells := d.doorbells));
      return q1.(doorbell := d.doorbell), pipe, bit, Ok;
    }

    /** out_deallocate_hqd: give the descriptor or the slot back. */
    method Return(q: Queue, pipe: nat, bit: nat)
      requires q.kind == Compute ==> pipe < |freeHqds|
      modifies this`lists, this`freeHqds
      ensures lists == FreeSdma(cfg, old(lists), q)
      ensures freeHqds == GiveHqd(old(freeHqds), q.kind, pipe, bit)
    {
      if q.kind == Compute {
        DeallocateHqd(pipe, bit);
      } else {
        lists := FreeSdma(cfg, lists, q);
      }
    }

    /** out_deallocate_doorbell and what follows it. */
    method ReleaseQueue(p: nat, q: Queue, pipe: nat, bit: nat)
      requires p in lists.procs && (q.kind == Compute ==> pipe < |freeHqds|)
      modifies this`lists, this`freeHqds
      ensures lists == Unreserve(cfg, old(lists), p, q)
      ensures freeHqds == GiveHqd(old(freeHqds), q.kind, pipe, bit)
    {
      var pr := lists.procs[p];
      lists := Put(lists, p, pr.(doorbells := FreeDoorbell(cfg, pr.doorbells, q)));
      Return(q, pipe, bit);
    }

    /**
      create_queue_nocpsch up to where it drops the lock. Whatever it fails at, lists,
      counters, slots, doorbells, descriptors and VMIDs end as they began. On success the
      new queue has exactly what it reserved and its process a VMID of its own.
     */
    method BeginCreate(p: nat, q: Queue, qd: Option<Criu>) returns (q1: Queue, pipe: nat, bit: nat, ret: Ret)
      requires Valid() && p in lists.procs && p > 0 && q.kind != Diq && p !in creating
      modifies this`lists, this`vmidPasid, this`vmids, this`freeHqds, this`nextPipe, this`creating
      ensures Valid()
      ensures |old(freeHqds)| == |pipeEnabled|
      ensures ret ==
        if old(lists).total >= cfg.maxQueues then Eperm
        else if old(lists).procs[p].queues == [] && NoVmid(old(vmidPasid), firstVmid, lastVmid) then Enospc
        else if q.kind == Compute && NoHqd(old(freeHqds)) then Ebusy
        else Reserve(cfg, old(lists), p, q, qd).ret
      ensures ret != Ok ==>
        && lists == old(lists) && freeHqds == old(freeHqds) && creating == old(creating)
        && vmidPasid == old(vmidPasid) && vmids == old(vmids)
      ensures ret == Ok ==>
        && creating == old(creating) + {p} && p in lists.procs
        && p in vmids && vmids[p] != 0
        && (if old(lists).procs[p].queues == []
            then VmidTaken(old(vmidPasid), old(vmids), vmidPasid, vmids, p)
            else vmids == old(vmids) && vmidPasid == old(vmidPasid))
        && (q.kind == Compute ==> pipe < |old(freeHqds)| && bit < MASK_BITS && bit in old(freeHqds)[pipe])
        && freeHqds == TakeHqd(old(freeHqds), q.kind, pipe, bit)
        && var a := Reserve(cfg, old(lists), p, q, qd);
           && a.ret == Ok && lists == a.lists && q1 == a.q.(evicted := old(lists).procs[p].evicted > 0)
           && q1.kind == q.kind && Unreserve(cfg, lists, p, q1) == old(lists)
           && lists.procs[p].queues == old(lists).procs[p].queues
    {
      hide SlotsOk, VmidsValid, FreeInRange, Reserve, Unreserve, Holders, TakeHqd, VmidTaken, NoVmid, NoHqd;
      SlotsInRange();
      HoldersAt(lists, vmids, creating, p);
      q1, pipe, bit := q, 0, 0;
      if lists.total >= cfg.maxQueues { return q, 0, 0, Eperm; }
      var first := lists.procs[p].queues == [];
      if first {
        ret := AllocateVmid(p);
        if ret != Ok { return; }
      }
      var evicted := lists.procs[p].evicted > 0;
      q1, pipe, bit, ret := AllocateQueue(p, q, qd);
      if ret == Ok {
        ReservationUndone(cfg, old(lists), p, q, qd);
        UnreserveSame(cfg, lists, p, q1, q1.(evicted := evicted));
        q1 := q1.(evicted := evicted);
        creating := creating + {p};
        HoldersKept(old(lists), lists, old(vmids), vmids, old(creating), creating, p);
      } else if first {
        VmidUndone(old(vmidPasid), old(vmids), vmidPasid, vmids, p);
        DeallocateVmid(p);
      }
    }

    /**
      The rest of it, from whatever state others have left meanwhile: the queue is linked and
      counted, or all it had reserved is given back and nothing else changes.
     */
    method FinishCreate(p: nat, q: Queue, pipe: nat, bit: nat, restored: bool, mqdOk: bool, load: Ret) returns (ret: Ret)
      requires Valid() && p in lists.procs && p in creating
      requires q.kind == Compute ==> pipe < |freeHqds| && bit < MASK_BITS
      modifies this`lists, this`vmidPasid, this`vmids, this`freeHqds, this`creating
      ensures Valid() && creating == old(creating) - {p}
      ensures ret == if !mqdOk then Enomem else if LateQueue(q, restored).active && running then load else Ok
      ensures ret == Ok ==>
        && lists == LinkLate(old(lists), p, q, restored) && freeHqds == old(freeHqds)
        && vmids == old(vmids) && vmidPasid == old(vmidPasid)
      ensures ret != Ok ==>
        && lists == Unreserve(cfg, old(lists), p, q)
        && freeHqds == GiveHqd(old(freeHqds), q.kind, pipe, bit)
        && p in old(vmids) && old(vmids)[p] < |old(vmidPasid)|
        && (if old(lists).procs[p].queues == []
            then vmids == old(vmids)[p := 0] && vmidPasid == old(vmidPasid)[old(vmids)[p] := 0]
            else vmids == old(vmids) && vmidPasid == old(vmidPasid))
    {
      hide SlotsOk, VmidsValid, FreeInRange, Unreserve, LinkLate, Holders, GiveHqd;
      HoldersAt(lists, vmids, creating, p);
      VmidOf(p);
      SlotsKept(cfg, lists, freeHqds, nextPipe, |pipeEnabled|, p, q, restored, pipe, bit);
      var q1 := LateQueue(q, restored);
      ret := if !mqdOk then Enomem else if q1.active && running then load else Ok;
      creating := creating - {p};
      if ret == Ok {
        LinkShape(lists, p, q, restored);
        lists := LinkLate(lists, p, q, restored);
      } else {
        UnreserveShape(cfg, lists, p, q);
        GiveAllBack(p, q, pipe, bit);
      }
      HoldersKept(old(lists), lists, old(vmids), vmids, old(creating), creating, p);
    }

    /** out_deallocate_doorbell down to deallocate_vmid. */
    method GiveAllBack(p: nat, q: Queue, pipe: nat, bit: nat)
      requires SlotsValid() && VmidsValid() && p in lists.procs && p in vmids && vmids[p] != 0
      requires q.kind == Compute ==> pipe < |freeHqds| && bit < MASK_BITS
      modifies this`lists, this`vmidPasid, this`vmids, this`freeHqds
      ensures SlotsValid() && VmidsValid()
      ensures lists == Unreserve(cfg, old(lists), p, q) && freeHqds == GiveHqd(old(freeHqds), q.kind, pipe, bit)
      ensures old(vmids)[p] < |old(vmidPasid)|
      ensures if old(lists).procs[p].queues == []
              then vmids == old(vmids)[p := 0] && vmidPasid == old(vmidPasid)[old(vmids)[p] := 0]
              else vmids == old(vmids) && vmidPasid == old(vmidPasid)
    {
      hide SlotsOk, VmidsValid, Unreserve, GiveHqd;
      SlotsKept(cfg, lists, freeHqds, nextPipe, |pipeEnabled|, p, q, false, pipe, bit);
      UnreserveShape(cfg, lists, p, q);
      VmidOf(p);
      ReleaseQueue(p, q, pipe, bit);
      if lists.procs[p].queues == [] {
        DeallocateVmid(p);
      }
    }

    /** The two sections with nothing in between: a failing create has changed nothing but the round-robin cursor. */
    method CreateQueue(p: nat, q: Queue, qd: Option<Criu>, mqdOk: bool, load: Ret) returns (ret: Ret)
      requires Valid() && p in lists.procs && p > 0 && q.kind != Diq && p !in creating
      modifies this`lists, this`vmidPasid, this`vmids, this`freeHqds, this`nextPipe, this`creating
      ensures Valid() && creating == old(creating)
      ensures |old(freeHqds)| == |pipeEnabled|
      ensures ret ==
        if old(lists).total >= cfg.maxQueues then Eperm
        else if old(lists).procs[p].queues == [] && NoVmid(old(vmidPasid), firstVmid, lastVmid) then Enospc
        else if q.kind == Compute && NoHqd(old(freeHqds)) then Ebusy
        else
          var a := Reserve(cfg, old(lists), p, q, qd);
          if a.ret != Ok then a.ret
          else if !mqdOk then Enomem
          else if InitQueue(old(lists).procs[p], a.q, qd.Some?).active && running then load
          else Ok
      ensures ret != Ok ==>
        && lists == old(lists) && freeHqds == old(freeHqds)
        && vmidPasid == old(vmidPasid) && vmids == old(vmids)
      ensures ret == Ok ==>
        && p in vmids && firstVmid <= vmids[p] <= lastVmid && vmidPasid[vmids[p]] == p
        && (old(lists).procs[p].queues != [] ==> vmids == old(vmids) && vmidPasid == old(vmidPasid))
        && var a := Reserve(cfg, old(lists), p, q, qd);
           && a.ret == Ok && p in a.lists.procs
           && var l := Link(a.lists, p, InitQueue(old(lists).procs[p], a.q, qd.Some?));
              lists == l.(total := l.total + 1)
    {
      hide SlotsOk, VmidsValid, Reserve, Unreserve, LinkLate, Link, InitQueue, Holders, TakeHqd,
           GiveHqd, VmidTaken, NoVmid, NoHqd;
      SlotsInRange();
      var q1, pipe, bit;
      q1, pipe, bit, ret := BeginCreate(p, q, qd);
      if ret != Ok { return; }
      Refilled(old(freeHqds), q.kind, pipe, bit);
      VmidOf(p);
      ghost var a := Reserve(cfg, old(lists), p, q, qd);
      LateIsInit(a.lists, p, old(lists).procs[p], a.q, qd.Some?);
      if old(lists).procs[p].queues == [] {
        VmidUndone(old(vmidPasid), old(vmids), vmidPasid, vmids, p);
      }
      ret := FinishCreate(p, q1, pipe, bit, qd.Some?, mqdOk, load);
      assert creating == old(creating);
    }
  }
}

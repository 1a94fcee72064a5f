/**
  Preservation of the invariant by the operations that add and remove queues and
  processes, and by every step of the state machine.
 */
module SchedulerSteps {
  import opened Basics
  import opened Queues
  import opened RunlistIb
  import opened Scheduler
  import opened SchedulerInvariant

  // ----- slots and doorbells held by a listed queue

  lemma SlotHeld(cfg: Config, l: Lists, p: nat, i: nat)
    requires ListInv(cfg, l) && HasQueue(l, p, i) && IsSdma(l.procs[p].queues[i].kind)
    ensures var q := l.procs[p].queues[i];
      q.sdmaId !in FreeSlots(l, q.kind) && OwnsSlot(cfg, q.kind, q.sdmaId)
  {
    var q := l.procs[p].queues[i];
    var m := Slot(q.kind, q.sdmaId);
    SumQSplit(m, l.procs[p].queues, i);
    SumAtLeast(m, l.known, l.procs, p);
    assert Counter(l, m) + Base(cfg, m) == Sum(m, l.known, l.procs);
  }

  lemma FreeIsOwned(cfg: Config, l: Lists, k: Kind, id: nat)
    requires ListInv(cfg, l) && IsSdma(k) && id in FreeSlots(l, k)
    ensures OwnsSlot(cfg, k, id)
  {
    var m := Slot(k, id);
    assert Counter(l, m) + Base(cfg, m) == Sum(m, l.known, l.procs);
  }

  lemma PickIsFree(cfg: Config, l: Lists, k: Kind, rid: Option<nat>)
    requires ListInv(cfg, l) && IsSdma(k) && FreeSlots(l, k) != {}
    ensures PickSlot(cfg, FreeSlots(l, k), k, rid) in FreeSlots(l, k) <==> (rid.Some? ==> rid.value in FreeSlots(l, k))
  {
    hide ListInv, FindFirst;
    var x :| x in FreeSlots(l, k);
    FreeIsOwned(cfg, l, k, x);
  }

  /** Taking a slot: it was free, and only that slot changes hands. */
  lemma AllocSdmaTakes(cfg: Config, l: Lists, q: Queue, rid: Option<nat>)
    requires ListInv(cfg, l)
    ensures var a := AllocSdma(cfg, l, q, rid);
      && a.q == q.(sdmaId := a.q.sdmaId)
      && (a.ret != Ok ==> a.lists == l && a.q == q)
      && (a.ret == Ok && IsSdma(q.kind) ==>
           && a.q.sdmaId in FreeSlots(l, q.kind)
           && a.lists == SetFree(l, q.kind, FreeSlots(l, q.kind) - {a.q.sdmaId}))
      && (!IsSdma(q.kind) ==> a.lists == l)
  {
    hide ListInv, SetFree, FreeSlots, PickSlot;
    if IsSdma(q.kind) && FreeSlots(l, q.kind) != {} {
      PickIsFree(cfg, l, q.kind, rid);
    }
  }

  lemma AllocDoorbellTakes(cfg: Config, bits: set<nat>, q: Queue, rid: Option<nat>)
    requires q.kind != Diq
    ensures var d := AllocDoorbell(cfg, bits, q, rid);
      && (d.ret != Ok ==> d.doorbells == bits)
      && (d.ret == Ok && cfg.soc15 && q.kind == Compute ==> d.doorbell !in bits && d.doorbells == bits + {d.doorbell})
      && (!cfg.soc15 || q.kind != Compute ==> d.doorbells == bits)
  {
  }

  // ----- create

  lemma AllocSdmaUndone(cfg: Config, l: Lists, q: Queue, rid: Option<nat>)
    requires ListInv(cfg, l)
    ensures var a := AllocSdma(cfg, l, q, rid);
      a.ret == Ok ==> FreeSdma(cfg, a.lists, a.q) == l
  {
    var a := AllocSdma(cfg, l, q, rid);
    AllocSdmaTakes(cfg, l, q, rid);
    if a.ret == Ok && IsSdma(q.kind) {
      FreeIsOwned(cfg, l, q.kind, a.q.sdmaId);
      var free := FreeSlots(l, q.kind);
      assert (free - {a.q.sdmaId}) + {a.q.sdmaId} == free;
    }
  }

  lemma DoorbellUndone(cfg: Config, l: Lists, p: nat, q: Queue, did: Option<nat>)
    requires p in l.procs && q.kind != Diq
    ensures var d := AllocDoorbell(cfg, l.procs[p].doorbells, q, did);
      d.ret == Ok ==>
        Unreserve(cfg, Put(l, p, l.procs[p].(doorbells := d.doorbells)), p, q.(doorbell := d.doorbell))
          == FreeSdma(cfg, l, q)
  {
    var pr := l.procs[p];
    var d := AllocDoorbell(cfg, pr.doorbells, q, did);
    AllocDoorbellTakes(cfg, pr.doorbells, q, did);
    if d.ret == Ok {
      assert FreeDoorbell(cfg, d.doorbells, q.(doorbell := d.doorbell)) == pr.doorbells;
      PutTwice(l, p, pr.(doorbells := d.doorbells), pr);
      assert l.procs[p := pr] == l.procs;
    }
  }

  /** A reservation that fails, or is undone, leaves the lists as they were. */
  lemma ReserveUndone(cfg: Config, l: Lists, p: nat, q: Queue, qd: Option<Criu>)
    requires ListInv(cfg, l) && p in l.procs && q.kind != Diq
    ensures var a := Reserve(cfg, l, p, q, qd);
      && p in a.lists.procs && Listed(a.lists)
      && (a.ret != Ok ==> a.lists == l)
      && (a.ret == Ok ==> Unreserve(cfg, a.lists, p, a.q) == l)
  {
    hide CountersAgree, ProcInv, Listed, AllocSdma, AllocDoorbell, FreeSdma, Unreserve;
    var rid := if qd.Some? then Some(qd.value.sdmaId) else None;
    var a := AllocSdma(cfg, l, q, rid);
    AllocSdmaTakes(cfg, l, q, rid);
    if a.ret == Ok {
      AllocSdmaUndone(cfg, l, q, rid);
      DoorbellUndone(cfg, a.lists, p, a.q, if qd.Some? then Some(qd.value.doorbell) else None);
      PutListed(l, p, Reserve(cfg, l, p, q, qd).lists);
    }
  }

  lemma PutListed(l: Lists, p: nat, l': Lists)
    requires Listed(l) && p in l.procs && p in l'.procs && l'.procs == l.procs[p := l'.procs[p]]
    requires l'.procs[p].terminated == l.procs[p].terminated
    requires l'.nodes == l.nodes && l'.known == l.known && l'.processes == l.processes
    ensures Listed(l')
  {
  }

  lemma UnlinkUndoesLink(l: Lists, p: nat, q: Queue)
    requires p in l.procs
    ensures Unlink(Link(l, p, q), p, 0) == l
  {
    var pr := l.procs[p];
    assert RemoveAt([q] + pr.queues, 0) == pr.queues;
    PutTwice(l, p, pr.(queues := [q] + pr.queues), pr);
    assert l.procs[p := pr] == l.procs;
  }

  lemma TailLists(cfg: Config, s: State, p: nat, q: Queue, hw: Hw)
    requires Listed(s.lists) && p in s.lists.procs
    ensures var r := CreateTail(cfg, s, p, q, hw);
      && (r.ret != Ok ==> r.s.lists == Unreserve(cfg, s.lists, p, q))
      && (r.ret == Ok ==> r.s.lists == Link(s.lists, p, q).(total := s.lists.total + 1))
  {
    UnlinkUndoesLink(s.lists, p, q);
  }

  lemma UnreserveSame(cfg: Config, l: Lists, p: nat, q: Queue, q1: Queue)
    requires p in l.procs && q1 == q.(evicted := q1.evicted, active := q1.active)
    ensures Unreserve(cfg, l, p, q1) == Unreserve(cfg, l, p, q)
  {
  }

  /**
    All or nothing: whichever of the five ways a create fails, the SDMA slots, the
    doorbells, the lists and the counters end as they began.
   */
  lemma CreateAllOrNothing(cfg: Config, s: State, p: nat, q: Queue, qd: Option<Criu>, mqdOk: bool, hw: Hw)
    requires ListInv(cfg, s.lists) && p in s.lists.procs && q.kind != Diq
    requires Create(cfg, s, p, q, qd, mqdOk, hw).ret != Ok
    ensures Create(cfg, s, p, q, qd, mqdOk, hw).s.lists == s.lists
  {
    hide Reserve, Unreserve, CreateTail, CountersAgree, ProcInv;
    var a := Reserve(cfg, s.lists, p, q, qd);
    ReserveUndone(cfg, s.lists, p, q, qd);
    if a.ret == Ok && s.lists.total < cfg.maxQueues && mqdOk {
      var q1 := InitQueue(s.lists.procs[p], a.q, qd.Some?);
      TailLists(cfg, s.(lists := a.lists), p, q1, hw);
      UnreserveSame(cfg, a.lists, p, a.q, q1);
    }
  }

  lemma {:induction false} NobodyNamed(qs: seq<Queue>, id: nat)
    requires forall x <- qs :: x.id != id
    ensures SumQ(Named(id), qs) == 0
  {
    if qs != [] {
      NobodyNamed(qs[..|qs| - 1], id);
    }
  }

  /** Only the taken slot's counter moves. */
  lemma AllocSdmaCounts(cfg: Config, l: Lists, q: Queue, rid: Option<nat>)
    requires ListInv(cfg, l)
    requires AllocSdma(cfg, l, q, rid).ret == Ok
    ensures var a := AllocSdma(cfg, l, q, rid);
      && a.q == q.(sdmaId := a.q.sdmaId)
      && a.lists == l.(sdmaFree := a.lists.sdmaFree, xgmiFree := a.lists.xgmiFree)
      && (forall m: Metric | m.Slot? && IsSdma(m.kind) :: Counter(a.lists, m) - Counter(l, m) == Weight(m, a.q))
  {
    AllocSdmaTakes(cfg, l, q, rid);
    hide AllocSdma, ListInv;
  }

  /** Only the taken doorbell's bit moves. */
  lemma AllocDoorbellBits(cfg: Config, bits: set<nat>, q: Queue, did: Option<nat>)
    requires q.kind != Diq && cfg.soc15
    requires AllocDoorbell(cfg, bits, q, did).ret == Ok
    ensures var d := AllocDoorbell(cfg, bits, q, did);
      forall x: nat :: (if x in d.doorbells then 1 else 0) - (if x in bits then 1 else 0)
        == Weight(Doorbell(x), q.(doorbell := d.doorbell))
  {
    AllocDoorbellTakes(cfg, bits, q, did);
    hide AllocDoorbell;
  }

  /** A successful reservation is a slot followed by a doorbell. */
  lemma ReserveIs(cfg: Config, l: Lists, p: nat, q: Queue, qd: Option<Criu>)
    requires p in l.procs && Reserve(cfg, l, p, q, qd).ret == Ok
    ensures var sa := AllocSdma(cfg, l, q, if qd.Some? then Some(qd.value.sdmaId) else None);
      var d := AllocDoorbell(cfg, l.procs[p].doorbells, sa.q, if qd.Some? then Some(qd.value.doorbell) else None);
      && sa.ret == Ok && d.ret == Ok
      && Reserve(cfg, l, p, q, qd)
         == Alloc(Put(sa.lists, p, l.procs[p].(doorbells := d.doorbells)), sa.q.(doorbell := d.doorbell), Ok)
  {
  }

  /** What a successful reservation changed. */
  lemma ReserveTakes(cfg: Config, l: Lists, p: nat, q: Queue, qd: Option<Criu>)
    requires ListInv(cfg, l) && p in l.procs && q.kind != Diq
    requires Reserve(cfg, l, p, q, qd).ret == Ok
    ensures var a := Reserve(cfg, l, p, q, qd);
      && a.q == q.(sdmaId := a.q.sdmaId, doorbell := a.q.doorbell)
      && p in a.lists.procs
      && a.lists.procs == l.procs[p := l.procs[p].(doorbells := a.lists.procs[p].doorbells)]
      && a.lists == l.(procs := a.lists.procs, sdmaFree := a.lists.sdmaFree, xgmiFree := a.lists.xgmiFree)
      && (forall m: Metric | m.Slot? && IsSdma(m.kind) :: Counter(a.lists, m) - Counter(l, m) == Weight(m, a.q))
      && (cfg.soc15 ==> forall d: nat ::
            (if d in a.lists.procs[p].doorbells then 1 else 0) - (if d in l.procs[p].doorbells then 1 else 0)
              == Weight(Doorbell(d), a.q))
  {
    hide Reserve, AllocSdma, AllocDoorbell, ListInv;
    var sa := AllocSdma(cfg, l, q, if qd.Some? then Some(qd.value.sdmaId) else None);
    var did := if qd.Some? then Some(qd.value.doorbell) else None;
    var d := AllocDoorbell(cfg, l.procs[p].doorbells, sa.q, did);
    ReserveIs(cfg, l, p, q, qd);
    AllocSdmaCounts(cfg, l, q, if qd.Some? then Some(qd.value.sdmaId) else None);
    var a := Reserve(cfg, l, p, q, qd);
    forall m: Metric | m.Slot? && IsSdma(m.kind) ensures Counter(a.lists, m) - Counter(l, m) == Weight(m, a.q) {
      assert Weight(m, a.q) == Weight(m, sa.q);
      assert Counter(a.lists, m) == Counter(sa.lists, m);
    }
    if cfg.soc15 {
      AllocDoorbellBits(cfg, l.procs[p].doorbells, sa.q, did);
    }
  }

  lemma CreateNames(cfg: Config, l: Lists, p: nat, q: Queue, q1: Queue)
    requires ListInv(cfg, l) && Alive(l, p) && FreshQueue(l, p, q) && q1.id == q.id
    ensures forall id: nat ::
      SumQ(Named(id), [q1] + l.procs[p].queues) + SumQ(Named(id), l.procs[p].kernelQueues) <= 1
  {
    hide ListInv;
    forall id: nat
      ensures SumQ(Named(id), [q1] + l.procs[p].queues) + SumQ(Named(id), l.procs[p].kernelQueues) <= 1
    {
      FreshName(cfg, l, p, q, id);
      SumQCons(Named(id), q1, l.procs[p].queues);
    }
  }

  lemma CreateProcInv(cfg: Config, l: Lists, p: nat, q: Queue, qd: Option<Criu>)
    requires ListInv(cfg, l) && Alive(l, p) && l.procs[p].vmAcquired
    requires q.kind != Diq && FreshQueue(l, p, q)
    requires Reserve(cfg, l, p, q, qd).ret == Ok
    ensures var a := Reserve(cfg, l, p, q, qd);
      var q1 := InitQueue(l.procs[p], a.q, qd.Some?);
      ProcInv(cfg, Link(a.lists, p, q1).procs[p]) && !Link(a.lists, p, q1).procs[p].terminated
  {
    hide Reserve, CountersAgree;
    var a := Reserve(cfg, l, p, q, qd);
    ReserveTakes(cfg, l, p, q, qd);
    var old_ := l.procs[p];
    var q1 := InitQueue(old_, a.q, qd.Some?);
    var new_ := Link(a.lists, p, q1).procs[p];
    assert ProcInv(cfg, old_);
    assert new_ == a.lists.procs[p].(queues := [q1] + old_.queues);
    CreateNames(cfg, l, p, q, q1);
    forall d: nat | cfg.soc15 ensures DoorbellInv(cfg, new_, d) {
      assert DoorbellInv(cfg, old_, d);
      SumQCons(Doorbell(d), q1, old_.queues);
      assert Weight(Doorbell(d), q1) == Weight(Doorbell(d), a.q);
    }
  }

  lemma CreateCounts(cfg: Config, l: Lists, p: nat, q: Queue, qd: Option<Criu>, m: Metric)
    requires ListInv(cfg, l) && p in l.procs && q.kind != Diq && Counted(m)
    requires Reserve(cfg, l, p, q, qd).ret == Ok
    ensures var a := Reserve(cfg, l, p, q, qd);
      var l1 := Link(a.lists, p, InitQueue(l.procs[p], a.q, qd.Some?));
      Counter(l1.(total := l1.total + 1), m) - Counter(l, m) == SumP(m, l1.procs[p]) - SumP(m, l.procs[p])
  {
    hide Reserve, ListInv, SumQ;
    var a := Reserve(cfg, l, p, q, qd);
    ReserveTakes(cfg, l, p, q, qd);
    var q1 := InitQueue(l.procs[p], a.q, qd.Some?);
    SumQCons(m, q1, l.procs[p].queues);
    if m.Slot? {
      assert Weight(m, q1) == Weight(m, a.q);
    }
  }

  lemma CreateBalanced(cfg: Config, l: Lists, p: nat, q: Queue, qd: Option<Criu>)
    requires ListInv(cfg, l) && p in l.procs && q.kind != Diq
    requires Reserve(cfg, l, p, q, qd).ret == Ok
    ensures var a := Reserve(cfg, l, p, q, qd);
      var l1 := Link(a.lists, p, InitQueue(l.procs[p], a.q, qd.Some?));
      Balanced(l, p, l1.(total := l1.total + 1))
  {
    hide Reserve, ListInv, SumP, Counter;
    var a := Reserve(cfg, l, p, q, qd);
    ReserveTakes(cfg, l, p, q, qd);
    var l1 := Link(a.lists, p, InitQueue(l.procs[p], a.q, qd.Some?));
    var l' := l1.(total := l1.total + 1);
    PutTwice(l, p, a.lists.procs[p], l'.procs[p]);
    forall m | Counted(m)
      ensures Counter(l', m) - Counter(l, m) == SumP(m, l'.procs[p]) - SumP(m, l.procs[p])
    {
      CreateCounts(cfg, l, p, q, qd, m);
    }
  }

  lemma CreateKeeps(cfg: Config, l: Lists, p: nat, q: Queue, qd: Option<Criu>)
    requires ListInv(cfg, l) && Alive(l, p) && l.procs[p].vmAcquired
    requires q.kind != Diq && FreshQueue(l, p, q)
    requires Reserve(cfg, l, p, q, qd).ret == Ok
    ensures var a := Reserve(cfg, l, p, q, qd);
      var l1 := Link(a.lists, p, InitQueue(l.procs[p], a.q, qd.Some?));
      ListInv(cfg, l1.(total := l1.total + 1))
  {
    hide ListInv, ProcInv, Balanced;
    var a := Reserve(cfg, l, p, q, qd);
    var l1 := Link(a.lists, p, InitQueue(l.procs[p], a.q, qd.Some?));
    CreateBalanced(cfg, l, p, q, qd);
    CreateProcInv(cfg, l, p, q, qd);
    ListedChange(cfg, l, p, l1.(total := l1.total + 1));
  }

  // ----- destroy

  lemma FreeSdmaCounts(cfg: Config, l: Lists, q: Queue)
    requires q.kind != Diq
    requires IsSdma(q.kind) ==> q.sdmaId !in FreeSlots(l, q.kind) && OwnsSlot(cfg, q.kind, q.sdmaId)
    ensures var u := FreeSdma(cfg, l, q);
      && u == l.(sdmaFree := u.sdmaFree, xgmiFree := u.xgmiFree)
      && (forall m: Metric | m.Slot? && IsSdma(m.kind) :: Counter(l, m) - Counter(u, m) == Weight(m, q))
  {
  }

  lemma FreeDoorbellBits(cfg: Config, pr: Proc, i: nat)
    requires ProcInv(cfg, pr) && !pr.terminated && i < |pr.queues| && cfg.soc15
    ensures var q := pr.queues[i];
      forall d: nat ::
        (if d in pr.doorbells then 1 else 0) - (if d in FreeDoorbell(cfg, pr.doorbells, q) then 1 else 0)
          == Weight(Doorbell(d), q)
  {
    var q := pr.queues[i];
    assert QueueInv(pr.evicted, q);
    if !IsSdma(q.kind) {
      assert DoorbellInv(cfg, pr, q.doorbell);
      SumQSplit(Doorbell(q.doorbell), pr.queues, i);
    }
  }

  lemma UnreserveGives(cfg: Config, l: Lists, p: nat, i: nat)
    requires ListInv(cfg, l) && HasQueue(l, p, i)
    ensures var q := l.procs[p].queues[i];
      var u := Unreserve(cfg, l, p, q);
      && p in u.procs
      && u.procs == l.procs[p := l.procs[p].(doorbells := u.procs[p].doorbells)]
      && u == l.(procs := u.procs, sdmaFree := u.sdmaFree, xgmiFree := u.xgmiFree)
      && (forall m: Metric | m.Slot? && IsSdma(m.kind) :: Counter(l, m) - Counter(u, m) == Weight(m, q))
      && (cfg.soc15 ==> forall d: nat ::
            (if d in l.procs[p].doorbells then 1 else 0) - (if d in u.procs[p].doorbells then 1 else 0)
              == Weight(Doorbell(d), q))
  {
    hide FreeSdma, FreeDoorbell, CountersAgree, Weight;
    var pr := l.procs[p];
    var q := pr.queues[i];
    assert ProcInv(cfg, pr) && QueueInv(pr.evicted, q);
    if IsSdma(q.kind) {
      SlotHeld(cfg, l, p, i);
    }
    if cfg.soc15 {
      FreeDoorbellBits(cfg, pr, i);
    }
    var l1 := Put(l, p, pr.(doorbells := FreeDoorbell(cfg, pr.doorbells, q)));
    assert forall m: Metric | m.Slot? :: Counter(l1, m) == Counter(l, m);
    FreeSdmaCounts(cfg, l1, q);
  }

  lemma DestroyProcInv(cfg: Config, l: Lists, p: nat, i: nat)
    requires ListInv(cfg, l) && HasQueue(l, p, i)
    ensures ProcInv(cfg, DestroyLists(cfg, l, p, i).procs[p])
  {
    var old_, new_ := l.procs[p], DestroyLists(cfg, l, p, i).procs[p];
    UnreserveGives(cfg, l, p, i);
    assert ProcInv(cfg, old_);
    assert new_.queues == RemoveAt(old_.queues, i);
    assert forall x <- new_.queues :: x in old_.queues;
    forall id: nat ensures SumP(Named(id), new_) <= 1 {
      assert SumP(Named(id), old_) <= 1;
      SumQRemove(Named(id), old_.queues, i);
    }
    forall d: nat | cfg.soc15 ensures DoorbellInv(cfg, new_, d) {
      assert DoorbellInv(cfg, old_, d);
      SumQRemove(Doorbell(d), old_.queues, i);
    }
  }

  lemma DestroyKeeps(cfg: Config, l: Lists, p: nat, i: nat)
    requires ListInv(cfg, l) && HasQueue(l, p, i)
    ensures ListInv(cfg, DestroyLists(cfg, l, p, i))
  {
    hide CountersAgree, ProcInv, SumQ;
    var l' := DestroyLists(cfg, l, p, i);
    var u := Unreserve(cfg, l, p, l.procs[p].queues[i]);
    var old_, new_ := l.procs[p], l'.procs[p];
    UnreserveGives(cfg, l, p, i);
    DestroyProcInv(cfg, l, p, i);
    PutTwice(l, p, u.procs[p], new_);
    forall m | Counted(m)
      ensures Counter(l', m) - Counter(l, m) == SumP(m, new_) - SumP(m, old_)
    {
      SumQRemove(m, old_.queues, i);
      if m.Slot? {
        assert Counter(l', m) == Counter(u, m);
      }
    }
    ListedChange(cfg, l, p, l');
  }

  // ----- kernel queues

  lemma KernelProcInv(cfg: Config, pr: Proc, kq: seq<Queue>, isDebug: bool)
    requires ProcInv(cfg, pr) && !pr.terminated && forall q <- kq :: KernelQueueInv(q)
    requires forall id: nat :: SumQ(Named(id), pr.queues) + SumQ(Named(id), kq) <= 1
    ensures ProcInv(cfg, pr.(kernelQueues := kq, isDebug := isDebug))
  {
    hide SumQ;
    forall d: nat | cfg.soc15 ensures DoorbellInv(cfg, pr.(kernelQueues := kq, isDebug := isDebug), d) {
      assert DoorbellInv(cfg, pr, d);
    }
  }

  lemma KernelChange(cfg: Config, l: Lists, p: nat, kq: seq<Queue>, isDebug: bool, t: Tally, total: int)
    requires ListInv(cfg, l) && Alive(l, p)
    requires forall q <- kq :: KernelQueueInv(q)
    requires forall m | Activity(m) ::
      TallyAt(t, m) - TallyAt(l.tally, m) == SumQ(m, kq) - SumQ(m, l.procs[p].kernelQueues)
    requires total - l.total == SumQ(Any, kq) - SumQ(Any, l.procs[p].kernelQueues)
    requires forall id: nat :: SumQ(Named(id), l.procs[p].queues) + SumQ(Named(id), kq) <= 1
    ensures ListInv(cfg, Put(l, p, l.procs[p].(kernelQueues := kq, isDebug := isDebug)).(tally := t, total := total))
  {
    hide SumQ;
    var old_ := l.procs[p];
    var new_ := old_.(kernelQueues := kq, isDebug := isDebug);
    var l' := Put(l, p, new_).(tally := t, total := total);
    assert ProcInv(cfg, old_);
    forall m | Counted(m)
      ensures Counter(l', m) - Counter(l, m) == SumP(m, new_) - SumP(m, old_)
    {
      if Activity(m) {
        assert TallyAt(t, m) - TallyAt(l.tally, m) == SumQ(m, kq) - SumQ(m, old_.kernelQueues);
      } else if m.Slot? {
        NoSlots(kq, m);
        NoSlots(old_.kernelQueues, m);
      }
    }
    KernelProcInv(cfg, old_, kq, isDebug);
    ListedChange(cfg, l, p, l');
  }

  lemma {:induction false} NoSlots(qs: seq<Queue>, m: Metric)
    requires forall q <- qs :: KernelQueueInv(q)
    requires m.Slot? && IsSdma(m.kind)
    ensures SumQ(m, qs) == 0
  {
    if qs != [] {
      assert KernelQueueInv(qs[|qs| - 1]);
      NoSlots(qs[..|qs| - 1], m);
    }
  }

  lemma FreshName(cfg: Config, l: Lists, p: nat, q: Queue, id: nat)
    requires ListInv(cfg, l) && p in l.procs && FreshQueue(l, p, q)
    ensures SumP(Named(id), l.procs[p]) + Weight(Named(id), q) <= 1
  {
    assert ProcInv(cfg, l.procs[p]);
    assert SumP(Named(id), l.procs[p]) <= 1;
    if id == q.id {
      NobodyNamed(l.procs[p].queues, id);
      NobodyNamed(l.procs[p].kernelQueues, id);
    }
  }

  lemma IncIsWeight(t: Tally, q: Queue, m: Metric)
    requires q.active && Activity(m)
    ensures TallyAt(Inc(t, q), m) == TallyAt(t, m) + Weight(m, q)
    ensures TallyAt(Dec(t, q), m) == TallyAt(t, m) - Weight(m, q)
  {
  }

  lemma KernelAdded(cfg: Config, pr: Proc, q: Queue)
    requires ProcInv(cfg, pr) && q.kind == Diq && q.active && !q.isGws
    ensures forall x <- [q] + pr.kernelQueues :: KernelQueueInv(x)
  {
  }

  lemma LinkKernelKeeps(cfg: Config, l: Lists, p: nat, q: Queue)
    requires ListInv(cfg, l) && Alive(l, p)
    requires q.kind == Diq && q.active && FreshQueue(l, p, q)
    ensures ListInv(cfg, LinkKernel(l, p, q))
  {
    hide CountersAgree, ProcInv, SumQ;
    var pr := l.procs[p];
    var kq := [q] + pr.kernelQueues;
    var t := Inc(l.tally, q);
    KernelAdded(cfg, pr, q);
    SumQCons(Any, q, pr.kernelQueues);
    forall m | Activity(m)
      ensures TallyAt(t, m) - TallyAt(l.tally, m) == SumQ(m, kq) - SumQ(m, pr.kernelQueues)
    {
      SumQCons(m, q, pr.kernelQueues);
      IncIsWeight(l.tally, q, m);
    }
    forall id: nat ensures SumQ(Named(id), pr.queues) + SumQ(Named(id), kq) <= 1 {
      FreshName(cfg, l, p, q, id);
      SumQCons(Named(id), q, pr.kernelQueues);
    }
    KernelChange(cfg, l, p, kq, true, t, l.total + 1);
  }

  lemma KernelMembers(cfg: Config, pr: Proc, i: nat)
    requires ProcInv(cfg, pr) && i < |pr.kernelQueues|
    ensures KernelQueueInv(pr.kernelQueues[i])
    ensures forall x <- RemoveAt(pr.kernelQueues, i) :: KernelQueueInv(x)
    ensures forall id: nat :: SumP(Named(id), pr) <= 1
  {
    assert forall x <- RemoveAt(pr.kernelQueues, i) :: x in pr.kernelQueues;
  }

  lemma UnlinkKernelKeeps(cfg: Config, l: Lists, p: nat, i: nat)
    requires ListInv(cfg, l) && Alive(l, p) && i < |l.procs[p].kernelQueues|
    ensures ListInv(cfg, UnlinkKernel(l, p, i))
  {
    hide CountersAgree, ProcInv, SumQ, RemoveAt;
    var pr := l.procs[p];
    KernelMembers(cfg, pr, i);
    var q := pr.kernelQueues[i];
    var kq := RemoveAt(pr.kernelQueues, i);
    var t := Dec(l.tally, q);
    SumQRemove(Any, pr.kernelQueues, i);
    forall m | Activity(m)
      ensures TallyAt(t, m) - TallyAt(l.tally, m) == SumQ(m, kq) - SumQ(m, pr.kernelQueues)
    {
      SumQRemove(m, pr.kernelQueues, i);
      IncIsWeight(l.tally, q, m);
    }
    forall id: nat ensures SumQ(Named(id), pr.queues) + SumQ(Named(id), kq) <= 1 {
      assert SumP(Named(id), pr) <= 1;
      SumQRemove(Named(id), pr.kernelQueues, i);
    }
    KernelChange(cfg, l, p, kq, false, t, l.total - 1);
  }

  // ----- termination

  lemma {:induction false} TerminateKernelCounts(t: Tally, qs: seq<Queue>, m: Metric)
    requires forall q <- qs :: KernelQueueInv(q)
    requires Activity(m)
    ensures TallyAt(TerminateKernel(t, qs), m) == TallyAt(t, m) - SumQ(m, qs)
  {
    if qs != [] {
      assert KernelQueueInv(qs[|qs| - 1]);
      TerminateKernelCounts(t, qs[..|qs| - 1], m);
    }
  }

  /** No slot is used twice in the list, every used slot is ours and none of them is free. */
  ghost predicate SlotsTaken(cfg: Config, l: Lists, qs: seq<Queue>) {
    forall m: Metric | m.Slot? && IsSdma(m.kind) ::
      && SumQ(m, qs) <= 1
      && (SumQ(m, qs) == 1 ==> m.id !in FreeSlots(l, m.kind) && m.id < cfg.Slots(m.kind))
  }

  lemma FewerTaken(cfg: Config, l: Lists, qs: seq<Queue>)
    requires SlotsTaken(cfg, l, qs) && qs != []
    ensures SlotsTaken(cfg, l, qs[..|qs| - 1])
  {
    assert forall k: Metric :: SumQ(k, qs) == SumQ(k, qs[..|qs| - 1]) + Weight(k, qs[|qs| - 1]);
  }

  lemma LastTaken(cfg: Config, l: Lists, qs: seq<Queue>, m: Metric)
    requires SlotsTaken(cfg, l, qs) && qs != [] && m.Slot? && IsSdma(m.kind) && Weight(m, qs[|qs| - 1]) == 1
    ensures m.id < cfg.Slots(m.kind) && Counter(l, m) - SumQ(m, qs[..|qs| - 1]) == 0
  {
  }

  lemma {:induction false} TerminateUserCounts(cfg: Config, l: Lists, qs: seq<Queue>, m: Metric)
    requires Counted(m) && SlotsTaken(cfg, l, qs)
    ensures Counter(TerminateUser(cfg, l, qs), m) == Counter(l, m) - SumQ(m, qs)
  {
    if qs != [] {
      var n := |qs| - 1;
      var q := qs[n];
      FewerTaken(cfg, l, qs);
      hide SlotsTaken;
      TerminateUserCounts(cfg, l, qs[..n], m);
      var pre := TerminateUser(cfg, l, qs[..n]);
      if m.Slot? && Weight(m, q) == 1 {
        LastTaken(cfg, l, qs, m);
      }
    }
  }

  lemma {:induction false} SumTail(m: Metric, qs: seq<Queue>)
    requires qs != []
    ensures SumQ(m, qs) == Weight(m, qs[0]) + SumQ(m, qs[1..])
  {
    assert qs == [qs[0]] + qs[1..];
    SumQCons(m, qs[0], qs[1..]);
  }

  lemma ListSlotsTaken(cfg: Config, l: Lists, p: nat)
    requires ListInv(cfg, l) && Alive(l, p)
    ensures SlotsTaken(cfg, l, l.procs[p].queues)
  {
    var pr := l.procs[p];
    forall m: Metric | m.Slot? && IsSdma(m.kind)
      ensures SumQ(m, pr.queues) <= 1
      ensures SumQ(m, pr.queues) == 1 ==> m.id !in FreeSlots(l, m.kind) && m.id < cfg.Slots(m.kind)
    {
      SumAtLeast(m, l.known, l.procs, p);
      assert Counter(l, m) + Base(cfg, m) == Sum(m, l.known, l.procs);
    }
  }

  lemma DistinctRemove(nodes: seq<nat>, i: nat)
    requires Distinct(nodes) && i < |nodes|
    ensures Distinct(RemoveAt(nodes, i)) && nodes[i] !in RemoveAt(nodes, i)
    ensures forall n <- RemoveAt(nodes, i) :: n in nodes
    ensures forall n <- nodes :: n != nodes[i] ==> n in RemoveAt(nodes, i)
  {
    var r := RemoveAt(nodes, i);
    forall n | n in nodes && n != nodes[i] ensures n in r {
      var j :| 0 <= j < |nodes| && nodes[j] == n;
      assert r[if j < i then j else j - 1] == n;
    }
  }

  lemma DetachCounts(cfg: Config, l: Lists, p: nat, m: Metric)
    requires ListInv(cfg, l) && Alive(l, p) && Counted(m)
    ensures Counter(DetachKernel(l, p), m) == Counter(l, m) - SumQ(m, l.procs[p].kernelQueues)
  {
    var kq := l.procs[p].kernelQueues;
    assert forall q <- kq :: KernelQueueInv(q) by { assert ProcInv(cfg, l.procs[p]); }
    if Activity(m) {
      TerminateKernelCounts(l.tally, kq, m);
    } else if m.Slot? {
      NoSlots(kq, m);
    } else {
      AnyIsLength(kq);
    }
  }

  /** Counters after both loops of process_termination_cpsch. */
  lemma TerminateCounts(cfg: Config, l: Lists, p: nat, m: Metric)
    requires ListInv(cfg, l) && Alive(l, p) && Counted(m)
    ensures Counter(TerminateLists(cfg, l, p), m) == Counter(l, m) - SumP(m, l.procs[p])
  {
    var qs := l.procs[p].queues;
    DetachCounts(cfg, l, p, m);
    assert SlotsTaken(cfg, DetachKernel(l, p), qs) by { ListSlotsTaken(cfg, l, p); }
    TerminateUserCounts(cfg, DetachKernel(l, p), qs, m);
    assert Counter(TerminateLists(cfg, l, p), m) == Counter(TerminateUser(cfg, DetachKernel(l, p), qs), m);
  }

  lemma {:induction false} AnyIsLength(qs: seq<Queue>)
    ensures SumQ(Any, qs) == |qs|
  {
    if qs != [] {
      AnyIsLength(qs[..|qs| - 1]);
    }
  }

  lemma TerminateListed(cfg: Config, l: Lists, p: nat)
    requires Listed(l) && Alive(l, p)
    ensures Listed(TerminateLists(cfg, l, p))
  {
    hide TerminateLists, Without;
    TerminateKeepsKeys(cfg, l, p);
    TerminateShape(cfg, l, p);
    WithoutDistinct(l.known, p);
    WithoutSubset(l.nodes, p);
  }

  lemma TerminateSum(cfg: Config, l: Lists, p: nat, m: Metric)
    requires Listed(l) && Alive(l, p)
    ensures var l' := TerminateLists(cfg, l, p);
      Listed(l') && Sum(m, l'.known, l'.procs) == Sum(m, l.known, l.procs) - SumP(m, l.procs[p])
  {
    hide TerminateLists, SumP, Sum, Without;
    var l' := TerminateLists(cfg, l, p);
    TerminateListed(cfg, l, p);
    TerminateKeepsKeys(cfg, l, p);
    WithoutDistinct(l.known, p);
    SumUnlink(m, l.known, l.procs, IndexOf(l.known, p));
    SumFrame(m, l'.known, l.procs, p, l'.procs[p]);
  }

  lemma TerminateAgrees(cfg: Config, l: Lists, p: nat)
    requires ListInv(cfg, l) && Alive(l, p)
    ensures var l' := TerminateLists(cfg, l, p);
      Listed(l') && CountersAgree(cfg, l')
  {
    hide TerminateLists, ProcInv, SumP, Sum, Counter, Base, Counted;
    var l' := TerminateLists(cfg, l, p);
    TerminateListed(cfg, l, p);
    forall m | Counted(m) ensures Counter(l', m) + Base(cfg, m) == Sum(m, l'.known, l'.procs) {
      TerminateCounts(cfg, l, p, m);
      TerminateSum(cfg, l, p, m);
    }
  }

  lemma TerminateKeeps(cfg: Config, l: Lists, p: nat)
    requires ListInv(cfg, l) && Alive(l, p)
    ensures ListInv(cfg, TerminateLists(cfg, l, p))
  {
    hide TerminateLists, ProcInv, CountersAgree, Listed;
    var l' := TerminateLists(cfg, l, p);
    TerminateAgrees(cfg, l, p);
    ListedNodes(l);
    TerminateKeepsKeys(cfg, l, p);
    TerminateShape(cfg, l, p);
    forall n | n in l'.procs ensures ProcInv(cfg, l'.procs[n]) {
      assert ProcInv(cfg, l.procs[n]);
      if n == p {
        TerminatedProcInv(cfg, l.procs[p], l'.procs[p]);
      }
    }
  }

  lemma ListedNodes(l: Lists)
    requires Listed(l)
    ensures forall n <- l.nodes :: n in l.procs
    ensures forall n <- l.known :: n in l.procs
  {
  }

  lemma WithoutDistinct(s: seq<nat>, p: nat)
    requires Distinct(s) && p in s
    ensures Distinct(Without(s, p)) && p !in Without(s, p)
    ensures forall n <- Without(s, p) :: n in s
    ensures forall n <- s :: n != p ==> n in Without(s, p)
    ensures Without(s, p) == RemoveAt(s, IndexOf(s, p))
  {
    DistinctRemove(s, IndexOf(s, p));
  }

  lemma WithoutSubset(s: seq<nat>, p: nat)
    ensures |Without(s, p)| == |s| - (if p in s then 1 else 0)
    ensures forall n <- Without(s, p) :: n in s
  {
  }

  lemma TerminateShape(cfg: Config, l: Lists, p: nat)
    requires p in l.procs && forall n <- l.nodes :: n in l.procs
    ensures var l' := TerminateLists(cfg, l, p);
      && p in l'.procs
      && l'.procs[p] == l.procs[p].(kernelQueues := [], isDebug := l'.procs[p].isDebug, terminated := true)
      && l'.processes == l.processes - (if p in l.nodes then 1 else 0)
  {
    TerminateUserFrame(cfg, DetachKernel(l, p), l.procs[p].queues);
  }

  lemma TerminatedProcInv(cfg: Config, pr: Proc, x: Proc)
    requires ProcInv(cfg, pr)
    requires x == pr.(kernelQueues := [], isDebug := x.isDebug, terminated := true)
    ensures ProcInv(cfg, x)
  {
    forall id: nat ensures SumP(Named(id), x) <= 1 {
      assert SumP(Named(id), pr) <= 1;
    }
  }

  lemma DrainKeeps(cfg: Config, l: Lists, p: nat)
    requires ListInv(cfg, l) && p in l.procs && l.procs[p].terminated && l.procs[p].queues != []
    ensures ListInv(cfg, Put(l, p, l.procs[p].(queues := l.procs[p].queues[1..])))
  {
    var pr := l.procs[p];
    var x := pr.(queues := pr.queues[1..]);
    assert ProcInv(cfg, pr);
    forall id: nat ensures SumP(Named(id), x) <= 1 {
      assert SumP(Named(id), pr) <= 1;
      SumTail(Named(id), pr.queues);
    }
    assert ProcInv(cfg, x);
    UnlistedChange(cfg, l, p, Put(l, p, x));
  }

  // ----- processes

  lemma AddProcessKeeps(cfg: Config, l: Lists, p: nat)
    requires ListInv(cfg, l) && p !in l.procs
    ensures ListInv(cfg, AddProcess(cfg, l, p))
  {
    hide ProcInv, SumP;
    var l' := AddProcess(cfg, l, p);
    var x := l'.procs[p];
    FreshProcInv(cfg);
    forall m | Counted(m)
      ensures Counter(l', m) + Base(cfg, m) == Sum(m, l'.known, l'.procs)
    {
      assert l'.known[0] == p && l'.known[1..] == l.known;
      FreshSums(m, x);
      SumFrame(m, l.known, l.procs, p, x);
      assert Counter(l, m) + Base(cfg, m) == Sum(m, l.known, l.procs);
      assert Counter(l', m) == Counter(l, m);
    }
    forall n | n in l'.procs ensures ProcInv(cfg, l'.procs[n]) {
      assert n != p ==> n in l.procs && l'.procs[n] == l.procs[n];
    }
    assert p !in l.known && p !in l.nodes;
    assert Listed(l');
  }

  lemma FreshSums(m: Metric, pr: Proc)
    requires NoQueues(pr)
    ensures SumP(m, pr) == 0
  {
  }

  lemma FreshProcInv(cfg: Config)
    ensures ProcInv(cfg, FreshProc.(doorbells := cfg.reservedDoorbells))
  {
    var x := FreshProc.(doorbells := cfg.reservedDoorbells);
    assert forall d: nat :: DoorbellInv(cfg, x, d);
    assert forall id: nat :: SumP(Named(id), x) == 0;
  }

  /** The device's list of processes plays no part in the counters. */
  lemma NodesKeep(cfg: Config, l: Lists, nodes: seq<nat>)
    requires ListInv(cfg, l) && forall n <- nodes :: n in l.procs
    ensures ListInv(cfg, l.(nodes := nodes, processes := |nodes|))
  {
    hide ProcInv;
    var l' := l.(nodes := nodes, processes := |nodes|);
    forall m | Counted(m)
      ensures Counter(l', m) + Base(cfg, m) == Sum(m, l'.known, l'.procs)
    {
      assert Counter(l, m) + Base(cfg, m) == Sum(m, l.known, l.procs);
    }
  }
}

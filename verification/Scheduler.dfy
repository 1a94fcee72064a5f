/**
  The hardware-scheduler device queue manager (HWS, no MES) as a state machine.
  Each function is one section of the driver that runs under the dqm lock, written
  as a function from state to state; hardware outcomes are inputs.
 */
module Scheduler {
  import opened Basics
  import opened Queues
  import opened RunlistIb

  const MAX_DOORBELLS := 1024
  const DOORBELL_MIRROR_OFFSET := 512

  /** What is fixed when the device is initialised. */
  datatype Config = Config(
    layout: Layout,
    pcieEngines: nat, xgmiEngines: nat, queuesPerEngine: nat,
    reservedSdma: set<nat>,
    soc15: bool,
    sdmaDoorbellIdx: seq<nat>,
    reservedDoorbells: set<nat>,
    maxQueues: nat)
  {
    ghost predicate Valid() { layout.Valid() && |sdmaDoorbellIdx| == pcieEngines + xgmiEngines }

    function Engines(k: Kind): nat { if k == Sdma then pcieEngines else xgmiEngines }

    /** get_num_sdma_queues and get_num_xgmi_sdma_queues. */
    function Slots(k: Kind): nat { Engines(k) * queuesPerEngine }
  }

  /**
    The lists and the counters that summarise them. `known` is the table of live
    processes; `nodes` the device's own list, where a process may be missing or, if it
    was registered twice, listed twice.
   */
  datatype Lists = Lists(
    known: seq<nat>,
    nodes: seq<nat>,
    procs: map<nat, Proc>,
    processes: int,
    tally: Tally,
    total: int,
    sdmaFree: set<nat>,
    xgmiFree: set<nat>)

  /**
    Scheduler status and the packet manager's buffer. `live` holds the buffers not yet
    freed, `warned` whether a runlist was ever built over a buffer still allocated.
   */
  datatype Sched = Sched(
    running: bool, hang: bool, resetting: bool,
    activeRunlist: bool,
    ibAllocated: bool, ib: nat,
    live: set<nat>, nextIb: nat,
    runlist: seq<Packet>,
    warned: bool,
    trapVmid: bool)

  datatype State = State(lists: Lists, sched: Sched)

  // ----- counters

  function Inc(t: Tally, q: Queue): Tally {
    Tally(t.active + 1, t.cp + (if IsCp(q.kind) then 1 else 0), t.gws + (if q.isGws then 1 else 0))
  }

  function Dec(t: Tally, q: Queue): Tally {
    Tally(t.active - 1, t.cp - (if IsCp(q.kind) then 1 else 0), t.gws - (if q.isGws then 1 else 0))
  }

  // ----- the runlist protocol

  datatype UnmapOutcome = Preempted | SendFailed | TimedOut
  datatype MapOutcome = Sent | IbAllocFailed | PacketFailed | HiqFull
  datatype Hw = Hw(preempt: UnmapOutcome, send: MapOutcome)

  /** Nothing stands in the way of unmapping and mapping. */
  predicate Healthy(sc: Sched) { !sc.hang && !sc.resetting }

  /** The unmap succeeds, for want of anything to unmap or because the hardware does it. */
  predicate Unmaps(sc: Sched, u: UnmapOutcome) { !sc.running || (Healthy(sc) && (!sc.activeRunlist || u == Preempted)) }

  datatype SchedResult = SchedResult(sched: Sched, ret: Ret)

  /** pm_release_ib */
  function Release(sc: Sched): Sched {
    if sc.ibAllocated then sc.(live := sc.live - {sc.ib}, ibAllocated := false) else sc
  }

  /** unmap_queues_cpsch */
  function Unmap(sc: Sched, u: UnmapOutcome): SchedResult {
    if !sc.running then SchedResult(sc, Ok)
    else if sc.hang || sc.resetting then SchedResult(sc, Eio)
    else if !sc.activeRunlist then SchedResult(sc, Ok)
    else match u
      case SendFailed => SchedResult(sc, Enomem)
      case TimedOut => SchedResult(sc.(hang := true), Etime)
      case Preempted => SchedResult(Release(sc).(activeRunlist := false), Ok)
  }

  /** pm_send_runlist: every failure after the first releases the buffer, whoever allocated it. */
  function SendRunlist(sc: Sched, ps: seq<Packet>, m: MapOutcome): SchedResult {
    if sc.ibAllocated then SchedResult(Release(sc).(warned := true), Einval)
    else if m == IbAllocFailed then SchedResult(sc, Enomem)
    else
      var built := sc.(ibAllocated := true, ib := sc.nextIb, live := sc.live + {sc.nextIb},
                       nextIb := sc.nextIb + 1, runlist := ps);
      match m
      case PacketFailed => SchedResult(Release(built), Einval)
      case HiqFull => SchedResult(Release(built), Enomem)
      case _ => SchedResult(built, Ok)
  }

  function Packets(cfg: Config, l: Lists): seq<Packet>
    requires forall p <- l.nodes :: p in l.procs
  {
    RunlistPackets(l.nodes, l.procs, l.processes, l.tally, cfg.layout)
  }

  /** map_queues_cpsch */
  function Map(cfg: Config, l: Lists, sc: Sched, m: MapOutcome): SchedResult
    requires forall p <- l.nodes :: p in l.procs
  {
    if !sc.running then SchedResult(sc, Ok)
    else if l.tally.active <= 0 || l.processes <= 0 then SchedResult(sc, Ok)
    else if sc.activeRunlist then SchedResult(sc, Ok)
    else
      var r := SendRunlist(sc, Packets(cfg, l), m);
      if r.ret != Ok then r else SchedResult(r.sched.(activeRunlist := true), Ok)
  }

  /** execute_queues_cpsch */
  function Execute(cfg: Config, l: Lists, sc: Sched, hw: Hw): SchedResult
    requires forall p <- l.nodes :: p in l.procs
  {
    if sc.hang then SchedResult(sc, Eio)
    else
      var u := Unmap(sc, hw.preempt);
      if u.ret != Ok then u else Map(cfg, l, u.sched, hw.send)
  }

  // ----- walks over one process's queue list

  datatype Walk = EvictAll | RestoreAll | SuspendIn(ids: set<nat>) | ResumeIn(ids: set<nat>) | ResumeAll

  predicate Selected(w: Walk, q: Queue) {
    match w
    case SuspendIn(ids) => q.id in ids
    case ResumeIn(ids) => q.id in ids
    case _ => true
  }

  /** suspend_single_queue refuses new queues and queues that are being destroyed. */
  predicate Refuses(q: Queue) { !q.suspended && (q.isNew || q.beingDestroyed) }

  /** Whether the walk counts this queue as handled. */
  predicate Hit(w: Walk, q: Queue) {
    Selected(w, q) && (w.SuspendIn? ==> !Refuses(q))
  }

  function WalkQueue(w: Walk, q: Queue): Queue {
    if !Selected(w, q) then q
    else match w
      case EvictAll => q.(evicted := true, active := false)
      case RestoreAll =>
        var r := q.(evicted := false);
        if Runnable(r) then r.(active := true) else r
      case SuspendIn(_) =>
        if q.suspended || Refuses(q) then q else q.(suspended := true, active := false)
      case _ =>
        if !q.suspended then q
        else
          var r := q.(suspended := false);
          if Runnable(r) then r.(active := true) else r
  }

  function WalkTally(w: Walk, q: Queue, t: Tally): Tally {
    if !Selected(w, q) then t
    else match w
      case EvictAll => if q.active then Dec(t, q) else t
      case RestoreAll => if Runnable(q.(evicted := false)) then Inc(t, q) else t
      case SuspendIn(_) => if !q.suspended && !Refuses(q) && q.active then Dec(t, q) else t
      case _ => if q.suspended && Runnable(q.(suspended := false)) then Inc(t, q) else t
  }

  function WalkQueues(w: Walk, qs: seq<Queue>): (r: seq<Queue>)
    ensures |r| == |qs|
    ensures forall i :: 0 <= i < |qs| ==> r[i] == WalkQueue(w, qs[i])
  {
    if qs == [] then [] else WalkQueues(w, qs[..|qs| - 1]) + [WalkQueue(w, qs[|qs| - 1])]
  }

  function WalkTallies(w: Walk, qs: seq<Queue>, t: Tally): Tally {
    if qs == [] then t else WalkTally(w, qs[|qs| - 1], WalkTallies(w, qs[..|qs| - 1], t))
  }

  function Hits(w: Walk, qs: seq<Queue>): nat {
    if qs == [] then 0 else Hits(w, qs[..|qs| - 1]) + if Hit(w, qs[|qs| - 1]) then 1 else 0
  }

  function Put(l: Lists, p: nat, pr: Proc): Lists { l.(procs := l.procs[p := pr]) }

  function WalkProc(w: Walk, l: Lists, p: nat): Lists
    requires p in l.procs
  {
    var pr := l.procs[p];
    Put(l, p, pr.(queues := WalkQueues(w, pr.queues))).(tally := WalkTallies(w, pr.queues, l.tally))
  }

  // ----- eviction (evict_process_queues_cpsch, restore_process_queues_cpsch)

  predicate EvictActs(pr: Proc) { pr.evicted == 0 && pr.vmAcquired }

  function EvictLists(l: Lists, p: nat): Lists
    requires p in l.procs
  {
    var pr := l.procs[p];
    var l1 := Put(l, p, pr.(evicted := pr.evicted + 1));
    if EvictActs(pr) then WalkProc(EvictAll, l1, p) else l1
  }

  predicate RestoreActs(pr: Proc) { pr.evicted == 1 && pr.vmAcquired }

  function RestoreLists(l: Lists, p: nat): Lists
    requires p in l.procs
  {
    var pr := l.procs[p];
    if pr.evicted == 0 then l
    else
      var l1 := Put(l, p, pr.(evicted := pr.evicted - 1));
      if RestoreActs(pr) then WalkProc(RestoreAll, l1, p) else l1
  }

  // ----- debugger suspend and resume

  function ClearNew(qs: seq<Queue>, ids: set<nat>): (r: seq<Queue>)
    ensures |r| == |qs|
    ensures forall i :: 0 <= i < |qs| ==> r[i] == if qs[i].id in ids then qs[i].(isNew := false) else qs[i]
  {
    if qs == [] then [] else
      var q := qs[|qs| - 1];
      ClearNew(qs[..|qs| - 1], ids) + [if q.id in ids then q.(isNew := false) else q]
  }

  // ----- update_queue

  /**
    The list part of update_queue: rewrite the descriptor, recompute the queue's activity
    and adjust the counters.
   */
  function UpdateLists(l: Lists, p: nat, i: nat): Lists
    requires p in l.procs && i < |l.procs[p].queues|
  {
    var pr := l.procs[p];
    var q := pr.queues[i];
    var q1 := q.(active := Runnable(q), mqd := q.mqd + 1);
    var r: (Queue, Tally) :=
      if q1.active && !q.active then (q1, Inc(l.tally, q1))
      else if !q1.active && q.active then (q1, Dec(l.tally, q1))
      else if q.gwsAssigned && !q.isGws then
        (q1.(isGws := true), if q1.active then l.tally.(gws := l.tally.gws + 1) else l.tally)
      else if !q.gwsAssigned && q.isGws then
        (q1.(isGws := false), if q1.active then l.tally.(gws := l.tally.gws - 1) else l.tally)
      else (q1, l.tally);
    Put(l, p, pr.(queues := pr.queues[i := r.0])).(tally := r.1)
  }

  // ----- SDMA slots and doorbells

  /** find_first_bit */
  function FindFirst(s: set<nat>, from: nat, limit: nat): (r: nat)
    requires from <= limit
    ensures from <= r <= limit
    ensures r < limit ==> r in s
    ensures forall k :: from <= k < r ==> k !in s
    decreases limit - from
  {
    if from == limit || from in s then from else FindFirst(s, from + 1, limit)
  }

  /** find_first_zero_bit */
  function FindFirstZero(s: set<nat>, from: nat, limit: nat): (r: nat)
    requires from <= limit
    ensures from <= r <= limit
    ensures r < limit ==> r !in s
    ensures forall k :: from <= k < r ==> k in s
    decreases limit - from
  {
    if from == limit || from !in s then from else FindFirstZero(s, from + 1, limit)
  }

  function FreeSlots(l: Lists, k: Kind): set<nat> { if k == Sdma then l.sdmaFree else l.xgmiFree }

  function SetFree(l: Lists, k: Kind, f: set<nat>): Lists {
    if k == Sdma then l.(sdmaFree := f) else l.(xgmiFree := f)
  }

  /** Whether a slot is one of ours: only the PCIe bitmap is masked by the reserved ids. */
  predicate OwnsSlot(cfg: Config, k: Kind, id: nat) {
    id < cfg.Slots(k) && (k == Sdma ==> id !in cfg.reservedSdma)
  }

  /** init_sdma_bitmaps */
  function InitSlots(cfg: Config, k: Kind): set<nat> {
    set id: nat | id < cfg.Slots(k) && OwnsSlot(cfg, k, id)
  }

  datatype Alloc = Alloc(lists: Lists, q: Queue, ret: Ret)

  /** The requested slot, or the first free one. */
  function PickSlot(cfg: Config, free: set<nat>, k: Kind, restoreId: Option<nat>): nat {
    if restoreId.Some? then restoreId.value else FindFirst(free, 0, cfg.Slots(k))
  }

  /** allocate_sdma_queue */
  function AllocSdma(cfg: Config, l: Lists, q: Queue, restoreId: Option<nat>): Alloc {
    if !IsSdma(q.kind) then Alloc(l, q, Ok)
    else
      var free := FreeSlots(l, q.kind);
      if free == {} then Alloc(l, q, Enomem)
      else if restoreId.Some? && restoreId.value !in free then Alloc(l, q, Ebusy)
      else
        var id := PickSlot(cfg, free, q.kind, restoreId);
        Alloc(SetFree(l, q.kind, free - {id}), q.(sdmaId := id), Ok)
  }

  /** deallocate_sdma_queue */
  function FreeSdma(cfg: Config, l: Lists, q: Queue): Lists {
    if IsSdma(q.kind) && q.sdmaId < cfg.Slots(q.kind)
    then SetFree(l, q.kind, FreeSlots(l, q.kind) + {q.sdmaId}) else l
  }

  /** The engine and the queue on that engine that an SDMA id stands for. */
  function EngineOf(cfg: Config, q: Queue): nat {
    if cfg.Engines(q.kind) == 0 then 0
    else (if q.kind == SdmaXgmi then cfg.pcieEngines else 0) + q.sdmaId % cfg.Engines(q.kind)
  }

  function EngineQueueOf(cfg: Config, q: Queue): nat {
    if cfg.Engines(q.kind) == 0 then 0 else q.sdmaId / cfg.Engines(q.kind)
  }

  function SdmaDoorbell(cfg: Config, q: Queue): nat {
    var e, n := EngineOf(cfg, q), EngineQueueOf(cfg, q);
    (if e < |cfg.sdmaDoorbellIdx| then cfg.sdmaDoorbellIdx[e] else 0)
      + (n % 2) * DOORBELL_MIRROR_OFFSET + n / 2
  }

  datatype DoorAlloc = DoorAlloc(doorbells: set<nat>, doorbell: nat, ret: Ret)

  /** allocate_doorbell */
  function AllocDoorbell(cfg: Config, bits: set<nat>, q: Queue, restoreId: Option<nat>): DoorAlloc {
    if !cfg.soc15 then
      if restoreId.Some? && restoreId.value != q.id then DoorAlloc(bits, q.doorbell, Einval)
      else DoorAlloc(bits, q.id, Ok)
    else if IsSdma(q.kind) then
      if restoreId.Some? && restoreId.value != SdmaDoorbell(cfg, q) then DoorAlloc(bits, q.doorbell, Einval)
      else DoorAlloc(bits, SdmaDoorbell(cfg, q), Ok)
    else if restoreId.Some? then
      if restoreId.value in bits then DoorAlloc(bits, q.doorbell, Einval)
      else DoorAlloc(bits + {restoreId.value}, restoreId.value, Ok)
    else
      var found := FindFirstZero(bits, 0, MAX_DOORBELLS);
      if found >= MAX_DOORBELLS then DoorAlloc(bits, q.doorbell, Ebusy)
      else DoorAlloc(bits + {found}, found, Ok)
  }

  /** deallocate_doorbell */
  function FreeDoorbell(cfg: Config, bits: set<nat>, q: Queue): set<nat> {
    if !cfg.soc15 || IsSdma(q.kind) then bits else bits - {q.doorbell}
  }

  // ----- create_queue_cpsch

  datatype Criu = Criu(sdmaId: nat, doorbell: nat)

  /** Reserve the SDMA slot and the doorbell, undoing the first if the second fails. */
  function Reserve(cfg: Config, l: Lists, p: nat, q: Queue, qd: Option<Criu>): Alloc
    requires p in l.procs
  {
    var a := AllocSdma(cfg, l, q, if qd.Some? then Some(qd.value.sdmaId) else None);
    if a.ret != Ok then a
    else
      var pr := l.procs[p];
      var d := AllocDoorbell(cfg, pr.doorbells, a.q, if qd.Some? then Some(qd.value.doorbell) else None);
      if d.ret != Ok then Alloc(FreeSdma(cfg, a.lists, a.q), a.q, d.ret)
      else Alloc(Put(a.lists, p, pr.(doorbells := d.doorbells)), a.q.(doorbell := d.doorbell), Ok)
  }

  function Unreserve(cfg: Config, l: Lists, p: nat, q: Queue): Lists
    requires p in l.procs
  {
    var pr := l.procs[p];
    FreeSdma(cfg, Put(l, p, pr.(doorbells := FreeDoorbell(cfg, pr.doorbells, q))), q)
  }

  /** init_mqd decides whether a new queue is active; restore_mqd leaves it inactive. */
  function InitQueue(pr: Proc, q: Queue, restored: bool): Queue {
    var q1 := q.(evicted := pr.evicted > 0);
    q1.(active := !restored && Runnable(q1))
  }

  function Link(l: Lists, p: nat, q: Queue): Lists
    requires p in l.procs
  {
    var pr := l.procs[p];
    Put(l, p, pr.(queues := [q] + pr.queues)).(tally := if q.active then Inc(l.tally, q) else l.tally)
  }

  function Unlink(l: Lists, p: nat, i: nat): Lists
    requires p in l.procs && i < |l.procs[p].queues|
  {
    var pr := l.procs[p];
    var q := pr.queues[i];
    Put(l, p, pr.(queues := RemoveAt(pr.queues, i))).(tally := if q.active then Dec(l.tally, q) else l.tally)
  }

  datatype Result = Result(s: State, ret: Ret)

  /** The locked tail of create_queue_cpsch: link the queue, schedule it, or take it out again. */
  function CreateTail(cfg: Config, s: State, p: nat, q: Queue, hw: Hw): Result
    requires forall n <- s.lists.nodes :: n in s.lists.procs
    requires p in s.lists.procs
  {
    var l := Link(s.lists, p, q);
    if !q.active then Result(State(l.(total := l.total + 1), s.sched), Ok)
    else
      var e := Execute(cfg, l, s.sched, hw);
      if e.ret == Ok then Result(State(l.(total := l.total + 1), e.sched), Ok)
      else Result(State(Unreserve(cfg, Unlink(l, p, 0), p, q), e.sched), e.ret)
  }

  function Create(cfg: Config, s: State, p: nat, q: Queue, qd: Option<Criu>, mqdOk: bool, hw: Hw): Result
    requires forall n <- s.lists.nodes :: n in s.lists.procs
    requires p in s.lists.procs
  {
    if s.lists.total >= cfg.maxQueues then Result(s, Eperm)
    else
      var a := Reserve(cfg, s.lists, p, q, qd);
      if a.ret != Ok then Result(s.(lists := a.lists), a.ret)
      else if !mqdOk then Result(s.(lists := Unreserve(cfg, a.lists, p, a.q)), Enomem)
      else
        CreateTail(cfg, s.(lists := a.lists), p, InitQueue(s.lists.procs[p], a.q, qd.Some?), hw)
  }

  // ----- destroy_queue_cpsch

  function DestroyLists(cfg: Config, l: Lists, p: nat, i: nat): Lists
    requires p in l.procs && i < |l.procs[p].queues|
  {
    var q := l.procs[p].queues[i];
    var l1 := Unlink(Unreserve(cfg, l, p, q), p, i);
    l1.(total := l1.total - 1)
  }

  /** The part of destroy_queue_cpsch after the wait. */
  function DestroyNow(cfg: Config, s: State, p: nat, i: nat, hw: Hw): Result
    requires forall n <- s.lists.nodes :: n in s.lists.procs
    requires p in s.lists.procs && i < |s.lists.procs[p].queues|
  {
    var pr := s.lists.procs[p];
    if pr.isDebug then Result(s, Ebusy)
    else
      var l := DestroyLists(cfg, s.lists, p, i);
      if !pr.queues[i].active then Result(State(l, s.sched), Ok)
      else
        var e := Execute(cfg, l, s.sched, hw);
        var l1 := if e.ret == Etime then Put(l, p, l.procs[p].(resetWavefronts := true)) else l;
        Result(State(l1, e.sched), e.ret)
  }

  function PutQueue(l: Lists, p: nat, i: nat, q: Queue): Lists
    requires p in l.procs && i < |l.procs[p].queues|
  {
    Put(l, p, l.procs[p].(queues := l.procs[p].queues[i := q]))
  }

  /** wait_on_destroy_queue has to drop the lock and wait for the debugger. */
  predicate MustWait(pr: Proc, q: Queue) { !pr.isDebug && pr.trapEnabled && q.suspended }

  /** destroy_queue_cpsch up to the point where it either waits or finishes. */
  function Destroy(cfg: Config, s: State, p: nat, i: nat, hw: Hw): Result
    requires forall n <- s.lists.nodes :: n in s.lists.procs
    requires p in s.lists.procs && i < |s.lists.procs[p].queues|
  {
    var pr := s.lists.procs[p];
    var q := pr.queues[i];
    if pr.isDebug then Result(s, Ebusy)
    else
      var q1 := q.(beingDestroyed := true);
      if MustWait(pr, q) then Result(s.(lists := PutQueue(s.lists, p, i, q1.(destroyWait := Waiting))), Ok)
      else DestroyNow(cfg, s.(lists := PutQueue(s.lists, p, i, q1)), p, i, hw)
  }

  // ----- kernel (debug) queues

  function LinkKernel(l: Lists, p: nat, q: Queue): Lists
    requires p in l.procs
  {
    var pr := l.procs[p];
    Put(l, p, pr.(kernelQueues := [q] + pr.kernelQueues, isDebug := true))
      .(tally := Inc(l.tally, q), total := l.total + 1)
  }

  function UnlinkKernel(l: Lists, p: nat, i: nat): Lists
    requires p in l.procs && i < |l.procs[p].kernelQueues|
  {
    var pr := l.procs[p];
    Put(l, p, pr.(kernelQueues := RemoveAt(pr.kernelQueues, i), isDebug := false))
      .(tally := Dec(l.tally, pr.kernelQueues[i]), total := l.total - 1)
  }

  // ----- process_termination_cpsch

  function TerminateKernel(t: Tally, qs: seq<Queue>): Tally {
    if qs == [] then t else Dec(TerminateKernel(t, qs[..|qs| - 1]), qs[|qs| - 1])
  }

  /** The loop that takes a terminating process's user queues out of the slots and counters. */
  function TerminateUser(cfg: Config, l: Lists, qs: seq<Queue>): Lists {
    if qs == [] then l
    else
      var q := qs[|qs| - 1];
      var l1 := FreeSdma(cfg, TerminateUser(cfg, l, qs[..|qs| - 1]), q);
      l1.(tally := if q.active then Dec(l1.tally, q) else l1.tally, total := l1.total - 1)
  }

  /** The loop over the kernel queues; the process is gone from here on. */
  function DetachKernel(l: Lists, p: nat): Lists
    requires p in l.procs
  {
    var pr := l.procs[p];
    Put(l, p, pr.(kernelQueues := [], isDebug := pr.isDebug && pr.kernelQueues == [], terminated := true))
      .(tally := TerminateKernel(l.tally, pr.kernelQueues), total := l.total - |pr.kernelQueues|)
  }

  function TerminateLists(cfg: Config, l: Lists, p: nat): Lists
    requires p in l.procs
  {
    var l1 := TerminateUser(cfg, DetachKernel(l, p), l.procs[p].queues);
    var l2 := l1.(known := Without(l1.known, p));
    if p in l.nodes then l2.(nodes := Without(l2.nodes, p), processes := l2.processes - 1) else l2
  }

  // ----- actions

  datatype Action =
    | NewProcess(p: nat)
    | AcquireVm(p: nat)
    | SetTrap(p: nat, on: bool)
    | SetProperties(p: nat, i: nat, size: nat, address: nat, percent: nat)
    | AssignGws(p: nat, i: nat, on: bool)
    | ReadSnapshot(p: nat, i: nat)
    | Register(p: nat, allocOk: bool)
    | Unregister(p: nat)
    | CreateQueue(p: nat, q: Queue, qd: Option<Criu>, mqdOk: bool, hw: Hw)
    | CreateKernelQueue(p: nat, q: Queue, hw: Hw)
    | DestroyKernelQueue(p: nat, i: nat, hw: Hw)
    | DestroyQueue(p: nat, i: nat, hw: Hw)
    | DestroyWake(p: nat, i: nat)
    | DestroyInterrupted(p: nat, i: nat)
    | DestroyFinish(p: nat, i: nat, hw: Hw)
    | UpdateQueue(p: nat, i: nat, hw: Hw)
    | EvictQueues(p: nat, hw: Hw)
    | RestoreQueues(p: nat, hw: Hw)
    | Suspend(p: nat, ids: set<nat>, clearNew: bool, hw: Hw)
    | Resume(p: nat, which: Option<set<nat>>, hw: Hw)
    | Terminate(p: nat, hw: Hw)
    | Drain(p: nat)
    | Start(resourcesOk: bool, hw: Hw)
    | Stop(hw: Hw)
    | PreReset
    | Refresh(hw: Hw)
    | TrapVmid(reserve: bool, resourcesOk: bool, hw: Hw)
    | ResetQueues(hw: Hw)

  /** How the hardware answers in this step, where it may be asked. */
  function HwOf(a: Action): Option<Hw> {
    match a
    case CreateQueue(_, _, _, _, hw) => Some(hw)
    case CreateKernelQueue(_, _, hw) => Some(hw)
    case DestroyKernelQueue(_, _, hw) => Some(hw)
    case DestroyQueue(_, _, hw) => Some(hw)
    case DestroyFinish(_, _, hw) => Some(hw)
    case UpdateQueue(_, _, hw) => Some(hw)
    case EvictQueues(_, hw) => Some(hw)
    case RestoreQueues(_, hw) => Some(hw)
    case Suspend(_, _, _, hw) => Some(hw)
    case Resume(_, _, hw) => Some(hw)
    case Terminate(_, hw) => Some(hw)
    case Start(_, hw) => Some(hw)
    case Stop(hw) => Some(hw)
    case Refresh(hw) => Some(hw)
    case TrapVmid(_, _, hw) => Some(hw)
    case ResetQueues(hw) => Some(hw)
    case _ => None
  }

  const FreshProc := Proc([], [], 0, false, false, false, false, false, {})

  function AddProcess(cfg: Config, l: Lists, p: nat): Lists {
    Put(l, p, FreshProc.(doorbells := cfg.reservedDoorbells)).(known := [p] + l.known)
  }

  /** A live process: known and not yet terminated. */
  predicate Alive(l: Lists, p: nat) { p in l.procs && !l.procs[p].terminated }

  predicate HasQueue(l: Lists, p: nat, i: nat) { Alive(l, p) && i < |l.procs[p].queues| }

  predicate FreshQueue(l: Lists, p: nat, q: Queue)
    requires p in l.procs
  {
    && !q.suspended && !q.beingDestroyed && q.destroyWait == Idle && !q.isGws && !q.gwsAssigned
    && (forall x <- l.procs[p].queues :: x.id != q.id)
    && (forall x <- l.procs[p].kernelQueues :: x.id != q.id)
  }

  /** A process without queues, as the process queue manager tests it. */
  predicate NoQueues(pr: Proc) { pr.queues == [] && pr.kernelQueues == [] }

  /**
    What the callers of the device queue manager guarantee. In particular a process is
    registered whenever its queue lists are empty, whether or not it is listed already.
   */
  predicate Enabled(s: State, a: Action) {
    if IsMark(a) then MarkEnabled(s.lists, a)
    else if IsProcess(a) then ProcessEnabled(s.lists, a)
    else OperationEnabled(s, a)
  }

  /** Actions that only rewrite fields of one queue, outside the lock or around a wait. */
  predicate IsMark(a: Action) {
    a.SetProperties? || a.AssignGws? || a.ReadSnapshot? || a.DestroyWake? || a.DestroyInterrupted?
  }

  predicate MarkEnabled(l: Lists, a: Action)
    requires IsMark(a)
  {
    && HasQueue(l, a.p, a.i)
    && var q := l.procs[a.p].queues[a.i];
       && (a.DestroyWake? ==> q.destroyWait == Waiting && !q.suspended)
       && (a.DestroyInterrupted? ==> q.destroyWait == Waiting)
  }

  /** Actions on a whole process that do not involve the scheduler. */
  predicate IsProcess(a: Action) {
    a.NewProcess? || a.AcquireVm? || a.SetTrap? || a.Register? || a.Unregister? || a.Drain?
  }

  predicate ProcessEnabled(l: Lists, a: Action)
    requires IsProcess(a)
  {
    match a
    case NewProcess(p) => p !in l.procs
    case AcquireVm(p) => Alive(l, p)
    case SetTrap(p, _) => Alive(l, p)
    case Register(p, _) => Alive(l, p) && NoQueues(l.procs[p])
    case Unregister(p) => Alive(l, p) && NoQueues(l.procs[p])
    case Drain(p) => p in l.procs && l.procs[p].terminated && l.procs[p].queues != []
  }

  predicate OperationEnabled(s: State, a: Action)
    requires !IsMark(a) && !IsProcess(a)
  {
    var l := s.lists;
    match a
    case CreateQueue(p, q, _, _, _) =>
      Alive(l, p) && l.procs[p].vmAcquired && q.kind != Diq && FreshQueue(l, p, q)
    case CreateKernelQueue(p, q, _) => Alive(l, p) && q.kind == Diq && q.active && FreshQueue(l, p, q)
    case DestroyKernelQueue(p, i, _) => Alive(l, p) && i < |l.procs[p].kernelQueues|
    case DestroyQueue(p, i, _) => HasQueue(l, p, i) && l.procs[p].queues[i].destroyWait == Idle
    case DestroyFinish(p, i, _) => HasQueue(l, p, i) && l.procs[p].queues[i].destroyWait == Awake
    case UpdateQueue(p, i, _) => HasQueue(l, p, i)
    case EvictQueues(p, _) => Alive(l, p)
    case RestoreQueues(p, _) => Alive(l, p)
    case Suspend(p, _, _, _) => Alive(l, p)
    case Resume(p, _, _) => Alive(l, p)
    case Terminate(p, _) => Alive(l, p) && forall q <- l.procs[p].queues :: q.destroyWait == Idle
    case Start(_, _) => !s.sched.running
    case _ => true
  }

  /** Run execute_queues_cpsch on new lists. */
  function Then(cfg: Config, l: Lists, sc: Sched, hw: Hw): Result
    requires forall n <- l.nodes :: n in l.procs
  {
    var e := Execute(cfg, l, sc, hw);
    Result(State(l, e.sched), e.ret)
  }

  function SuspendStep(cfg: Config, s: State, p: nat, ids: set<nat>, clearNew: bool, hw: Hw): Result
    requires forall n <- s.lists.nodes :: n in s.lists.procs
    requires p in s.lists.procs
  {
    var w := SuspendIn(ids);
    var l := WalkProc(w, s.lists, p);
    if Hits(w, s.lists.procs[p].queues) == 0 then Result(s.(lists := l), Ok)
    else
      var r := Then(cfg, l, s.sched, hw);
      if r.ret == Ok && clearNew then
        var pr := r.s.lists.procs[p];
        r.(s := r.s.(lists := Put(r.s.lists, p, pr.(queues := ClearNew(pr.queues, ids)))))
      else r
  }

  function ResumeStep(cfg: Config, s: State, p: nat, ids: Option<set<nat>>, hw: Hw): Result
    requires forall n <- s.lists.nodes :: n in s.lists.procs
    requires p in s.lists.procs
  {
    var w := if ids.Some? then ResumeIn(ids.value) else ResumeAll;
    var l := WalkProc(w, s.lists, p);
    if Hits(w, s.lists.procs[p].queues) == 0 then Result(s.(lists := l), Ok)
    else Then(cfg, l, s.sched, hw)
  }

  function UpdateStep(cfg: Config, s: State, p: nat, i: nat, hw: Hw): Result
    requires forall n <- s.lists.nodes :: n in s.lists.procs
    requires p in s.lists.procs && i < |s.lists.procs[p].queues|
  {
    var u := Unmap(s.sched, hw.preempt);
    if u.ret != Ok then Result(s.(sched := u.sched), u.ret)
    else
      var l := UpdateLists(s.lists, p, i);
      var m := Map(cfg, l, u.sched, hw.send);
      Result(State(l, m.sched), m.ret)
  }

  /** start_cpsch: a failed start leaves the scheduler stopped. */
  function StartStep(cfg: Config, s: State, resourcesOk: bool, hw: Hw): Result
    requires forall n <- s.lists.nodes :: n in s.lists.procs
  {
    var sc := s.sched.(ibAllocated := false);
    if !resourcesOk then Result(s.(sched := sc), Enomem)
    else
      var e := Execute(cfg, s.lists, sc.(hang := false, resetting := false, running := true), hw);
      Result(s.(sched := e.sched), Ok)
  }

  function StopStep(s: State, hw: Hw): Result {
    if !s.sched.running then Result(s, Ok)
    else
      var sc := if s.sched.hang then s.sched else Unmap(s.sched, hw.preempt).sched;
      Result(s.(sched := Release(sc.(running := false))), Ok)
  }

  function RefreshStep(cfg: Config, s: State, hw: Hw): Result
    requires forall n <- s.lists.nodes :: n in s.lists.procs
  {
    var u := Unmap(s.sched, hw.preempt);
    if u.ret != Ok then Result(s.(sched := u.sched), u.ret)
    else
      var m := Map(cfg, s.lists, u.sched, hw.send);
      Result(s.(sched := m.sched), m.ret)
  }

  /**
    reserve_debug_trap_vmid and release_debug_trap_vmid: between the unmap and the map the
    new resources are sent, and if that fails nothing is mapped again.
   */
  function TrapVmidStep(cfg: Config, s: State, reserve: bool, resourcesOk: bool, hw: Hw): Result
    requires forall n <- s.lists.nodes :: n in s.lists.procs
  {
    if s.sched.trapVmid == reserve then Result(s, if reserve then Ebusy else Einval)
    else
      var u := Unmap(s.sched, hw.preempt);
      if u.ret != Ok then Result(s.(sched := u.sched), u.ret)
      else
        var sc := u.sched.(trapVmid := reserve);
        if !resourcesOk then Result(s.(sched := sc), Enomem)
        else
          var m := Map(cfg, s.lists, sc, hw.send);
          Result(s.(sched := m.sched), m.ret)
  }

  function TerminateStep(cfg: Config, s: State, p: nat, hw: Hw): Result
    requires forall n <- s.lists.nodes :: n in s.lists.procs
    requires p in s.lists.procs
  {
    var l := TerminateLists(cfg, s.lists, p);
    assert p in l.procs && (forall n <- l.nodes :: n in l.procs) by { TerminateKeepsKeys(cfg, s.lists, p); }
    var r := Then(cfg, l, s.sched, hw);
    var pr := r.s.lists.procs[p];
    if !r.s.sched.hang && (r.ret != Ok || pr.resetWavefronts)
    then r.(s := r.s.(lists := Put(r.s.lists, p, pr.(resetWavefronts := false))))
    else r
  }

  lemma {:induction false} TerminateUserFrame(cfg: Config, l: Lists, qs: seq<Queue>)
    ensures var r := TerminateUser(cfg, l, qs);
      r.nodes == l.nodes && r.known == l.known && r.procs == l.procs && r.processes == l.processes
  {
    if qs != [] {
      TerminateUserFrame(cfg, l, qs[..|qs| - 1]);
    }
  }

  lemma TerminateKeepsKeys(cfg: Config, l: Lists, p: nat)
    requires p in l.procs && forall n <- l.nodes :: n in l.procs
    ensures var r := TerminateLists(cfg, l, p);
      && p in r.procs && r.procs == l.procs[p := r.procs[p]]
      && r.nodes == Without(l.nodes, p) && r.known == Without(l.known, p)
      && (forall n <- r.nodes :: n in r.procs)
  {
    TerminateUserFrame(cfg, DetachKernel(l, p), l.procs[p].queues);
  }

  // ----- the step function

  function Marked(q: Queue, a: Action): Queue
    requires IsMark(a)
  {
    match a
    case SetProperties(_, _, size, address, percent) => q.(size := size, address := address, percent := percent)
    case AssignGws(_, _, on) => q.(gwsAssigned := on)
    case ReadSnapshot(_, _) => q.(isNew := false)
    case DestroyWake(_, _) => q.(destroyWait := Awake)
    case DestroyInterrupted(_, _) => q.(destroyWait := Idle)
  }

  function MarkStep(s: State, a: Action): Result
    requires IsMark(a) && HasQueue(s.lists, a.p, a.i)
  {
    Result(s.(lists := PutQueue(s.lists, a.p, a.i, Marked(s.lists.procs[a.p].queues[a.i], a))),
           if a.DestroyInterrupted? then Erestartsys else Ok)
  }

  function ProcessStep(cfg: Config, s: State, a: Action): Result
    requires IsProcess(a) && ProcessEnabled(s.lists, a)
  {
    var l := s.lists;
    match a
    case NewProcess(p) => Result(s.(lists := AddProcess(cfg, l, p)), Ok)
    case AcquireVm(p) => Result(s.(lists := Put(l, p, l.procs[p].(vmAcquired := true))), Ok)
    case SetTrap(p, on) => Result(s.(lists := Put(l, p, l.procs[p].(trapEnabled := on))), Ok)
    case Register(p, allocOk) =>
      if allocOk then Result(s.(lists := l.(nodes := [p] + l.nodes, processes := l.processes + 1)), Ok)
      else Result(s, Enomem)
    case Unregister(p) =>
      if p in l.nodes
      then Result(s.(lists := l.(nodes := Without(l.nodes, p), processes := l.processes - 1)), Ok)
      else Result(s, Einval)
    case Drain(p) => Result(s.(lists := Put(l, p, l.procs[p].(queues := l.procs[p].queues[1..]))), Ok)
  }

  function AddKernelStep(cfg: Config, s: State, p: nat, q: Queue, hw: Hw): Result
    requires (forall n <- s.lists.nodes :: n in s.lists.procs) && p in s.lists.procs
  {
    if s.lists.total >= cfg.maxQueues then Result(s, Eperm)
    else Result(Then(cfg, LinkKernel(s.lists, p, q), s.sched, hw).s, Ok)
  }

  function RemoveKernelStep(cfg: Config, s: State, p: nat, i: nat, hw: Hw): Result
    requires (forall n <- s.lists.nodes :: n in s.lists.procs) && p in s.lists.procs
    requires i < |s.lists.procs[p].kernelQueues|
  {
    Result(Then(cfg, UnlinkKernel(s.lists, p, i), s.sched, hw).s, Ok)
  }

  /** destroy_queue_cpsch once its wait is over. */
  function FinishStep(cfg: Config, s: State, p: nat, i: nat, hw: Hw): Result
    requires (forall n <- s.lists.nodes :: n in s.lists.procs) && p in s.lists.procs
    requires i < |s.lists.procs[p].queues|
  {
    var q := s.lists.procs[p].queues[i].(destroyWait := Idle);
    DestroyNow(cfg, s.(lists := PutQueue(s.lists, p, i, q)), p, i, hw)
  }

  function EvictStep(cfg: Config, s: State, p: nat, hw: Hw): Result
    requires (forall n <- s.lists.nodes :: n in s.lists.procs) && p in s.lists.procs
  {
    var l := EvictLists(s.lists, p);
    if EvictActs(s.lists.procs[p]) then Then(cfg, l, s.sched, hw) else Result(s.(lists := l), Ok)
  }

  function RestoreStep(cfg: Config, s: State, p: nat, hw: Hw): Result
    requires (forall n <- s.lists.nodes :: n in s.lists.procs) && p in s.lists.procs
  {
    var l := RestoreLists(s.lists, p);
    if RestoreActs(s.lists.procs[p]) then Then(cfg, l, s.sched, hw) else Result(s.(lists := l), Ok)
  }

  /** reset_queues_cpsch */
  function ResetStep(s: State, hw: Hw): Result {
    var u := Unmap(s.sched, hw.preempt);
    Result(s.(sched := u.sched), u.ret)
  }

  function Step(cfg: Config, s: State, a: Action): Result
    requires forall n <- s.lists.nodes :: n in s.lists.procs
    requires Enabled(s, a)
  {
    if IsMark(a) then MarkStep(s, a)
    else if IsProcess(a) then ProcessStep(cfg, s, a)
    else match a
      case CreateQueue(p, q, qd, mqdOk, hw) => Create(cfg, s, p, q, qd, mqdOk, hw)
      case CreateKernelQueue(p, q, hw) => AddKernelStep(cfg, s, p, q, hw)
      case DestroyKernelQueue(p, i, hw) => RemoveKernelStep(cfg, s, p, i, hw)
      case DestroyQueue(p, i, hw) => Destroy(cfg, s, p, i, hw)
      case DestroyFinish(p, i, hw) => FinishStep(cfg, s, p, i, hw)
      case UpdateQueue(p, i, hw) => UpdateStep(cfg, s, p, i, hw)
      case EvictQueues(p, hw) => EvictStep(cfg, s, p, hw)
      case RestoreQueues(p, hw) => RestoreStep(cfg, s, p, hw)
      case Suspend(p, ids, clearNew, hw) => SuspendStep(cfg, s, p, ids, clearNew, hw)
      case Resume(p, ids, hw) => ResumeStep(cfg, s, p, ids, hw)
      case Terminate(p, hw) => TerminateStep(cfg, s, p, hw)
      case Start(resourcesOk, hw) => StartStep(cfg, s, resourcesOk, hw)
      case Stop(hw) => StopStep(s, hw)
      case PreReset => Result(s.(sched := s.sched.(resetting := true)), Ok)
      case Refresh(hw) => RefreshStep(cfg, s, hw)
      case TrapVmid(reserve, resourcesOk, hw) => TrapVmidStep(cfg, s, reserve, resourcesOk, hw)
      case ResetQueues(hw) => ResetStep(s, hw)
  }
}

/**
  GPU signals: the GPU writes an event's slot and raises an interrupt that may carry only
  part of the event's id; the worker looks for a signaled event with that partial id and,
  failing that, scans for all of them. Slots are read one at a time while the GPU keeps
  writing and events come and go: the worker takes no lock that would keep a create or a
  destroy out, and a create publishes its id before it clears the slot.
 */
module EventSignals {
  import opened Arithmetic
  import opened Basics

  // ----- counting the elements of a set below a bound

  function Count(x: set<nat>, n: nat): nat {
    if n == 0 then 0 else Count(x, n - 1) + if n - 1 in x then 1 else 0
  }

  lemma {:induction false} CountAdd(x: set<nat>, id: nat, n: nat)
    ensures Count(x + {id}, n) == Count(x, n) + if id !in x && id < n then 1 else 0
  {
    if n > 0 {
      CountAdd(x, id, n - 1);
    }
  }

  lemma CountRemove(x: set<nat>, id: nat, n: nat)
    ensures Count(x - {id}, n) == Count(x, n) - if id in x && id < n then 1 else 0
  {
    CountAdd(x - {id}, id, n);
    if id in x {
      assert (x - {id}) + {id} == x;
    } else {
      assert x - {id} == x;
    }
  }

  lemma {:induction false} CountGap(x: set<nat>, a: nat, b: nat)
    requires a <= b && forall k :: a <= k < b ==> k !in x
    ensures Count(x, b) == Count(x, a)
  {
    if a < b {
      CountGap(x, a, b - 1);
    }
  }

  lemma {:induction false} CountPositive(x: set<nat>, n: nat) returns (k: nat)
    requires Count(x, n) > 0
    ensures k in x && k < n
  {
    if n - 1 in x {
      k := n - 1;
    } else {
      k := CountPositive(x, n - 1);
    }
  }

  lemma {:induction false} CountZero(x: set<nat>, n: nat)
    requires Count(x, n) == 0
    ensures forall k :: k in x ==> k >= n
  {
    if n > 0 {
      CountZero(x, n - 1);
    }
  }

  // ----- the protocol

  /** An interrupt: a partial id and how many of its bits are valid. */
  datatype Irq = Irq(id: nat, bits: nat)

  /** How the worker got to the slot it is looking at. */
  datatype Mode = ByLookup(stride: nat) | BySlots | ByIdr

  /**
    Where the single worker stands. A lookup and a scan of the slots read a slot and then
    find its event; a walk of the id table fetches an event and then reads its slot. `mine`
    is whether the event it found is still the one with that id.
   */
  datatype Worker =
    | Idle
    | At(id: nat, mode: Mode)                  // about to read the slot, or to fetch the event
    | Fetched(id: nat, mine: bool)             // the walk has the event; about to read its slot
    | Seen(id: nat, mode: Mode)                // the slot was signaled; about to find the event
    | Held(id: nat, mode: Mode, mine: bool)    // both; about to acknowledge
    | Acked(id: nat, mode: Mode, mine: bool)   // acknowledged; about to set the event

  /**
    Creating an event: its id is published in the id table, then written into the event,
    and only then is the slot cleared. The event mutex allows one create at a time, and no
    destroy meanwhile.
   */
  datatype Creation = NoCreate | Published(id: nat) | Named(id: nat)

  /**
    `up` are the signaled slots, `live` the ids below the limit in the id table, `flying`
    the slot writes whose interrupt is not yet raised, and `owed` the events the GPU has
    signaled since their creation and the driver has not set since.
   */
  datatype State = State(up: set<nat>, live: set<nat>, creation: Creation, flying: nat, queue: seq<Irq>, worker: Worker,
                         owed: set<nat>)

  datatype Action =
    | GpuWrite(id: nat)
    | Raise(irq: Irq)
    | Publish(id: nat)
    | Name
    | Clear
    | DestroyEvent(id: nat)
    | Take(few: bool)
    | Work(few: bool)

  /** The whole id is known: one lookup is enough. */
  predicate FullId(irq: Irq, limit: nat) { irq.bits > 31 || Pow2(irq.bits) >= limit }

  /** How far apart the candidates of a partial id lie. */
  function Stride(irq: Irq, limit: nat): nat { if FullId(irq, limit) then limit else Pow2(irq.bits) }

  /** Where an exhaustive search begins, by slots or over the id table. */
  function StartScan(few: bool): Worker { if few then At(0, ByIdr) else At(1, BySlots) }

  /** What comes after an id that led to no event, or after an event of a scan. */
  function NextAfter(id: nat, mode: Mode, limit: nat, few: bool): Worker {
    match mode
    case ByLookup(stride) => if id + stride < limit then At(id + stride, mode) else StartScan(few)
    case _ => if id + 1 < limit then At(id + 1, mode) else Idle
  }

  function TakeIrq(irq: Irq, limit: nat, few: bool): Worker {
    if irq.bits == 0 || irq.id >= limit then StartScan(few) else At(irq.id, ByLookup(Stride(irq, limit)))
  }

  predicate Enabled(s: State, limit: nat, a: Action) {
    match a
    case GpuWrite(id) => id < limit
    case Raise(_) => s.flying > 0
    case Publish(id) => s.creation.NoCreate? && 0 < id < limit && id !in s.live
    case Name => s.creation.Published?
    case Clear => s.creation.Named?
    case DestroyEvent(id) => s.creation.NoCreate? && id in s.live
    case Take(_) => s.worker.Idle? && s.queue != []
    case Work(_) => !s.worker.Idle?
  }

  /** The slot the worker acknowledges is the one the event names: slot 0 while it has no name. */
  function AckedSlot(s: State): nat
    requires s.worker.Held?
  {
    if s.worker.mine && s.creation == Published(s.worker.id) then 0 else s.worker.id
  }

  /** One step of the worker. The id table is walked past ids without an event. */
  function WorkStep(s: State, limit: nat, few: bool): State
    requires !s.worker.Idle?
  {
    match s.worker
    case At(id, mode) =>
      if mode.ByIdr?
      then s.(worker := if id in s.live then Fetched(id, true) else NextAfter(id, mode, limit, few))
      else s.(worker := if id in s.up then Seen(id, mode) else NextAfter(id, mode, limit, few))
    case Fetched(id, mine) =>
      s.(worker := if id in s.up then Held(id, ByIdr, mine) else NextAfter(id, ByIdr, limit, few))
    case Seen(id, mode) =>
      s.(worker := if id in s.live then Held(id, mode, true) else NextAfter(id, mode, limit, few))
    case Held(id, mode, mine) => s.(up := s.up - {AckedSlot(s)}, worker := Acked(id, mode, mine))
    case Acked(id, mode, mine) =>
      s.(owed := if mine then s.owed - {id} else s.owed,
         worker := if mode.ByLookup? then Idle else NextAfter(id, mode, limit, few))
  }

  /** Destroying an event leaves a worker that has it with a stale reference. */
  function Forget(w: Worker, id: nat): Worker {
    match w
    case Fetched(x, mine) => Fetched(x, mine && x != id)
    case Held(x, mode, mine) => Held(x, mode, mine && x != id)
    case Acked(x, mode, mine) => Acked(x, mode, mine && x != id)
    case _ => w
  }

  /** The event being created, if any. */
  function Creating(s: State): set<nat> { if s.creation.NoCreate? then {} else {s.creation.id} }

  /** The events whose creation is complete. */
  function Ready(s: State): set<nat> { s.live - Creating(s) }

  function Step(s: State, limit: nat, a: Action): State
    requires Enabled(s, limit, a)
  {
    match a
    case GpuWrite(id) =>
      s.(up := s.up + {id}, flying := s.flying + 1, owed := if id in Ready(s) then s.owed + {id} else s.owed)
    case Raise(irq) => s.(flying := s.flying - 1, queue := s.queue + [irq])
    case Publish(id) => s.(live := s.live + {id}, creation := Published(id))
    case Name => s.(creation := Named(s.creation.id))
    case Clear => s.(up := s.up - {s.creation.id}, creation := NoCreate)
    case DestroyEvent(id) => s.(live := s.live - {id}, owed := s.owed - {id}, worker := Forget(s.worker, id))
    case Take(few) => s.(queue := s.queue[1..], worker := TakeIrq(s.queue[0], limit, few))
    case Work(few) => WorkStep(s, limit, few)
  }

  // ----- the invariant

  /** Events whose creation is complete, with a signaled slot. */
  function Signaled(s: State): set<nat> { s.up * Ready(s) }

  function Interrupts(s: State): nat { s.flying + |s.queue| }

  /** What holds in every state whatever the interleaving. */
  ghost predicate Base(s: State, limit: nat) {
    && limit > 1
    && (forall id <- s.live :: 0 < id < limit)
    && (forall id <- s.owed :: id in Ready(s))
    && (!s.creation.NoCreate? ==> s.creation.id in s.live)
    && var w := s.worker;
       && (!w.Idle? ==> w.id < limit)
       && ((w.At? || w.Seen? || w.Held? || w.Acked?) && w.mode.ByLookup? ==> w.mode.stride > 0)
       && (w.Seen? ==> !w.mode.ByIdr?)
       && (w.Fetched? || w.Held? || w.Acked? ==> w.id > 0 && (w.mine ==> w.id in s.live))
  }

  lemma BaseKeeps(s: State, limit: nat, a: Action)
    requires Base(s, limit) && Enabled(s, limit, a)
    ensures Base(Step(s, limit, a), limit)
  {
  }

  predicate InLookup(w: Worker) { (w.At? || w.Seen? || w.Held? || w.Acked?) && w.mode.ByLookup? }

  /** Ids a scan has behind it. */
  function Behind(w: Worker): nat
    requires !w.Idle?
  {
    if w.Acked? then w.id + 1 else w.id
  }

  /** Whether the interrupt in hand is still good for one event. */
  function Good(s: State): nat
    requires InLookup(s.worker)
  {
    match s.worker
    case At(_, _) => 1
    case Seen(id, _) => if id in s.up && id !in Creating(s) then 1 else 0
    case Held(id, _, _) => if id in Signaled(s) then 1 else 0
    case Acked(_, _, _) => 0
  }

  /** A lookup that can only fail and end in a scan. */
  predicate BoundToScan(w: Worker, limit: nat) {
    (w.At? || w.Seen?) && w.mode.ByLookup? && w.id == 0 && w.mode.stride >= limit
  }

  /** The interrupts to come, with the one in hand, suffice for the signaled events. */
  ghost predicate Enough(s: State, limit: nat) {
    var w := s.worker;
    if w.Idle? then Count(Signaled(s), limit) <= Interrupts(s)
    else if InLookup(w) then BoundToScan(w, limit) || Count(Signaled(s), limit) <= Interrupts(s) + Good(s)
    else Count(Signaled(s), Behind(w)) <= Interrupts(s)
  }

  /** An interrupt that leads to an event if there is one; any other one makes the worker scan. */
  predicate Targeted(irq: Irq, limit: nat) {
    irq.bits > 0 && irq.id < limit && (irq.id > 0 || Stride(irq, limit) < limit)
  }

  ghost predicate ScanToCome(s: State, limit: nat) { exists irq <- s.queue :: !Targeted(irq, limit) }

  ghost predicate Inv(s: State, limit: nat) {
    Base(s, limit) && (Enough(s, limit) || ScanToCome(s, limit))
  }

  /** An interrupt to spare, or one that will make the worker scan. */
  ghost predicate Slack(s: State, limit: nat) {
    Count(Signaled(s), limit) <= Interrupts(s) || ScanToCome(s, limit)
  }

  /**
    The step by which a lookup meets the slot of an event under creation before it is
    cleared: the id is published when the slot has been read, or the slot is read when the
    id has been published.
   */
  predicate Meets(s: State, a: Action) {
    var w := s.worker;
    InLookup(w) && (
      || (a.Publish? && w.Seen? && w.id == a.id)
      || (a.Work? && w.At? && w.id in s.up && w.id in Creating(s)))
  }

  /** Only such a step can do harm, and it does none with slack. */
  ghost predicate Harmless(s: State, limit: nat, a: Action) { Meets(s, a) ==> Slack(s, limit) }

  // ----- every harmless step keeps it

  lemma WriteKeeps(s: State, limit: nat, id: nat)
    requires Base(s, limit) && Enough(s, limit) && id < limit
    ensures Enough(Step(s, limit, GpuWrite(id)), limit)
  {
    var t := Step(s, limit, GpuWrite(id));
    if id in Ready(s) {
      assert Signaled(t) == Signaled(s) + {id};
      CountAdd(Signaled(s), id, limit);
      if !s.worker.Idle? {
        CountAdd(Signaled(s), id, Behind(s.worker));
      }
    } else {
      assert Signaled(t) == Signaled(s);
    }
  }

  /** A create changes which events are signaled neither by publishing the id nor by clearing its slot. */
  lemma CreateKeeps(s: State, limit: nat, a: Action)
    requires Base(s, limit) && Enough(s, limit) && Enabled(s, limit, a) && (a.Publish? || a.Name? || a.Clear?)
    requires Meets(s, a) ==> Count(Signaled(s), limit) <= Interrupts(s)
    ensures Enough(Step(s, limit, a), limit)
  {
    assert Signaled(Step(s, limit, a)) == Signaled(s);
  }

  lemma DestroyKeeps(s: State, limit: nat, id: nat)
    requires Base(s, limit) && Enough(s, limit) && Enabled(s, limit, DestroyEvent(id))
    ensures Enough(Step(s, limit, DestroyEvent(id)), limit)
  {
    assert Signaled(Step(s, limit, DestroyEvent(id))) == Signaled(s) - {id};
    CountRemove(Signaled(s), id, limit);
    if !s.worker.Idle? {
      CountRemove(Signaled(s), id, Behind(s.worker));
    }
  }

  lemma CountLow(s: State, limit: nat)
    requires Base(s, limit)
    ensures Count(Signaled(s), 0) == 0 && Count(Signaled(s), 1) == 0
  {
    assert 0 !in Signaled(s);
  }

  /** Taking an interrupt: a scan owes nothing yet, a lookup one event. */
  lemma TakeKeeps(s: State, limit: nat, few: bool)
    requires Base(s, limit) && Enabled(s, limit, Take(few))
    requires Enough(s, limit) || !Targeted(s.queue[0], limit)
    ensures Enough(Step(s, limit, Take(few)), limit)
  {
    CountLow(s, limit);
  }

  /** Moving on past an id that is not signaled, or has no event. */
  lemma NextKeeps(s: State, limit: nat, few: bool)
    requires Base(s, limit) && Enough(s, limit)
    requires (s.worker.At? || s.worker.Seen? || s.worker.Fetched?) && s.worker.id !in Signaled(s)
    ensures var w := s.worker;
      Enough(s.(worker := NextAfter(w.id, if w.Fetched? then ByIdr else w.mode, limit, few)), limit)
  {
    CountLow(s, limit);
    assert Count(Signaled(s), s.worker.id + 1) == Count(Signaled(s), s.worker.id);
  }

  lemma AckKeeps(s: State, limit: nat, few: bool)
    requires Base(s, limit) && Enough(s, limit) && s.worker.Held?
    ensures Enough(WorkStep(s, limit, few), limit)
  {
    var id := s.worker.id;
    assert Signaled(WorkStep(s, limit, few)) == Signaled(s) - {id};
    CountRemove(Signaled(s), id, limit);
    CountRemove(Signaled(s), id, id + 1);
  }

  lemma WorkKeeps(s: State, limit: nat, few: bool)
    requires Base(s, limit) && Enough(s, limit) && !s.worker.Idle?
    requires Meets(s, Work(few)) ==> Count(Signaled(s), limit) <= Interrupts(s)
    ensures Enough(WorkStep(s, limit, few), limit)
  {
    var t := WorkStep(s, limit, few);
    match s.worker
    case At(id, mode) => if !t.worker.Seen? && !t.worker.Fetched? { NextKeeps(s, limit, few); }
    case Fetched(id, mine) => if !t.worker.Held? { NextKeeps(s, limit, few); }
    case Seen(id, mode) => if !t.worker.Held? { NextKeeps(s, limit, few); }
    case Held(id, mode, mine) => AckKeeps(s, limit, few);
    case Acked(id, mode, mine) =>
  }

  lemma EnoughKeeps(s: State, limit: nat, a: Action)
    requires Base(s, limit) && Enough(s, limit) && Enabled(s, limit, a)
    requires Meets(s, a) ==> Count(Signaled(s), limit) <= Interrupts(s)
    ensures Enough(Step(s, limit, a), limit)
  {
    match a
    case GpuWrite(id) => WriteKeeps(s, limit, id);
    case Raise(irq) => assert Signaled(Step(s, limit, a)) == Signaled(s);
    case Publish(id) => CreateKeeps(s, limit, a);
    case Name => CreateKeeps(s, limit, a);
    case Clear => CreateKeeps(s, limit, a);
    case DestroyEvent(id) => DestroyKeeps(s, limit, id);
    case Take(few) => TakeKeeps(s, limit, few);
    case Work(few) => WorkKeeps(s, limit, few);
  }

  /** A scan to come stays to come until it is taken, and then there is enough. */
  lemma ScanKeeps(s: State, limit: nat, a: Action)
    requires Base(s, limit) && ScanToCome(s, limit) && Enabled(s, limit, a)
    ensures Enough(Step(s, limit, a), limit) || ScanToCome(Step(s, limit, a), limit)
  {
    var irq :| irq in s.queue && !Targeted(irq, limit);
    if a.Take? {
      if irq == s.queue[0] {
        TakeKeeps(s, limit, a.few);
      } else {
        assert irq in s.queue[1..];
      }
    } else {
      assert irq in Step(s, limit, a).queue;
    }
  }

  lemma StepKeeps(s: State, limit: nat, a: Action)
    requires Inv(s, limit) && Enabled(s, limit, a) && Harmless(s, limit, a)
    ensures Inv(Step(s, limit, a), limit)
  {
    hide Base, Enough, Step, Enabled, Meets;
    BaseKeeps(s, limit, a);
    if ScanToCome(s, limit) {
      ScanKeeps(s, limit, a);
    } else {
      EnoughKeeps(s, limit, a);
    }
  }

  // ----- runs

  const Init := State({}, {}, NoCreate, 0, [], Idle, {})

  ghost predicate Run(states: seq<State>, limit: nat, actions: seq<Action>) {
    && |states| == |actions| + 1 && states[0] == Init
    && forall i :: 0 <= i < |actions| ==>
         Enabled(states[i], limit, actions[i]) && states[i + 1] == Step(states[i], limit, actions[i])
  }

  ghost predicate AllHarmless(states: seq<State>, limit: nat, actions: seq<Action>, n: nat)
    requires n <= |actions| && n <= |states|
  {
    forall i :: 0 <= i < n ==> Harmless(states[i], limit, actions[i])
  }

  lemma InitInv(limit: nat)
    requires limit > 1
    ensures Base(Init, limit) && Enough(Init, limit)
  {
    assert Signaled(Init) == {};
    CountGap({}, 0, limit);
  }

  lemma {:induction false} RunsKeepInv(states: seq<State>, limit: nat, actions: seq<Action>, n: nat)
    requires limit > 1 && Run(states, limit, actions) && n < |states| && AllHarmless(states, limit, actions, n)
    ensures Inv(states[n], limit)
  {
    hide Harmless, Enabled, Step;
    if n == 0 {
      InitInv(limit);
    } else {
      RunsKeepInv(states, limit, actions, n - 1);
      StepKeeps(states[n - 1], limit, actions[n - 1]);
    }
  }

  /**
    There are always enough interrupts: whenever the worker is between two of them, those
    queued or about to be raised are at least as many as the signaled events, although each
    carries only part of an id, or one of them will make it scan.
   */
  lemma EnoughInterrupts(states: seq<State>, limit: nat, actions: seq<Action>, n: nat)
    requires limit > 1 && Run(states, limit, actions) && n < |states| && AllHarmless(states, limit, actions, n)
    requires states[n].worker.Idle?
    ensures Count(states[n].up * Ready(states[n]), limit) <= states[n].flying + |states[n].queue|
         || ScanToCome(states[n], limit)
  {
    RunsKeepInv(states, limit, actions, n);
  }

  /** An event left signaled with no interrupt to come. */
  predicate Stranded(s: State) {
    s.worker.Idle? && s.flying == 0 && s.queue == [] && s.up * Ready(s) != {}
  }

  lemma InvNotStranded(s: State, limit: nat)
    requires Inv(s, limit)
    ensures !Stranded(s)
  {
    var x := Signaled(s);
    if s.worker.Idle? && Interrupts(s) == 0 {
      CountZero(x, limit);
      assert forall id <- x :: id < limit;
      assert x == {};
    }
  }

  /** No stranded signal: once no interrupt is left, no slot of an event is still signaled. */
  lemma NothingStranded(states: seq<State>, limit: nat, actions: seq<Action>, n: nat)
    requires limit > 1 && Run(states, limit, actions) && n < |states| && AllHarmless(states, limit, actions, n)
    ensures !Stranded(states[n])
  {
    RunsKeepInv(states, limit, actions, n);
    InvNotStranded(states[n], limit);
  }

  // ----- a condition the caller can check

  /** An event is created over a slot that is not signaled, and the GPU does not write it meanwhile. */
  predicate Clean(s: State, a: Action) {
    && (a.Publish? ==> a.id !in s.up)
    && (a.GpuWrite? ==> a.id !in Creating(s))
  }

  predicate CleanSlot(s: State) { forall id <- Creating(s) :: id !in s.up }

  lemma CleanKeeps(s: State, limit: nat, a: Action)
    requires Enabled(s, limit, a) && CleanSlot(s) && Clean(s, a)
    ensures CleanSlot(Step(s, limit, a))
  {
  }

  lemma CleanIsHarmless(s: State, limit: nat, a: Action)
    requires Inv(s, limit) && Enabled(s, limit, a) && CleanSlot(s) && Clean(s, a)
    ensures Harmless(s, limit, a)
  {
  }

  /** Creating events only over clean slots strands nothing, wherever the worker is. */
  lemma {:induction false} CleanSlotsNeverStrand(states: seq<State>, limit: nat, actions: seq<Action>, n: nat)
    requires limit > 1 && Run(states, limit, actions) && n < |states|
    requires forall i :: 0 <= i < n ==> Clean(states[i], actions[i])
    ensures AllHarmless(states, limit, actions, n) && CleanSlot(states[n]) && !Stranded(states[n])
  {
    hide Harmless, Stranded, Step, Enabled, Inv, Clean;
    if n > 0 {
      CleanSlotsNeverStrand(states, limit, actions, n - 1);
      RunsKeepInv(states, limit, actions, n - 1);
      CleanIsHarmless(states[n - 1], limit, actions[n - 1]);
      CleanKeeps(states[n - 1], limit, actions[n - 1]);
    }
    NothingStranded(states, limit, actions, n);
  }

  // ----- every signal is set

  /** The worker has an event that has been destroyed, and the id now has another one. */
  predicate StaleHold(s: State, id: nat) {
    (s.worker.Fetched? || s.worker.Held?) && s.worker.id == id && !s.worker.mine && id in Ready(s)
  }

  /** The GPU does not signal an event whose slot the worker is about to clear for its predecessor. */
  predicate Fresh(s: State, a: Action) { a.GpuWrite? ==> !StaleHold(s, a.id) }

  /** A signaled event that is not yet set still has its slot signaled, or is about to be set. */
  ghost predicate OwedInv(s: State) {
    && (forall id <- s.owed :: id in s.up || (s.worker.Acked? && s.worker.id == id && s.worker.mine))
    && ((s.worker.Fetched? || s.worker.Held?) && !s.worker.mine ==> s.worker.id !in s.owed)
  }

  lemma OwedKeeps(s: State, limit: nat, a: Action)
    requires Base(s, limit) && OwedInv(s) && Enabled(s, limit, a) && Fresh(s, a)
    ensures OwedInv(Step(s, limit, a))
  {
  }

  lemma {:induction false} RunsKeepOwed(states: seq<State>, limit: nat, actions: seq<Action>, n: nat)
    requires limit > 1 && Run(states, limit, actions) && n < |states|
    requires forall i :: 0 <= i < n ==> Fresh(states[i], actions[i])
    ensures Base(states[n], limit) && OwedInv(states[n])
  {
    hide Enabled, Step, Fresh;
    if n == 0 {
      InitInv(limit);
    } else {
      RunsKeepOwed(states, limit, actions, n - 1);
      BaseKeeps(states[n - 1], limit, actions[n - 1]);
      OwedKeeps(states[n - 1], limit, actions[n - 1]);
    }
  }

  /** Once no interrupt is left, every signaled event has been set and acknowledged. */
  lemma EverySignalSet(states: seq<State>, limit: nat, actions: seq<Action>, n: nat)
    requires limit > 1 && Run(states, limit, actions) && n < |states| && AllHarmless(states, limit, actions, n)
    requires forall i :: 0 <= i < n ==> Fresh(states[i], actions[i])
    requires states[n].worker.Idle? && states[n].flying == 0 && states[n].queue == []
    ensures states[n].up * Ready(states[n]) == {} && states[n].owed == {}
  {
    NothingStranded(states, limit, actions, n);
    RunsKeepOwed(states, limit, actions, n);
    assert forall id <- states[n].owed :: id in states[n].up * Ready(states[n]);
  }
}

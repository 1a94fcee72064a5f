/**
  What goes wrong when a lookup meets a slot under creation, or when the worker still has a
  destroyed event: the conditions of the signal protocol are exact, and concrete runs break
  them.
 */
module EventRaces {
  import opened Arithmetic
  import opened Basics
  import opened EventSignals

  // ----- where a step can lead

  /** The state a sequence of actions leads to, if each of them is possible and, on request, harmless. */
  ghost function After(s: State, limit: nat, calm: bool, actions: seq<Action>): Option<State> {
    if actions == [] then Some(s)
    else
      var t := After(s, limit, calm, actions[..|actions| - 1]);
      var a := actions[|actions| - 1];
      if t.Some? && Enabled(t.value, limit, a) && (calm ==> Harmless(t.value, limit, a))
      then Some(Step(t.value, limit, a))
      else None
  }

  ghost predicate Leads(s: State, limit: nat, calm: bool, t: State) {
    exists actions :: After(s, limit, calm, actions) == Some(t)
  }

  lemma LeadsNowhere(s: State, limit: nat, calm: bool)
    ensures Leads(s, limit, calm, s)
  {
    assert After(s, limit, calm, []) == Some(s);
  }

  lemma LeadsOn(s: State, limit: nat, calm: bool, t: State, a: Action)
    requires Leads(s, limit, calm, t) && Enabled(t, limit, a) && (calm ==> Harmless(t, limit, a))
    ensures Leads(s, limit, calm, Step(t, limit, a))
  {
    hide Enabled, Step, Harmless;
    var actions :| After(s, limit, calm, actions) == Some(t);
    assert (actions + [a])[..|actions + [a]| - 1] == actions;
    assert After(s, limit, calm, actions + [a]) == Some(Step(t, limit, a));
  }

  lemma {:induction false} AfterConcat(s: State, limit: nat, calm: bool, a: seq<Action>, b: seq<Action>)
    requires After(s, limit, calm, a).Some?
    ensures After(s, limit, calm, a + b) == After(After(s, limit, calm, a).value, limit, calm, b)
  {
    hide Enabled, Step, Harmless;
    if b == [] {
      assert a + b == a;
    } else {
      AfterConcat(s, limit, calm, a, b[..|b| - 1]);
      assert (a + b)[..|a + b| - 1] == a + b[..|b| - 1];
    }
  }

  lemma LeadsFurther(s: State, limit: nat, calm: bool, t: State, u: State)
    requires Leads(s, limit, calm, t) && Leads(t, limit, calm, u)
    ensures Leads(s, limit, calm, u)
  {
    hide After;
    var a :| After(s, limit, calm, a) == Some(t);
    var b :| After(t, limit, calm, b) == Some(u);
    AfterConcat(s, limit, calm, a, b);
  }

  // ----- a step that is not harmless can strand an event

  lemma Works(s: State, limit: nat, t: State)
    requires Leads(s, limit, true, t) && !t.worker.Idle? && !Meets(t, Work(true))
    ensures Leads(s, limit, true, WorkStep(t, limit, true))
  {
    hide Leads;
    LeadsOn(s, limit, true, t, Work(true));
  }

  /** A worker that has seen the slot of an event in a lookup finishes with it. */
  lemma Finish(s: State, limit: nat, t: State, y: nat, stride: nat)
    requires Leads(s, limit, true, t) && t.worker == Seen(y, ByLookup(stride)) && y in t.live
    ensures var slot := if t.creation == Published(y) then 0 else y;
      Leads(s, limit, true, t.(up := t.up - {slot}, worker := Idle, owed := t.owed - {y}))
  {
    hide Leads;
    var mode, slot := ByLookup(stride), if t.creation == Published(y) then 0 else y;
    Works(s, limit, t);
    Works(s, limit, t.(worker := Held(y, mode, true)));
    Works(s, limit, t.(up := t.up - {slot}, worker := Acked(y, mode, true)));
  }

  /** The event a targeted interrupt leads to if it is signaled: its id, or the next candidate after 0. */
  function Target(irq: Irq, limit: nat): nat { if irq.id > 0 then irq.id else Stride(irq, limit) }

  lemma LookupHits(s: State, limit: nat, y: nat)
    requires s.worker.Idle? && s.queue != [] && Targeted(s.queue[0], limit) && y == Target(s.queue[0], limit)
    requires s.creation.NoCreate? && y in s.up && y in s.live && 0 !in s.live
    ensures Leads(s, limit, true, s.(queue := s.queue[1..], up := s.up - {y}, owed := s.owed - {y}))
  {
    hide Leads, Stride;
    var irq := s.queue[0];
    var d := Stride(irq, limit);
    LeadsNowhere(s, limit, true);
    LeadsOn(s, limit, true, s, Take(true));
    var t := s.(queue := s.queue[1..], worker := At(irq.id, ByLookup(d)));
    if irq.id == 0 {
      Works(s, limit, t);
      if 0 in s.up {
        Works(s, limit, t.(worker := Seen(0, ByLookup(d))));
      }
      t := t.(worker := At(y, ByLookup(d)));
    }
    Works(s, limit, t);
    t := t.(worker := Seen(y, ByLookup(d)));
    Finish(s, limit, t, y, d);
    assert t.(up := t.up - {y}, worker := Idle, owed := t.owed - {y})
        == s.(queue := s.queue[1..], up := s.up - {y}, owed := s.owed - {y});
  }

  /** A create that is under way is completed. */
  lemma Completes(s: State, limit: nat)
    requires !s.creation.NoCreate? && s.worker.Idle?
    ensures Leads(s, limit, true, s.(up := s.up - {s.creation.id}, creation := NoCreate))
  {
    hide Leads;
    LeadsNowhere(s, limit, true);
    var t := s;
    if s.creation.Published? {
      LeadsOn(s, limit, true, s, Name);
      t := s.(creation := Named(s.creation.id));
    }
    LeadsOn(s, limit, true, t, Clear);
  }

  /** One signaled event too many, and every queued interrupt leads to an event. */
  ghost predicate Short(s: State, limit: nat) {
    && Base(s, limit) && s.worker.Idle? && s.creation.NoCreate?
    && Count(Signaled(s), limit) == Interrupts(s) + 1
    && forall irq <- s.queue :: Targeted(irq, limit)
  }

  /** A new event under an id that has none. */
  lemma NewEvent(s: State, limit: nat, y: nat)
    requires Short(s, limit) && 0 < y < limit && y !in s.live
    ensures var u := s.(live := s.live + {y}, up := s.up - {y});
      Leads(s, limit, true, u) && Short(u, limit)
  {
    hide Leads;
    LeadsNowhere(s, limit, true);
    LeadsOn(s, limit, true, s, Publish(y));
    var t := s.(live := s.live + {y}, creation := Published(y));
    Completes(t, limit);
    LeadsFurther(s, limit, true, t, t.(up := t.up - {y}, creation := NoCreate));
    assert Signaled(s.(live := s.live + {y}, up := s.up - {y})) == Signaled(s);
  }

  /** The first interrupt is spent on one event, after signaling it if need be. */
  lemma SpendOne(s: State, limit: nat) returns (t: State)
    requires Short(s, limit) && s.queue != []
    ensures Leads(s, limit, true, t) && Short(t, limit) && t.queue == s.queue[1..]
  {
    hide Leads;
    var irq := s.queue[0];
    assert irq in s.queue && Targeted(irq, limit);
    var y := Target(irq, limit);
    assert 0 < y < limit;
    LeadsNowhere(s, limit, true);
    var u := s;
    if y !in u.live {
      NewEvent(s, limit, y);
      u := u.(live := u.live + {y}, up := u.up - {y});
    }
    if y !in u.up {
      LeadsOn(s, limit, true, u, GpuWrite(y));
      var v := u.(up := u.up + {y}, flying := u.flying + 1, owed := u.owed + {y});
      assert Signaled(v) == Signaled(u) + {y};
      CountAdd(Signaled(u), y, limit);
      u := v;
    }
    LookupHits(u, limit, y);
    t := u.(queue := u.queue[1..], up := u.up - {y}, owed := u.owed - {y});
    assert Signaled(t) == Signaled(u) - {y};
    CountRemove(Signaled(u), y, limit);
    LeadsFurther(s, limit, true, u, t);
  }

  /** With no interrupt queued, one about to be raised is spent on an event signaled already. */
  lemma RaiseOne(s: State, limit: nat) returns (t: State)
    requires Short(s, limit) && s.queue == [] && s.flying > 0
    ensures Leads(s, limit, true, t) && Short(t, limit) && t.queue == [] && t.flying == s.flying - 1
  {
    hide Leads;
    var y := CountPositive(Signaled(s), limit);
    var irq := Irq(y, 32);
    LeadsNowhere(s, limit, true);
    LeadsOn(s, limit, true, s, Raise(irq));
    var u := s.(flying := s.flying - 1, queue := [irq]);
    assert s.queue + [irq] == [irq];
    LookupHits(u, limit, y);
    t := u.(queue := [], up := u.up - {y}, owed := u.owed - {y});
    assert u.queue[1..] == [];
    assert Signaled(t) == Signaled(s) - {y};
    CountRemove(Signaled(s), y, limit);
    LeadsFurther(s, limit, true, u, t);
  }

  /** From such a state the run can go on to strand an event. */
  lemma {:induction false} ShortStrands(s: State, limit: nat) returns (t: State)
    requires Short(s, limit)
    ensures Leads(s, limit, true, t) && Stranded(t)
    decreases |s.queue|, s.flying
  {
    hide Leads, Base;
    if s.queue != [] {
      var u := SpendOne(s, limit);
      t := ShortStrands(u, limit);
      LeadsFurther(s, limit, true, u, t);
    } else if s.flying > 0 {
      var u := RaiseOne(s, limit);
      t := ShortStrands(u, limit);
      LeadsFurther(s, limit, true, u, t);
    } else {
      LeadsNowhere(s, limit, true);
      var y := CountPositive(Signaled(s), limit);
      t := s;
      assert y in t.up * t.live;
    }
  }

  /** A lookup that has met an event under creation wastes its interrupt on it. */
  lemma WastedStrands(s: State, limit: nat, id: nat, stride: nat) returns (t: State)
    requires Base(s, limit) && s.worker == Seen(id, ByLookup(stride)) && id in Creating(s)
    requires Count(Signaled(s), limit) == Interrupts(s) + 1 && !ScanToCome(s, limit)
    ensures Leads(s, limit, true, t) && Stranded(t)
  {
    hide Leads;
    var slot := if s.creation == Published(id) then 0 else id;
    LeadsNowhere(s, limit, true);
    Finish(s, limit, s, id, stride);
    var u := s.(up := s.up - {slot}, worker := Idle, owed := s.owed - {id});
    Completes(u, limit);
    var v := u.(up := u.up - {id}, creation := NoCreate);
    LeadsFurther(s, limit, true, u, v);
    assert Signaled(v) == Signaled(s);
    t := ShortStrands(v, limit);
    LeadsFurther(s, limit, true, v, t);
  }

  /** From every state that satisfies the invariant, a step that is not harmless has such a continuation. */
  lemma HarmfulStepStrands(s: State, limit: nat, a: Action) returns (t: State)
    requires Inv(s, limit) && Enabled(s, limit, a) && !Harmless(s, limit, a)
    ensures Leads(Step(s, limit, a), limit, true, t) && Stranded(t)
  {
    hide Leads, Stranded;
    var c := Step(s, limit, a);
    BaseKeeps(s, limit, a);
    assert Signaled(c) == Signaled(s);
    t := WastedStrands(c, limit, s.worker.id, s.worker.mode.stride);
  }

  /** Harmless steps never leave the invariant, and no state that satisfies it is stranded. */
  lemma {:induction false} CalmKeepsInv(s: State, limit: nat, actions: seq<Action>, t: State)
    requires Inv(s, limit) && After(s, limit, true, actions) == Some(t)
    ensures Inv(t, limit)
    decreases |actions|
  {
    hide Inv, Enabled, Step, Harmless;
    if actions != [] {
      var n := |actions| - 1;
      var u := After(s, limit, true, actions[..n]).value;
      CalmKeepsInv(s, limit, actions[..n], u);
      StepKeeps(u, limit, actions[n]);
    }
  }

  /**
    The exact condition: from every state that satisfies the invariant, a step is harmless
    if and only if nothing that can happen afterwards, short of another harmful step, leaves
    an event signaled with no interrupt to come.
   */
  lemma StepSafeIff(s: State, limit: nat, a: Action)
    requires Inv(s, limit) && Enabled(s, limit, a)
    ensures Harmless(s, limit, a) <==> forall t :: Leads(Step(s, limit, a), limit, true, t) ==> !Stranded(t)
  {
    hide Inv, Enabled, Step, Harmless, Stranded, After;
    var c := Step(s, limit, a);
    if Harmless(s, limit, a) {
      StepKeeps(s, limit, a);
      forall t | Leads(c, limit, true, t) ensures !Stranded(t) {
        var actions :| After(c, limit, true, actions) == Some(t);
        CalmKeepsInv(c, limit, actions, t);
        InvNotStranded(t, limit);
      }
    } else {
      var t := HarmfulStepStrands(s, limit, a);
    }
  }

  // ----- a write that is not fresh is lost

  /** Signaled and not set, with nothing left that would lead the driver to it but its predecessor. */
  ghost predicate Lost(s: State, id: nat) {
    && id in s.owed
    && var w := s.worker;
       if w.Fetched? && w.id == id then !w.mine || id !in s.up
       else if w.Held? && w.id == id then !w.mine
       else if w.Acked? && w.id == id then !w.mine && id !in s.up
       else id !in s.up && !(w.Seen? && w.id == id)
  }

  lemma StaleWriteLoses(s: State, limit: nat, id: nat)
    requires Base(s, limit) && Enabled(s, limit, GpuWrite(id)) && !Fresh(s, GpuWrite(id))
    ensures Lost(Step(s, limit, GpuWrite(id)), id)
  {
  }

  /** It stays lost whatever happens, until the GPU signals again or the event is destroyed. */
  lemma LostStays(s: State, limit: nat, id: nat, a: Action)
    requires Base(s, limit) && Lost(s, id) && Enabled(s, limit, a) && a != GpuWrite(id) && a != DestroyEvent(id)
    ensures Lost(Step(s, limit, a), id)
  {
  }

  lemma {:induction false} LostForever(s: State, limit: nat, id: nat, actions: seq<Action>)
    requires Base(s, limit) && Lost(s, id) && After(s, limit, false, actions).Some?
    requires forall a <- actions :: a != GpuWrite(id) && a != DestroyEvent(id)
    ensures var t := After(s, limit, false, actions).value;
      Base(t, limit) && Lost(t, id)
    decreases |actions|
  {
    hide Base, Lost, Enabled, Step;
    if actions != [] {
      var n := |actions| - 1;
      assert actions[n] in actions && forall a <- actions[..n] :: a in actions;
      LostForever(s, limit, id, actions[..n]);
      var t := After(s, limit, false, actions[..n]).value;
      BaseKeeps(t, limit, actions[n]);
      LostStays(t, limit, id, actions[n]);
    }
  }

  /**
    Why every write has to be fresh: after any other write, no continuation in which the GPU
    does not signal again and the event is not destroyed ever sets the event, and once the
    worker is idle its slot is not signaled either.
   */
  lemma StaleWriteIsLost(s: State, limit: nat, id: nat, actions: seq<Action>)
    requires Base(s, limit) && Enabled(s, limit, GpuWrite(id)) && !Fresh(s, GpuWrite(id))
    requires forall a <- actions :: a != GpuWrite(id) && a != DestroyEvent(id)
    ensures var t := After(Step(s, limit, GpuWrite(id)), limit, false, actions);
      t.Some? ==> id in t.value.owed && id in Ready(t.value) && (t.value.worker.Idle? ==> id !in t.value.up)
  {
    hide After;
    var c := Step(s, limit, GpuWrite(id));
    StaleWriteLoses(s, limit, id);
    BaseKeeps(s, limit, GpuWrite(id));
    if After(c, limit, false, actions).Some? {
      LostForever(c, limit, id, actions);
    }
  }

  // ----- runs that do it

  lemma GoOn(s: State, a: Action, t: State)
    requires Leads(Init, 4, true, s) && Enabled(s, 4, a) && !Meets(s, a)
    requires var r := Step(s, 4, a);
      r.up == t.up && r.live == t.live && r.owed == t.owed && r.(up := t.up, live := t.live, owed := t.owed) == t
    ensures Leads(Init, 4, true, t)
  {
    hide Leads;
    LeadsOn(Init, 4, true, s, a);
  }

  /** An event is created, its slot being clear or not. */
  lemma Creates(s: State, id: nat, up: set<nat>, live: set<nat>)
    requires Leads(Init, 4, true, s) && s.worker.Idle? && s.creation.NoCreate? && 0 < id < 4 && id !in s.live
    requires live == s.live + {id} && up == s.up - {id}
    ensures Leads(Init, 4, true, s.(live := live, up := up))
  {
    hide Leads;
    GoOn(s, Publish(id), s.(live := live, creation := Published(id)));
    GoOn(s.(live := live, creation := Published(id)), Name, s.(live := live, creation := Named(id)));
    GoOn(s.(live := live, creation := Named(id)), Clear, s.(live := live, up := up));
  }

  /** The worker looks for event 3 and is about to read the slot of id 1, stale and without an event. */
  const Before := State({1, 3}, {3}, NoCreate, 0, [], At(1, ByLookup(2)), {3})

  /** Event 1 is under creation, and the worker has read its slot. */
  const Met := State({1, 3}, {1, 3}, Published(1), 0, [], Seen(1, ByLookup(2)), {3})

  /** An interrupt without an id makes the worker walk the id table. */
  lemma StartsWalk(s: State)
    requires Leads(Init, 4, true, s.(flying := 1)) && s == s.(flying := 0, queue := [], worker := Idle)
    requires forall id <- s.live :: 0 < id
    ensures Leads(Init, 4, true, s.(worker := At(1, ByIdr)))
  {
    hide Leads;
    GoOn(s.(flying := 1), Raise(Irq(0, 0)), s.(queue := [Irq(0, 0)]));
    GoOn(s.(queue := [Irq(0, 0)]), Take(true), s.(worker := At(0, ByIdr)));
    GoOn(s.(worker := At(0, ByIdr)), Work(true), s.(worker := At(1, ByIdr)));
  }

  /** A slot without an event stays signaled. */
  lemma StaleSlot()
    ensures Leads(Init, 4, true, State({1}, {3}, NoCreate, 0, [], Idle, {}))
  {
    hide Leads;
    LeadsNowhere(Init, 4, true);
    Creates(Init, 3, {}, {3});
    var s := State({1}, {3}, NoCreate, 0, [], Idle, {});
    GoOn(State({}, {3}, NoCreate, 0, [], Idle, {}), GpuWrite(1), s.(flying := 1));
    StartsWalk(s);
    GoOn(s.(worker := At(1, ByIdr)), Work(true), s.(worker := At(2, ByIdr)));
    GoOn(s.(worker := At(2, ByIdr)), Work(true), s.(worker := At(3, ByIdr)));
    GoOn(s.(worker := At(3, ByIdr)), Work(true), s.(worker := Fetched(3, true)));
    GoOn(s.(worker := Fetched(3, true)), Work(true), s);
  }

  /** The worker comes to it, looking for event 3. */
  lemma StaleSlotAhead()
    ensures Leads(Init, 4, true, Before)
  {
    hide Leads;
    StaleSlot();
    assert Pow2(1) == 2 by { assert Pow2(0) == 1; }
    var s := State({1, 3}, {3}, NoCreate, 0, [], Idle, {3});
    GoOn(State({1}, {3}, NoCreate, 0, [], Idle, {}), GpuWrite(3), s.(flying := 1));
    GoOn(s.(flying := 1), Raise(Irq(1, 1)), s.(queue := [Irq(1, 1)]));
    GoOn(s.(queue := [Irq(1, 1)]), Take(true), Before);
  }

  /**
    An event created under an id whose stale slot a lookup meets takes the interrupt of
    another event, whether the slot is read first or the id is published first: runs from
    the initial state that strand event 3.
   */
  lemma CreateMetStrands() returns (t: State)
    ensures Leads(Init, 4, true, Before)
    ensures Step(Step(Before, 4, Work(true)), 4, Publish(1)) == Met == Step(Step(Before, 4, Publish(1)), 4, Work(true))
    ensures Leads(Met, 4, true, t) && Stranded(t) && 3 in t.up && 3 in t.live && 3 in t.owed
  {
    hide Leads;
    StaleSlotAhead();
    LeadsNowhere(Met, 4, true);
    Finish(Met, 4, Met, 1, 2);
    var u := Met.(up := Met.up - {0}, worker := Idle, owed := Met.owed - {1});
    Completes(u, 4);
    t := u.(up := u.up - {1}, creation := NoCreate);
    LeadsFurther(Met, 4, true, u, t);
    assert 3 in t.up * Ready(t);
  }

  /** The walk has fetched event 1 when it is destroyed. */
  lemma StaleFetch()
    ensures Leads(Init, 4, true, State({1}, {}, NoCreate, 0, [], Fetched(1, false), {}))
  {
    hide Leads;
    LeadsNowhere(Init, 4, true);
    Creates(Init, 1, {}, {1});
    var s := State({1}, {1}, NoCreate, 0, [], Idle, {1});
    GoOn(State({}, {1}, NoCreate, 0, [], Idle, {}), GpuWrite(1), s.(flying := 1));
    StartsWalk(s);
    GoOn(s.(worker := At(1, ByIdr)), Work(true), s.(worker := Fetched(1, true)));
    GoOn(s.(worker := Fetched(1, true)), DestroyEvent(1), State({1}, {}, NoCreate, 0, [], Fetched(1, false), {}));
  }

  /** Meanwhile another event is created under its id and signaled. */
  lemma StaleFetchWritten()
    ensures Leads(Init, 4, true, State({1}, {1}, NoCreate, 1, [], Fetched(1, false), {1}))
  {
    hide Leads;
    StaleFetch();
    var f := State({1}, {}, NoCreate, 0, [], Fetched(1, false), {});
    GoOn(f, Publish(1), f.(live := {1}, creation := Published(1)));
    GoOn(f.(live := {1}, creation := Published(1)), Name, f.(live := {1}, creation := Named(1)));
    GoOn(f.(live := {1}, creation := Named(1)), Clear, f.(live := {1}, up := {}));
    GoOn(f.(live := {1}, up := {}), GpuWrite(1), State({1}, {1}, NoCreate, 1, [], Fetched(1, false), {1}));
  }

  /** The worker then clears the slot and sets the old event. */
  lemma StaleFetchSet()
    ensures Leads(Init, 4, true, State({}, {1}, NoCreate, 1, [], Idle, {1}))
  {
    hide Leads;
    StaleFetchWritten();
    var s := State({1}, {1}, NoCreate, 1, [], Fetched(1, false), {1});
    var t := State({}, {1}, NoCreate, 1, [], Idle, {1});
    GoOn(s, Work(true), s.(worker := Held(1, ByIdr, false)));
    GoOn(s.(worker := Held(1, ByIdr, false)), Work(true), t.(worker := Acked(1, ByIdr, false)));
    GoOn(t.(worker := Acked(1, ByIdr, false)), Work(true), t.(worker := At(2, ByIdr)));
    GoOn(t.(worker := At(2, ByIdr)), Work(true), t.(worker := At(3, ByIdr)));
    GoOn(t.(worker := At(3, ByIdr)), Work(true), t);
  }

  /**
    No event is created over a slot that a lookup meets, every interrupt has been taken, and
    yet event 1, signaled by the GPU, was never set: a run from the initial state.
   */
  lemma StaleFetchLoses()
    ensures Leads(Init, 4, true, State({}, {1}, NoCreate, 0, [], Idle, {1}))
  {
    hide Leads;
    StaleFetchSet();
    var u := State({}, {1}, NoCreate, 0, [], Idle, {1});
    assert u.(flying := 1) == State({}, {1}, NoCreate, 1, [], Idle, {1});
    StartsWalk(u);
    GoOn(u.(worker := At(1, ByIdr)), Work(true), u.(worker := Fetched(1, true)));
    GoOn(u.(worker := Fetched(1, true)), Work(true), u.(worker := At(2, ByIdr)));
    GoOn(u.(worker := At(2, ByIdr)), Work(true), u.(worker := At(3, ByIdr)));
    GoOn(u.(worker := At(3, ByIdr)), Work(true), u);
  }
}

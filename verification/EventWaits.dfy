/**
  Events and the waits on them. A wait registers one waiter per event under the event
  mutex; setting an event latches every waiter on its queue; a woken waiter may or may
  not have been taken off the queue by the wake-up; and an interrupted system call gives
  back the auto-reset signals it consumed.
 */
module EventWaits {
  import opened Arithmetic
  import opened Basics

  /** Kinds that matter here: only signal events have an age, signal and debug events a slot. */
  datatype Kind = Signal | Debug | Exception

  datatype Event = Event(kind: Kind, autoReset: bool, signaled: bool, age: nat, wq: set<nat>)

  /** `event` becomes None when the event is destroyed under the waiter. */
  datatype Waiter = Waiter(event: Option<nat>, activated: bool, ageEnabled: bool)

  datatype State = State(events: map<nat, Event>, waiters: map<nat, Waiter>)

  // ----- operations, each under the event's lock

  /** Ages 0 and 1 are reserved, so the counter wraps to 2. */
  function NextAge(age: nat): (r: nat)
    ensures age < TWO64 ==> 0 < r < TWO64
  {
    if age + 1 == TWO64 then 2 else age + 1
  }

  /** set_event; `woken` are the waiters the wake-up took off the queue. */
  function SetEvent(s: State, e: nat, woken: set<nat>): State
    requires e in s.events
  {
    var ev := s.events[e];
    State(s.events[e := ev.(signaled := !ev.autoReset || ev.wq == {}, age := NextAge(ev.age), wq := ev.wq - woken)],
          map w | w in s.waiters :: if w in ev.wq then s.waiters[w].(activated := true) else s.waiters[w])
  }

  function ResetEvent(s: State, e: nat): State
    requires e in s.events
  {
    s.(events := s.events[e := s.events[e].(signaled := false)])
  }

  predicate AgeDiffers(ev: Event, lastAge: nat) {
    ev.kind == Signal && lastAge != 0 && ev.age != lastAge
  }

  /** init_event_waiter */
  function Register(s: State, w: nat, e: nat, lastAge: nat): State
    requires e in s.events
  {
    var ev := s.events[e];
    var activated := ev.signaled || AgeDiffers(ev, lastAge);
    State(s.events[e := ev.(signaled := ev.signaled && !ev.autoReset,
                            wq := if activated then ev.wq else ev.wq + {w})],
          s.waiters[w := Waiter(Some(e), activated, ev.kind == Signal && lastAge != 0)])
  }

  /** One turn of the loop in free_waiters. The waiter is not looked at again. */
  function Unregister(s: State, w: nat, undo: bool, woken: set<nat>): State
    requires w in s.waiters
  {
    var x := s.waiters[w];
    var s1 := s.(waiters := s.waiters - {w});
    if x.event.None? || x.event.value !in s.events then s1
    else
      var e := x.event.value;
      var s2 := s1.(events := s1.events[e := s1.events[e].(wq := s1.events[e].wq - {w})]);
      if undo && x.activated && s2.events[e].autoReset then SetEvent(s2, e, woken) else s2
  }

  function Create(s: State, e: nat, kind: Kind, autoReset: bool): State {
    s.(events := s.events[e := Event(kind, autoReset, false, 1, {})])
  }

  /** destroy_event: waiters on the queue lose their event. */
  function Destroy(s: State, e: nat): State
    requires e in s.events
  {
    var wq := s.events[e].wq;
    State(s.events - {e},
          map w | w in s.waiters :: if w in wq then s.waiters[w].(event := None) else s.waiters[w])
  }

  // ----- actions

  datatype Action =
    | CreateEvent(e: nat, kind: Kind, autoReset: bool)
    | DestroyEvent(e: nat)
    | Set(e: nat, woken: set<nat>)
    | Reset(e: nat)
    | Wait(w: nat, e: nat, lastAge: nat)
    | Leave(w: nat, undo: bool, woken: set<nat>)

  predicate Enabled(s: State, a: Action) {
    match a
    case CreateEvent(e, _, _) => e !in s.events && forall w <- s.waiters :: s.waiters[w].event != Some(e)
    case DestroyEvent(e) => e in s.events
    case Set(e, _) => e in s.events
    case Reset(e) => e in s.events
    case Wait(w, e, _) => e in s.events && w !in s.waiters
    case Leave(w, _, _) => w in s.waiters
  }

  function Step(s: State, a: Action): State
    requires Enabled(s, a)
  {
    match a
    case CreateEvent(e, kind, autoReset) => Create(s, e, kind, autoReset)
    case DestroyEvent(e) => Destroy(s, e)
    case Set(e, woken) => SetEvent(s, e, woken)
    case Reset(e) => ResetEvent(s, e)
    case Wait(w, e, lastAge) => Register(s, w, e, lastAge)
    case Leave(w, undo, woken) => Unregister(s, w, undo, woken)
  }

  // ----- invariant: a waiter that is not activated is on its event's queue

  ghost predicate Queued(s: State, e: nat)
    requires e in s.events
  {
    forall w <- s.events[e].wq :: w in s.waiters && s.waiters[w].event == Some(e)
  }

  ghost predicate Reachable(s: State, w: nat)
    requires w in s.waiters
  {
    var x := s.waiters[w];
    x.event.Some? && !x.activated ==> x.event.value in s.events && w in s.events[x.event.value].wq
  }

  ghost predicate Inv(s: State) {
    && (forall e <- s.events :: Queued(s, e))
    && (forall w <- s.waiters :: Reachable(s, w))
  }

  lemma SetKeeps(s: State, e: nat, woken: set<nat>)
    requires Inv(s) && e in s.events
    ensures Inv(SetEvent(s, e, woken))
  {
    var t := SetEvent(s, e, woken);
    forall f | f in t.events ensures Queued(t, f) {
      assert Queued(s, f);
    }
    forall w | w in t.waiters ensures Reachable(t, w) {
      assert Reachable(s, w);
    }
  }

  /** Taking a waiter out of the table and off its queue. */
  lemma DropKeeps(s: State, w: nat)
    requires Inv(s) && w in s.waiters
    ensures Inv(Unregister(s, w, false, {}))
  {
    var t := Unregister(s, w, false, {});
    forall f | f in t.events ensures Queued(t, f) {
      assert Queued(s, f);
    }
    forall v | v in t.waiters ensures Reachable(t, v) {
      assert Reachable(s, v);
    }
  }

  lemma UnregisterKeeps(s: State, w: nat, undo: bool, woken: set<nat>)
    requires Inv(s) && w in s.waiters
    ensures Inv(Unregister(s, w, undo, woken))
  {
    DropKeeps(s, w);
    var x := s.waiters[w];
    if x.event.Some? && x.event.value in s.events && undo && x.activated {
      SetKeeps(Unregister(s, w, false, {}), x.event.value, woken);
    }
  }

  lemma StepKeeps(s: State, a: Action)
    requires Inv(s) && Enabled(s, a)
    ensures Inv(Step(s, a))
  {
    match a
    case Set(e, woken) => SetKeeps(s, e, woken);
    case Leave(w, undo, woken) => UnregisterKeeps(s, w, undo, woken);
    case _ =>
      var t := Step(s, a);
      forall f | f in t.events ensures Queued(t, f) {
        assert f in s.events ==> Queued(s, f);
      }
      forall w | w in t.waiters ensures Reachable(t, w) {
        assert w in s.waiters ==> Reachable(s, w);
      }
  }

  // ----- runs

  ghost predicate Run(states: seq<State>, actions: seq<Action>) {
    && |states| == |actions| + 1
    && states[0] == State(map[], map[])
    && forall i :: 0 <= i < |actions| ==> Enabled(states[i], actions[i]) && states[i + 1] == Step(states[i], actions[i])
  }

  lemma {:induction false} RunsKeepInv(states: seq<State>, actions: seq<Action>, n: nat)
    requires Run(states, actions) && n < |states|
    ensures Inv(states[n])
  {
    if n > 0 {
      RunsKeepInv(states, actions, n - 1);
      StepKeeps(states[n - 1], actions[n - 1]);
    }
  }

  /** Whether a step sets the event: directly, or by giving an auto-reset signal back. */
  predicate Sets(s: State, a: Action, e: nat)
    requires Enabled(s, a)
  {
    match a
    case Set(f, _) => f == e
    case Leave(w, undo, _) =>
      undo && s.waiters[w].activated && s.waiters[w].event == Some(e) && e in s.events && s.events[e].autoReset
    case _ => false
  }

  /** One step moves a waiter's latch exactly when it sets the event it waits for. */
  lemma StepActivates(s: State, a: Action, w: nat, e: nat)
    requires Inv(s) && Enabled(s, a) && w in s.waiters && s.waiters[w].event == Some(e) && e in s.events
    requires a != DestroyEvent(e) && !(a.Leave? && a.w == w)
    ensures var t := Step(s, a);
      && w in t.waiters && t.waiters[w].event == Some(e) && e in t.events
      && t.waiters[w].activated == (s.waiters[w].activated || Sets(s, a, e))
  {
    assert Reachable(s, w);
    assert forall f <- s.events :: Queued(s, f);
  }

  /**
    Exact activation: over every interleaving in which the event is not destroyed and the
    wait has not ended, a waiter is activated if and only if the event was signaled when
    it registered, or its age differed from a non-zero last seen age, or some later step
    set the event.
   */
  lemma {:induction false} ExactActivation(states: seq<State>, actions: seq<Action>, i: nat, n: nat)
    requires Run(states, actions) && i < n < |states| && actions[i].Wait?
    requires forall k :: i < k < n ==>
      actions[k] != DestroyEvent(actions[i].e) && !(actions[k].Leave? && actions[k].w == actions[i].w)
    ensures var w, e := actions[i].w, actions[i].e;
      && w in states[n].waiters && states[n].waiters[w].event == Some(e) && e in states[n].events
      && (states[n].waiters[w].activated <==>
          || states[i].events[e].signaled
          || AgeDiffers(states[i].events[e], actions[i].lastAge)
          || exists k :: i < k < n && Sets(states[k], actions[k], e))
    decreases n
  {
    hide Inv, Sets;
    if n > i + 1 {
      ExactActivation(states, actions, i, n - 1);
      RunsKeepInv(states, actions, n - 1);
      StepActivates(states[n - 1], actions[n - 1], actions[i].w, actions[i].e);
    }
  }

  // ----- the condition a wait tests

  datatype WaitResult = Complete | Timeout | Fail

  /** test_event_condition, with its verdict stated over all waiters of the call. */
  method TestEventCondition(all: bool, ws: seq<Waiter>) returns (r: WaitResult)
    ensures all ==>
      && (r == Fail <==> exists i :: 0 <= i < |ws| && ws[i].event.None?)
      && (r == Complete <==> forall i :: 0 <= i < |ws| ==> ws[i].event.Some? && ws[i].activated)
    ensures !all ==>
      && (r == Complete <==> ws == [] || exists i :: 0 <= i < |ws| && ws[i].activated && ws[i].event.Some?
                                             && forall j :: 0 <= j < i ==> ws[j].event.Some?)
      && (r == Fail <==> exists i :: 0 <= i < |ws| && ws[i].event.None?
                                 && forall j :: 0 <= j < i ==> ws[j].event.Some? && !ws[j].activated)
  {
    var count := 0;
    for i := 0 to |ws|
      invariant 0 <= count <= i
      invariant forall j :: 0 <= j < i ==> ws[j].event.Some?
      invariant !all ==> count == 0 && forall j :: 0 <= j < i ==> !ws[j].activated
      invariant count == i <==> forall j :: 0 <= j < i ==> ws[j].activated
    {
      if ws[i].event.None? {
        return Fail;
      }
      if ws[i].activated {
        if !all {
          return Complete;
        }
        count := count + 1;
      }
    }
    return if count == |ws| then Complete else Timeout;
  }

  // ----- an interrupted wait gives its signals back

  /** What other threads may do meanwhile: free_waiters holds the event mutex, but these do not need it. */
  datatype Op = OpSet(e: nat, woken: set<nat>) | OpReset(e: nat)

  type Interference = seq<Op>

  function Apply(s: State, op: Op): State {
    if op.e !in s.events then s
    else match op
      case OpSet(e, woken) => SetEvent(s, e, woken)
      case OpReset(e) => ResetEvent(s, e)
  }

  /** No waiter comes, goes, changes its event or is deactivated. */
  ghost predicate Carries(s: State, t: State) {
    && t.events.Keys == s.events.Keys
    && (forall e <- t.events :: t.events[e].autoReset == s.events[e].autoReset)
    && (forall w <- t.waiters ::
          && w in s.waiters && t.waiters[w].event == s.waiters[w].event
          && (s.waiters[w].activated ==> t.waiters[w].activated))
  }

  function Interfere(s: State, xs: Interference): (r: State)
    ensures r.waiters.Keys == s.waiters.Keys && r.events.Keys == s.events.Keys
    decreases |xs|
  {
    if xs == [] then s else Apply(Interfere(s, xs[..|xs| - 1]), xs[|xs| - 1])
  }

  lemma UnregisterKeys(s: State, w: nat, undo: bool, woken: set<nat>)
    requires w in s.waiters
    ensures var r := Unregister(s, w, undo, woken);
      r.waiters.Keys == s.waiters.Keys - {w} && r.events.Keys == s.events.Keys
  {
  }

  /** free_waiters, with interference before every turn of its loop. */
  function FreeWaiters(s: State, ws: seq<nat>, undo: bool, env: seq<Interference>, woken: seq<set<nat>>): (r: State)
    requires |env| == |ws| == |woken| && Distinct(ws) && forall w <- ws :: w in s.waiters
    ensures r.waiters.Keys == s.waiters.Keys - (set w | w in ws) && r.events.Keys == s.events.Keys
  {
    hide Unregister, Interfere;
    if ws == [] then s
    else
      var n := |ws| - 1;
      var t := Interfere(FreeWaiters(s, ws[..n], undo, env[..n], woken[..n]), env[n]);
      assert ws[n] in t.waiters;
      assert (set w | w in ws) == (set w | w in ws[..n]) + {ws[n]};
      UnregisterKeys(t, ws[n], undo, woken[n]);
      Unregister(t, ws[n], undo, woken[n])
  }

  lemma FreeLast(s: State, ws: seq<nat>, undo: bool, env: seq<Interference>, woken: seq<set<nat>>)
    requires |env| == |ws| == |woken| && Distinct(ws) && (forall w <- ws :: w in s.waiters) && ws != []
    ensures var n := |ws| - 1;
      var t := Interfere(FreeWaiters(s, ws[..n], undo, env[..n], woken[..n]), env[n]);
      ws[n] in t.waiters && FreeWaiters(s, ws, undo, env, woken) == Unregister(t, ws[n], undo, woken[n])
  {
    hide Unregister, Interfere;
    var n := |ws| - 1;
    assert ws[n] !in (set w | w in ws[..n]);
  }

  lemma FreeNone(s: State, undo: bool)
    ensures FreeWaiters(s, [], undo, [], []) == s
  {
  }

  lemma FreeNext(s: State, ws: seq<nat>, undo: bool, env: seq<Interference>, woken: seq<set<nat>>, k: nat)
    requires |env| == |ws| == |woken| && Distinct(ws) && (forall w <- ws :: w in s.waiters) && k < |ws|
    ensures var t := Interfere(FreeWaiters(s, ws[..k], undo, env[..k], woken[..k]), env[k]);
      && ws[k] in t.waiters
      && FreeWaiters(s, ws[..k + 1], undo, env[..k + 1], woken[..k + 1]) == Unregister(t, ws[k], undo, woken[k])
    ensures forall m :: k <= m < |ws| ==> ws[m] in FreeWaiters(s, ws[..k], undo, env[..k], woken[..k]).waiters
  {
    hide Unregister, Interfere;
    assert ws[..k + 1][..k] == ws[..k] && env[..k + 1][..k] == env[..k] && woken[..k + 1][..k] == woken[..k];
    forall m | k <= m < |ws| ensures ws[m] in FreeWaiters(s, ws[..k], undo, env[..k], woken[..k]).waiters {
      assert ws[m] !in (set w | w in ws[..k]);
    }
  }

  lemma CarriesOn(s: State, t: State, u: State)
    requires Carries(s, t) && Carries(t, u)
    ensures Carries(s, u)
  {
  }

  lemma ApplyCarries(s: State, op: Op)
    ensures Carries(s, Apply(s, op))
  {
  }

  lemma UnregisterCarries(s: State, w: nat, undo: bool, woken: set<nat>)
    requires w in s.waiters
    ensures Carries(s, Unregister(s, w, undo, woken))
  {
  }

  lemma {:induction false} InterfereCarries(s: State, xs: Interference)
    ensures Carries(s, Interfere(s, xs))
  {
    hide Apply;
    if xs != [] {
      var t := Interfere(s, xs[..|xs| - 1]);
      InterfereCarries(s, xs[..|xs| - 1]);
      ApplyCarries(t, xs[|xs| - 1]);
      CarriesOn(s, t, Apply(t, xs[|xs| - 1]));
    }
  }

  lemma {:induction false} FreeCarries(s: State, ws: seq<nat>, undo: bool, env: seq<Interference>, woken: seq<set<nat>>)
    requires |env| == |ws| == |woken| && Distinct(ws) && forall w <- ws :: w in s.waiters
    ensures Carries(s, FreeWaiters(s, ws, undo, env, woken))
  {
    hide Unregister, Interfere, Carries, FreeWaiters;
    if ws == [] {
      FreeEmpty(s, undo);
    } else {
      FreeLast(s, ws, undo, env, woken);
      var n := |ws| - 1;
      var t := FreeWaiters(s, ws[..n], undo, env[..n], woken[..n]);
      var u := Interfere(t, env[n]);
      FreeCarries(s, ws[..n], undo, env[..n], woken[..n]);
      InterfereCarries(t, env[n]);
      CarriesOn(s, t, u);
      UnregisterCarries(u, ws[n], undo, woken[n]);
      CarriesOn(s, u, Unregister(u, ws[n], undo, woken[n]));
    }
  }

  lemma FreeEmpty(s: State, undo: bool)
    ensures FreeWaiters(s, [], undo, [], []) == s && Carries(s, s)
  {
  }

  // what happens to one event during interference

  predicate Touches(xs: Interference, e: nat) { exists op <- xs :: op.e == e }

  /** The last thing done to the event is a reset. */
  predicate EndsReset(xs: Interference, e: nat) {
    xs != [] && if xs[|xs| - 1].e == e then xs[|xs| - 1].OpReset? else EndsReset(xs[..|xs| - 1], e)
  }

  predicate TailReset(env: seq<Interference>, e: nat) {
    env != [] && if Touches(env[|env| - 1], e) then EndsReset(env[|env| - 1], e) else TailReset(env[..|env| - 1], e)
  }

  /** The event's age after the sets of others. */
  function Ages(age: nat, xs: Interference, e: nat): nat {
    if xs == [] then age
    else
      var a := Ages(age, xs[..|xs| - 1], e);
      if xs[|xs| - 1].OpSet? && xs[|xs| - 1].e == e then NextAge(a) else a
  }

  function AgesAll(age: nat, env: seq<Interference>, e: nat): nat {
    if env == [] then age else Ages(AgesAll(age, env[..|env| - 1], e), env[|env| - 1], e)
  }

  /** The signal is not lost: the event is signaled, or some waiter has it. */
  ghost predicate Accounted(s: State, e: nat) {
    && e in s.events && s.events[e].autoReset
    && (s.events[e].signaled || exists v <- s.waiters :: s.waiters[v].event == Some(e) && s.waiters[v].activated)
  }

  lemma SetAccounts(s: State, e: nat, woken: set<nat>, f: nat)
    requires Inv(s) && e in s.events && f in s.events && s.events[f].autoReset
    requires e == f || Accounted(s, f)
    ensures Accounted(SetEvent(s, e, woken), f)
  {
    var t := SetEvent(s, e, woken);
    if e == f && s.events[e].wq != {} {
      var v :| v in s.events[e].wq;
      assert Queued(s, e);
      assert t.waiters[v].event == Some(e) && t.waiters[v].activated;
    } else if e != f && !s.events[f].signaled {
      var v :| v in s.waiters && s.waiters[v].event == Some(f) && s.waiters[v].activated;
      assert t.waiters[v].event == Some(f) && t.waiters[v].activated;
    }
  }

  lemma ApplyKeeps(s: State, op: Op)
    requires Inv(s)
    ensures Inv(Apply(s, op))
  {
    if op.e in s.events {
      StepKeeps(s, if op.OpSet? then Set(op.e, op.woken) else Reset(op.e));
    }
  }

  lemma {:induction false} InterfereKeeps(s: State, xs: Interference)
    requires Inv(s)
    ensures Inv(Interfere(s, xs))
  {
    if xs != [] {
      InterfereKeeps(s, xs[..|xs| - 1]);
      ApplyKeeps(Interfere(s, xs[..|xs| - 1]), xs[|xs| - 1]);
    }
  }

  lemma {:induction false} FreeKeeps(s: State, ws: seq<nat>, undo: bool, env: seq<Interference>, woken: seq<set<nat>>)
    requires |env| == |ws| == |woken| && Distinct(ws) && forall w <- ws :: w in s.waiters
    requires Inv(s)
    ensures Inv(FreeWaiters(s, ws, undo, env, woken))
  {
    hide Inv, Unregister, Interfere, FreeWaiters;
    if ws == [] {
      FreeNone(s, undo);
    } else {
      FreeLast(s, ws, undo, env, woken);
      var n := |ws| - 1;
      var t := FreeWaiters(s, ws[..n], undo, env[..n], woken[..n]);
      FreeKeeps(s, ws[..n], undo, env[..n], woken[..n]);
      InterfereKeeps(t, env[n]);
      UnregisterKeeps(Interfere(t, env[n]), ws[n], undo, woken[n]);
    }
  }

  /** Interference that ends with a reset leaves the event down; otherwise it loses nothing. */
  lemma {:induction false} InterfereEnds(s: State, xs: Interference, e: nat)
    requires Inv(s) && e in s.events && s.events[e].autoReset
    ensures var t := Interfere(s, xs);
      && e in t.events && t.events[e].autoReset
      && (EndsReset(xs, e) ==> !t.events[e].signaled)
      && (Touches(xs, e) && !EndsReset(xs, e) ==> Accounted(t, e))
      && (!Touches(xs, e) ==> t.events[e].signaled == s.events[e].signaled && (Accounted(s, e) ==> Accounted(t, e)))
  {
    if xs != [] {
      var ys, op := xs[..|xs| - 1], xs[|xs| - 1];
      var t := Interfere(s, ys);
      InterfereEnds(s, ys, e);
      InterfereKeeps(s, ys);
      assert op in xs && forall y <- ys :: y in xs;
      assert forall x <- xs :: x in ys || x == op;
      ApplyEnds(t, op, e);
    }
  }

  lemma ApplyEnds(s: State, op: Op, e: nat)
    requires Inv(s) && e in s.events && s.events[e].autoReset
    ensures var t := Apply(s, op);
      && e in t.events && t.events[e].autoReset
      && (op.e == e && op.OpReset? ==> !t.events[e].signaled)
      && (op.e == e && op.OpSet? ==> Accounted(t, e))
      && (op.e != e ==> t.events[e] == s.events[e] && (Accounted(s, e) ==> Accounted(t, e)))
  {
    if op.OpSet? && op.e in s.events && (op.e == e || Accounted(s, e)) {
      SetAccounts(s, op.e, op.woken, e);
    }
  }

  /** The turn of a waiter for another event leaves this one alone. */
  lemma OtherTurn(s: State, w: nat, woken: set<nat>, e: nat)
    requires Inv(s) && w in s.waiters && s.waiters[w].event != Some(e) && e in s.events && s.events[e].autoReset
    ensures var t := Unregister(s, w, true, woken);
      && e in t.events && t.events[e] == s.events[e] && (Accounted(s, e) ==> Accounted(t, e))
  {
    var x := s.waiters[w];
    DropKeeps(s, w);
    var s1 := Unregister(s, w, false, {});
    if Accounted(s, e) {
      if !s.events[e].signaled {
        var v :| v in s.waiters && s.waiters[v].event == Some(e) && s.waiters[v].activated;
        assert v in s1.waiters;
      }
      if x.event.Some? && x.event.value in s.events && x.activated && s.events[x.event.value].autoReset {
        SetAccounts(s1, x.event.value, woken, e);
      }
    }
  }

  /** The turn of an activated waiter for the event gives the signal on. */
  lemma OwnTurn(s: State, w: nat, woken: set<nat>, e: nat, v: nat)
    requires Inv(s) && w in s.waiters && s.waiters[w].event == Some(e) && s.waiters[w].activated
    requires e in s.events && s.events[e].autoReset
    ensures var t := Unregister(s, w, true, woken);
      && Accounted(t, e)
      && (v in s.waiters && v != w && s.waiters[v].event == Some(e) ==> v in t.waiters && t.waiters[v].activated)
  {
    DropKeeps(s, w);
    var s1 := Unregister(s, w, false, {});
    SetAccounts(s1, e, woken, e);
    if v in s.waiters && v != w && s.waiters[v].event == Some(e) {
      assert Reachable(s1, v);
    }
  }

  /** The states of the loop. */
  ghost function Turn(s: State, ws: seq<nat>, env: seq<Interference>, woken: seq<set<nat>>, k: nat): State
    requires |env| == |ws| == |woken| && Distinct(ws) && (forall w <- ws :: w in s.waiters) && k <= |ws|
  {
    FreeWaiters(s, ws[..k], true, env[..k], woken[..k])
  }

  lemma TurnStep(s: State, ws: seq<nat>, env: seq<Interference>, woken: seq<set<nat>>, k: nat)
    requires |env| == |ws| == |woken| && Distinct(ws) && (forall w <- ws :: w in s.waiters) && k < |ws|
    ensures var t := Interfere(Turn(s, ws, env, woken, k), env[k]);
      && ws[k] in t.waiters
      && Turn(s, ws, env, woken, k + 1) == Unregister(t, ws[k], true, woken[k])
    ensures forall m :: k <= m < |ws| ==> ws[m] in Turn(s, ws, env, woken, k).waiters
  {
    hide Unregister, Interfere, FreeWaiters;
    FreeNext(s, ws, true, env, woken, k);
  }

  /** Up to the turn of the last waiter for the event, some waiter of the call still has the signal. */
  lemma {:induction false} StillOwing(s: State, ws: seq<nat>, env: seq<Interference>, woken: seq<set<nat>>,
                                      i: nat, j: nat, e: nat, k: nat) returns (m: nat)
    requires |env| == |ws| == |woken| && Distinct(ws) && (forall w <- ws :: w in s.waiters) && Inv(s)
    requires i <= j < |ws| && k <= j && s.waiters[ws[i]].event == Some(e) && s.waiters[ws[i]].activated
    requires s.waiters[ws[j]].event == Some(e) && e in s.events && s.events[e].autoReset
    ensures var t := Turn(s, ws, env, woken, k);
      k <= m <= j && ws[m] in t.waiters && t.waiters[ws[m]].event == Some(e) && t.waiters[ws[m]].activated
  {
    hide Unregister, Interfere, FreeWaiters, Inv, Turn;
    if k == 0 {
      m := i;
      TurnNone(s, ws, env, woken);
    } else {
      var m0 := StillOwing(s, ws, env, woken, i, j, e, k - 1);
      TurnFacts(s, ws, env, woken, k - 1, e);
      var t := Turn(s, ws, env, woken, k - 1);
      var u := Interfere(t, env[k - 1]);
      TurnStep(s, ws, env, woken, k - 1);
      if m0 > k - 1 {
        m := m0;
        TurnKeeps(u, ws[k - 1], woken[k - 1], ws[m]);
      } else {
        m := j;
        OwnTurn(u, ws[k - 1], woken[k - 1], e, ws[j]);
        TurnKeeps(u, ws[k - 1], woken[k - 1], ws[m]);
      }
    }
  }

  lemma TurnNone(s: State, ws: seq<nat>, env: seq<Interference>, woken: seq<set<nat>>)
    requires |env| == |ws| == |woken| && Distinct(ws) && forall w <- ws :: w in s.waiters
    ensures Turn(s, ws, env, woken, 0) == s
  {
  }

  lemma TurnKeeps(s: State, w: nat, woken: set<nat>, v: nat)
    requires w in s.waiters && v in s.waiters && v != w
    ensures var t := Unregister(s, w, true, woken);
      v in t.waiters && t.waiters[v].event == s.waiters[v].event && (s.waiters[v].activated ==> t.waiters[v].activated)
  {
  }

  /** Behind its last waiter of this call, the event is up, or another waiter's, or was reset. */
  lemma {:induction false} AfterLast(s: State, ws: seq<nat>, env: seq<Interference>, woken: seq<set<nat>>,
                                     i: nat, j: nat, e: nat, k: nat)
    requires |env| == |ws| == |woken| && Distinct(ws) && (forall w <- ws :: w in s.waiters) && Inv(s)
    requires i <= j < k <= |ws| && s.waiters[ws[i]].event == Some(e) && s.waiters[ws[i]].activated
    requires s.waiters[ws[j]].event == Some(e) && e in s.events && s.events[e].autoReset
    requires forall m :: j < m < |ws| ==> s.waiters[ws[m]].event != Some(e)
    ensures var t := Turn(s, ws, env, woken, k);
      && e in t.events && t.events[e].autoReset
      && (if TailReset(env[j + 1..k], e) then !t.events[e].signaled else Accounted(t, e))
    decreases k
  {
    hide Unregister, Interfere, FreeWaiters, Inv, Accounted, Touches, EndsReset, Turn;
    var t := Turn(s, ws, env, woken, k - 1);
    TurnFacts(s, ws, env, woken, k - 1, e);
    TurnStep(s, ws, env, woken, k - 1);
    var u := Interfere(t, env[k - 1]);
    if k == j + 1 {
      var m := StillOwing(s, ws, env, woken, i, j, e, j);
      OwnTurn(u, ws[j], woken[j], e, ws[j]);
      UnregisterCarries(u, ws[j], true, woken[j]);
      assert env[j + 1..k] == [];
    } else {
      AfterLast(s, ws, env, woken, i, j, e, k - 1);
      InterfereEnds(t, env[k - 1], e);
      OtherTurn(u, ws[k - 1], woken[k - 1], e);
      assert env[j + 1..k][..k - 1 - (j + 1)] == env[j + 1..k - 1] && env[j + 1..k][k - 1 - (j + 1)] == env[k - 1];
    }
  }

  /** What a turn leaves for the next. */
  lemma TurnFacts(s: State, ws: seq<nat>, env: seq<Interference>, woken: seq<set<nat>>, k: nat, e: nat)
    requires |env| == |ws| == |woken| && Distinct(ws) && (forall w <- ws :: w in s.waiters) && Inv(s) && k < |ws|
    requires e in s.events
    ensures var t := Turn(s, ws, env, woken, k);
      var u := Interfere(t, env[k]);
      && Inv(t) && Inv(u) && Carries(s, t) && Carries(s, u) && Carries(t, u)
  {
    hide Unregister, Interfere, FreeWaiters, Inv, Carries;
    var t := Turn(s, ws, env, woken, k);
    FreeKeeps(s, ws[..k], true, env[..k], woken[..k]);
    FreeCarries(s, ws[..k], true, env[..k], woken[..k]);
    InterfereKeeps(t, env[k]);
    InterfereCarries(t, env[k]);
    CarriesOn(s, t, Interfere(t, env[k]));
  }

  /** Some waiter of another call has the signal. */
  ghost predicate Elsewhere(t: State, ws: seq<nat>, e: nat) {
    exists v <- t.waiters :: v !in ws && t.waiters[v].event == Some(e) && t.waiters[v].activated
  }

  /** A waiter of another call for the event. */
  ghost predicate OtherWaits(s: State, ws: seq<nat>, e: nat) {
    exists v <- s.waiters :: v !in ws && s.waiters[v].event == Some(e)
  }

  /** Giving the signal back activates every waiter of another call for the event. */
  lemma {:induction false} OthersActivated(s: State, ws: seq<nat>, env: seq<Interference>, woken: seq<set<nat>>,
                                           i: nat, j: nat, e: nat, v: nat, k: nat)
    requires |env| == |ws| == |woken| && Distinct(ws) && (forall w <- ws :: w in s.waiters) && Inv(s)
    requires i <= j < k <= |ws| && s.waiters[ws[i]].event == Some(e) && s.waiters[ws[i]].activated
    requires s.waiters[ws[j]].event == Some(e) && e in s.events && s.events[e].autoReset
    requires v in s.waiters && v !in ws && s.waiters[v].event == Some(e)
    ensures var t := Turn(s, ws, env, woken, k);
      v in t.waiters && t.waiters[v].event == Some(e) && t.waiters[v].activated
    decreases k
  {
    hide Unregister, Interfere, FreeWaiters, Inv, Turn;
    TurnFacts(s, ws, env, woken, k - 1, e);
    TurnStep(s, ws, env, woken, k - 1);
    TurnHasOthers(s, ws, env, woken, v, k - 1);
    var u := Interfere(Turn(s, ws, env, woken, k - 1), env[k - 1]);
    if k == j + 1 {
      var m := StillOwing(s, ws, env, woken, i, j, e, j);
      OwnTurn(u, ws[j], woken[j], e, v);
      TurnKeeps(u, ws[j], woken[j], v);
    } else {
      OthersActivated(s, ws, env, woken, i, j, e, v, k - 1);
      TurnKeeps(u, ws[k - 1], woken[k - 1], v);
    }
  }

  lemma TurnHasOthers(s: State, ws: seq<nat>, env: seq<Interference>, woken: seq<set<nat>>, v: nat, k: nat)
    requires |env| == |ws| == |woken| && Distinct(ws) && (forall w <- ws :: w in s.waiters) && k <= |ws|
    requires v in s.waiters && v !in ws
    ensures v in Turn(s, ws, env, woken, k).waiters
  {
    hide FreeWaiters;
    assert v !in (set w | w in ws[..k]);
  }

  /** Afterwards a waiter of another call is activated by the event exactly if one waited for it before. */
  lemma ElsewhereIff(s: State, ws: seq<nat>, env: seq<Interference>, woken: seq<set<nat>>, i: nat, j: nat, e: nat)
    requires |env| == |ws| == |woken| && Distinct(ws) && (forall w <- ws :: w in s.waiters) && Inv(s)
    requires i <= j < |ws| && s.waiters[ws[i]].event == Some(e) && s.waiters[ws[i]].activated
    requires s.waiters[ws[j]].event == Some(e) && e in s.events && s.events[e].autoReset
    ensures Elsewhere(FreeWaiters(s, ws, true, env, woken), ws, e) <==> OtherWaits(s, ws, e)
  {
    hide FreeWaiters, Inv;
    var t := FreeWaiters(s, ws, true, env, woken);
    FreeCarries(s, ws, true, env, woken);
    assert ws[..|ws|] == ws && env[..|ws|] == env && woken[..|ws|] == woken;
    if OtherWaits(s, ws, e) {
      var v :| v in s.waiters && v !in ws && s.waiters[v].event == Some(e);
      OthersActivated(s, ws, env, woken, i, j, e, v, |ws|);
    }
  }

  /**
    A restarted wait loses no auto-reset signal. Take an event that some waiter of the call
    had consumed, and the turn of the call's last waiter for it. Whatever is set or reset
    meanwhile, and however often the call waits for the event, afterwards it is signaled or
    a waiter of another call is activated by it, if and only if the last thing others did
    to it after that turn was not a reset, or another call was waiting for it to begin with.
   */
  lemma RestartLosesNothing(s: State, ws: seq<nat>, env: seq<Interference>, woken: seq<set<nat>>, i: nat, j: nat, e: nat)
    requires |env| == |ws| == |woken| && Distinct(ws) && (forall w <- ws :: w in s.waiters) && Inv(s)
    requires i <= j < |ws| && s.waiters[ws[i]].event == Some(e) && s.waiters[ws[i]].activated
    requires s.waiters[ws[j]].event == Some(e) && e in s.events && s.events[e].autoReset
    requires forall m :: j < m < |ws| ==> s.waiters[ws[m]].event != Some(e)
    ensures var t := FreeWaiters(s, ws, true, env, woken);
      && e in t.events
      && (t.events[e].signaled || Elsewhere(t, ws, e) <==> !TailReset(env[j + 1..], e) || OtherWaits(s, ws, e))
  {
    hide FreeWaiters, TailReset, Inv, OtherWaits;
    ElsewhereIff(s, ws, env, woken, i, j, e);
    FreeCarries(s, ws, true, env, woken);
    AfterLast(s, ws, env, woken, i, j, e, |ws|);
    assert ws[..|ws|] == ws && env[..|ws|] == env && woken[..|ws|] == woken && env[j + 1..|ws|] == env[j + 1..];
    var t := FreeWaiters(s, ws, true, env, woken);
    if !TailReset(env[j + 1..], e) && !t.events[e].signaled {
      var v :| v in t.waiters && t.waiters[v].event == Some(e) && t.waiters[v].activated;
      assert v !in (set w | w in ws);
      assert Elsewhere(t, ws, e);
    }
  }

  lemma {:induction false} InterfereAges(s: State, xs: Interference, e: nat)
    requires e in s.events
    ensures Interfere(s, xs).events[e].age == Ages(s.events[e].age, xs, e)
    ensures !Touches(xs, e) ==> Interfere(s, xs).events[e] == s.events[e]
  {
    if xs != [] {
      InterfereAges(s, xs[..|xs| - 1], e);
      assert xs[|xs| - 1] in xs && forall y <- xs[..|xs| - 1] :: y in xs;
    }
  }

  lemma DropLeaves(s: State, w: nat, woken: set<nat>, e: nat)
    requires w in s.waiters && e in s.events
    ensures var t := Unregister(s, w, false, woken);
      e in t.events && t.events[e].age == s.events[e].age && t.events[e].signaled == s.events[e].signaled
  {
  }

  /** A wait that ends any other way sets nothing on its way out: the age is that of the others' sets alone. */
  lemma {:induction false} FinishedWaitKeepsSignal(s: State, ws: seq<nat>, env: seq<Interference>, woken: seq<set<nat>>, e: nat)
    requires |env| == |ws| == |woken| && Distinct(ws) && forall w <- ws :: w in s.waiters
    requires e in s.events
    ensures var t := FreeWaiters(s, ws, false, env, woken);
      && e in t.events
      && t.events[e].age == AgesAll(s.events[e].age, env, e)
      && ((forall k :: 0 <= k < |env| ==> !Touches(env[k], e)) ==> t.events[e].signaled == s.events[e].signaled)
  {
    hide Touches, Interfere, Unregister, Ages, FreeWaiters;
    if ws == [] {
      FreeNone(s, false);
    } else {
      FreeLast(s, ws, false, env, woken);
      var n := |ws| - 1;
      var t := FreeWaiters(s, ws[..n], false, env[..n], woken[..n]);
      FinishedWaitKeepsSignal(s, ws[..n], env[..n], woken[..n], e);
      InterfereAges(t, env[n], e);
      DropLeaves(Interfere(t, env[n]), ws[n], woken[n], e);
    }
  }

  // ----- the table the driver updates

  class EventTable {
    var events: map<nat, Event>
    var waiters: map<nat, Waiter>

    ghost function Abs(): State
      reads this
    {
      State(events, waiters)
    }

    method SignalEvent(e: nat, woken: set<nat>)
      requires e in events && Queued(Abs(), e)
      modifies this
      ensures Abs() == SetEvent(old(Abs()), e, woken)
    {
      var ev := events[e];
      var todo := ev.wq;
      while todo != {}
        invariant todo <= ev.wq && events == old(events)
        invariant waiters.Keys == old(waiters).Keys
        invariant forall w <- waiters ::
          waiters[w] == if w in ev.wq - todo then old(waiters)[w].(activated := true) else old(waiters)[w]
      {
        var w :| w in todo;
        waiters := waiters[w := waiters[w].(activated := true)];
        todo := todo - {w};
      }
      events := events[e := ev.(signaled := !ev.autoReset || ev.wq == {}, age := NextAge(ev.age), wq := ev.wq - woken)];
      assert ev.wq - {} == ev.wq;
    }

    /** init_event_waiter; false when there is no such event. */
    method InitEventWaiter(w: nat, e: nat, lastAge: nat) returns (ok: bool)
      requires Inv(Abs()) && w !in waiters
      modifies this
      ensures ok <==> e in old(events)
      ensures Abs() == if ok then Register(old(Abs()), w, e, lastAge) else old(Abs())
      ensures Inv(Abs())
    {
      if e !in events { return false; }
      StepKeeps(Abs(), Wait(w, e, lastAge));
      hide Inv;
      var ev := events[e];
      var x := Waiter(Some(e), ev.signaled, false);
      ev := ev.(signaled := ev.signaled && !ev.autoReset);
      if ev.kind == Signal && lastAge != 0 {
        x := x.(ageEnabled := true);
        if ev.age != lastAge {
          x := x.(activated := true);
        }
      }
      if !x.activated {
        ev := ev.(wq := ev.wq + {w});
      }
      events := events[e := ev];
      waiters := waiters[w := x];
      return true;
    }

    method FreeWaiter(w: nat, undo: bool, woken: set<nat>)
      requires Inv(Abs()) && w in waiters
      modifies this
      ensures Abs() == Unregister(old(Abs()), w, undo, woken) && Inv(Abs())
    {
      UnregisterKeeps(Abs(), w, undo, woken);
      DropKeeps(Abs(), w);
      var x := waiters[w];
      waiters := waiters - {w};
      if x.event.Some? && x.event.value in events {
        var e := x.event.value;
        events := events[e := events[e].(wq := events[e].wq - {w})];
        if undo && x.activated && events[e].autoReset {
          assert Queued(Abs(), e);
          SignalEvent(e, woken);
        }
      }
    }

    /** Other threads setting and resetting events. */
    method Others(xs: Interference)
      requires Inv(Abs())
      modifies this
      ensures Abs() == Interfere(old(Abs()), xs) && Inv(Abs())
    {
      for i := 0 to |xs|
        invariant Abs() == Interfere(old(Abs()), xs[..i]) && Inv(Abs())
      {
        assert xs[..i + 1][..i] == xs[..i];
        ApplyKeeps(Abs(), xs[i]);
        if xs[i].e in events {
          match xs[i]
          case OpSet(e, woken) => SignalEvent(e, woken);
          case OpReset(e) => events := events[e := events[e].(signaled := false)];
        }
      }
      assert xs[..|xs|] == xs;
    }

    method FreeAll(ws: seq<nat>, undo: bool, env: seq<Interference>, woken: seq<set<nat>>)
      requires |env| == |ws| == |woken| && Distinct(ws) && (forall w <- ws :: w in waiters) && Inv(Abs())
      modifies this
      ensures Abs() == FreeWaiters(old(Abs()), ws, undo, env, woken) && Inv(Abs())
    {
      hide Inv, Unregister, Interfere, FreeWaiters;
      FreeNone(Abs(), undo);
      for i := 0 to |ws|
        invariant Abs() == FreeWaiters(old(Abs()), ws[..i], undo, env[..i], woken[..i]) && Inv(Abs())
      {
        FreeNext(old(Abs()), ws, undo, env, woken, i);
        Others(env[i]);
        FreeWaiter(ws[i], undo, woken[i]);
      }
      assert ws[..|ws|] == ws && env[..|env|] == env && woken[..|woken|] == woken;
    }
  }
}

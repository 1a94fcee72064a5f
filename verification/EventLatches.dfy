/**
  What becomes of a signal: a manual-reset event keeps it, an auto-reset event gives it away
  once, and the event's age tells a later wait what it missed.
 */
module EventLatches {
  import opened Arithmetic
  import opened Basics
  import opened EventWaits

  // ----- the latch from step to step

  /** Whoever is on the event's queue when a step sets it. */
  function QueueAt(s: State, a: Action, e: nat): set<nat>
    requires e in s.events
  {
    if a.Leave? then s.events[e].wq - {a.w} else s.events[e].wq
  }

  /**
    How a step moves an event's latch. A set leaves a manual-reset event signaled, and an
    auto-reset event exactly if nobody was queued; a reset clears it; a wait takes the
    signal of an auto-reset event; nothing else touches it.
   */
  lemma LatchMoves(s: State, a: Action, e: nat)
    requires Enabled(s, a) && e in s.events && a != DestroyEvent(e)
    ensures var t, ev := Step(s, a), s.events[e];
      && e in t.events && t.events[e].autoReset == ev.autoReset && t.events[e].kind == ev.kind
      && (if Sets(s, a, e) then t.events[e].signaled <==> !ev.autoReset || QueueAt(s, a, e) == {}
          else if a == Reset(e) then !t.events[e].signaled
          else if a.Wait? && a.e == e then t.events[e].signaled <==> ev.signaled && !ev.autoReset
          else t.events[e].signaled == ev.signaled)
  {
  }

  /** What a wait finds: a signal, or a set it has not seen. */
  lemma WaitFinds(s: State, w: nat, e: nat, lastAge: nat)
    requires Enabled(s, Wait(w, e, lastAge))
    ensures var t, ev := Step(s, Wait(w, e, lastAge)), s.events[e];
      && w in t.waiters && t.waiters[w].event == Some(e)
      && (t.waiters[w].activated <==> ev.signaled || (ev.kind == Signal && lastAge != 0 && lastAge != ev.age))
      && (t.waiters[w].ageEnabled <==> ev.kind == Signal && lastAge != 0)
      && (w in t.events[e].wq <==> !t.waiters[w].activated || w in ev.wq)
  {
  }

  /**
    How a step moves an event's queue. A set takes off whom its wake-up removed and latches
    everyone who was on it; a wait joins unless it completes; a leave goes.
   */
  lemma QueueMoves(s: State, a: Action, e: nat)
    requires Enabled(s, a) && e in s.events && a != DestroyEvent(e)
    ensures var t, wq := Step(s, a), s.events[e].wq;
      && e in t.events
      && (a.Set? && a.e == e ==> t.events[e].wq == wq - a.woken)
      && (a.Wait? && a.e == e ==> t.events[e].wq <= wq + {a.w})
      && (a.Leave? && a.w in s.waiters && s.waiters[a.w].event == Some(e) ==> a.w !in t.events[e].wq)
      && (a.CreateEvent? || a.Reset? ==> t.events[e].wq == wq)
  {
  }

  /** A new event is not signaled, has age 1 and nobody waits for it. */
  lemma CreateStarts(s: State, e: nat, kind: Kind, autoReset: bool)
    requires Enabled(s, CreateEvent(e, kind, autoReset))
    ensures var t := Step(s, CreateEvent(e, kind, autoReset));
      e in t.events && t.events[e] == Event(kind, autoReset, false, 1, {}) && t.waiters == s.waiters
  {
  }

  /** A destroyed event is gone, and exactly those on its queue find that out. */
  lemma DestroyTells(s: State, e: nat, w: nat)
    requires Enabled(s, DestroyEvent(e)) && w in s.waiters
    ensures var t := Step(s, DestroyEvent(e));
      && t.events == s.events - {e} && w in t.waiters && t.waiters[w].activated == s.waiters[w].activated
      && t.waiters[w].event == if w in s.events[e].wq then None else s.waiters[w].event
  {
  }

  /** The event exists all along. */
  predicate Undestroyed(actions: seq<Action>, e: nat, i: nat, n: nat)
    requires i <= n <= |actions|
  {
    forall k :: i <= k < n ==> actions[k] != DestroyEvent(e)
  }

  lemma {:induction false} EventStays(states: seq<State>, actions: seq<Action>, e: nat, i: nat, n: nat)
    requires Run(states, actions) && i <= n < |states| && e in states[i].events && Undestroyed(actions, e, i, n)
    ensures e in states[n].events
    ensures states[n].events[e].autoReset == states[i].events[e].autoReset && states[n].events[e].kind == states[i].events[e].kind
    decreases n
  {
    hide Step, Enabled;
    if i < n {
      EventStays(states, actions, e, i, n - 1);
      LatchMoves(states[n - 1], actions[n - 1], e);
    }
  }

  /** A manual-reset event stays signaled from a set until it is reset. */
  lemma {:induction false} ManualResetStays(states: seq<State>, actions: seq<Action>, e: nat, i: nat, n: nat)
    requires Run(states, actions) && i < n < |states| && e in states[i].events && !states[i].events[e].autoReset
    requires Undestroyed(actions, e, i, n) && Sets(states[i], actions[i], e)
    requires forall k :: i < k < n ==> actions[k] != Reset(e)
    ensures e in states[n].events && states[n].events[e].signaled
    decreases n
  {
    hide Step, Enabled, Sets;
    EventStays(states, actions, e, i, n - 1);
    LatchMoves(states[n - 1], actions[n - 1], e);
    if n > i + 1 {
      ManualResetStays(states, actions, e, i, n - 1);
    }
  }

  // ----- an auto-reset signal is given away once

  /** Whether a step is a wait for the event that completes at once. */
  predicate Takes(s: State, a: Action, e: nat)
    requires Enabled(s, a)
  {
    a.Wait? && a.e == e && a.w in Step(s, a).waiters && Step(s, a).waiters[a.w].activated
  }

  function CountTakes(states: seq<State>, actions: seq<Action>, e: nat, i: nat, n: nat): nat
    requires |states| == |actions| + 1 && i <= n < |states|
    requires forall k :: 0 <= k < |actions| ==> Enabled(states[k], actions[k])
    decreases n
  {
    if i == n then 0 else CountTakes(states, actions, e, i, n - 1) + if Takes(states[n - 1], actions[n - 1], e) then 1 else 0
  }

  function CountSets(states: seq<State>, actions: seq<Action>, e: nat, i: nat, n: nat): nat
    requires |states| == |actions| + 1 && i <= n < |states|
    requires forall k :: 0 <= k < |actions| ==> Enabled(states[k], actions[k])
    decreases n
  {
    if i == n then 0 else CountSets(states, actions, e, i, n - 1) + if Sets(states[n - 1], actions[n - 1], e) then 1 else 0
  }

  lemma TakeStep(s: State, a: Action, e: nat)
    requires Enabled(s, a) && e in s.events && s.events[e].autoReset && a != DestroyEvent(e)
    requires a.Wait? && a.e == e ==> a.lastAge == 0
    ensures var t := Step(s, a);
      && e in t.events
      && (if t.events[e].signaled then 1 else 0) + (if Takes(s, a, e) then 1 else 0)
         <= (if s.events[e].signaled then 1 else 0) + (if Sets(s, a, e) then 1 else 0)
      && (Takes(s, a, e) ==> s.events[e].signaled && !t.events[e].signaled)
  {
    LatchMoves(s, a, e);
    if a.Wait? && a.e == e {
      WaitFinds(s, a.w, e, a.lastAge);
    }
  }

  /**
    Over any stretch of any run, the waits for an auto-reset event that complete at once are
    no more than its sets, and the signal it may have had to begin with: every signal is
    consumed at most once. Waits that pass an age are another matter.
   */
  lemma {:induction false} SignalsTakenOnce(states: seq<State>, actions: seq<Action>, e: nat, i: nat, n: nat)
    requires Run(states, actions) && i <= n < |states| && e in states[i].events && states[i].events[e].autoReset
    requires Undestroyed(actions, e, i, n)
    requires forall k :: i <= k < n && actions[k].Wait? && actions[k].e == e ==> actions[k].lastAge == 0
    ensures e in states[n].events
    ensures CountTakes(states, actions, e, i, n) + (if states[n].events[e].signaled then 1 else 0)
         <= CountSets(states, actions, e, i, n) + (if states[i].events[e].signaled then 1 else 0)
    decreases n
  {
    hide Step, Enabled, Sets, Takes;
    if i < n {
      SignalsTakenOnce(states, actions, e, i, n - 1);
      EventStays(states, actions, e, i, n - 1);
      TakeStep(states[n - 1], actions[n - 1], e);
    }
  }

  lemma {:induction false} NoSetsCount(states: seq<State>, actions: seq<Action>, e: nat, i: nat, n: nat)
    requires Run(states, actions) && i <= n < |states| && forall k :: i <= k < n ==> !Sets(states[k], actions[k], e)
    ensures CountSets(states, actions, e, i, n) == 0
    decreases n
  {
    if i < n {
      NoSetsCount(states, actions, e, i, n - 1);
    }
  }

  /** Of two waits for the same auto-reset event without a set in between, the second finds nothing. */
  lemma SecondWaitFindsNothing(states: seq<State>, actions: seq<Action>, e: nat, i: nat, j: nat)
    requires Run(states, actions) && i < j < |actions| && e in states[i].events && states[i].events[e].autoReset
    requires actions[i].Wait? && actions[i].e == e && actions[i].lastAge == 0
    requires actions[j].Wait? && actions[j].e == e && actions[j].lastAge == 0
    requires Undestroyed(actions, e, i, j) && forall k :: i <= k < j ==> !Sets(states[k], actions[k], e)
    ensures actions[j].w in states[j + 1].waiters && !states[j + 1].waiters[actions[j].w].activated
  {
    hide Step, Enabled, Sets;
    LatchMoves(states[i], actions[i], e);
    StaysDown(states, actions, e, i + 1, j);
    WaitFinds(states[j], actions[j].w, e, 0);
  }

  /** Without a set, an event that is not signaled stays so. */
  lemma {:induction false} StaysDown(states: seq<State>, actions: seq<Action>, e: nat, i: nat, n: nat)
    requires Run(states, actions) && i <= n < |states| && e in states[i].events && !states[i].events[e].signaled
    requires Undestroyed(actions, e, i, n) && forall k :: i <= k < n ==> !Sets(states[k], actions[k], e)
    ensures e in states[n].events && !states[n].events[e].signaled
    decreases n
  {
    hide Step, Enabled, Sets;
    if i < n {
      StaysDown(states, actions, e, i, n - 1);
      LatchMoves(states[n - 1], actions[n - 1], e);
    }
  }

  // ----- ages

  /** Ages run from 1 to the largest 64-bit number and then from 2 again. */
  lemma AgeMoves(s: State, a: Action, e: nat)
    requires Enabled(s, a) && e in s.events && a != DestroyEvent(e) && 0 < s.events[e].age < TWO64
    ensures var t, age := Step(s, a), s.events[e].age;
      && e in t.events && 0 < t.events[e].age < TWO64
      && t.events[e].age == if !Sets(s, a, e) then age else if age < TWO64 - 1 then age + 1 else 2
  {
  }

  /** The age after a number of sets that do not go all the way round. */
  function AgeAfter(age: nat, sets: nat): int { if age + sets < TWO64 then age + sets else age + sets - (TWO64 - 2) }

  ghost predicate AgesValid(s: State) { forall e <- s.events :: 0 < s.events[e].age < TWO64 }

  lemma StepAges(s: State, a: Action)
    requires Enabled(s, a) && AgesValid(s)
    ensures AgesValid(Step(s, a))
  {
    var t := Step(s, a);
    forall e | e in t.events ensures 0 < t.events[e].age < TWO64 {
      if e in s.events && a != DestroyEvent(e) {
        AgeMoves(s, a, e);
      }
    }
  }

  lemma {:induction false} RunsKeepAges(states: seq<State>, actions: seq<Action>, n: nat)
    requires Run(states, actions) && n < |states|
    ensures AgesValid(states[n])
  {
    hide Step, Enabled, AgesValid;
    if n == 0 {
      NoAges();
    } else {
      RunsKeepAges(states, actions, n - 1);
      StepAges(states[n - 1], actions[n - 1]);
    }
  }

  lemma NoAges()
    ensures AgesValid(State(map[], map[]))
  {
  }

  lemma {:induction false} AgeCounts(states: seq<State>, actions: seq<Action>, e: nat, i: nat, n: nat)
    requires Run(states, actions) && i <= n < |states| && e in states[i].events && Undestroyed(actions, e, i, n)
    requires CountSets(states, actions, e, i, n) < TWO64 - 2
    ensures e in states[n].events
    ensures states[n].events[e].age == AgeAfter(states[i].events[e].age, CountSets(states, actions, e, i, n))
    decreases n
  {
    hide Step, Enabled, Sets;
    RunsKeepAges(states, actions, i);
    if i < n {
      AgeCounts(states, actions, e, i, n - 1);
      RunsKeepAges(states, actions, n - 1);
      AgeMoves(states[n - 1], actions[n - 1], e);
    }
  }

  /**
    No set is missed: a wait that passes the age it saw last is activated at once if the
    event has been set since, as long as the age has not gone all the way round.
   */
  lemma SeenAgeMissesNothing(states: seq<State>, actions: seq<Action>, e: nat, i: nat, j: nat)
    requires Run(states, actions) && i <= j < |actions| && e in states[i].events && Undestroyed(actions, e, i, j)
    requires states[i].events[e].kind == Signal
    requires actions[j].Wait? && actions[j].e == e && actions[j].lastAge == states[i].events[e].age
    requires 0 < CountSets(states, actions, e, i, j) < TWO64 - 2
    ensures actions[j].w in states[j + 1].waiters && states[j + 1].waiters[actions[j].w].activated
  {
    hide Step, Enabled, Sets, CountSets;
    AgeCounts(states, actions, e, i, j);
    RunsKeepAges(states, actions, i);
    EventStays(states, actions, e, i, j);
    WaitFinds(states[j], actions[j].w, e, actions[j].lastAge);
  }
}

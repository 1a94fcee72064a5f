/**
  Concrete runs that follow the caller's protocol and show what the failures ruled out
  elsewhere lead to.
 */
module SchedulerWitness {
  import opened Basics
  import opened Queues
  import opened RunlistIb
  import opened Scheduler
  import opened SchedulerInvariant
  import opened SchedulerSteps
  import opened SchedulerRuns
  import opened SchedulerSound
  import opened SchedulerCallers

  /** A small device without SDMA engines. */
  const Cfg := Config(Layout(4, 4, 4, 1, 24), 0, 0, 0, {}, false, [], {}, 16)

  const Good := Hw(Preempted, Sent)

  function NewQueue(id: nat): Queue {
    Queue(id, Compute, 1, 1, 1, false, false, false, false, false, false, false, 0, 0, 0, Idle)
  }

  /** The queue once created. */
  function Created(id: nat): Queue { NewQueue(id).(doorbell := id, active := true) }

  function User(qs: seq<Queue>): Proc { Proc(qs, [], 0, true, false, false, false, false, {}) }

  /** Process 1 is known; the rest is as given. */
  function World(nodes: seq<nat>, pr: Proc, active: int, total: int, sc: Sched): State {
    State(Lists([1], nodes, map[1 := pr], |nodes|, Tally(active, active, 0), total, {}, {}), sc)
  }

  const Stopped := Sched(false, false, false, false, false, 0, {}, 0, [], false, false)

  /** A run that follows the protocol up to its last state, and the caller's phase for process 1 there. */
  ghost predicate Story(states: seq<State>, actions: seq<Action>, s: State, ph: Phase) {
    && Run(Cfg, states, actions) && states[|actions|] == s
    && Disciplined(Cfg, states, actions, |actions|)
    && PhaseAt(Cfg, states, actions, 1, |actions|) == ph
  }

  /** One step of such a run. */
  ghost predicate Moves(s: State, ph: Phase, a: Action, t: State, ph': Phase) {
    && Defined(s.lists) && Enabled(s, a) && Step(Cfg, s, a).s == t && NextPhase(Cfg, s, a, 1, ph) == ph'
    && forall p | About(a, p) :: p == 1 && Obeys(s, a, ph)
  }

  lemma {:induction false} PhaseExtends(states: seq<State>, actions: seq<Action>, a: Action, t: State, p: nat, k: nat)
    requires Run(Cfg, states, actions) && Run(Cfg, states + [t], actions + [a]) && k <= |actions|
    ensures PhaseAt(Cfg, states + [t], actions + [a], p, k) == PhaseAt(Cfg, states, actions, p, k)
  {
    hide NextPhase, Enabled, Step;
    if k > 0 {
      PhaseExtends(states, actions, a, t, p, k - 1);
    }
  }

  lemma Continue(states: seq<State>, actions: seq<Action>, s: State, ph: Phase, a: Action, t: State, ph': Phase)
    requires Story(states, actions, s, ph) && Moves(s, ph, a, t, ph')
    ensures Story(states + [t], actions + [a], t, ph')
  {
    hide NextPhase, Enabled, Step, Obeys, About;
    var ss, aa, n := states + [t], actions + [a], |actions|;
    assert Run(Cfg, ss, aa) by {
      forall i | 0 <= i < |aa|
        ensures Defined(ss[i].lists) && Enabled(ss[i], aa[i]) && ss[i + 1] == Step(Cfg, ss[i], aa[i]).s
      {
        if i < n {
          assert ss[i] == states[i] && ss[i + 1] == states[i + 1] && aa[i] == actions[i];
        }
      }
    }
    forall k, p | 0 <= k < |aa| && About(aa[k], p)
      ensures Obeys(ss[k], aa[k], PhaseAt(Cfg, ss, aa, p, k))
    {
      PhaseExtends(states, actions, a, t, p, k);
      if k < n {
        assert ss[k] == states[k] && aa[k] == actions[k];
      }
    }
    PhaseExtends(states, actions, a, t, 1, n);
  }

  // ----- a process with one queue, scheduled

  const Running := Stopped.(running := true)

  lemma MoveNew()
    ensures Moves(Init(Cfg), Resting, NewProcess(1), World([], FreshProc, 0, 0, Stopped), Resting)
  {
    var s := Init(Cfg);
    assert s == State(Lists([], [], map[], 0, Tally(0, 0, 0), 0, {}, {}), Stopped);
    assert ProcessStep(Cfg, s, NewProcess(1)).s == World([], FreshProc, 0, 0, Stopped);
  }

  lemma MoveAcquire()
    ensures Moves(World([], FreshProc, 0, 0, Stopped), Resting, AcquireVm(1), World([], User([]), 0, 0, Stopped), Resting)
  {
    var s := World([], FreshProc, 0, 0, Stopped);
    assert s.lists.procs[1 := User([])] == map[1 := User([])];
  }

  lemma MoveStart()
    ensures Moves(World([], User([]), 0, 0, Stopped), Resting, Start(true, Good), World([], User([]), 0, 0, Running), Resting)
  {
    var s := World([], User([]), 0, 0, Stopped);
    assert StartStep(Cfg, s, true, Good).s == World([], User([]), 0, 0, Running);
  }

  lemma ProcessThere() returns (states: seq<State>, actions: seq<Action>)
    ensures Story(states, actions, World([], User([]), 0, 0, Running), Resting)
  {
    StoryBegins();
    MoveNew();
    MoveAcquire();
    MoveStart();
    hide Story, Moves, Init, World;
    states, actions := [Init(Cfg)], [];
    var s1, s2 := World([], FreshProc, 0, 0, Stopped), World([], User([]), 0, 0, Stopped);
    Continue(states, actions, Init(Cfg), Resting, NewProcess(1), s1, Resting);
    states, actions := states + [s1], actions + [NewProcess(1)];
    Continue(states, actions, s1, Resting, AcquireVm(1), s2, Resting);
    states, actions := states + [s2], actions + [AcquireVm(1)];
    var s3 := World([], User([]), 0, 0, Running);
    Continue(states, actions, s2, Resting, Start(true, Good), s3, Resting);
    states, actions := states + [s3], actions + [Start(true, Good)];
  }

  lemma StoryBegins()
    ensures Story([Init(Cfg)], [], Init(Cfg), Resting)
  {
  }

  lemma MoveRegister(nodes: seq<nat>, sc: Sched, ok: bool)
    requires forall n <- nodes :: n == 1
    ensures Moves(World(nodes, User([]), 0, 0, sc), Resting, Register(1, ok),
                  World(if ok then [1] + nodes else nodes, User([]), 0, 0, sc), Creating)
  {
    var s := World(nodes, User([]), 0, 0, sc);
    assert ProcessStep(Cfg, s, Register(1, ok)).s == World(if ok then [1] + nodes else nodes, User([]), 0, 0, sc);
  }

  /** Nothing stands in the way of scheduling. */
  predicate Fit(sc: Sched) {
    sc.running && !sc.hang && !sc.resetting && (sc.ibAllocated ==> sc.activeRunlist)
  }

  /** The scheduler after process 1 got an active queue. */
  function After(nodes: seq<nat>, id: nat, sc: Sched): Sched
    requires forall n <- nodes :: n == 1
  {
    Execute(Cfg, World(nodes, User([Created(id)]), 1, 0, sc).lists, sc, Good).sched
  }

  lemma CreateMakes(nodes: seq<nat>, sc: Sched, id: nat)
    requires (forall n <- nodes :: n == 1) && Fit(sc)
    ensures Create(Cfg, World(nodes, User([]), 0, 0, sc), 1, NewQueue(id), None, true, Good)
         == Result(World(nodes, User([Created(id)]), 1, 1, After(nodes, id, sc)), Ok)
  {
    var s := World(nodes, User([]), 0, 0, sc);
    var a := Reserve(Cfg, s.lists, 1, NewQueue(id), None);
    assert a == Alloc(s.lists, NewQueue(id).(doorbell := id), Ok) by {
      assert s.lists.procs[1 := User([])] == s.lists.procs;
    }
    var q := InitQueue(User([]), a.q, false);
    assert q == Created(id);
    var l := Link(s.lists, 1, q);
    assert l == World(nodes, User([Created(id)]), 1, 0, sc).lists by {
      assert [q] + [] == [q];
      assert s.lists.procs[1 := User([q])] == map[1 := User([q])];
    }
    assert Execute(Cfg, l, sc, Good).ret == Ok;
  }

  lemma MoveCreate(nodes: seq<nat>, sc: Sched, id: nat)
    requires (forall n <- nodes :: n == 1) && Fit(sc)
    ensures Moves(World(nodes, User([]), 0, 0, sc), Creating, CreateQueue(1, NewQueue(id), None, true, Good),
                  World(nodes, User([Created(id)]), 1, 1, After(nodes, id, sc)), Resting)
  {
    hide Create, After;
    CreateMakes(nodes, sc, id);
  }

  lemma DestroyMakes(sc: Sched)
    requires Fit(sc) && sc.activeRunlist
    ensures Destroy(Cfg, World([1], User([Created(1)]), 1, 1, sc), 1, 0, Hw(SendFailed, Sent))
         == Result(World([1], User([]), 0, 0, sc), Enomem)
  {
    var s := World([1], User([Created(1)]), 1, 1, sc);
    var q := Created(1).(beingDestroyed := true);
    var m := s.(lists := PutQueue(s.lists, 1, 0, q));
    assert m == World([1], User([q]), 1, 1, sc) by {
      assert s.lists.procs[1 := User([q])] == map[1 := User([q])];
      assert [Created(1)][0 := q] == [q];
    }
    var l := DestroyLists(Cfg, m.lists, 1, 0);
    assert l == World([1], User([]), 0, 0, sc).lists by {
      assert RemoveAt([q], 0) == [];
      assert m.lists.procs[1 := User([q])][1 := User([])] == map[1 := User([])];
    }
    assert Execute(Cfg, l, sc, Hw(SendFailed, Sent)) == SchedResult(sc, Enomem);
  }

  lemma MoveDestroy(sc: Sched)
    requires Fit(sc) && sc.activeRunlist
    ensures Moves(World([1], User([Created(1)]), 1, 1, sc), Resting, DestroyQueue(1, 0, Hw(SendFailed, Sent)),
                  World([1], User([]), 0, 0, sc), Resting)
  {
    hide Destroy;
    DestroyMakes(sc);
  }

  lemma AfterFit(nodes: seq<nat>, id: nat, sc: Sched)
    requires (forall n <- nodes :: n == 1) && Fit(sc)
    ensures Fit(After(nodes, id, sc))
    ensures nodes != [] ==> After(nodes, id, sc).activeRunlist
    ensures nodes == [] && !sc.activeRunlist ==> After(nodes, id, sc) == sc
    ensures After(nodes, id, sc).trapVmid == sc.trapVmid
  {
  }

  /** A registered process with one scheduled queue. */
  lemma OneQueue() returns (states: seq<State>, actions: seq<Action>, sc: Sched)
    ensures Fit(sc) && sc.activeRunlist && !sc.trapVmid
    ensures Story(states, actions, World([1], User([Created(1)]), 1, 1, sc), Resting)
  {
    states, actions := ProcessThere();
    MoveRegister([], Running, true);
    assert [1] + [] == [1];
    MoveCreate([1], Running, 1);
    AfterFit([1], 1, Running);
    sc := After([1], 1, Running);
    hide Story, Moves, World, After;
    var s0, s1 := World([], User([]), 0, 0, Running), World([1], User([]), 0, 0, Running);
    Continue(states, actions, s0, Resting, Register(1, true), s1, Creating);
    states, actions := states + [s1], actions + [Register(1, true)];
    var s2, a := World([1], User([Created(1)]), 1, 1, sc), CreateQueue(1, NewQueue(1), None, true, Good);
    Continue(states, actions, s1, Creating, a, s2, Resting);
    states, actions := states + [s2], actions + [a];
  }

  /** The destroy of the last queue fails after unlinking it; the next create registers the process again. */
  lemma RegisteredTwice() returns (states: seq<State>, actions: seq<Action>, sc: Sched)
    ensures Story(states, actions, World([1, 1], User([Created(2)]), 1, 1, sc), Resting)
  {
    var sc1;
    states, actions, sc1 := OneQueue();
    MoveDestroy(sc1);
    MoveRegister([1], sc1, true);
    assert [1] + [1] == [1, 1];
    MoveCreate([1, 1], sc1, 2);
    sc := After([1, 1], 2, sc1);
    hide Story, Moves, World, After;
    var s0, d := World([1], User([Created(1)]), 1, 1, sc1), DestroyQueue(1, 0, Hw(SendFailed, Sent));
    var s1, s2 := World([1], User([]), 0, 0, sc1), World([1, 1], User([]), 0, 0, sc1);
    Continue(states, actions, s0, Resting, d, s1, Resting);
    states, actions := states + [s1], actions + [d];
    Continue(states, actions, s1, Resting, Register(1, true), s2, Creating);
    states, actions := states + [s2], actions + [Register(1, true)];
    var s3, a := World([1, 1], User([Created(2)]), 1, 1, sc), CreateQueue(1, NewQueue(2), None, true, Good);
    Continue(states, actions, s2, Creating, a, s3, Resting);
    states, actions := states + [s3], actions + [a];
  }

  lemma ActiveSums(q: Queue, procs: map<nat, Proc>)
    requires q.active && procs == map[1 := User([q])]
    ensures Sum(Active, [1], procs) == 1 && Sum(Active, [1, 1], procs) == 2 && Sum(Active, [], procs) == 0
  {
    assert SumQ(Active, [q]) == SumQ(Active, []) + Weight(Active, q);
    assert [1][1..] == [] && [1, 1][1..] == [1];
  }

  /**
    A caller that follows its protocol reaches a state in which the runlist overflows its
    buffer by a whole map-queues packet.
   */
  lemma DoubleRegistrationOverflows() returns (states: seq<State>, actions: seq<Action>)
    ensures Run(Cfg, states, actions) && Disciplined(Cfg, states, actions, |actions|)
    ensures var l := states[|actions|].lists;
      && Defined(l)
      && 4 * |Encode(Packets(Cfg, l), Cfg.layout)|
         == RlibSize(l.processes, l.tally, Cfg.layout) + Cfg.layout.mapQueuesSize
  {
    var sc;
    states, actions, sc := RegisteredTwice();
    hide Run, Disciplined, PhaseAt, Packets, Encode, RlibSize;
    TwiceOverflows(sc);
  }

  lemma TwiceOverflows(sc: Sched)
    ensures var l := World([1, 1], User([Created(2)]), 1, 1, sc).lists;
      && Defined(l)
      && 4 * |Encode(Packets(Cfg, l), Cfg.layout)|
         == RlibSize(l.processes, l.tally, Cfg.layout) + Cfg.layout.mapQueuesSize
  {
    var l := World([1, 1], User([Created(2)]), 1, 1, sc).lists;
    ActiveSums(Created(2), l.procs);
    hide Encode, Sum, RlibSize;
    SizeGap(l.nodes, l.procs, l.tally, Cfg.layout);
  }

  /**
    And one whose registration failed for lack of memory reaches a state with an active
    queue that no runlist maps although nothing else failed.
   */
  lemma FailedRegistrationStarves() returns (states: seq<State>, actions: seq<Action>)
    ensures Run(Cfg, states, actions) && Disciplined(Cfg, states, actions, |actions|)
    ensures var s := states[|actions|];
      !Sound(s.lists) && s.lists.tally.active == 1 && s.sched.running && !s.sched.activeRunlist
  {
    states, actions := ProcessThere();
    MoveRegister([], Running, false);
    MoveCreate([], Running, 1);
    AfterFit([], 1, Running);
    hide Moves, Run, Disciplined, PhaseAt, After;
    var s0, s1 := World([], User([]), 0, 0, Running), World([], User([Created(1)]), 1, 1, Running);
    Continue(states, actions, s0, Resting, Register(1, false), s0, Creating);
    states, actions := states + [s0], actions + [Register(1, false)];
    var a := CreateQueue(1, NewQueue(1), None, true, Good);
    Continue(states, actions, s0, Creating, a, s1, Resting);
    states, actions := states + [s1], actions + [a];
    assert 1 in s1.lists.known && !NoQueues(s1.lists.procs[1]);
  }

  lemma MoveTrap(sc: Sched)
    requires Fit(sc) && sc.activeRunlist && !sc.trapVmid
    ensures Moves(World([1], User([Created(1)]), 1, 1, sc), Resting, TrapVmid(true, false, Good),
                  World([1], User([Created(1)]), 1, 1, Release(sc).(activeRunlist := false, trapVmid := true)), Resting)
  {
  }

  /**
    Reserving the trap VMID when the new resources are refused: every map and unmap of the
    run succeeded, the scheduler runs, one queue is active, and nothing is mapped.
   */
  lemma RefusedResourcesStarve() returns (states: seq<State>, actions: seq<Action>)
    ensures Run(Cfg, states, actions) && Disciplined(Cfg, states, actions, |actions|)
    ensures |actions| > 0 && actions[|actions| - 1] == TrapVmid(true, false, Good)
    ensures var s := states[|actions|];
      s.lists.tally.active == 1 && s.sched.running && !s.sched.hang && !s.sched.activeRunlist
  {
    var sc;
    states, actions, sc := OneQueue();
    MoveTrap(sc);
    hide Moves, Run, Disciplined, PhaseAt;
    var s0 := World([1], User([Created(1)]), 1, 1, sc);
    var s1 := World([1], User([Created(1)]), 1, 1, Release(sc).(activeRunlist := false, trapVmid := true));
    Continue(states, actions, s0, Resting, TrapVmid(true, false, Good), s1, Resting);
    states, actions := states + [s1], actions + [TrapVmid(true, false, Good)];
  }
}

/**
  Runs from boot in which the kernel departs from what one would expect: a father woken at the
  place of its pid is passed over by a process of lower priority, the death of a waiter leaves fewer
  processes blocked than the counter owes, and a process that `start` or `kill` made runnable stands
  above the one that goes on running; and a due sleeper sleeps on behind one that `chprio` put before it.
*/
module KernelScenarios {
  import opened OrderedQueue
  import opened KernelModel
  import opened KernelInvariant
  import opened KernelSemaphores
  import opened KernelRuns
  import opened KernelOrder
  import opened KernelTheorems
  import opened KernelOvertake
  import opened KernelPriority
  import opened KernelAlarm

  // ----- states with few processes -----

  function Blanks(n: nat): (s: seq<Process>)
    ensures |s| == n && forall i :: 0 <= i < n ==> s[i] == Process(0, -1, 0, 0, -1, 0, 0, FREEPID, UserMode)
  {
    seq(n, i => Process(0, -1, 0, 0, -1, 0, 0, FREEPID, UserMode))
  }

  function From(a: nat): (s: seq<int>)
    requires a <= NB_PROCESS
    ensures |s| == NB_PROCESS - a && forall i :: 0 <= i < |s| ==> s[i] == a + i
  {
    seq(NB_PROCESS - a, i => a + i)
  }

  /** The processes ps have been started and the semaphores 0, 1, ... have the values sems; all other
      pids and ids are free.  The queues qs are those of the states below FREEPID. */
  function World(ps: seq<Process>, qs: seq<seq<int>>, cur: int, clock: int, garbage: seq<int>, sems: seq<int>): Kernel
    requires |ps| <= NB_PROCESS && |qs| == FREEPID && |sems| <= NB_SEM
  {
    Kernel(ps + Blanks(NB_PROCESS - |ps|), qs + [From(|ps|)], cur, clock, garbage,
           sems + seq(NB_SEM - |sems|, i => 0), seq(|sems|, i => i), From(|sems|), false)
  }

  /** Started processes and queues of started processes. */
  predicate Fine(ps: seq<Process>, qs: seq<seq<int>>, cur: int, garbage: seq<int>, sems: seq<int>) {
    && 0 < |ps| < NB_PROCESS && |qs| == FREEPID && |sems| < NB_SEM && (0 <= cur < |ps| || cur == PID_GARBAGE)
    && (forall p :: 0 <= p < |ps| ==> 0 <= ps[p].state < NB_STATE && 0 <= ps[p].father < |ps|)
    && (forall s, i :: 0 <= s < FREEPID && 0 <= i < |qs[s]| ==> 0 <= qs[s][i] < |ps|)
    && (forall i :: 0 <= i < |garbage| ==> 0 <= garbage[i] < |ps|)
  }

  lemma WorldShaped(ps: seq<Process>, qs: seq<seq<int>>, cur: int, clock: int, garbage: seq<int>, sems: seq<int>)
    requires Fine(ps, qs, cur, garbage, sems)
    ensures Shaped(World(ps, qs, cur, clock, garbage, sems))
  {
    var k := World(ps, qs, cur, clock, garbage, sems);
    forall s | 0 <= s < NB_STATE ensures AllPids(k.queues[s]) {
      assert s < FREEPID ==> k.queues[s] == qs[s];
      assert s == FREEPID ==> k.queues[s] == From(|ps|);
    }
  }

  lemma WorldFields(ps: seq<Process>, qs: seq<seq<int>>, cur: int, clock: int, garbage: seq<int>, sems: seq<int>)
    requires Fine(ps, qs, cur, garbage, sems)
    ensures var k := World(ps, qs, cur, clock, garbage, sems);
      && k.cur == cur && k.clock == clock && k.garbage == garbage && |k.procs| == NB_PROCESS
      && (forall p :: 0 <= p < |ps| ==> k.procs[p] == ps[p])
      && (forall t :: k.(clock := t) == World(ps, qs, cur, t, garbage, sems))
  {
  }

  const IDLE := Process(0, -1, 0, 0, -1, 0, 0, ACTIONABLE, UserMode)

  /** A process just started. */
  function Started(prio: int, father: int): Process { Process(prio, -1, 0, 0, -1, father, 0, ACTIONABLE, UserMode) }

  /** The place of a new element, given. */
  lemma AddAt(q: seq<int>, keys: seq<int>, e: int, i: nat)
    requires Indexes(q, keys) && 0 <= e < |keys| && i <= |q|
    requires forall j :: 0 <= j < i ==> keys[q[j]] < keys[e]
    requires i < |q| ==> keys[e] <= keys[q[i]]
    ensures Add(q, keys, e) == q[..i] + [e] + q[i..]
  {
    assert Position(q, keys, keys[e]) == i;
  }

  /** One process changes its record. */
  lemma PutWorld(ps: seq<Process>, qs: seq<seq<int>>, cur: int, clock: int, garbage: seq<int>, sems: seq<int>,
                 p: int, r: Process)
    requires Fine(ps, qs, cur, garbage, sems) && 0 <= p < |ps| && 0 <= r.state < NB_STATE && 0 <= r.father < |ps|
    ensures Shaped(World(ps, qs, cur, clock, garbage, sems))
    ensures Put(World(ps, qs, cur, clock, garbage, sems), p, r) == World(ps[p := r], qs, cur, clock, garbage, sems)
  {
    WorldShaped(ps, qs, cur, clock, garbage, sems);
    assert (ps + Blanks(NB_PROCESS - |ps|))[p := r] == ps[p := r] + Blanks(NB_PROCESS - |ps|);
  }

  /** One process joins a queue at place i. */
  lemma EnqueueWorld(ps: seq<Process>, qs: seq<seq<int>>, cur: int, clock: int, garbage: seq<int>, sems: seq<int>,
                     p: int, s: int, keys: seq<int>, i: nat, q: seq<int>)
    requires Fine(ps, qs, cur, garbage, sems) && 0 <= p < |ps| && 0 <= s < FREEPID && |keys| == NB_PROCESS
    requires i <= |qs[s]|
    requires forall j :: 0 <= j < i ==> keys[qs[s][j]] < keys[p]
    requires i < |qs[s]| ==> keys[p] <= keys[qs[s][i]]
    requires q == qs[s][..i] + [p] + qs[s][i..]
    ensures Shaped(World(ps, qs, cur, clock, garbage, sems))
    ensures Enqueue(World(ps, qs, cur, clock, garbage, sems), p, s, keys)
         == World(ps, qs[s := q], cur, clock, garbage, sems)
  {
    WorldShaped(ps, qs, cur, clock, garbage, sems);
    AddAt(qs[s], keys, p, i);
    assert (qs + [From(|ps|)])[s := q] == qs[s := q] + [From(|ps|)];
  }

  /** A free pid is taken and its record written. */
  lemma NewWorld(ps: seq<Process>, qs: seq<seq<int>>, cur: int, clock: int, sems: seq<int>, r: Process)
    requires Fine(ps, qs, cur, [], sems) && |ps| + 1 < NB_PROCESS && 0 <= r.state < NB_STATE && 0 <= r.father < |ps|
    ensures var k := World(ps, qs, cur, clock, [], sems);
      && Shaped(k) && k.queues[FREEPID] != [] && k.queues[FREEPID][0] == |ps|
      && k.(procs := k.procs[|ps| := r], queues := k.queues[FREEPID := k.queues[FREEPID][1..]])
         == World(ps + [r], qs, cur, clock, [], sems)
  {
    WorldShaped(ps, qs, cur, clock, [], sems);
    assert From(|ps|)[1..] == From(|ps| + 1);
    assert (ps + Blanks(NB_PROCESS - |ps|))[|ps| := r] == ps + [r] + Blanks(NB_PROCESS - |ps| - 1);
    assert (qs + [From(|ps|)])[FREEPID := From(|ps| + 1)] == qs + [From(|ps| + 1)];
  }

  /** `start` by the running process, before the preemption. */
  lemma StartWorld(ps: seq<Process>, qs: seq<seq<int>>, cur: int, clock: int, sems: seq<int>, prio: int, i: nat,
                   q: seq<int>)
    requires Fine(ps, qs, cur, [], sems) && IsPid(cur) && 1 <= prio <= MAXPRIO && i <= |qs[ACTIONABLE]|
    requires |ps| + 1 < NB_PROCESS
    requires forall j :: 0 <= j < i ==> ps[qs[ACTIONABLE][j]].prio < prio
    requires i < |qs[ACTIONABLE]| ==> prio <= ps[qs[ACTIONABLE][i]].prio
    requires q == qs[ACTIONABLE][..i] + [|ps|] + qs[ACTIONABLE][i..]
    ensures var k := World(ps, qs, cur, clock, [], sems);
      var k' := World(ps + [Started(prio, cur)], qs[ACTIONABLE := q], cur, clock, [], sems);
      && Shaped(k) && Shaped(k')
      && Start(k, prio) == if cur != 0 && ps[cur].prio < prio then Scheduler(k') else k'
  {
    hide Scheduler; hide Shaped; hide World;
    var k, r := World(ps, qs, cur, clock, [], sems), Started(prio, cur);
    WorldShaped(ps, qs, cur, clock, [], sems);
    WorldFields(ps, qs, cur, clock, [], sems);
    FreeRecord(ps, qs, cur, clock, sems);
    NewWorld(ps, qs, cur, clock, sems, r);
    var ps' := ps + [r];
    assert Fine(ps', qs, cur, [], sems);
    var k2 := World(ps', qs, cur, clock, [], sems);
    WorldFields(ps', qs, cur, clock, [], sems);
    EnqueueWorld(ps', qs, cur, clock, [], sems, |ps|, ACTIONABLE, Prios(k2.procs), i, q);
    FineMore(ps', qs, cur, sems, q);
    WorldShaped(ps', qs[ACTIONABLE := q], cur, clock, [], sems);
    WorldFields(ps', qs[ACTIONABLE := q], cur, clock, [], sems);
  }

  lemma FineMore(ps: seq<Process>, qs: seq<seq<int>>, cur: int, sems: seq<int>, q: seq<int>)
    requires Fine(ps, qs, cur, [], sems) && forall i :: 0 <= i < |q| ==> 0 <= q[i] < |ps|
    ensures Fine(ps, qs[ACTIONABLE := q], cur, [], sems)
  {
  }

  lemma FreeRecord(ps: seq<Process>, qs: seq<seq<int>>, cur: int, clock: int, sems: seq<int>)
    requires Fine(ps, qs, cur, [], sems)
    ensures var k := World(ps, qs, cur, clock, [], sems);
      |k.procs| == NB_PROCESS && k.procs[|ps|] == Process(0, -1, 0, 0, -1, 0, 0, FREEPID, UserMode)
  {
  }

  /** `scheduler` with no due sleeper at the front and no garbage: the running process goes back to place i of the
      actionable queue if it is runnable, and the last of the queue is elected. */
  lemma SwitchWorld(ps: seq<Process>, qs: seq<seq<int>>, cur: int, clock: int, sems: seq<int>, i: nat, q: seq<int>)
    requires Fine(ps, qs, cur, [], sems) && i <= |qs[ACTIONABLE]| && q != []
    requires qs[ASLEEP] != [] ==> ps[qs[ASLEEP][0]].alarmTime >= clock
    requires
      if IsPid(cur) && ps[cur].state == ACTIONABLE then
        && (forall j :: 0 <= j < i ==> ps[qs[ACTIONABLE][j]].prio < ps[cur].prio)
        && (i < |qs[ACTIONABLE]| ==> ps[cur].prio <= ps[qs[ACTIONABLE][i]].prio)
        && q == qs[ACTIONABLE][..i] + [cur] + qs[ACTIONABLE][i..]
      else q == qs[ACTIONABLE]
    ensures var n := |q| - 1;
      && Shaped(World(ps, qs, cur, clock, [], sems))
      && Scheduler(World(ps, qs, cur, clock, [], sems)) == World(ps, qs[ACTIONABLE := q[..n]], q[n], clock, [], sems)
  {
    hide World; hide Add; hide Shaped;
    WorldShaped(ps, qs, cur, clock, [], sems);
    WorldFields(ps, qs, cur, clock, [], sems);
    var k := World(ps, qs, cur, clock, [], sems);
    AsleepWorld(ps, qs, cur, clock, [], sems);
    assert WakeDue(k) == k;
    if IsPid(cur) && ps[cur].state == ACTIONABLE {
      EnqueueWorld(ps, qs, cur, clock, [], sems, cur, ACTIONABLE, Prios(k.procs), i, q);
    } else {
      assert qs[ACTIONABLE := q] == qs;
    }
    ElectWorld(ps, qs[ACTIONABLE := q], cur, clock, sems);
    assert qs[ACTIONABLE := q][ACTIONABLE := q[..|q| - 1]] == qs[ACTIONABLE := q[..|q| - 1]];
  }

  lemma AsleepWorld(ps: seq<Process>, qs: seq<seq<int>>, cur: int, clock: int, garbage: seq<int>, sems: seq<int>)
    requires Fine(ps, qs, cur, garbage, sems)
    ensures var k := World(ps, qs, cur, clock, garbage, sems); |k.queues| == NB_STATE && k.queues[ASLEEP] == qs[ASLEEP]
  {
  }

  lemma ElectWorld(ps: seq<Process>, qs: seq<seq<int>>, cur: int, clock: int, sems: seq<int>)
    requires Fine(ps, qs, cur, [], sems) && qs[ACTIONABLE] != []
    ensures var q := qs[ACTIONABLE]; var n := |q| - 1;
      && Shaped(World(ps, qs, cur, clock, [], sems))
      && Elect(World(ps, qs, cur, clock, [], sems)) == World(ps, qs[ACTIONABLE := q[..n]], q[n], clock, [], sems)
  {
    WorldShaped(ps, qs, cur, clock, [], sems);
    var q := qs[ACTIONABLE];
    var n := |q| - 1;
    assert (qs + [From(|ps|)])[ACTIONABLE := q[..n]] == qs[ACTIONABLE := q[..n]] + [From(|ps|)];
  }

  /** Queues with only actionable processes. */
  function Only(q: seq<int>): seq<seq<int>> { [q, [], [], [], [], []] }

  lemma BootWorld()
    ensures Boot() == World([IDLE], Only([]), 0, 0, [], [])
  {
    var k, w := Boot(), World([IDLE], Only([]), 0, 0, [], []);
    assert k.procs == w.procs && k.queues[FREEPID] == From(1) && k.queues == w.queues;
    assert k.semValue == w.semValue && k.semUsed == w.semUsed && k.semFree == w.semFree;
  }

  /** Idle starts a first process. */
  lemma IdleStarts(prio: int)
    requires 1 <= prio <= MAXPRIO
    ensures var k, k' := World([IDLE], Only([]), 0, 0, [], []),
      World([IDLE, Started(prio, 0)], Only([1]), 0, 0, [], []);
      Shaped(k) && Shaped(k') && Enabled(k, DoStart(prio)) && k' == Step(k, DoStart(prio))
  {
    hide World; hide Scheduler; hide Shaped; hide Fine; hide Start; hide Started;
    FineFirst(prio);
    WorldFields([IDLE], Only([]), 0, 0, [], []);
    StartWorld([IDLE], Only([]), 0, 0, [], prio, 0, [1]);
    assert Only([])[ACTIONABLE := [1]] == Only([1]) && [IDLE] + [Started(prio, 0)] == [IDLE, Started(prio, 0)];
  }

  /** The next reschedule elects it. */
  lemma IdleYields(prio: int)
    requires 1 <= prio <= MAXPRIO
    ensures var k, k' := World([IDLE, Started(prio, 0)], Only([1]), 0, 0, [], []),
      World([IDLE, Started(prio, 0)], Only([0]), 1, 1, [], []);
      Shaped(k) && Shaped(k') && Enabled(k, ClockTick(true)) && k' == Step(k, ClockTick(true))
  {
    hide World; hide Scheduler; hide Shaped; hide Fine;
    var ps := [IDLE, Started(prio, 0)];
    FineFirst(prio);
    WorldFields(ps, Only([1]), 0, 0, [], []);
    WorldShaped(ps, Only([1]), 0, 0, [], []);
    SwitchWorld(ps, Only([1]), 0, 1, [], 0, [0, 1]);
    assert [0, 1][..1] == [0] && Only([1])[ACTIONABLE := [0]] == Only([0]);
    WorldShaped(ps, Only([0]), 1, 1, [], []);
  }

  lemma FineFirst(prio: int)
    ensures Fine([IDLE], Only([]), 0, [], []) && Fine([IDLE, Started(prio, 0)], Only([1]), 0, [], [])
    ensures Fine([IDLE, Started(prio, 0)], Only([0]), 1, [], [])
  {
  }

  // ----- a father passed over -----

  const PARENT := Started(2, 0)
  const CHILD := Started(1, 1)
  const WAITING := PARENT.(childWaited := 2, state := WAITING_CHILD, pending := InWaitPid)
  const DEAD := CHILD.(retvalue := 0, alarmTime := 1, state := ZOMBIE)
  const WOKEN := WAITING.(state := ACTIONABLE)

  /** Process 1 starts the processes 2 and 3, of lower priority, and waits for 2. */
  lemma ParentWaits()
    ensures var k2, k3, k4, k5 :=
        World([IDLE, PARENT], Only([0]), 1, 1, [], []), World([IDLE, PARENT, CHILD], Only([0, 2]), 1, 1, [], []),
        World([IDLE, PARENT, CHILD, CHILD], Only([0, 3, 2]), 1, 1, [], []),
        World([IDLE, WAITING, CHILD, CHILD], [[0, 3], [], [], [], [1], []], 2, 1, [], []);
      && Shaped(k2) && Shaped(k3) && Shaped(k4) && Shaped(k5)
      && Enabled(k2, DoStart(1)) && k3 == Step(k2, DoStart(1))
      && Enabled(k3, DoStart(1)) && k4 == Step(k3, DoStart(1))
      && Enabled(k4, DoWaitPid(2, -1)) && k5 == Step(k4, DoWaitPid(2, -1))
  {
    hide Scheduler; hide World; hide Shaped; hide Fine; hide HasChild; hide IsChild; hide ZombieChild;
    TwoChildren();
    var ps, ps' := [IDLE, PARENT, CHILD, CHILD], [IDLE, WAITING, CHILD, CHILD];
    var k4 := World(ps, Only([0, 3, 2]), 1, 1, [], []);
    FourChildren(k4);
    FineWaiting();
    PutWorld(ps, Only([0, 3, 2]), 1, 1, [], [], 1, WAITING);
    assert ps[1 := WAITING] == ps';
    WaitSwitch();
  }

  lemma WaitSwitch()
    ensures var k, k' := World([IDLE, WAITING, CHILD, CHILD], Only([0, 3, 2]), 1, 1, [], []),
      World([IDLE, WAITING, CHILD, CHILD], [[0, 3], [], [], [], [1], []], 2, 1, [], []);
      Shaped(k) && Shaped(k') && Scheduler(Enqueue(k, 1, WAITING_CHILD, Numbers())) == k'
  {
    hide Scheduler; hide World; hide Shaped; hide Fine;
    FineWaiting();
    var ps, qs := [IDLE, WAITING, CHILD, CHILD], [[0, 3, 2], [], [], [], [1], []];
    EnqueueWorld(ps, Only([0, 3, 2]), 1, 1, [], [], 1, WAITING_CHILD, Numbers(), 0, [1]);
    assert Only([0, 3, 2])[WAITING_CHILD := [1]] == qs;
    SwitchWorld(ps, qs, 1, 1, [], 0, [0, 3, 2]);
    assert [0, 3, 2][..2] == [0, 3] && qs[ACTIONABLE := [0, 3]] == [[0, 3], [], [], [], [1], []];
    WorldShaped(ps, [[0, 3], [], [], [], [1], []], 2, 1, [], []);
  }

  lemma FineWaiting()
    ensures Fine([IDLE, PARENT, CHILD, CHILD], Only([0, 3, 2]), 1, [], [])
    ensures var ps := [IDLE, WAITING, CHILD, CHILD];
      && Fine(ps, Only([0, 3, 2]), 1, [], []) && Fine(ps, [[0, 3, 2], [], [], [], [1], []], 1, [], [])
      && Fine(ps, [[0, 3], [], [], [], [1], []], 2, [], [])
  {
  }

  lemma TwoChildren()
    ensures var k2, k3, k4 :=
        World([IDLE, PARENT], Only([0]), 1, 1, [], []), World([IDLE, PARENT, CHILD], Only([0, 2]), 1, 1, [], []),
        World([IDLE, PARENT, CHILD, CHILD], Only([0, 3, 2]), 1, 1, [], []);
      && Shaped(k2) && Shaped(k3) && Shaped(k4)
      && Enabled(k2, DoStart(1)) && k3 == Step(k2, DoStart(1))
      && Enabled(k3, DoStart(1)) && k4 == Step(k3, DoStart(1))
  {
    hide World; hide Shaped; hide Fine; hide Start;
    OneChild();
    AnotherChild();
  }

  lemma OneChild()
    ensures var k2, k3 := World([IDLE, PARENT], Only([0]), 1, 1, [], []),
      World([IDLE, PARENT, CHILD], Only([0, 2]), 1, 1, [], []);
      Shaped(k2) && Shaped(k3) && Enabled(k2, DoStart(1)) && k3 == Step(k2, DoStart(1))
  {
    hide World; hide Scheduler; hide Shaped; hide Fine; hide Start;
    FineChildren();
    WorldFields([IDLE, PARENT], Only([0]), 1, 1, [], []);
    assert [IDLE, PARENT] + [CHILD] == [IDLE, PARENT, CHILD];
    StartWorld([IDLE, PARENT], Only([0]), 1, 1, [], 1, 1, [0, 2]);
    assert Only([0])[ACTIONABLE := [0, 2]] == Only([0, 2]);
  }

  lemma AnotherChild()
    ensures var k3, k4 := World([IDLE, PARENT, CHILD], Only([0, 2]), 1, 1, [], []),
      World([IDLE, PARENT, CHILD, CHILD], Only([0, 3, 2]), 1, 1, [], []);
      Shaped(k3) && Shaped(k4) && Enabled(k3, DoStart(1)) && k4 == Step(k3, DoStart(1))
  {
    hide World; hide Scheduler; hide Shaped; hide Fine; hide Start;
    FineChildren();
    WorldFields([IDLE, PARENT, CHILD], Only([0, 2]), 1, 1, [], []);
    assert [IDLE, PARENT, CHILD] + [CHILD] == [IDLE, PARENT, CHILD, CHILD];
    StartWorld([IDLE, PARENT, CHILD], Only([0, 2]), 1, 1, [], 1, 1, [0, 3, 2]);
    assert Only([0, 2])[ACTIONABLE := [0, 3, 2]] == Only([0, 3, 2]);
  }

  lemma FineChildren()
    ensures Fine([IDLE, PARENT], Only([0]), 1, [], []) && Fine([IDLE, PARENT, CHILD], Only([0, 2]), 1, [], [])
  {
  }

  lemma FourChildren(k: Kernel)
    requires k == World([IDLE, PARENT, CHILD, CHILD], Only([0, 3, 2]), 1, 1, [], []) && Shaped(k)
    ensures HasChild(k, 1) && IsChild(k, 2, 1) && k.procs[1] == PARENT && k.procs[2] == CHILD && k.cur == 1
    ensures forall c :: IsPid(c) ==> !ZombieChild(k, c, 1)
  {
    assert IsChild(k, 2, 1);
  }

  /** Without zombie children nothing is buried. */
  lemma {:induction false} BuryNone(k: Kernel, f: int, i: nat)
    requires Shaped(k) && IsPid(f) && i <= NB_PROCESS
    requires forall c :: 0 <= c < NB_PROCESS && c != f ==> k.procs[c].father != f
    ensures BuryChildren(k, f, i) == k
    decreases NB_PROCESS - i
  {
    if i < NB_PROCESS {
      BuryNone(k, f, i + 1);
    }
  }

  /** Process 2 exits: its father enters the queue at the place of its pid, before process 3. */
  lemma ChildExits()
    ensures var k5, k6 :=
        World([IDLE, WAITING, CHILD, CHILD], [[0, 3], [], [], [], [1], []], 2, 1, [], []),
        World([IDLE, WOKEN, DEAD, CHILD], [[0, 1, 3], [], [], [], [], [2]], PID_GARBAGE, 1, [2], []);
      Shaped(k5) && Shaped(k6) && Enabled(k5, DoExit(0)) && k6 == Step(k5, DoExit(0))
  {
    hide World; hide BuryChildren; hide Scheduler; hide Shaped; hide Orphaned; hide Add; hide ReportFather;
    hide Enqueue;
    hide Put; hide Enabled;
    FineExit();
    var k5 := World([IDLE, WAITING, CHILD, CHILD], [[0, 3], [], [], [], [1], []], 2, 1, [], []);
    WorldShaped([IDLE, WAITING, CHILD, CHILD], [[0, 3], [], [], [], [1], []], 2, 1, [], []);
    ExitFields(k5);
    var k6 := World([IDLE, WOKEN, DEAD, CHILD], [[0, 1, 3], [], [], [], [], [2]], 2, 1, [], []);
    Reporting(k5, k6);
    GarbageWorld(k6);
    WorldShaped([IDLE, WOKEN, DEAD, CHILD], [[0, 1, 3], [], [], [], [], [2]], PID_GARBAGE, 1, [2], []);
  }

  lemma FineExit()
    ensures Fine([IDLE, WAITING, CHILD, CHILD], [[0, 3], [], [], [], [1], []], 2, [], [])
    ensures Fine([IDLE, WAITING, DEAD, CHILD], [[0, 3], [], [], [], [1], []], 2, [], [])
    ensures Fine([IDLE, WAITING, DEAD, CHILD], [[0, 3], [], [], [], [], [2]], 2, [], [])
    ensures Fine([IDLE, WAITING, DEAD, CHILD], [[0, 1, 3], [], [], [], [], [2]], 2, [], [])
    ensures Fine([IDLE, WOKEN, DEAD, CHILD], [[0, 1, 3], [], [], [], [], [2]], 2, [], [])
    ensures Fine([IDLE, WOKEN, DEAD, CHILD], [[0, 1, 3], [], [], [], [], [2]], PID_GARBAGE, [2], [])
  {
  }

  lemma ExitFields(k: Kernel)
    requires k == World([IDLE, WAITING, CHILD, CHILD], [[0, 3], [], [], [], [1], []], 2, 1, [], []) && Shaped(k)
    ensures k.cur == 2 && k.clock == 1 && k.garbage == [] && k.procs[2] == CHILD && Enabled(k, DoExit(0))
  {
  }

  /** From the running process 2 to the state in which its father knows. */
  lemma Reporting(k: Kernel, k': Kernel)
    requires k == World([IDLE, WAITING, CHILD, CHILD], [[0, 3], [], [], [], [1], []], 2, 1, [], [])
    requires k' == World([IDLE, WOKEN, DEAD, CHILD], [[0, 1, 3], [], [], [], [], [2]], 2, 1, [], [])
    ensures Shaped(k) && Shaped(k')
    ensures var k1 := Put(k, 2, DEAD); ReportFather(Enqueue(k1, 2, ZOMBIE, Alarms(k1.procs)), 2) == k'
  {
    hide World; hide Shaped; hide Fine; hide ReportFather; hide Add;
    FineExit();
    var ps := [IDLE, WAITING, DEAD, CHILD];
    PutWorld([IDLE, WAITING, CHILD, CHILD], [[0, 3], [], [], [], [1], []], 2, 1, [], [], 2, DEAD);
    assert [IDLE, WAITING, CHILD, CHILD][2 := DEAD] == ps;
    var k1 := Put(k, 2, DEAD);
    EnqueueWorld(ps, [[0, 3], [], [], [], [1], []], 2, 1, [], [], 2, ZOMBIE, Alarms(k1.procs), 0, [2]);
    assert [[0, 3], [], [], [], [1], []][ZOMBIE := [2]] == [[0, 3], [], [], [], [1], [2]];
    Waking(World(ps, [[0, 3], [], [], [], [1], [2]], 2, 1, [], []), k');
    WorldShaped([IDLE, WOKEN, DEAD, CHILD], [[0, 1, 3], [], [], [], [], [2]], 2, 1, [], []);
  }

  /** `report_father` for the dead process 2. */
  lemma Waking(k: Kernel, k': Kernel)
    requires k == World([IDLE, WAITING, DEAD, CHILD], [[0, 3], [], [], [], [1], [2]], 2, 1, [], []) && Shaped(k)
    requires k' == World([IDLE, WOKEN, DEAD, CHILD], [[0, 1, 3], [], [], [], [], [2]], 2, 1, [], [])
    ensures ReportFather(k, 2) == k'
  {
    hide World; hide Shaped; hide Fine; hide Add;
    FineExit();
    var ps, qs := [IDLE, WAITING, DEAD, CHILD], [[0, 3], [], [], [], [], [2]];
    WaitingFields(k);
    EnqueueWorld(ps, qs, 2, 1, [], [], 1, ACTIONABLE, Numbers(), 1, [0, 1, 3]);
    var qs' := [[0, 1, 3], [], [], [], [], [2]];
    assert qs[ACTIONABLE := [0, 1, 3]] == qs';
    PutWorld(ps, qs', 2, 1, [], [], 1, WOKEN);
    assert ps[1 := WOKEN] == [IDLE, WOKEN, DEAD, CHILD];
    WaitingAfter(World(ps, qs', 2, 1, [], []));
  }

  lemma WaitingFields(k: Kernel)
    requires k == World([IDLE, WAITING, DEAD, CHILD], [[0, 3], [], [], [], [1], [2]], 2, 1, [], [])
    ensures |k.procs| == NB_PROCESS && |k.queues| == NB_STATE
    ensures k.procs[2].father == 1 && k.procs[1] == WAITING && k.queues[WAITING_CHILD] == [1] && Remove([1], 1) == []
    ensures k.(queues := k.queues[WAITING_CHILD := []])
         == World([IDLE, WAITING, DEAD, CHILD], [[0, 3], [], [], [], [], [2]], 2, 1, [], [])
  {
  }

  lemma WaitingAfter(k: Kernel)
    requires k == World([IDLE, WAITING, DEAD, CHILD], [[0, 1, 3], [], [], [], [], [2]], 2, 1, [], [])
    ensures |k.procs| == NB_PROCESS && k.procs[1] == WAITING
  {
  }

  /** The rest of the exit: nobody to bury, nobody to wake, and the collector is elected. */
  lemma GarbageWorld(k: Kernel)
    requires k == World([IDLE, WOKEN, DEAD, CHILD], [[0, 1, 3], [], [], [], [], [2]], 2, 1, [], []) && Shaped(k)
    ensures var k1 := BuryChildren(k, 2, 0);
      var k2 := k1.(procs := Orphaned(k1.procs, 2));
      && Shaped(k2) && Scheduler(k2.(garbage := Add(k2.garbage, Numbers(), 2)))
         == World([IDLE, WOKEN, DEAD, CHILD], [[0, 1, 3], [], [], [], [], [2]], PID_GARBAGE, 1, [2], [])
  {
    hide World; hide BuryChildren; hide Add; hide Shaped;
    NoSons(k);
    BuryNone(k, 2, 0);
    AddAt([], Numbers(), 2, 0);
    assert Add([], Numbers(), 2) == [2] && k.(procs := Orphaned(k.procs, 2)) == k;
    ToCollector(k);
  }

  lemma NoSons(k: Kernel)
    requires k == World([IDLE, WOKEN, DEAD, CHILD], [[0, 1, 3], [], [], [], [], [2]], 2, 1, [], []) && Shaped(k)
    ensures (forall c :: 0 <= c < NB_PROCESS && c != 2 ==> k.procs[c].father != 2)
    ensures Orphaned(k.procs, 2) == k.procs && k.garbage == []
  {
  }

  lemma ToCollector(k: Kernel)
    requires k == World([IDLE, WOKEN, DEAD, CHILD], [[0, 1, 3], [], [], [], [], [2]], 2, 1, [], []) && Shaped(k)
    ensures Shaped(k.(garbage := [2]))
    ensures Scheduler(k.(garbage := [2]))
         == World([IDLE, WOKEN, DEAD, CHILD], [[0, 1, 3], [], [], [], [], [2]], PID_GARBAGE, 1, [2], [])
  {
    var k1 := k.(garbage := [2]);
    assert k1.queues[ASLEEP] == [] && WakeDue(k1) == k1;
  }

  /** The collector leaves process 2 to its father, and the scheduler elects the last of the queue. */
  lemma Passed()
    ensures var k6, k7 :=
        World([IDLE, WOKEN, DEAD, CHILD], [[0, 1, 3], [], [], [], [], [2]], PID_GARBAGE, 1, [2], []),
        World([IDLE, WOKEN, DEAD, CHILD], [[0, 1], [], [], [], [], [2]], 3, 1, [], []);
      && Shaped(k6) && Shaped(k7) && Enabled(k6, Collect) && k7 == Step(k6, Collect)
      && k7.cur == 3 && !Highest(k7)
  {
    hide Scheduler; hide World; hide Shaped; hide GarbageCollect;
    var ps, qs := [IDLE, WOKEN, DEAD, CHILD], [[0, 1, 3], [], [], [], [], [2]];
    FineExit();
    FinePassed();
    WorldShaped(ps, qs, PID_GARBAGE, 1, [2], []);
    WorldFields(ps, qs, PID_GARBAGE, 1, [2], []);
    Collected();
    SwitchWorld(ps, qs, PID_GARBAGE, 1, [], 0, [0, 1, 3]);
    var qs' := [[0, 1], [], [], [], [], [2]];
    assert [0, 1, 3][..2] == [0, 1] && qs[ACTIONABLE := [0, 1]] == qs';
    var k7 := World(ps, qs', 3, 1, [], []);
    WorldShaped(ps, qs', 3, 1, [], []);
    WorldFields(ps, qs', 3, 1, [], []);
    assert k7.procs[1].state == ACTIONABLE && k7.procs[1].prio > k7.procs[3].prio;
  }

  lemma FinePassed()
    ensures var ps := [IDLE, WOKEN, DEAD, CHILD];
      && Fine(ps, [[0, 1, 3], [], [], [], [], [2]], PID_GARBAGE, [], [])
      && Fine(ps, [[0, 1], [], [], [], [], [2]], 3, [], [])
  {
  }

  lemma Collected()
    ensures var ps, qs := [IDLE, WOKEN, DEAD, CHILD], [[0, 1, 3], [], [], [], [], [2]];
      var k := World(ps, qs, PID_GARBAGE, 1, [2], []);
      Shaped(k) && GarbageCollect(k) == World(ps, qs, PID_GARBAGE, 1, [], [])
  {
    hide Shaped;
    var ps, qs := [IDLE, WOKEN, DEAD, CHILD], [[0, 1, 3], [], [], [], [], [2]];
    FineExit();
    FinePassed();
    WorldShaped(ps, qs, PID_GARBAGE, 1, [2], []);
    WorldShaped(ps, qs, PID_GARBAGE, 1, [], []);
    var k := World(ps, qs, PID_GARBAGE, 1, [2], []);
    assert k.procs[2] == DEAD && [2][..0] == [];
    assert k.(garbage := []) == World(ps, qs, PID_GARBAGE, 1, [], []);
  }

  /** A run from boot that ends with a context switch to a process of lower priority than another
      runnable one, the father woken by the death of its child. */
  lemma FatherPassedOver() returns (ks: seq<Kernel>, es: seq<Event>)
    ensures Run(ks, es) && ks[0] == Boot() && |es| == 7
    ensures WakesFather(ks[5], es[5]) && ks[7].cur != ks[6].cur && IsPid(ks[7].cur) && !Highest(ks[7])
  {
    hide World; hide Step; hide Enabled; hide Shaped; hide Highest;
    es := [DoStart(2), ClockTick(true), DoStart(1), DoStart(1), DoWaitPid(2, -1), DoExit(0), Collect];
    ks := [
      World([IDLE], Only([]), 0, 0, [], []),
      World([IDLE, PARENT], Only([1]), 0, 0, [], []),
      World([IDLE, PARENT], Only([0]), 1, 1, [], []),
      World([IDLE, PARENT, CHILD], Only([0, 2]), 1, 1, [], []),
      World([IDLE, PARENT, CHILD, CHILD], Only([0, 3, 2]), 1, 1, [], []),
      World([IDLE, WAITING, CHILD, CHILD], [[0, 3], [], [], [], [1], []], 2, 1, [], []),
      World([IDLE, WOKEN, DEAD, CHILD], [[0, 1, 3], [], [], [], [], [2]], PID_GARBAGE, 1, [2], []),
      World([IDLE, WOKEN, DEAD, CHILD], [[0, 1], [], [], [], [], [2]], 3, 1, [], [])
    ];
    BootWorld();
    IdleStarts(2);
    IdleYields(2);
    ParentWaits();
    ChildExits();
    Passed();
    DeathSeen(ks[5], ks[6]);
    forall i | 0 <= i < |es| ensures Enabled(ks[i], es[i]) && ks[i + 1] == Step(ks[i], es[i]) {
      assert i == 0 || i == 1 || i == 2 || i == 3 || i == 4 || i == 5 || i == 6;
    }
  }

  lemma DeathSeen(k: Kernel, k': Kernel)
    requires k == World([IDLE, WAITING, CHILD, CHILD], [[0, 3], [], [], [], [1], []], 2, 1, [], []) && Shaped(k)
    requires k' == World([IDLE, WOKEN, DEAD, CHILD], [[0, 1, 3], [], [], [], [], [2]], PID_GARBAGE, 1, [2], [])
    ensures WakesFather(k, DoExit(0)) && k'.cur == PID_GARBAGE
  {
  }

  // ----- a counter that owes more than there are waiters -----

  const MASTER := Started(1, 0)
  const WORKER := Started(2, 1)
  const BLOCKED := WORKER.(semBlocked := 0, state := SEM_BLOCKED, pending := InWait)

  /** A semaphore is created. */
  lemma CreateWorld(ps: seq<Process>, qs: seq<seq<int>>, cur: int, clock: int, count: short)
    requires Fine(ps, qs, cur, [], []) && count >= 0
    ensures Shaped(World(ps, qs, cur, clock, [], []))
    ensures SCreate(World(ps, qs, cur, clock, [], []), count) == World(ps, qs, cur, clock, [], [count])
  {
    var k, k' := World(ps, qs, cur, clock, [], []), World(ps, qs, cur, clock, [], [count]);
    WorldShaped(ps, qs, cur, clock, [], []);
    AddAt([], Numbers(), 0, 0);
    assert k.semFree[0] == 0 && k.semFree[1..] == k'.semFree && k'.semUsed == [0] && k.semUsed == [];
    assert k.semValue[0 := count] == k'.semValue;
  }

  /** The counter of a semaphore changes. */
  lemma ValueWorld(ps: seq<Process>, qs: seq<seq<int>>, cur: int, clock: int, u: int, v: int)
    requires Fine(ps, qs, cur, [], [u])
    ensures var k := World(ps, qs, cur, clock, [], [u]);
      && Shaped(k) && k.semUsed == [0] && k.semValue[0] == u
      && SetValue(k, 0, v) == World(ps, qs, cur, clock, [], [v])
  {
    WorldShaped(ps, qs, cur, clock, [], [u]);
    assert World(ps, qs, cur, clock, [], [u]).semValue[0 := v] == World(ps, qs, cur, clock, [], [v]).semValue;
  }

  /** The running process, of higher priority than the others, waits in vain. */
  lemma WaitWorld(ps: seq<Process>, q: seq<int>, cur: int, act: seq<int>, clock: int, u: int)
    requires 0 < cur < |ps| < NB_PROCESS - 1 && ps[cur] == WORKER && SHRT_MIN < u <= 0 && |act| > 0
    requires Fine(ps, [act, [], q, [], [], []], cur, [], [u])
    requires forall i :: 0 <= i < |q| ==> 0 <= q[i] < |ps| && ps[q[i]].prio >= 2
    ensures var n := |act| - 1;
      var k, k' := World(ps, [act, [], q, [], [], []], cur, clock, [], [u]),
        World(ps[cur := BLOCKED], [act[..n], [], [cur] + q, [], [], []], act[n], clock, [], [u - 1]);
      Shaped(k) && Enabled(k, DoWait(0)) && k' == Step(k, DoWait(0))
  {
    hide World; hide Scheduler; hide Shaped; hide BlockSem;
    var qs := [act, [], q, [], [], []];
    WorldFields(ps, qs, cur, clock, [], [u]);
    ValueWorld(ps, qs, cur, clock, u, u - 1);
    BlockWorld(ps, q, cur, act, clock, u - 1);
  }

  lemma BlockWorld(ps: seq<Process>, q: seq<int>, cur: int, act: seq<int>, clock: int, v: int)
    requires 0 < cur < |ps| < NB_PROCESS - 1 && ps[cur] == WORKER && |act| > 0
    requires Fine(ps, [act, [], q, [], [], []], cur, [], [v])
    requires forall i :: 0 <= i < |q| ==> 0 <= q[i] < |ps| && ps[q[i]].prio >= 2
    ensures var n := |act| - 1;
      var k, k' := World(ps, [act, [], q, [], [], []], cur, clock, [], [v]),
        World(ps[cur := BLOCKED], [act[..n], [], [cur] + q, [], [], []], act[n], clock, [], [v]);
      Shaped(k) && k.cur == cur && BlockSem(k, 0) == k'
  {
    hide World; hide Scheduler; hide Shaped; hide Add;
    var qs, ps' := [act, [], q, [], [], []], ps[cur := BLOCKED];
    PutWorld(ps, qs, cur, clock, [], [v], cur, BLOCKED);
    WorldFields(ps, qs, cur, clock, [], [v]);
    FineBlocked(ps, qs, cur, v);
    WorldFields(ps', qs, cur, clock, [], [v]);
    var k2 := World(ps', qs, cur, clock, [], [v]);
    EnqueueWorld(ps', qs, cur, clock, [], [v], cur, SEM_BLOCKED, Prios(k2.procs), 0, [cur] + q);
    BlockSwitch(ps', q, cur, act, clock, v);
  }

  lemma FineBlocked(ps: seq<Process>, qs: seq<seq<int>>, cur: int, v: int)
    requires Fine(ps, qs, cur, [], [v]) && 0 < cur < |ps| && ps[cur] == WORKER
    ensures Fine(ps[cur := BLOCKED], qs, cur, [], [v])
  {
  }

  lemma BlockSwitch(ps: seq<Process>, q: seq<int>, cur: int, act: seq<int>, clock: int, v: int)
    requires 0 < cur < |ps| && ps[cur] == BLOCKED && |act| > 0 && Fine(ps, [act, [], q, [], [], []], cur, [], [v])
    ensures var n := |act| - 1; var qs := [act, [], q, [], [], []][SEM_BLOCKED := [cur] + q];
      && Shaped(World(ps, qs, cur, clock, [], [v]))
      && Scheduler(World(ps, qs, cur, clock, [], [v]))
         == World(ps, [act[..n], [], [cur] + q, [], [], []], act[n], clock, [], [v])
  {
    hide World; hide Scheduler; hide Shaped;
    var qs, n := [act, [], q, [], [], []][SEM_BLOCKED := [cur] + q], |act| - 1;
    assert Fine(ps, qs, cur, [], [v]);
    SwitchWorld(ps, qs, cur, clock, [v], 0, act);
    assert qs[ACTIONABLE := act[..n]] == [act[..n], [], [cur] + q, [], [], []];
  }

  /** The master starts a worker of higher priority, which runs at once. */
  lemma WorkerRuns(ps: seq<Process>, z: seq<int>, q: seq<int>, clock: int, sems: seq<int>)
    requires 1 < |ps| < NB_PROCESS - 2 && ps[0] == IDLE && ps[1] == MASTER
    requires Fine(ps, [[0], z, q, [], [], []], 1, [], sems)
    requires z != [] ==> 0 <= z[0] < |ps| && ps[z[0]].alarmTime >= clock
    ensures var k, k' := World(ps, [[0], z, q, [], [], []], 1, clock, [], sems),
        World(ps + [WORKER], [[0, 1], z, q, [], [], []], |ps|, clock, [], sems);
      Shaped(k) && Enabled(k, DoStart(2)) && k' == Step(k, DoStart(2))
  {
    hide World; hide Scheduler; hide Shaped; hide Start;
    var qs, p := [[0], z, q, [], [], []], |ps|;
    WorldFields(ps, qs, 1, clock, [], sems);
    StartWorld(ps, qs, 1, clock, sems, 2, 1, [0, p]);
    var qs' := [[0, p], z, q, [], [], []];
    assert qs[ACTIONABLE := [0, p]] == qs';
    SwitchWorld(ps + [WORKER], qs', 1, clock, sems, 1, [0, 1, p]);
    assert [0, 1, p][..2] == [0, 1] && qs'[ACTIONABLE := [0, 1]] == [[0, 1], z, q, [], [], []];
  }

  /** Two workers are blocked and the counter owes two. */
  lemma TwoBlocked()
    ensures var k := World([IDLE, MASTER, BLOCKED, BLOCKED], [[0], [], [3, 2], [], [], []], 1, 1, [], [-2]);
      && Shaped(k) && Blocked(k.procs, 0) == {2, 3} && k.semValue[0] == -2 && 0 in k.semUsed
      && k.procs[2] == BLOCKED && Enabled(k, DoKill(2))
  {
    var ps, qs := [IDLE, MASTER, BLOCKED, BLOCKED], [[0], [], [3, 2], [], [], []];
    WorldShaped(ps, qs, 1, 1, [], [-2]);
    var k := World(ps, qs, 1, 1, [], [-2]);
    assert k.procs[2] == BLOCKED && k.procs[3] == BLOCKED;
    assert k.semUsed == [0];
  }

  /** The master creates a semaphore with count 0 and starts two workers that wait for it. */
  lemma MasterRuns()
    ensures var k2, k3, k4, k5, k6, k7 :=
        World([IDLE, MASTER], Only([0]), 1, 1, [], []),
        World([IDLE, MASTER], Only([0]), 1, 1, [], [0]),
        World([IDLE, MASTER, WORKER], Only([0, 1]), 2, 1, [], [0]),
        World([IDLE, MASTER, BLOCKED], [[0], [], [2], [], [], []], 1, 1, [], [-1]),
        World([IDLE, MASTER, BLOCKED, WORKER], [[0, 1], [], [2], [], [], []], 3, 1, [], [-1]),
        World([IDLE, MASTER, BLOCKED, BLOCKED], [[0], [], [3, 2], [], [], []], 1, 1, [], [-2]);
      && Shaped(k2) && Shaped(k3) && Shaped(k4) && Shaped(k5) && Shaped(k6)
      && Enabled(k2, DoSCreate(0)) && k3 == Step(k2, DoSCreate(0))
      && Enabled(k3, DoStart(2)) && k4 == Step(k3, DoStart(2))
      && Enabled(k4, DoWait(0)) && k5 == Step(k4, DoWait(0))
      && Enabled(k5, DoStart(2)) && k6 == Step(k5, DoStart(2))
      && Enabled(k6, DoWait(0)) && k7 == Step(k6, DoWait(0))
  {
    hide World; hide Shaped; hide Fine; hide Start; hide Wait; hide SCreate;
    FineWorkers();
    WorldFields([IDLE, MASTER], Only([0]), 1, 1, [], []);
    CreateWorld([IDLE, MASTER], Only([0]), 1, 1, 0);
    WorkerRuns([IDLE, MASTER], [], [], 1, [0]);
    assert [IDLE, MASTER] + [WORKER] == [IDLE, MASTER, WORKER];
    WaitWorld([IDLE, MASTER, WORKER], [], 2, [0, 1], 1, 0);
    assert [0, 1][..1] == [0] && [IDLE, MASTER, WORKER][2 := BLOCKED] == [IDLE, MASTER, BLOCKED] && [2] + [] == [2];
    WorkerRuns([IDLE, MASTER, BLOCKED], [], [2], 1, [-1]);
    assert [IDLE, MASTER, BLOCKED] + [WORKER] == [IDLE, MASTER, BLOCKED, WORKER];
    WaitWorld([IDLE, MASTER, BLOCKED, WORKER], [2], 3, [0, 1], 1, -1);
    assert [IDLE, MASTER, BLOCKED, WORKER][3 := BLOCKED] == [IDLE, MASTER, BLOCKED, BLOCKED] && [3] + [2] == [3, 2];
  }

  lemma FineWorkers()
    ensures Fine([IDLE, MASTER], Only([0]), 1, [], []) && Fine([IDLE, MASTER], Only([0]), 1, [], [0])
    ensures Fine([IDLE, MASTER, WORKER], Only([0, 1]), 2, [], [0])
    ensures Fine([IDLE, MASTER, BLOCKED], [[0], [], [2], [], [], []], 1, [], [-1])
    ensures Fine([IDLE, MASTER, BLOCKED, WORKER], [[0, 1], [], [2], [], [], []], 3, [], [-1])
  {
  }

  /** A run from boot: two processes wait for a semaphore created with 0, so the counter is -2 and
      two are blocked; a third kills one of them, and the counter owes a token to nobody. */
  lemma KillLosesExactness() returns (ks: seq<Kernel>, es: seq<Event>)
    ensures Run(ks, es) && ks[0] == Boot() && |es| == 8 && es[7] == DoKill(2)
    ensures 0 in ks[7].semUsed && Exact(ks[7], 0) && !Exact(ks[8], 0)
    ensures ks[7] == World([IDLE, MASTER, BLOCKED, BLOCKED], [[0], [], [3, 2], [], [], []], 1, 1, [], [-2])
  {
    hide World; hide Step; hide Enabled; hide Shaped; hide Blocked; hide Inv;
    es := [DoStart(1), ClockTick(true), DoSCreate(0), DoStart(2), DoWait(0), DoStart(2), DoWait(0), DoKill(2)];
    var k7 := World([IDLE, MASTER, BLOCKED, BLOCKED], [[0], [], [3, 2], [], [], []], 1, 1, [], [-2]);
    TwoBlocked();
    ks := [
      World([IDLE], Only([]), 0, 0, [], []),
      World([IDLE, MASTER], Only([1]), 0, 0, [], []),
      World([IDLE, MASTER], Only([0]), 1, 1, [], []),
      World([IDLE, MASTER], Only([0]), 1, 1, [], [0]),
      World([IDLE, MASTER, WORKER], Only([0, 1]), 2, 1, [], [0]),
      World([IDLE, MASTER, BLOCKED], [[0], [], [2], [], [], []], 1, 1, [], [-1]),
      World([IDLE, MASTER, BLOCKED, WORKER], [[0, 1], [], [2], [], [], []], 3, 1, [], [-1]),
      k7,
      Step(k7, DoKill(2))
    ];
    BootWorld();
    IdleStarts(1);
    IdleYields(1);
    MasterRuns();
    forall i | 0 <= i < |es| ensures Enabled(ks[i], es[i]) && ks[i + 1] == Step(ks[i], es[i]) {
      assert i == 0 || i == 1 || i == 2 || i == 3 || i == 4 || i == 5 || i == 6 || i == 7;
    }
    BootInv();
    RunInv(ks, es, 7);
    InvShaped(k7);
    KillBreaksExactness(k7, 2);
  }

  // ----- the running process overtaken -----

  /** The first thing idle does: it starts a process above itself, without rescheduling. */
  lemma StartOvertakes()
    ensures Shaped(Boot()) && Enabled(Boot(), DoStart(2)) && Overtakes(Boot(), DoStart(2))
    ensures Tops(Boot()) && !Tops(Step(Boot(), DoStart(2)))
  {
    hide World; hide Step; hide Enabled; hide Inv; hide Fine;
    BootWorld();
    BootShape();
    BootInv();
    BootInOrder();
    IdleStarts(2);
    assert Tops(Boot());
    assert Overtakes(Boot(), DoStart(2));
    StepElects(Boot(), DoStart(2));
  }

  /** A run from boot: the master, of priority 1, kills one of two workers of priority 2 that wait for
      a semaphore.  The other one becomes runnable, and the master goes on running. */
  lemma KillOvertakes() returns (ks: seq<Kernel>, es: seq<Event>)
    ensures Run(ks, es) && ks[0] == Boot() && |es| == 8 && es[7] == DoKill(2) && ks[8].cur == ks[7].cur == 1
    ensures Tops(ks[7]) && Overtakes(ks[7], DoKill(2)) && !Tops(ks[8])
  {
    hide World; hide Step; hide Enabled; hide Inv; hide Fine; hide Exact; hide InOrder;
    ks, es := KillLosesExactness();
    BootInv();
    RunInv(ks, es, 7);
    TwoBlocked();
    MasterAlone();
    StepElects(ks[7], es[7]);
  }

  /** Nobody but idle is runnable beside the master. */
  lemma MasterAlone()
    ensures var k := World([IDLE, MASTER, BLOCKED, BLOCKED], [[0], [], [3, 2], [], [], []], 1, 1, [], [-2]);
      && Shaped(k) && k.cur == 1 && InOrder(k) && Tops(k) && Overtakes(k, DoKill(2)) && Orderly(k, DoKill(2))
  {
    var ps, qs := [IDLE, MASTER, BLOCKED, BLOCKED], [[0], [], [3, 2], [], [], []];
    WorldShaped(ps, qs, 1, 1, [], [-2]);
    var k := World(ps, qs, 1, 1, [], [-2]);
    TwoBlocked();
    assert k.procs[0] == IDLE && k.procs[1] == MASTER && k.procs[2] == BLOCKED && k.procs[3] == BLOCKED;
    assert 3 in Blocked(k.procs, 0);
  }

  // ----- a sleeper that is not woken -----

  const NAPPER := WORKER.(alarmTime := 2, state := ASLEEP)
  const SLEEPER := WORKER.(alarmTime := 9, state := ASLEEP)

  /** The running worker goes to sleep behind those that wake earlier, and the master runs. */
  lemma NapWorld(ps: seq<Process>, z: seq<int>, t: int)
    requires 2 < |ps| < NB_PROCESS - 2 && ps[0] == IDLE && ps[1] == MASTER && ps[|ps| - 1] == WORKER && t > 1
    requires Fine(ps, [[0, 1], z, [], [], [], []], |ps| - 1, [], [])
    requires forall i :: 0 <= i < |z| ==> 0 <= z[i] < |ps| && 1 <= ps[z[i]].alarmTime < t
    ensures var cur, r := |ps| - 1, WORKER.(alarmTime := t, state := ASLEEP);
      var k, k' := World(ps, [[0, 1], z, [], [], [], []], cur, 1, [], []),
        World(ps[cur := r], [[0], z + [cur], [], [], [], []], 1, 1, [], []);
      Shaped(k) && Enabled(k, DoWaitClock(t)) && k' == Step(k, DoWaitClock(t))
  {
    hide World; hide Scheduler; hide Shaped; hide Add;
    var cur, r, qs := |ps| - 1, WORKER.(alarmTime := t, state := ASLEEP), [[0, 1], z, [], [], [], []];
    WorldFields(ps, qs, cur, 1, [], []);
    PutWorld(ps, qs, cur, 1, [], [], cur, r);
    var ps' := ps[cur := r];
    assert Fine(ps', qs, cur, [], []);
    WorldFields(ps', qs, cur, 1, [], []);
    var k1 := World(ps', qs, cur, 1, [], []);
    assert forall i :: 0 <= i < |z| ==> z[i] != cur;
    EnqueueWorld(ps', qs, cur, 1, [], [], cur, ASLEEP, Alarms(k1.procs), |z|, z + [cur]);
    var qs' := [[0, 1], z + [cur], [], [], [], []];
    assert qs[ASLEEP := z + [cur]] == qs';
    assert Fine(ps', qs', cur, [], []);
    SwitchWorld(ps', qs', cur, 1, [], 0, [0, 1]);
    assert [0, 1][..1] == [0] && qs'[ACTIONABLE := [0]] == [[0], z + [cur], [], [], [], []];
  }

  /** Lowering the priority of the second sleeper moves it to the front. */
  lemma MovesToFront()
    ensures var k, k' := World([IDLE, MASTER, NAPPER, SLEEPER], [[0], [2, 3], [], [], [], []], 1, 1, [], []),
        World([IDLE, MASTER, NAPPER, SLEEPER.(prio := 1)], [[0], [3, 2], [], [], [], []], 1, 1, [], []);
      Shaped(k) && Shaped(k') && Enabled(k, DoChPrio(3, 1)) && k' == Step(k, DoChPrio(3, 1))
  {
    hide World; hide Scheduler; hide Shaped; hide Add; hide Remove; hide Fine;
    var ps, ps', qs := [IDLE, MASTER, NAPPER, SLEEPER], [IDLE, MASTER, NAPPER, SLEEPER.(prio := 1)],
      [[0], [2, 3], [], [], [], []];
    FineNaps();
    WorldFields(ps, qs, 1, 1, [], []);
    WorldShaped(ps, qs, 1, 1, [], []);
    PutWorld(ps, qs, 1, 1, [], [], 3, SLEEPER.(prio := 1));
    assert ps[3 := SLEEPER.(prio := 1)] == ps';
    WorldFields(ps', qs, 1, 1, [], []);
    var qs1 := [[0], [2], [], [], [], []];
    LeavesAsleep(ps', qs, qs1);
    var k1 := World(ps', qs, 1, 1, [], []);
    EnqueueWorld(ps', qs1, 1, 1, [], [], 3, ASLEEP, Prios(k1.procs), 0, [3, 2]);
    assert qs1[ASLEEP := [3, 2]] == [[0], [3, 2], [], [], [], []];
    WorldFields(ps', qs1[ASLEEP := [3, 2]], 1, 1, [], []);
    WorldShaped(ps', qs1[ASLEEP := [3, 2]], 1, 1, [], []);
  }

  lemma LeavesAsleep(ps: seq<Process>, qs: seq<seq<int>>, qs1: seq<seq<int>>)
    requires qs == [[0], [2, 3], [], [], [], []] && qs1 == [[0], [2], [], [], [], []]
    requires Fine(ps, qs, 1, [], []) && |ps| == 4 && ps[3].state == ASLEEP
    ensures var k := World(ps, qs, 1, 1, [], []); Shaped(k) && Dequeue(k, 3) == World(ps, qs1, 1, 1, [], [])
  {
    WorldShaped(ps, qs, 1, 1, [], []);
    var k := World(ps, qs, 1, 1, [], []);
    assert k.procs[3] == ps[3];
    RemoveAt([2, 3], 3, 1);
    assert [2, 3][..1] + [2, 3][2..] == [2] && k.queues[ASLEEP] == [2, 3];
    assert (qs + [From(4)])[ASLEEP := [2]] == qs1 + [From(4)];
  }

  lemma FineNaps()
    ensures Fine([IDLE, MASTER], Only([0]), 1, [], [])
    ensures Fine([IDLE, MASTER, WORKER], Only([0, 1]), 2, [], [])
    ensures Fine([IDLE, MASTER, NAPPER], [[0], [2], [], [], [], []], 1, [], [])
    ensures Fine([IDLE, MASTER, NAPPER, WORKER], [[0, 1], [2], [], [], [], []], 3, [], [])
    ensures Fine([IDLE, MASTER, NAPPER, SLEEPER], [[0], [2, 3], [], [], [], []], 1, [], [])
    ensures var ps := [IDLE, MASTER, NAPPER, SLEEPER.(prio := 1)];
      && Fine(ps, [[0], [2, 3], [], [], [], []], 1, [], []) && Fine(ps, [[0], [2], [], [], [], []], 1, [], [])
      && Fine(ps, [[0], [3, 2], [], [], [], []], 1, [], [])
  {
  }

  /** The two workers start and go to sleep. */
  lemma NapsBegin()
    ensures var k2, k3, k4, k5, k6 :=
        World([IDLE, MASTER], Only([0]), 1, 1, [], []),
        World([IDLE, MASTER, WORKER], Only([0, 1]), 2, 1, [], []),
        World([IDLE, MASTER, NAPPER], [[0], [2], [], [], [], []], 1, 1, [], []),
        World([IDLE, MASTER, NAPPER, WORKER], [[0, 1], [2], [], [], [], []], 3, 1, [], []),
        World([IDLE, MASTER, NAPPER, SLEEPER], [[0], [2, 3], [], [], [], []], 1, 1, [], []);
      && Shaped(k2) && Shaped(k3) && Shaped(k4) && Shaped(k5)
      && Enabled(k2, DoStart(2)) && k3 == Step(k2, DoStart(2))
      && Enabled(k3, DoWaitClock(2)) && k4 == Step(k3, DoWaitClock(2))
      && Enabled(k4, DoStart(2)) && k5 == Step(k4, DoStart(2))
      && Enabled(k5, DoWaitClock(9)) && k6 == Step(k5, DoWaitClock(9))
  {
    hide World; hide Shaped; hide Fine; hide Start; hide WaitClock;
    FineNaps();
    WorkerRuns([IDLE, MASTER], [], [], 1, []);
    assert [IDLE, MASTER] + [WORKER] == [IDLE, MASTER, WORKER];
    NapWorld([IDLE, MASTER, WORKER], [], 2);
    assert [IDLE, MASTER, WORKER][2 := NAPPER] == [IDLE, MASTER, NAPPER] && [] + [2] == [2];
    WorkerRuns([IDLE, MASTER, NAPPER], [2], [], 1, []);
    assert [IDLE, MASTER, NAPPER] + [WORKER] == [IDLE, MASTER, NAPPER, WORKER];
    NapWorld([IDLE, MASTER, NAPPER, WORKER], [2], 9);
    assert [IDLE, MASTER, NAPPER, WORKER][3 := SLEEPER] == [IDLE, MASTER, NAPPER, SLEEPER] && [2] + [3] == [2, 3];
  }

  /** Two ticks later the master is rescheduled, and nobody is woken. */
  lemma TicksPass()
    ensures var ps, qs := [IDLE, MASTER, NAPPER, SLEEPER.(prio := 1)], [[0], [3, 2], [], [], [], []];
      var k7, k8, k9 := World(ps, qs, 1, 1, [], []), World(ps, qs, 1, 2, [], []), World(ps, qs, 1, 3, [], []);
      && Shaped(k7) && Shaped(k8) && Shaped(k9)
      && Enabled(k7, ClockTick(false)) && k8 == Step(k7, ClockTick(false))
      && Enabled(k8, ClockTick(true)) && k9 == Step(k8, ClockTick(true)) && k9.clock == 3 && k9.procs[2] == NAPPER
  {
    hide World; hide Scheduler; hide Shaped; hide Fine;
    var ps, qs := [IDLE, MASTER, NAPPER, SLEEPER.(prio := 1)], [[0], [3, 2], [], [], [], []];
    FineNaps();
    WorldFields(ps, qs, 1, 1, [], []);
    WorldFields(ps, qs, 1, 2, [], []);
    WorldFields(ps, qs, 1, 3, [], []);
    WorldShaped(ps, qs, 1, 1, [], []);
    WorldShaped(ps, qs, 1, 2, [], []);
    SwitchWorld(ps, qs, 1, 3, [], 1, [0, 1]);
    assert [0, 1][..1] == [0] && qs[ACTIONABLE := [0]] == qs;
  }

  /** A run from boot: of two sleepers, with alarms 2 and 9, the later one gets a lower priority, which
      puts it first.  At clock 3 the scheduler runs and leaves the other one asleep. */
  lemma Oversleeps() returns (ks: seq<Kernel>, es: seq<Event>)
    ensures Run(ks, es) && ks[0] == Boot() && |es| == 9 && es[6] == DoChPrio(3, 1) && es[8] == ClockTick(true)
    ensures Misplaces(ks[6], es[6]) && ks[9].clock == 3
    ensures ks[9].procs[2].state == ASLEEP && ks[9].procs[2].alarmTime == 2
  {
    hide World; hide Step; hide Enabled; hide Shaped; hide Misplaces; hide Inv;
    es := [DoStart(1), ClockTick(true), DoStart(2), DoWaitClock(2), DoStart(2), DoWaitClock(9), DoChPrio(3, 1),
           ClockTick(false), ClockTick(true)];
    var ps, qs := [IDLE, MASTER, NAPPER, SLEEPER.(prio := 1)], [[0], [3, 2], [], [], [], []];
    ks := [
      World([IDLE], Only([]), 0, 0, [], []),
      World([IDLE, MASTER], Only([1]), 0, 0, [], []),
      World([IDLE, MASTER], Only([0]), 1, 1, [], []),
      World([IDLE, MASTER, WORKER], Only([0, 1]), 2, 1, [], []),
      World([IDLE, MASTER, NAPPER], [[0], [2], [], [], [], []], 1, 1, [], []),
      World([IDLE, MASTER, NAPPER, WORKER], [[0, 1], [2], [], [], [], []], 3, 1, [], []),
      World([IDLE, MASTER, NAPPER, SLEEPER], [[0], [2, 3], [], [], [], []], 1, 1, [], []),
      World(ps, qs, 1, 1, [], []),
      World(ps, qs, 1, 2, [], []),
      World(ps, qs, 1, 3, [], [])
    ];
    BootWorld();
    IdleStarts(1);
    IdleYields(1);
    NapsBegin();
    MovesToFront();
    TicksPass();
    forall i | 0 <= i < |es| ensures Shaped(ks[i]) && Enabled(ks[i], es[i]) && ks[i + 1] == Step(ks[i], es[i]) {
      assert i == 0 || i == 1 || i == 2 || i == 3 || i == 4 || i == 5 || i == 6 || i == 7 || i == 8;
    }
    MustMisplace(ks, es);
  }

  /** An overdue sleeper after a reschedule: some step must have misplaced one, and only one could. */
  lemma MustMisplace(ks: seq<Kernel>, es: seq<Event>)
    requires Run(ks, es) && ks[0] == Boot() && |es| == 9 && es[8] == ClockTick(true) && ks[9].clock == 3
    requires ks[9].procs[2].state == ASLEEP && ks[9].procs[2].alarmTime == 2
    requires forall i :: 0 <= i < 9 && i != 6 ==> !es[i].DoChPrio?
    ensures Misplaces(ks[6], es[6])
  {
    hide World; hide Step; hide Enabled; hide Inv; hide ByAlarm; hide SleeperFits;
    if !Misplaces(ks[6], es[6]) {
      forall j | 0 <= j < 9 ensures !Misplaces(ks[j], es[j]) {
        assert j == 6 || !es[j].DoChPrio?;
      }
      RunWakes(ks, es, 9);
      assert false;
    }
  }
}

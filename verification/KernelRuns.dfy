/**
  Theorems about whole runs of the kernel, from boot, over every interleaving of system calls,
  timer interrupts and context switches.
*/
module KernelRuns {
  import opened OrderedQueue
  import opened SetFacts
  import opened KernelModel
  import opened KernelInvariant
  import opened KernelSemaphores
  import opened KernelLife
  import opened KernelKill

  // ----- one step -----

  /** The semaphore whose waiters an event may release, or -1. */
  ghost function Target(k: Kernel, e: Event): int
    requires Shaped(k)
  {
    match e
    case DoSignal(id) => id
    case DoSignalN(id, _) => id
    case DoSReset(id, _) => id
    case DoSDelete(id) => id
    case DoKill(p) => if IsPid(p) && k.procs[p].state == SEM_BLOCKED then k.procs[p].semBlocked else -1
    case _ => -1
  }

  /** What `wait` returns to a process released by the event: 0 for a signal, -3 for a deletion,
      -4 for a reset. */
  function ReturnCode(e: Event): int {
    match e
    case DoSDelete(_) => -3
    case DoSReset(_, _) => -4
    case _ => 0
  }

  /** The process whose kernel stack the event itself changes: the one that finishes its call, or
      the one that is created. */
  ghost function Exempt(k: Kernel, e: Event): int
    requires Shaped(k)
  {
    match e
    case Resume => k.cur
    case DoStart(_) => if k.queues[FREEPID] == [] then -1 else k.queues[FREEPID][0]
    case _ => -1
  }

  ghost predicate StepOk(k: Kernel, e: Event)
    requires Shaped(k) && Enabled(k, e)
  {
    && Inv(Step(k, e))
    && WaitersKept(k.procs, Step(k, e).procs, Target(k, e), ReturnCode(e), Exempt(k, e))
  }

  lemma TickInv(k: Kernel, b: bool)
    requires Inv(k) && IsPid(k.cur)
    ensures Shaped(k)
    ensures var k1 := Ticked(k); var k' := if b then Scheduler(k1) else k1;
      && Inv(k') && k'.semUsed == k.semUsed && k'.semValue == k.semValue && Quiet(k.procs, k'.procs, -1)
  {
    hide Partition; hide AllOk; hide Ordered; hide Idle; hide SemLists; hide NoStranded; hide Quiet; hide Scheduler;
    hide OnlyWoken;
    var k1 := Ticked(k);
    QuietRefl(k.procs);
    YieldInv(k1);
    WokenQuiet(k1.procs, Scheduler(k1).procs, k1.clock, k.semUsed);
  }

  lemma ResumeOk(procs: seq<Process>, used: seq<int>, me: int, garbage: seq<int>)
    requires AllOk(procs, used, {}, -1) && IsPid(me) && procs[me].state == ACTIONABLE && procs[me].pending == InWait
    requires Idle(procs, garbage, -1) && GarbageOk(procs, garbage)
    ensures var b := procs[me := procs[me].(pending := UserMode)];
      && AllOk(b, used, {}, -1) && Idle(b, garbage, -1) && GarbageOk(b, garbage) && Quiet(procs, b, me)
  {
    var b := procs[me := procs[me].(pending := UserMode)];
    assert ProcOk(procs, used, me, -1);
    forall x | IsPid(x) ensures ProcOk(b, used, x, -1) {
      assert ProcOk(procs, used, x, -1);
    }
    forall x | 0 <= x < |procs| && x != me ensures Waiter(procs[x], b[x], -1, 0) {
    }
  }

  /** A process released from `wait` returns to user mode. */
  lemma ReturnInv(k: Kernel)
    requires Inv(k) && IsPid(k.cur) && k.procs[k.cur].pending == InWait
    ensures Shaped(k)
    ensures var k' := Put(k, k.cur, k.procs[k.cur].(pending := UserMode));
      Inv(k') && Quiet(k.procs, k'.procs, k.cur)
  {
    hide Partition; hide AllOk; hide Ordered; hide Idle; hide SemLists; hide NoStranded; hide GarbageOk; hide Quiet;
    var me := k.cur;
    var r := k.procs[me].(pending := UserMode);
    ResumeOk(k.procs, k.semUsed, me, k.garbage);
    PutSameQueues(k.queues, k.procs, {me}, me, r);
    QuietStranded(k.procs, k.procs[me := r], me, k.semUsed, k.semValue);
  }

  lemma QuietKept(a: seq<Process>, b: seq<Process>, x: int)
    requires Quiet(a, b, x) || Quiet(a, b, -1)
    ensures WaitersKept(a, b, -1, 0, x)
  {
    if Quiet(a, b, -1) {
      KeptWeaken(a, b, -1, 0, x);
    }
  }

  /** Semaphore calls that are refused change nothing. */
  predicate Accepted(k: Kernel, e: Event)
    requires Shaped(k)
  {
    match e
    case DoSignal(id) => id in k.semUsed && k.semValue[id] + 1 <= SHRT_MAX
    case DoSignalN(id, c) => id in k.semUsed && c >= 0 && k.semValue[id] + c <= SHRT_MAX
    case DoSReset(id, c) => id in k.semUsed && c >= 0
    case DoSDelete(id) => id in k.semUsed
    case DoWait(id) => id in k.semUsed && k.semValue[id] - 1 >= SHRT_MIN
    case DoTryWait(id) => id in k.semUsed && k.semValue[id] - 1 >= 0
    case DoSCreate(c) => c >= 0 && k.semFree != []
    case _ => true
  }

  lemma RefusedStep(k: Kernel, e: Event)
    requires Shaped(k) && Enabled(k, e) && !Accepted(k, e)
    ensures Step(k, e) == k
  {
  }

  lemma SemStepOk(k: Kernel, e: Event)
    requires Inv(k) && Enabled(k, e) && Accepted(k, e)
    requires e.DoSignal? || e.DoSignalN? || e.DoSReset? || e.DoSDelete? || e.DoWait? || e.DoTryWait? || e.DoSCreate?
    ensures StepOk(k, e)
  {
    hide Core; hide NoStranded; hide WaitersKept; hide Blocked; hide GarbageOk;
    hide Signal; hide SignalN; hide SReset; hide SDelete; hide SCreate;
    InvShaped(k);
    match e
    case DoSignal(id) => SignalInv(k, id);
    case DoSignalN(id, c) => SignalNInv(k, id, c);
    case DoSReset(id, c) => SResetInv(k, id, c);
    case DoSDelete(id) => SDeleteInv(k, id);
    case DoWait(id) => WaitOk(k, id);
    case DoTryWait(id) => TakeInv(k, id); KeptRefl(k.procs, -1, 0);
    case DoSCreate(c) => SCreateInv(k, c); KeptRefl(k.procs, -1, 0);
  }

  lemma WaitOk(k: Kernel, id: int)
    requires Inv(k) && Enabled(k, DoWait(id)) && id in k.semUsed && k.semValue[id] - 1 >= SHRT_MIN
    ensures Inv(Wait(k, id)) && WaitersKept(k.procs, Wait(k, id).procs, -1, 0, -1)
  {
    hide Core; hide NoStranded; hide WaitersKept; hide Blocked; hide GarbageOk; hide BlockSem;
    InvSem(k, id);
    if k.semValue[id] - 1 < 0 {
      WaitBlocksInv(k, id);
      BlockedKept(k.procs, Wait(k, id).procs, id);
    } else {
      TakeInv(k, id);
      KeptRefl(k.procs, -1, 0);
    }
  }

  /** Nobody left the semaphore, so nobody was released. */
  lemma BlockedKept(a: seq<Process>, b: seq<Process>, id: int)
    requires WaitersKept(a, b, id, 0, -1) && Blocked(a, id) <= Blocked(b, id)
    ensures WaitersKept(a, b, -1, 0, -1)
  {
    forall p | 0 <= p < |a| ensures Waiter(a[p], b[p], -1, 0) {
      assert Waiter(a[p], b[p], id, 0);
      assert a[p].state == SEM_BLOCKED && a[p].semBlocked == id ==> p in Blocked(a, id);
    }
  }

  lemma LifeStepOk(k: Kernel, e: Event)
    requires Inv(k) && Enabled(k, e)
    requires e.DoStart? || e.DoExit? || e.DoWaitPid? || e.DoWaitClock? || e.DoChPrio? || e.ClockTick? || e.Collect?
      || e.Resume? || (e.DoKill? && !(IsPid(e.pid) && k.procs[e.pid].state == SEM_BLOCKED))
    ensures StepOk(k, e) && Step(k, e).semUsed == k.semUsed && Step(k, e).semValue == k.semValue
    ensures Quiet(k.procs, Step(k, e).procs, Exempt(k, e)) || Quiet(k.procs, Step(k, e).procs, -1)
  {
    hide Core; hide NoStranded; hide WaitersKept; hide Quiet; hide GarbageOk; hide Reap;
    hide Start; hide WaitPid; hide ChPrio; hide Exit; hide Kill; hide Scheduler; hide GarbageCollect;
    InvShaped(k);
    QuietRefl(k.procs);
    match e {
      case DoStart(prio) => LifeStart(k, prio);
      case DoExit(v) => ExitInv(k, v);
      case DoKill(p) => LifeKill(k, p);
      case DoWaitPid(p, found) => WaitPidInv(k, p, found);
      case DoWaitClock(t) => LifeClock(k, t);
      case DoChPrio(p, n) => ChPrioInv(k, p, n);
      case ClockTick(b) => TickInv(k, b);
      case Resume =>
        if k.procs[k.cur].pending == InWaitPid { ResumedInv(k); } else { ReturnInv(k); }
      case Collect => CollectInv(k);
      case _ =>
    }
    QuietKept(k.procs, Step(k, e).procs, Exempt(k, e));
  }

  lemma LifeStart(k: Kernel, prio: int)
    requires Inv(k) && IsPid(k.cur)
    ensures var k' := Start(k, prio);
      && Inv(k') && k'.semUsed == k.semUsed && k'.semValue == k.semValue
      && (Quiet(k.procs, k'.procs, Exempt(k, DoStart(prio))) || Quiet(k.procs, k'.procs, -1))
  {
    hide Core; hide NoStranded; hide Quiet; hide GarbageOk; hide Scheduler; hide Add;
    InvShaped(k);
    if 1 <= prio <= MAXPRIO && k.queues[FREEPID] != [] {
      StartInv(k, prio);
    } else {
      QuietRefl(k.procs);
    }
  }

  lemma LifeKill(k: Kernel, p: int)
    requires Inv(k) && IsPid(k.cur) && k.cur != 0 && !(IsPid(p) && k.procs[p].state == SEM_BLOCKED)
    ensures var k' := Kill(k, p);
      && Inv(k') && k'.semUsed == k.semUsed && k'.semValue == k.semValue && Quiet(k.procs, k'.procs, -1)
  {
    hide Core; hide NoStranded; hide Quiet; hide GarbageOk; hide Die; hide GarbageCollect; hide Exit; hide Forfeit;
    InvShaped(k);
    if 0 < p < NB_PROCESS {
      KillOtherInv(k, p);
    } else {
      QuietRefl(k.procs);
    }
  }

  lemma LifeClock(k: Kernel, t: int)
    requires Inv(k) && IsPid(k.cur) && k.cur != 0 && k.procs[k.cur].pending == UserMode
    ensures var k' := WaitClock(k, t);
      && Inv(k') && k'.semUsed == k.semUsed && k'.semValue == k.semValue && Quiet(k.procs, k'.procs, -1)
  {
    InvShaped(k);
    if t > k.clock {
      assert ProcOk(k.procs, k.semUsed, k.cur, -1);
      LifeClockAux(k, t);
    } else {
      QuietRefl(k.procs);
    }
  }

  lemma LifeClockAux(k: Kernel, t: int)
    requires Inv(k) && IsPid(k.cur) && k.cur != 0 && k.procs[k.cur].pending == UserMode && t > k.clock
    requires k.procs[k.cur].childWaited == 0
    ensures var k' := WaitClock(k, t);
      && Inv(k') && k'.semUsed == k.semUsed && k'.semValue == k.semValue && Quiet(k.procs, k'.procs, -1)
  {
    hide Core; hide NoStranded; hide Quiet; hide GarbageOk; hide Scheduler; hide Add;
    InvShaped(k);
    var r := k.procs[k.cur].(alarmTime := t, state := ASLEEP);
    SuspendInv(k, r, Alarms(Put(k, k.cur, r).procs));
  }

  /** Every step keeps the invariant, and treats the processes suspended in `wait` as it should. */
  lemma StepKeeps(k: Kernel, e: Event)
    requires Inv(k) && Enabled(k, e)
    ensures StepOk(k, e)
  {
    hide Core; hide NoStranded; hide WaitersKept; hide GarbageOk; hide Step; hide Blocked;
    InvShaped(k);
    if !Accepted(k, e) {
      RefusedStep(k, e);
      KeptRefl(k.procs, Target(k, e), ReturnCode(e));
    } else if e.DoSignal? || e.DoSignalN? || e.DoSReset? || e.DoSDelete? || e.DoWait? || e.DoTryWait? || e.DoSCreate? {
      SemStepOk(k, e);
    } else if e.DoKill? && IsPid(e.pid) && k.procs[e.pid].state == SEM_BLOCKED {
      KillStepOk(k, e.pid);
    } else {
      LifeStepOk(k, e);
    }
  }

  lemma KillStepOk(k: Kernel, p: int)
    requires Inv(k) && Enabled(k, DoKill(p)) && IsPid(p) && k.procs[p].state == SEM_BLOCKED
    ensures StepOk(k, DoKill(p))
  {
    hide AllOk; hide Partition; hide Ordered; hide SemLists; hide NoStranded; hide WaitersKept; hide Kill; hide Blocked;
    KillWaiterInv(k, p);
  }

  // ----- runs -----

  lemma BootPartition(queues: seq<seq<int>>, procs: seq<Process>)
    requires |queues| == NB_STATE && |queues[FREEPID]| == NB_PROCESS - 1 && |procs| == NB_PROCESS
    requires forall s :: 0 <= s < FREEPID ==> queues[s] == []
    requires forall i :: 0 <= i < NB_PROCESS - 1 ==> queues[FREEPID][i] == i + 1
    requires forall p :: 0 <= p < NB_PROCESS ==>
      procs[p].father == 0 && procs[p].state == (if p == 0 then ACTIONABLE else FREEPID)
    ensures Partition(queues, procs, {0}) && Ordered(queues, procs)
  {
    forall p | IsPid(p) && p != 0 ensures p in queues[procs[p].state] {
      assert queues[FREEPID][p - 1] == p;
    }
  }

  lemma BootOk(procs: seq<Process>)
    requires |procs| == NB_PROCESS
    requires forall p :: 0 <= p < NB_PROCESS ==>
      procs[p] == Process(0, -1, 0, 0, -1, 0, 0, if p == 0 then ACTIONABLE else FREEPID, UserMode)
    ensures AllOk(procs, [], {}, -1) && Idle(procs, [], -1)
  {
  }

  lemma BootLists(free: seq<int>)
    requires |free| == NB_SEM && forall i :: 0 <= i < NB_SEM ==> free[i] == i
    ensures SemLists([], free)
  {
    assert forall id :: IsPid(id) ==> free[id] == id;
  }

  lemma BootShape()
    ensures Shaped(Boot())
  {
  }

  lemma BootSems()
    ensures var k := Boot(); NoStranded(k.procs, k.semUsed, k.semValue) && GarbageOk(k.procs, k.garbage)
  {
  }

  lemma BootInv()
    ensures Inv(Boot())
  {
    hide Partition; hide AllOk; hide Ordered; hide Idle; hide SemLists; hide NoStranded; hide GarbageOk;
    BootShape();
    BootPartition(Boot().queues, Boot().procs);
    BootOk(Boot().procs);
    BootLists(Boot().semFree);
    BootSems();
  }

  /** States ks and the events es between them. */
  ghost predicate Run(ks: seq<Kernel>, es: seq<Event>) {
    && |ks| == |es| + 1
    && (forall i :: 0 <= i < |ks| ==> Shaped(ks[i]))
    && (forall i :: 0 <= i < |es| ==> Enabled(ks[i], es[i]) && ks[i + 1] == Step(ks[i], es[i]))
  }

  /** The invariant holds in every state of every run from boot. */
  lemma {:induction false} RunInv(ks: seq<Kernel>, es: seq<Event>, i: nat)
    requires Run(ks, es) && Inv(ks[0]) && i < |ks|
    ensures Inv(ks[i])
  {
    hide Inv; hide Step; hide Enabled;
    if i > 0 {
      RunInv(ks, es, i - 1);
      StepKeeps(ks[i - 1], es[i - 1]);
    }
  }

  // ----- the state queues partition the pids -----

  ghost function Members(q: seq<int>): set<int> { set x | x in q }

  lemma {:induction false} MembersCount(q: seq<int>)
    requires NoDup(q)
    ensures |Members(q)| == |q|
  {
    if q != [] {
      var n := |q| - 1;
      MembersCount(q[..n]);
      assert q == q[..n] + [q[n]];
      assert Members(q) == Members(q[..n]) + {q[n]};
      assert q[n] !in Members(q[..n]);
    }
  }

  ghost function Union(queues: seq<seq<int>>, n: nat): set<int>
    requires n <= |queues|
  {
    if n == 0 then {} else Union(queues, n - 1) + Members(queues[n - 1])
  }

  ghost function Total(queues: seq<seq<int>>, n: nat): nat
    requires n <= |queues|
  {
    if n == 0 then 0 else Total(queues, n - 1) + |queues[n - 1]|
  }

  lemma {:induction false} UnionMembers(queues: seq<seq<int>>, procs: seq<Process>, D: set<int>, n: nat)
    requires Partition(queues, procs, D) && n <= NB_STATE
    ensures |queues| == NB_STATE && |procs| == NB_PROCESS
    ensures forall x :: x in Union(queues, n) <==> 0 <= x < NB_PROCESS && x !in D && procs[x].state < n
  {
    StatesBounded(queues, procs, D);
    hide Partition; hide Members;
    if n > 0 {
      UnionMembers(queues, procs, D, n - 1);
      QueueMembers(queues, procs, D, n - 1);
    }
  }

  lemma {:induction false} UnionCount(queues: seq<seq<int>>, procs: seq<Process>, D: set<int>, n: nat)
    requires Partition(queues, procs, D) && n <= NB_STATE
    ensures |queues| == NB_STATE && |Union(queues, n)| == Total(queues, n)
  {
    StatesBounded(queues, procs, D);
    hide Partition; hide Members;
    if n > 0 {
      UnionCount(queues, procs, D, n - 1);
      QueueMembers(queues, procs, D, n - 1);
      StatesApart(queues, procs, D, n - 1);
      SumSize(Union(queues, n - 1), Members(queues[n - 1]));
    }
  }

  lemma StatesApart(queues: seq<seq<int>>, procs: seq<Process>, D: set<int>, s: nat)
    requires Partition(queues, procs, D) && s < NB_STATE
    ensures |queues| == NB_STATE && Union(queues, s) !! Members(queues[s])
  {
    hide Partition; hide Members; hide Union;
    UnionMembers(queues, procs, D, s);
    QueueMembers(queues, procs, D, s);
    var a, b := Union(queues, s), Members(queues[s]);
    forall x | x in a ensures x !in b {
      assert procs[x].state < s;
    }
    NothingShared(a, b);
  }

  lemma SumSize<T>(a: set<T>, b: set<T>)
    requires a !! b
    ensures |a + b| == |a| + |b|
  {
  }

  /** The members of one queue are the processes in its state. */
  lemma QueueMembers(queues: seq<seq<int>>, procs: seq<Process>, D: set<int>, s: nat)
    requires Partition(queues, procs, D) && s < NB_STATE
    ensures |queues| == NB_STATE && |procs| == NB_PROCESS && |Members(queues[s])| == |queues[s]|
    ensures forall x :: x in Members(queues[s]) <==> 0 <= x < NB_PROCESS && x !in D && procs[x].state == s
  {
    MembersCount(queues[s]);
    forall x ensures x in queues[s] <==> 0 <= x < NB_PROCESS && x !in D && procs[x].state == s {
      if 0 <= x < NB_PROCESS && x !in D && procs[x].state == s {
        assert IsPid(x);
      }
    }
  }

  ghost function UpTo(n: nat): (s: set<int>)
    ensures |s| == n
    ensures forall x :: x in s <==> 0 <= x < n
  {
    if n == 0 then {} else UpTo(n - 1) + {n - 1}
  }

  /** In every reachable state each pid other than the running one is in exactly one queue, the one
      of its state, the running one is in none, and the queues account for all 100 pids. */
  lemma PidsTotal(k: Kernel)
    requires Inv(k)
    ensures forall p :: 0 <= p < NB_PROCESS && p != k.cur ==>
      forall s :: 0 <= s < NB_STATE ==> (p in k.queues[s] <==> s == k.procs[p].state)
    ensures IsPid(k.cur) ==> forall s :: 0 <= s < NB_STATE ==> k.cur !in k.queues[s]
    ensures Total(k.queues, NB_STATE) + (if IsPid(k.cur) then 1 else 0) == NB_PROCESS
  {
    hide AllOk; hide Ordered; hide Idle; hide SemLists; hide NoStranded; hide GarbageOk; hide Total; hide Partition;
    PidPlaces(k.queues, k.procs, Detached(k));
    PidCount(k.queues, k.procs, Detached(k));
  }

  lemma PidPlaces(queues: seq<seq<int>>, procs: seq<Process>, D: set<int>)
    requires Partition(queues, procs, D)
    ensures forall p :: 0 <= p < NB_PROCESS && p !in D ==>
      forall s :: 0 <= s < NB_STATE ==> (p in queues[s] <==> s == procs[p].state)
    ensures forall p, s :: p in D && 0 <= s < NB_STATE ==> p !in queues[s]
  {
    forall p | 0 <= p < NB_PROCESS && p !in D
      ensures forall s :: 0 <= s < NB_STATE ==> (p in queues[s] <==> s == procs[p].state)
    {
      assert IsPid(p);
    }
  }

  lemma PidCount(queues: seq<seq<int>>, procs: seq<Process>, D: set<int>)
    requires Partition(queues, procs, D) && forall x :: x in D ==> 0 <= x < NB_PROCESS
    ensures Total(queues, NB_STATE) + |D| == NB_PROCESS
  {
    hide Total; hide Union; hide UpTo;
    UnionCount(queues, procs, D, NB_STATE);
    UnionMembers(queues, procs, D, NB_STATE);
    StatesBounded(queues, procs, D);
    assert Union(queues, NB_STATE) + D == UpTo(NB_PROCESS);
    assert Union(queues, NB_STATE) !! D;
  }

  lemma StatesBounded(queues: seq<seq<int>>, procs: seq<Process>, D: set<int>)
    requires Partition(queues, procs, D)
    ensures |queues| == NB_STATE && |procs| == NB_PROCESS
    ensures forall p :: 0 <= p < NB_PROCESS ==> procs[p].state < NB_STATE
  {
  }

  // ----- no stranded waiter -----

  /** In every reachable state: nobody waits when the value is not negative, nobody waits on a free
      id, at most as many wait as the value owes, and the counter stays in its range. */
  lemma NobodyStranded(ks: seq<Kernel>, es: seq<Event>, i: nat, id: int)
    requires Run(ks, es) && ks[0] == Boot() && i < |ks| && IsPid(id)
    ensures var k := ks[i];
      && (id in k.semUsed ==> SHRT_MIN <= k.semValue[id] <= SHRT_MAX && |Blocked(k.procs, id)| <= Debt(k.semValue[id]))
      && (id in k.semUsed && k.semValue[id] >= 0 ==> Blocked(k.procs, id) == {})
      && (id !in k.semUsed ==> Blocked(k.procs, id) == {})
  {
    hide Inv; hide Enabled; hide Step; hide Blocked;
    BootInv();
    RunInv(ks, es, i);
    var k := ks[i];
    if id in k.semUsed {
      InvSem(k, id);
    } else {
      NobodyOnFreeId(k, id);
    }
  }

  lemma NobodyOnFreeId(k: Kernel, id: int)
    requires Inv(k) && id !in k.semUsed && id >= 0
    ensures Blocked(k.procs, id) == {}
  {
    hide Partition; hide Ordered; hide Idle; hide SemLists; hide NoStranded;
    forall p | IsPid(p) ensures p !in Blocked(k.procs, id) {
      assert ProcOk(k.procs, k.semUsed, p, -1);
    }
    assert Blocked(k.procs, id) == {};
  }

  // ----- conservation of tokens -----

  /** The value and the waiters agree exactly. */
  ghost predicate Exact(k: Kernel, id: int)
    requires Shaped(k) && IsPid(id)
  {
    |Blocked(k.procs, id)| == Debt(k.semValue[id])
  }

  /** The event is not a deletion or a reset of `id`, nor the death of one of its waiters. */
  ghost predicate Fair(k: Kernel, e: Event, id: int)
    requires Shaped(k)
  {
    && !(e.DoSDelete? && e.id == id) && !(e.DoSReset? && e.id == id)
    && !(e.DoKill? && IsPid(e.pid) && k.procs[e.pid].state == SEM_BLOCKED && k.procs[e.pid].semBlocked == id)
  }

  /** Tokens that the event adds to `id`. */
  ghost function Added(k: Kernel, e: Event, id: int): nat
    requires Shaped(k)
  {
    if !Accepted(k, e) then 0
    else if e.DoSignal? && e.id == id then 1
    else if e.DoSignalN? && e.id == id then e.count
    else 0
  }

  /** Calls of `wait` and `try_wait` that the event counts against `id`. */
  ghost function Taken(k: Kernel, e: Event, id: int): nat
    requires Shaped(k)
  {
    if Accepted(k, e) && (e.DoWait? || e.DoTryWait?) && e.id == id then 1 else 0
  }

  /** Calls of `wait` and `try_wait` on `id` that the event lets through: at once, or by releasing
      processes that were blocked. */
  ghost function Granted(k: Kernel, e: Event, id: int): nat
    requires Shaped(k) && Enabled(k, e) && IsPid(id)
  {
    (if Taken(k, e, id) == 1 && k.semValue[id] - 1 >= 0 then 1 else 0)
    + |Blocked(k.procs, id) - Blocked(Step(k, e).procs, id)|
  }

  lemma DiffSize<T>(s: set<T>, t: set<T>)
    requires t <= s
    ensures |s - t| == |s| - |t|
  {
    assert s == (s - t) + t;
  }

  ghost predicate Conserved(k: Kernel, e: Event, id: int)
    requires Shaped(k) && Enabled(k, e) && IsPid(id)
  {
    var k' := Step(k, e);
    && id in k'.semUsed
    && k'.semValue[id] == k.semValue[id] + Added(k, e, id) - Taken(k, e, id)
    && |Blocked(k.procs, id)| + Taken(k, e, id) == |Blocked(k'.procs, id)| + Granted(k, e, id)
    && (Exact(k, id) ==> Exact(k', id))
  }

  lemma SameConserved(k: Kernel, e: Event, id: int)
    requires Inv(k) && Enabled(k, e) && IsPid(id) && id in k.semUsed
    requires Step(k, e).semUsed == k.semUsed || id in Step(k, e).semUsed
    requires Step(k, e).semValue[id] == k.semValue[id] && Blocked(Step(k, e).procs, id) == Blocked(k.procs, id)
    requires Added(k, e, id) == 0 && Taken(k, e, id) == 0
    ensures Conserved(k, e, id)
  {
    hide Step; hide Inv; hide Blocked; hide Enabled;
    var b := Blocked(k.procs, id);
    DiffSize(b, b);
  }

  lemma SignalConserved(k: Kernel, e: Event, id: int, n: nat)
    requires Inv(k) && Enabled(k, e) && IsPid(id) && id in k.semUsed && Accepted(k, e)
    requires (e.DoSignal? || e.DoSignalN?) && e.id == id
    requires n == if e.DoSignalN? then e.count else if k.semValue[id] < 0 then 1 else 0
    requires SemStep(k, Step(k, e), id, k.semValue[id] + Added(k, e, id), n, 0) && Step(k, e).semUsed == k.semUsed
    ensures Conserved(k, e, id)
  {
    hide Step; hide Inv; hide Blocked; hide Enabled; hide WaitersKept;
    InvShaped(k);
    DiffSize(Blocked(k.procs, id), Blocked(Step(k, e).procs, id));
    InvSem(k, id);
  }

  lemma OtherConserved(k: Kernel, e: Event, id: int)
    requires Inv(k) && Enabled(k, e) && IsPid(id) && id in k.semUsed && Accepted(k, e)
    requires e.DoSignal? || e.DoSignalN? || e.DoSReset? || e.DoSDelete?
    requires e.id != id && Step(k, e).semUsed in {k.semUsed, Remove(k.semUsed, e.id)} && IsPid(e.id)
    requires Step(k, e).semValue[id] == k.semValue[id] && Blocked(Step(k, e).procs, id) == Blocked(k.procs, id)
    ensures Conserved(k, e, id)
  {
    hide Step; hide Core; hide NoStranded; hide Blocked; hide Enabled; hide Remove; hide Inv;
    RemoveKeeps(k.semUsed, e.id, id);
    SameConserved(k, e, id);
  }

  lemma {:induction false} RemoveKeeps(q: seq<int>, e: int, x: int)
    requires x in q && x != e
    ensures x in Remove(q, e)
  {
    if q[0] != e && q[0] != x {
      RemoveKeeps(q[1..], e, x);
    }
  }

  lemma WaitConserved(k: Kernel, e: Event, id: int)
    requires Inv(k) && Enabled(k, e) && IsPid(id) && id in k.semUsed && Accepted(k, e) && (e.DoWait? || e.DoTryWait?)
    ensures Conserved(k, e, id)
  {
    hide Core; hide NoStranded; hide Blocked; hide GarbageOk; hide BlockSem; hide WaitersKept;
    InvSem(k, e.id);
    if k.semValue[e.id] - 1 < 0 {
      BlockConserved(k, e, id);
    } else {
      TakeInv(k, e.id);
      EmptyDiff(Blocked(k.procs, id), Blocked(k.procs, id));
    }
  }

  /** The caller of `wait` is counted and blocked. */
  lemma BlockConserved(k: Kernel, e: Event, id: int)
    requires Inv(k) && Enabled(k, e) && IsPid(id) && id in k.semUsed && Accepted(k, e) && e.DoWait?
    requires k.semValue[e.id] - 1 < 0
    ensures Conserved(k, e, id)
  {
    hide Inv; hide Blocked; hide Wait; hide WaitersKept; hide Enabled;
    InvShaped(k);
    EnabledCaller(k, e);
    WaitBlocksInv(k, e.id);
    var b := Blocked(k.procs, id);
    if e.id == id {
      InvSem(k, id);
      EmptyDiff(b, b + {k.cur});
    } else {
      EmptyDiff(b, b);
    }
  }

  lemma EmptyDiff<T>(s: set<T>, t: set<T>)
    requires s <= t
    ensures |s - t| == 0
  {
    assert s - t == {};
  }

  /** Every fair event accounts for its tokens. */
  lemma StepConserves(k: Kernel, e: Event, id: int)
    requires Inv(k) && Enabled(k, e) && IsPid(id) && id in k.semUsed && Fair(k, e, id)
    ensures Conserved(k, e, id)
  {
    hide Core; hide NoStranded; hide Blocked; hide GarbageOk; hide WaitersKept; hide Quiet; hide Enabled;
    hide Signal; hide SignalN; hide SReset; hide SDelete; hide SCreate; hide Kill; hide Wait; hide Conserved;
    hide Start; hide WaitPid; hide ChPrio; hide Exit; hide Scheduler; hide GarbageCollect; hide Remove; hide Reap;
    InvShaped(k);
    EnabledCaller(k, e);
    if !Accepted(k, e) {
      RefusedStep(k, e);
      SameConserved(k, e, id);
    } else {
      match e
      case DoSignal(id') =>
        SignalInv(k, id');
        if id' == id { SignalConserved(k, e, id, if k.semValue[id] < 0 then 1 else 0);
          } else { OtherConserved(k, e, id); }
      case DoSignalN(id', c) =>
        SignalNInv(k, id', c);
        if id' == id { SignalConserved(k, e, id, c); } else { OtherConserved(k, e, id); }
      case DoSReset(id', c) =>
        SResetInv(k, id', c);
        OtherConserved(k, e, id);
      case DoSDelete(id') =>
        SDeleteInv(k, id');
        OtherConserved(k, e, id);
      case DoWait(id') =>
        WaitConserved(k, e, id);
      case DoTryWait(id') =>
        WaitConserved(k, e, id);
      case DoSCreate(c) =>
        SCreateInv(k, c);
        SameConserved(k, e, id);
      case DoKill(p) =>
        if IsPid(p) && k.procs[p].state == SEM_BLOCKED {
          KillFirst(k, p);
          KillWaiterInv(k, p);
          SameConserved(k, e, id);
        } else {
          QuietConserved(k, e, id);
        }
      case _ =>
        QuietConserved(k, e, id);
    }
  }

  lemma KillFirst(k: Kernel, p: int)
    requires Inv(k) && IsPid(p) && k.procs[p].state == SEM_BLOCKED
    ensures p != 0
  {
  }

  lemma EnabledCaller(k: Kernel, e: Event)
    requires Shaped(k) && Enabled(k, e)
    ensures !e.Collect? ==> IsPid(k.cur)
    ensures !e.Collect? && !e.Resume? && !e.DoStart? && !e.ClockTick? ==>
      k.cur != 0 && k.procs[k.cur].pending == UserMode
  {
  }

  lemma CollectorRuns(k: Kernel)
    requires Shaped(k) && Enabled(k, Collect)
    ensures k.cur == PID_GARBAGE
  {
  }

  lemma QuietConserved(k: Kernel, e: Event, id: int)
    requires Inv(k) && Enabled(k, e) && IsPid(id) && id in k.semUsed && Accepted(k, e)
    requires e.DoStart? || e.DoExit? || e.DoWaitPid? || e.DoWaitClock? || e.DoChPrio? || e.ClockTick? || e.Collect?
      || e.Resume? || (e.DoKill? && !(IsPid(e.pid) && k.procs[e.pid].state == SEM_BLOCKED))
    ensures Conserved(k, e, id)
  {
    hide Inv; hide Step; hide Blocked; hide Quiet; hide Conserved; hide Enabled;
    InvShaped(k);
    LifeStepOk(k, e);
    if Quiet(k.procs, Step(k, e).procs, -1) {
      QuietBlocked(k.procs, Step(k, e).procs, -1);
    } else {
      QuietBlocked(k.procs, Step(k, e).procs, Exempt(k, e));
    }
    SameConserved(k, e, id);
  }
}

/**
  The process the scheduler elects has maximal priority among all runnable ones, and the running
  process keeps it until a call overtakes it, as long as every father woken by `report_father` fits
  at the place of its pid.
*/
module KernelPriority {
  import opened OrderedQueue
  import opened KernelModel
  import opened KernelInvariant
  import opened KernelSemaphores
  import opened KernelLife
  import opened KernelKill
  import opened KernelRuns
  import opened KernelOrder
  import opened KernelOvertake

  /** A call that sets the value of `id`, releases waiters and may reschedule. */
  lemma SemInOrder(k: Kernel, id: int, v: int, n: nat, wake: int)
    requires Inv(k) && IsPid(k.cur) && InOrder(k) && IsPid(id) && wake in {0, -3, -4}
    ensures InOrder(ReleaseN(SetValue(k, id, v), id, n, wake))
  {
    hide Core; hide NoStranded; hide Blocked; hide GarbageOk; hide ReleaseN;
    InvShaped(k);
    CoreValue(k, {k.cur}, {}, -1, k.semValue[id := v]);
    ReleaseNInOrder(SetValue(k, id, v), {k.cur}, {}, -1, id, n, wake);
  }

  /** What one step promises: the queue stays in order and a context switch elects a process of
      maximal priority. */
  ghost predicate Elects(k: Kernel, k': Kernel) {
    && Shaped(k') && InOrder(k')
    && (k'.cur != k.cur ==> Tops(k'))
  }

  /** If a process runs, it has maximal priority. */
  ghost predicate Tops(k: Kernel)
    requires Shaped(k)
  {
    IsPid(k.cur) ==> Highest(k)
  }

  ghost predicate Keeps(k: Kernel, k': Kernel) { Shaped(k) && Shaped(k') && (Tops(k) ==> Tops(k')) }

  lemma ScheduledElects(k0: Kernel, k: Kernel)
    requires Shaped(k) && InOrder(k) && Inv(Scheduler(k))
    ensures Elects(k0, Scheduler(k)) && Tops(Scheduler(k))
  {
    SchedulerHighest(k);
  }

  /** The running process goes on, and whoever else became runnable or changed is not above it. */
  lemma StaysTop(k: Kernel, k': Kernel)
    requires Shaped(k) && Shaped(k') && k'.cur == k.cur
    requires IsPid(k.cur) ==> k.procs[k.cur].prio <= k'.procs[k.cur].prio
    requires IsPid(k.cur) ==> forall p :: 0 <= p < NB_PROCESS && k'.procs[p].state == ACTIONABLE ==>
      || k'.procs[p].prio <= k'.procs[k.cur].prio
      || (k.procs[p].state == ACTIONABLE && k.procs[p].prio == k'.procs[p].prio)
    ensures Keeps(k, k')
  {
    if IsPid(k.cur) && Highest(k) {
      forall p | 0 <= p < NB_PROCESS && k'.procs[p].state == ACTIONABLE
        ensures k'.procs[p].prio <= k'.procs[k.cur].prio
      {
        assert k.procs[p].state == ACTIONABLE ==> k.procs[p].prio <= k.procs[k.cur].prio;
      }
    }
  }

  /** The only waiter released is not above the running process. */
  lemma ReleaseOneTop(k: Kernel, k1: Kernel, id: int)
    requires Shaped(k) && IsPid(k.cur) && IsPid(id) && Shaped(k1) && k1.procs == k.procs && k1.queues == k.queues
    requires k1.cur == k.cur
    requires var p := FindBySem(k1.queues[SEM_BLOCKED], k1.procs, id); var k2 := ReleaseN(k1, id, 1, 0);
      GetPrio(k2, p) <= GetPrio(k2, k.cur)
    requires Live(k.procs[k.cur]) && k.procs[k.cur].state != SEM_BLOCKED
    requires var p := FindBySem(k1.queues[SEM_BLOCKED], k1.procs, id); p != -1 ==> k.procs[p].state == SEM_BLOCKED
    ensures Keeps(k, ReleaseN(k1, id, 1, 0))
  {
    hide Add; hide Remove; hide Highest; hide Keeps;
    var p := FindBySem(k1.queues[SEM_BLOCKED], k1.procs, id);
    if p == -1 {
      assert ReleaseN(k1, id, 1, 0) == k1;
    } else {
      ReleaseNone(Release(k1, p, 0), id, 0);
      assert ReleaseN(k1, id, 1, 0) == Release(k1, p, 0);
    }
    StaysTop(k, ReleaseN(k1, id, 1, 0));
  }

  lemma FoundWaits(k: Kernel, id: int)
    requires Inv(k) && IsPid(k.cur)
    ensures var p := FindBySem(k.queues[SEM_BLOCKED], k.procs, id); p != -1 ==> k.procs[p].state == SEM_BLOCKED
  {
    hide AllOk; hide Ordered; hide Idle; hide SemLists; hide NoStranded; hide GarbageOk; hide FindBySem; hide Partition;
    var p := FindBySem(k.queues[SEM_BLOCKED], k.procs, id);
    if p != -1 {
      QueueMember(k.queues, k.procs, {k.cur}, SEM_BLOCKED, p);
    }
  }

  /** With the queue in order, a last element that is not above the running process bounds all. */
  lemma LastBounds(k: Kernel)
    requires Shaped(k) && IsPid(k.cur) && InOrder(k) && Partition(k.queues, k.procs, {k.cur})
    requires var q := k.queues[ACTIONABLE]; q != [] && k.procs[q[|q| - 1]].prio <= k.procs[k.cur].prio
    ensures Highest(k)
  {
    var q := k.queues[ACTIONABLE];
    forall p | 0 <= p < NB_PROCESS && k.procs[p].state == ACTIONABLE && p != k.cur
      ensures k.procs[p].prio <= k.procs[k.cur].prio
    {
      assert IsPid(p) && p in q;
      var i :| 0 <= i < |q| && q[i] == p;
      assert k.procs[q[i]].prio <= k.procs[q[|q| - 1]].prio;
    }
  }

  lemma SignalElects(k: Kernel, id: int)
    requires Inv(k) && IsPid(k.cur) && InOrder(k)
    ensures Elects(k, Signal(k, id)) && Keeps(k, Signal(k, id))
  {
    hide Core; hide NoStranded; hide GarbageOk; hide ReleaseN; hide Scheduler; hide Blocked; hide FindBySem;
    hide GetPrio;
    hide InOrder; hide Highest; hide WaitersKept; hide OnlyWoken; hide Released;
    InvShaped(k);
    if id in k.semUsed && k.semValue[id] + 1 <= SHRT_MAX {
      InvSem(k, id);
      SignalInv(k, id);
      var v, n := k.semValue[id] + 1, if k.semValue[id] < 0 then 1 else 0;
      var k1 := SetValue(k, id, v);
      SemInOrder(k, id, v, n, 0);
      ReleaseNone(k1, id, 0);
      var k2 := ReleaseN(k1, id, n, 0);
      ReleaseStable(k, id, v, n, 0);
      YieldInv(k2);
      ScheduledElects(k, k2);
      if v > 0 {
        StaysTop(k, k1);
      } else {
        FoundWaits(k, id);
        SignalStays(k, k1, id);
      }
    }
  }

  lemma SignalStays(k: Kernel, k1: Kernel, id: int)
    requires Shaped(k) && IsPid(k.cur) && IsPid(id) && k1 == SetValue(k, id, k.semValue[id] + 1) && k1.semValue[id] <= 0
    requires id in k.semUsed && k.semValue[id] + 1 <= SHRT_MAX && k.procs[k.cur].state == ACTIONABLE
    requires var p := FindBySem(k.queues[SEM_BLOCKED], k.procs, id); p != -1 ==> k.procs[p].state == SEM_BLOCKED
    requires Tops(Scheduler(ReleaseN(k1, id, 1, 0)))
    ensures Keeps(k, Signal(k, id))
  {
    hide ReleaseN; hide Scheduler; hide FindBySem; hide GetPrio; hide Tops;
    var p, k2 := FindBySem(k1.queues[SEM_BLOCKED], k1.procs, id), ReleaseN(k1, id, 1, 0);
    if GetPrio(k2, p) <= GetPrio(k2, k2.cur) {
      ReleaseOneTop(k, k1, id);
    }
  }

  lemma PreemptElects(k0: Kernel, k: Kernel)
    requires IsPid(k.cur) && k.cur != 0 && Stable(k, {k.cur}) && k.procs[k.cur].state == ACTIONABLE && k.garbage == []
    requires InOrder(k) && k.cur == k0.cur
    ensures Elects(k0, Preempt(k)) && Tops(Preempt(k))
  {
    hide Core; hide NoStranded; hide GarbageOk; hide Scheduler; hide InOrder; hide Highest; hide OnlyWoken;
    StableOk(k, {k.cur});
    PreemptInv(k);
    YieldInv(k);
    ScheduledElects(k0, k);
    PreemptTops(k);
  }

  lemma PreemptTops(k: Kernel)
    requires IsPid(k.cur) && k.cur != 0 && Stable(k, {k.cur}) && InOrder(k) && Inv(Preempt(k)) && Tops(Scheduler(k))
    ensures Tops(Preempt(k))
  {
    hide AllOk; hide Ordered; hide Idle; hide SemLists; hide NoStranded; hide GarbageOk; hide Partition; hide Scheduler;
    hide Highest; hide Sorted;
    var q := k.queues[ACTIONABLE];
    if q != [] && k.procs[q[|q| - 1]].prio <= k.procs[k.cur].prio {
      LastBounds(k);
    }
  }

  lemma SignalNElects(k: Kernel, id: int, count: short)
    requires Inv(k) && IsPid(k.cur) && k.cur != 0 && InOrder(k)
    ensures Elects(k, SignalN(k, id, count)) && Keeps(k, SignalN(k, id, count))
  {
    hide Core; hide NoStranded; hide GarbageOk; hide ReleaseN; hide Preempt; hide Blocked; hide InOrder;
    hide Highest; hide Released;
    InvShaped(k);
    if id in k.semUsed && count >= 0 && k.semValue[id] + count <= SHRT_MAX {
      InvSem(k, id);
      var v := k.semValue[id] + count;
      SemInOrder(k, id, v, count, 0);
      ReleaseNone(SetValue(k, id, v), id, 0);
      ReleaseStable(k, id, v, count, 0);
      var k2 := ReleaseN(SetValue(k, id, v), id, count, 0);
      PreemptElects(k, k2);
      StaysTop(k, SetValue(k, id, v));
    }
  }

  lemma SResetElects(k: Kernel, id: int, count: short)
    requires Inv(k) && IsPid(k.cur) && k.cur != 0 && InOrder(k)
    ensures Elects(k, SReset(k, id, count)) && Keeps(k, SReset(k, id, count))
  {
    hide Core; hide NoStranded; hide GarbageOk; hide ReleaseN; hide Preempt; hide Blocked; hide InOrder;
    hide Highest; hide Released;
    InvShaped(k);
    if id in k.semUsed && count >= 0 {
      InvSem(k, id);
      InvBound(k, id);
      var n := |k.queues[SEM_BLOCKED]|;
      SemInOrder(k, id, count, n, -4);
      ReleaseStable(k, id, count, n, -4);
      PreemptElects(k, ReleaseN(SetValue(k, id, count), id, n, -4));
    }
  }

  lemma SDeleteElects(k: Kernel, id: int)
    requires Inv(k) && IsPid(k.cur) && k.cur != 0 && InOrder(k)
    ensures Elects(k, SDelete(k, id)) && Keeps(k, SDelete(k, id))
  {
    hide Core; hide NoStranded; hide GarbageOk; hide ReleaseN; hide Preempt; hide Blocked; hide Highest; hide Released;
    hide Remove; hide Add; hide Sorted;
    InvShaped(k);
    if id in k.semUsed {
      InvSem(k, id);
      InvBound(k, id);
      var n := |k.queues[SEM_BLOCKED]|;
      SemInOrder(k, id, k.semValue[id], n, -3);
      ReleaseStable(k, id, k.semValue[id], n, -3);
      assert SetValue(k, id, k.semValue[id]) == k;
      var k2 := ReleaseN(k, id, n, -3);
      StableDelete(k2, {k.cur}, id);
      var used, free := Remove(k.semUsed, id), Add(k.semFree, Numbers(), id);
      ReleaseCommutes(k, id, n, -3, used, free);
      PreemptElects(k, k2.(semUsed := used, semFree := free));
    }
  }

  lemma WaitElects(k: Kernel, id: int)
    requires Inv(k) && IsPid(k.cur) && k.cur != 0 && InOrder(k) && Inv(Wait(k, id))
    ensures Elects(k, Wait(k, id)) && Keeps(k, Wait(k, id))
  {
    hide Inv; hide Scheduler; hide Highest; hide Add; hide Sorted;
    InvShaped(k);
    if id in k.semUsed && SHRT_MIN <= k.semValue[id] - 1 < 0 {
      var p := k.cur;
      var k1 := SetValue(k, id, k.semValue[id] - 1);
      var k2 := Put(k1, p, k1.procs[p].(semBlocked := id, state := SEM_BLOCKED, pending := InWait));
      assert Prios(k2.procs) == Prios(k.procs);
      ScheduledElects(k, Enqueue(k2, p, SEM_BLOCKED, Prios(k2.procs)));
    } else {
      StaysTop(k, Wait(k, id));
    }
  }

  lemma ClockElects(k: Kernel, t: int)
    requires Inv(k) && IsPid(k.cur) && InOrder(k) && Inv(WaitClock(k, t))
    ensures Elects(k, WaitClock(k, t)) && Keeps(k, WaitClock(k, t))
  {
    hide Inv; hide Scheduler; hide Highest; hide Add; hide Sorted;
    InvShaped(k);
    if t > k.clock {
      var p := k.cur;
      var k1 := Put(k, p, k.procs[p].(alarmTime := t, state := ASLEEP));
      assert Prios(k1.procs) == Prios(k.procs);
      ScheduledElects(k, Enqueue(k1, p, ASLEEP, Alarms(k1.procs)));
    }
  }

  lemma WaitPidElects(k: Kernel, p: int, found: int)
    requires Inv(k) && Enabled(k, DoWaitPid(p, found)) && InOrder(k) && Inv(WaitPid(k, p, found))
    ensures Elects(k, WaitPid(k, p, found)) && Keeps(k, WaitPid(k, p, found))
  {
    hide Inv; hide Scheduler; hide Highest; hide Add; hide Sorted; hide Reap;
    InvShaped(k);
    var me := k.cur;
    if (p == -1 || 0 < p < NB_PROCESS) && HasChild(k, me) && (p == -1 || IsChild(k, p, me)) {
      var awaited := if p == -1 then found else if k.procs[p].state == ZOMBIE then p else -1;
      if awaited != -1 {
        var k1 := Put(k, me, k.procs[me].(childWaited := awaited));
        assert Prios(k1.procs) == Prios(k.procs);
        StaysTop(k, k1);
        ReapElects(k1);
      } else {
        var k1 := Put(k, me, k.procs[me].(childWaited := p, state := WAITING_CHILD, pending := InWaitPid));
        assert Prios(k1.procs) == Prios(k.procs);
        ScheduledElects(k, Enqueue(k1, me, WAITING_CHILD, Numbers()));
      }
    }
  }

  lemma ReapElects(k: Kernel)
    requires Shaped(k) && IsPid(k.cur) && InOrder(k)
    requires IsPid(k.procs[k.cur].childWaited) && k.procs[k.procs[k.cur].childWaited].state == ZOMBIE
    ensures Elects(k, Reap(k)) && Keeps(k, Reap(k))
  {
    hide Add; hide Sorted; hide Remove; hide Highest;
    assert Prios(Reap(k).procs) == Prios(k.procs);
    StaysTop(k, Reap(k));
  }

  lemma StartElects(k: Kernel, prio: int)
    requires Inv(k) && IsPid(k.cur) && InOrder(k) && Inv(Start(k, prio))
    ensures Elects(k, Start(k, prio))
    ensures if k.cur == 0 && StartsAbove(k, prio) then !Tops(Start(k, prio)) else Keeps(k, Start(k, prio))
  {
    hide AllOk; hide Ordered; hide Idle; hide SemLists; hide NoStranded; hide GarbageOk; hide Partition;
    hide Scheduler; hide Highest; hide Add; hide Position;
    if 1 <= prio <= MAXPRIO && k.queues[FREEPID] != [] {
      FirstPartition(k.queues, k.procs, FREEPID, {k.cur});
      var p := k.queues[FREEPID][0];
      NotThere(k.queues, k.procs, {k.cur}, p);
      var r := k.procs[p].(alarmTime := 0, prio := prio, retvalue := 0, state := ACTIONABLE,
                           childWaited := 0, father := k.cur, pending := UserMode);
      var k1 := k.(queues := k.queues[FREEPID := k.queues[FREEPID][1..]]);
      var k2 := Put(k1, p, r);
      SortedFrame(k.queues[ACTIONABLE], Prios(k.procs), Prios(k2.procs));
      AddSorted(k.queues[ACTIONABLE], Prios(k2.procs), p);
      var k3 := Enqueue(k2, p, ACTIONABLE, Prios(k2.procs));
      if k.cur != 0 && k.procs[k.cur].prio < prio {
        ScheduledElects(k, k3);
      } else if k.procs[k.cur].prio < prio {
        OneAbove(k3, p);
      } else {
        StaysTop(k, k3);
      }
    }
  }

  lemma OneAbove(k: Kernel, p: int)
    requires Shaped(k) && IsPid(k.cur) && IsPid(p) && k.procs[p].state == ACTIONABLE
    requires k.procs[k.cur].prio < k.procs[p].prio
    ensures !Tops(k)
  {
  }

  lemma NotThere(queues: seq<seq<int>>, procs: seq<Process>, D: set<int>, p: int)
    requires Partition(queues, procs, D) && IsPid(p) && (procs[p].state != ACTIONABLE || p in D)
    ensures p !in queues[ACTIONABLE]
  {
  }

  lemma ChPrioElects(k: Kernel, p: int, n: int)
    requires Inv(k) && IsPid(k.cur) && InOrder(k) && Inv(ChPrio(k, p, n))
    ensures Elects(k, ChPrio(k, p, n)) && Keeps(k, ChPrio(k, p, n))
  {
    hide AllOk; hide Ordered; hide Idle; hide SemLists; hide NoStranded; hide GarbageOk; hide Partition;
    hide Scheduler; hide Highest; hide Add; hide Position; hide Remove; hide InOrder;
    if IsPid(p) && Live(k.procs[p]) && 1 <= n <= MAXPRIO {
      var k1 := Put(k, p, k.procs[p].(prio := n));
      var k2 := k1;
      if p != k.cur {
        k2 := Enqueue(Dequeue(k1, p), p, k1.procs[p].state, Prios(k1.procs));
      }
      PrioInOrder(k, p, n, k2);
      if (if p == k.cur then n < k.procs[p].prio else n > GetPrio(k2, k2.cur)) {
        ScheduledElects(k, k2);
      } else {
        StaysTop(k, k2);
      }
    }
  }

  lemma PrioInOrder(k: Kernel, p: int, n: int, k2: Kernel)
    requires Shaped(k) && IsPid(k.cur) && Partition(k.queues, k.procs, {k.cur}) && InOrder(k) && IsPid(p)
    requires var k1 := Put(k, p, k.procs[p].(prio := n));
      k2 == if p == k.cur then k1 else Enqueue(Dequeue(k1, p), p, k1.procs[p].state, Prios(k1.procs))
    ensures InOrder(k2)
  {
    hide Add; hide Position; hide Partition;
    var s := k.procs[p].state;
    var b := k.procs[p := k.procs[p].(prio := n)];
    var q := k.queues[ACTIONABLE];
    if p == k.cur || s != ACTIONABLE {
      NotThere(k.queues, k.procs, {k.cur}, p);
      SortedFrame(q, Prios(k.procs), Prios(b));
    } else {
      RemoveSorted(q, Prios(k.procs), p);
      DequeuePartition(k.queues, k.procs, p, ACTIONABLE, {k.cur});
      NotThere(k.queues[ACTIONABLE := Remove(q, p)], k.procs, {k.cur} + {p}, p);
      SortedFrame(Remove(q, p), Prios(k.procs), Prios(b));
      AddSorted(Remove(q, p), Prios(b), p);
    }
  }

  lemma ExitElects(k: Kernel, retval: int)
    requires Inv(k) && IsPid(k.cur) && k.cur != 0 && InOrder(k) && Inv(Exit(k, retval))
    requires WakesFather(k, DoExit(retval)) ==> FatherFits(k, DoExit(retval))
    ensures Elects(k, Exit(k, retval)) && Tops(Exit(k, retval))
  {
    hide Scheduler; hide Highest; hide InOrder; hide Die; hide Core; hide NoStranded; hide GarbageOk; hide FitsByPid;
    InvShaped(k);
    ExitOrderIff(k, retval);
    ScheduledElects(k, Die(k, k.cur, retval));
  }

  lemma CollectElects(k: Kernel)
    requires Inv(k) && k.cur == PID_GARBAGE && InOrder(k) && Inv(Scheduler(GarbageCollect(k)))
    ensures Elects(k, Scheduler(GarbageCollect(k))) && Tops(Scheduler(GarbageCollect(k)))
  {
    hide Scheduler; hide Highest; hide GarbageCollect; hide Core; hide NoStranded;
    InvShaped(k);
    CollectSame(k);
    ScheduledElects(k, GarbageCollect(k));
  }

  lemma KillElects(k: Kernel, p: int)
    requires Inv(k) && IsPid(k.cur) && k.cur != 0 && InOrder(k)
    requires 0 < p < NB_PROCESS && p != k.cur && Live(k.procs[p])
    requires WakesFather(k, DoKill(p)) ==> FatherFits(k, DoKill(p))
    ensures Elects(k, Kill(k, p))
  {
    hide Inv; hide InOrder; hide Kill; hide FitsByPid; hide Removed; hide Highest;
    InvShaped(k);
    KillOrderIff(k, p);
  }

  /** A father that is woken by the event fits at the place of its pid. */
  ghost predicate Orderly(k: Kernel, e: Event)
    requires Shaped(k)
  {
    WakesFather(k, e) ==> FatherFits(k, e)
  }

  /** Events that reach `scheduler` although the running process stays runnable. */
  ghost predicate Reschedules(k: Kernel, e: Event)
    requires Shaped(k)
  {
    || e == ClockTick(true)
    || (e.DoChPrio? && IsPid(k.cur) && e.pid == k.cur && Live(k.procs[k.cur]) && 1 <= e.newprio <= MAXPRIO
        && e.newprio < k.procs[k.cur].prio)
  }

  /** Every orderly step keeps the queue in order; every context switch elects a process of maximal
      priority; and where the running process was maximal there is one maximal after the step if and
      only if the step does not overtake it. */
  lemma StepElects(k: Kernel, e: Event)
    requires Inv(k) && Enabled(k, e) && InOrder(k) && Orderly(k, e)
    ensures Elects(k, Step(k, e))
    ensures Tops(k) ==> (Tops(Step(k, e)) <==> !Overtakes(k, e))
  {
    hide Core; hide NoStranded; hide GarbageOk; hide InOrder; hide Highest; hide Enabled; hide Scheduler;
    hide GarbageCollect;
    hide Signal; hide SignalN; hide SReset; hide SDelete; hide Wait; hide Start; hide Exit; hide WaitPid;
    hide WaitClock;
    hide ChPrio; hide Reap; hide Blocked; hide WaitersKept; hide Add; hide Die; hide Forfeit; hide Dequeue; hide Put;
    hide FatherFits;
    InvShaped(k);
    EnabledCaller(k, e);
    StepKeeps(k, e);
    match e
    case DoStart(prio) => StartElects(k, prio);
    case DoExit(v) => ExitElects(k, v);
    case DoKill(p) => KillAll(k, p);
    case DoWaitPid(p, found) => WaitPidElects(k, p, found);
    case DoWaitClock(t) => ClockElects(k, t);
    case DoChPrio(p, n) => ChPrioElects(k, p, n);
    case DoSCreate(c) => QuietElects(k, e);
    case DoSDelete(id) => SDeleteElects(k, id);
    case DoSReset(id, c) => SResetElects(k, id, c);
    case DoSignal(id) => SignalElects(k, id);
    case DoSignalN(id, c) => SignalNElects(k, id, c);
    case DoWait(id) => WaitElects(k, id);
    case DoTryWait(id) => QuietElects(k, e);
    case ClockTick(b) => QuietElects(k, e);
    case Resume => QuietElects(k, e);
    case Collect =>
      CollectorRuns(k);
      CollectElects(k);
  }

  lemma TopsIsAtMost(k: Kernel)
    requires Shaped(k) && IsPid(k.cur)
    ensures Tops(k) <==> AtMost(k.procs, k.procs[k.cur].prio)
  {
  }

  lemma KillAll(k: Kernel, p: int)
    requires Inv(k) && Enabled(k, DoKill(p)) && InOrder(k) && Orderly(k, DoKill(p)) && Inv(Step(k, DoKill(p)))
    ensures Elects(k, Kill(k, p)) && (Tops(k) ==> (Tops(Kill(k, p)) <==> !Overtakes(k, DoKill(p))))
  {
    hide Core; hide NoStranded; hide GarbageOk; hide Highest; hide Exit; hide Die; hide GarbageCollect; hide Forfeit;
    hide Sorted; hide FitsByPid; hide WakesAbove; hide ReleasesAbove; hide AtMost;
    InvShaped(k);
    if p == k.cur && p > 0 {
      ExitElects(k, KILL_RETVAL);
    } else if 0 < p < NB_PROCESS && Live(k.procs[p]) {
      KillElects(k, p);
      TopsIsAtMost(k);
      if Tops(k) {
        KillAboveIff(k, p);
        TopsIsAtMost(Kill(k, p));
      }
    } else {
      assert Prios(Kill(k, p).procs) == Prios(k.procs);
      StaysTop(k, Kill(k, p));
    }
  }

  lemma QuietElects(k: Kernel, e: Event)
    requires Inv(k) && Enabled(k, e) && InOrder(k) && Inv(Step(k, e))
    requires e.DoSCreate? || e.DoTryWait? || e.ClockTick? || e.Resume?
    ensures Elects(k, Step(k, e)) && Keeps(k, Step(k, e))
  {
    hide Core; hide NoStranded; hide GarbageOk; hide Highest; hide Scheduler; hide Sorted; hide Reap; hide Add;
    InvShaped(k);
    if e.ClockTick? && e.reschedule {
      ScheduledElects(k, Ticked(k));
    } else if e.Resume? {
      if k.procs[k.cur].pending == InWaitPid {
        ResumedZombie(k);
        ReapElects(k);
      } else {
        assert Prios(Step(k, e).procs) == Prios(k.procs);
        StaysTop(k, Step(k, e));
      }
    } else {
      StaysTop(k, Step(k, e));
    }
  }

  lemma ResumedZombie(k: Kernel)
    requires Inv(k) && IsPid(k.cur) && k.procs[k.cur].pending == InWaitPid
    ensures IsPid(k.procs[k.cur].childWaited) && k.procs[k.procs[k.cur].childWaited].state == ZOMBIE
  {
    assert ProcOk(k.procs, k.semUsed, k.cur, -1);
  }

  /** A reschedule elects a process of maximal priority, even the one that was running. */
  lemma RescheduleTops(k: Kernel, e: Event)
    requires Inv(k) && Enabled(k, e) && InOrder(k) && Reschedules(k, e)
    ensures Tops(Step(k, e))
  {
    hide AllOk; hide Ordered; hide Idle; hide SemLists; hide NoStranded; hide GarbageOk; hide Partition;
    hide Scheduler; hide Highest; hide InOrder; hide StepOk;
    StepKeeps(k, e);
    assert Inv(Step(k, e)) by { StepInv(k, e); }
    if e.ClockTick? {
      var k1 := Ticked(k);
      SameOrder(k, k1);
      ScheduledElects(k, k1);
    } else {
      var k1 := Put(k, k.cur, k.procs[k.cur].(prio := e.newprio));
      PrioInOrder(k, k.cur, e.newprio, k1);
      ScheduledElects(k, k1);
    }
  }

  lemma StepInv(k: Kernel, e: Event)
    requires Inv(k) && Enabled(k, e)
    ensures Inv(Step(k, e))
  {
    hide Inv; hide Enabled; hide Step; hide WaitersKept;
    InvShaped(k);
    StepKeeps(k, e);
  }

  /** Over a whole run from boot: as long as every woken father fits, the queue is in order and every
      context switch and every reschedule elects a process of maximal priority. */
  lemma {:induction false} RunElects(ks: seq<Kernel>, es: seq<Event>, i: nat)
    requires Run(ks, es) && ks[0] == Boot() && i < |ks|
    requires forall j :: 0 <= j < i ==> Orderly(ks[j], es[j])
    ensures InOrder(ks[i])
    ensures i > 0 ==> Elects(ks[i - 1], ks[i]) && (Reschedules(ks[i - 1], es[i - 1]) ==> Tops(ks[i]))
  {
    hide Inv; hide Step; hide Enabled; hide InOrder; hide Orderly; hide Tops; hide Reschedules;
    if i == 0 {
      BootInOrder();
    } else {
      RunElects(ks, es, i - 1);
      BootInv();
      RunInv(ks, es, i - 1);
      StepElects(ks[i - 1], es[i - 1]);
      if Reschedules(ks[i - 1], es[i - 1]) {
        RescheduleTops(ks[i - 1], es[i - 1]);
      }
    }
  }

  /** From any moment at which the running process has maximal priority on, there is a maximal one
      at every moment if and only if no step overtakes it. */
  lemma {:induction false} RunTops(ks: seq<Kernel>, es: seq<Event>, a: nat, i: nat)
    requires Run(ks, es) && ks[0] == Boot() && a <= i < |ks| && Tops(ks[a])
    requires forall j :: 0 <= j < i ==> Orderly(ks[j], es[j])
    ensures (forall j :: a <= j <= i ==> Tops(ks[j])) <==> (forall j :: a <= j < i ==> !Overtakes(ks[j], es[j]))
  {
    hide Inv; hide Step; hide Enabled; hide InOrder; hide Orderly; hide Tops; hide Overtakes;
    if a < i {
      RunTops(ks, es, a, i - 1);
      RunElects(ks, es, i - 1);
      BootInv();
      RunInv(ks, es, i - 1);
      StepElects(ks[i - 1], es[i - 1]);
      assert Tops(ks[i - 1]) ==> (Tops(ks[i]) <==> !Overtakes(ks[i - 1], es[i - 1]));
      if forall j :: a <= j <= i - 1 ==> Tops(ks[j]) {
        assert Tops(ks[i - 1]);
      }
    }
  }

  lemma BootInOrder()
    ensures Shaped(Boot()) && InOrder(Boot())
  {
    BootShape();
  }
}

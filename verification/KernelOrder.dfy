/**
  The order of the actionable queue.  Every call inserts by priority except `report_father`, which
  inserts the father of a dead process at the place of its pid.  The queue stays in order through
  a death if and only if that place happens to be right.
*/
module KernelOrder {
  import opened OrderedQueue
  import opened KernelModel
  import opened KernelInvariant
  import opened KernelSemaphores
  import opened KernelLife
  import opened KernelKill
  import opened KernelRuns

  ghost predicate InOrder(k: Kernel)
    requires Shaped(k)
  {
    Sorted(k.queues[ACTIONABLE], Prios(k.procs))
  }

  /** The running process has maximal priority among the runnable ones. */
  ghost predicate Highest(k: Kernel)
    requires Shaped(k) && IsPid(k.cur)
  {
    forall p :: 0 <= p < NB_PROCESS && k.procs[p].state == ACTIONABLE ==> k.procs[p].prio <= k.procs[k.cur].prio
  }

  // ----- the scheduler -----

  lemma {:induction false} WakeDueOrderIff(k: Kernel)
    requires Shaped(k)
    ensures InOrder(WakeDue(k)) <==> InOrder(k)
    decreases |k.queues[ASLEEP]|
  {
    var q := k.queues[ASLEEP];
    if q != [] && k.procs[q[0]].alarmTime < k.clock {
      WakeFirstOrderIff(k);
      WakeDueOrderIff(WakeFirst(k));
    }
  }

  lemma WakeFirstOrderIff(k: Kernel)
    requires Shaped(k) && k.queues[ASLEEP] != []
    ensures InOrder(WakeFirst(k)) <==> InOrder(k)
  {
    hide Add; hide Position; hide Sorted;
    var p := k.queues[ASLEEP][0];
    assert Prios(WakeFirst(k).procs) == Prios(k.procs);
    AddSortedIff(k.queues[ACTIONABLE], Prios(k.procs), p);
  }

  lemma {:induction false} WakeDueOthers(k: Kernel)
    requires Shaped(k)
    ensures WakeDue(k).cur == k.cur && WakeDue(k).garbage == k.garbage
    decreases |k.queues[ASLEEP]|
  {
    var q := k.queues[ASLEEP];
    if q != [] && k.procs[q[0]].alarmTime < k.clock {
      WakeDueOthers(WakeFirst(k));
    }
  }

  lemma RequeueOrderIff(k: Kernel)
    requires Shaped(k)
    ensures (InOrder(Requeue(k)) <==> InOrder(k)) && Requeue(k).cur == k.cur && Requeue(k).garbage == k.garbage
  {
    hide Add; hide Position; hide Sorted;
    if k.cur != PID_GARBAGE {
      AddSortedIff(k.queues[ACTIONABLE], Prios(k.procs), k.cur);
    }
  }

  lemma LastIsHighest(queues: seq<seq<int>>, procs: seq<Process>, q: seq<int>, cur: int)
    requires q != [] && Sorted(q, Prios(procs)) && |queues| == NB_STATE && queues[ACTIONABLE] == q[..|q| - 1]
    requires cur == q[|q| - 1]
    requires Partition(queues, procs, {cur})
    ensures forall p :: 0 <= p < NB_PROCESS && procs[p].state == ACTIONABLE ==> procs[p].prio <= procs[cur].prio
  {
    forall p | 0 <= p < NB_PROCESS && procs[p].state == ACTIONABLE && p != cur
      ensures procs[p].prio <= procs[cur].prio
    {
      assert IsPid(p) && p in queues[ACTIONABLE];
      assert p in q;
    }
  }

  lemma ElectHighest(k: Kernel)
    requires Shaped(k) && InOrder(k) && Inv(Elect(k))
    ensures InOrder(Elect(k))
    ensures IsPid(Elect(k).cur) && k.garbage == [] ==> Highest(Elect(k))
  {
    hide AllOk; hide Ordered; hide Idle; hide SemLists; hide NoStranded; hide GarbageOk; hide Partition;
    var q := k.queues[ACTIONABLE];
    var k' := Elect(k);
    if k.garbage == [] && q != [] {
      LastIsHighest(k'.queues, k'.procs, q, k'.cur);
    }
  }

  lemma SchedulerHighest(k: Kernel)
    requires Shaped(k) && InOrder(k) && Inv(Scheduler(k))
    ensures InOrder(Scheduler(k))
    ensures IsPid(Scheduler(k).cur) ==> Highest(Scheduler(k))
  {
    hide InOrder; hide Inv; hide WakeDue; hide Requeue;
    WakeDueOrderIff(k);
    WakeDueOthers(k);
    RequeueOrderIff(WakeDue(k));
    ElectHighest(Requeue(WakeDue(k)));
  }

  // ----- what happens before the scheduler is called -----

  lemma ReleaseInOrder(k: Kernel, p: int, wake: int)
    requires Shaped(k) && InOrder(k) && IsPid(p) && k.procs[p].state == SEM_BLOCKED
    ensures InOrder(Release(k, p, wake))
  {
    hide Add; hide Position; hide Sorted; hide Remove;
    assert Prios(Release(k, p, wake).procs) == Prios(k.procs);
    AddSorted(k.queues[ACTIONABLE], Prios(k.procs), p);
  }

  lemma {:induction false} ReleaseNInOrder(k: Kernel, D: set<int>, X: set<int>, d: int, id: int, n: nat, wake: int)
    requires Core(k, D, X, d) && InOrder(k) && wake in {0, -3, -4}
    requires forall x :: x in D && IsPid(x) ==> k.procs[x].state != SEM_BLOCKED
    requires forall x :: x in X ==> x !in Blocked(k.procs, id)
    ensures InOrder(ReleaseN(k, id, n, wake))
    decreases n
  {
    hide Partition; hide AllOk; hide Ordered; hide Idle; hide SemLists; hide Release; hide Blocked; hide InOrder;
    FindComplete(k.queues, k.procs, D, id);
    var p := FindBySem(k.queues[SEM_BLOCKED], k.procs, id);
    if n > 0 && p != -1 {
      QueueMember(k.queues, k.procs, D, SEM_BLOCKED, p);
      ReleaseInOrder(k, p, wake);
      ReleaseCore(k, D, X, d, p, wake);
      DetachedStill(k.procs, p, wake, D, X, id);
      ReleaseNInOrder(Release(k, p, wake), D, X, d, id, n - 1, wake);
    }
  }

  // ----- deaths -----

  /** Inserting by pid, as `report_father` does, keeps the priority order exactly when the father
      happens to fit between its neighbours. */
  lemma ByPidKeepsOrderIff(q: seq<int>, prios: seq<int>, f: int)
    requires Sorted(q, prios) && |prios| == NB_PROCESS && IsPid(f)
    ensures Sorted(Add(q, Numbers(), f), prios) <==> FitsByPid(q, prios, f)
  {
    InsertSortedIff(q, prios, f, Position(q, Numbers(), f));
  }

  /** The neighbours at the place of the pid of f are of at most, and at least, its priority. */
  ghost predicate FitsByPid(q: seq<int>, prios: seq<int>, f: int)
    requires AllPids(q) && |prios| == NB_PROCESS && IsPid(f)
  {
    Fits(q, prios, f, Position(q, Numbers(), f))
  }

  ghost predicate Fits(q: seq<int>, prios: seq<int>, f: int, i: nat)
    requires Indexes(q, prios) && 0 <= f < |prios| && i <= |q|
  {
    (i > 0 ==> prios[q[i - 1]] <= prios[f]) && (i < |q| ==> prios[f] <= prios[q[i]])
  }

  lemma InsertSortedIff(q: seq<int>, prios: seq<int>, f: int, i: nat)
    requires Sorted(q, prios) && 0 <= f < |prios| && i <= |q|
    ensures Sorted(q[..i] + [f] + q[i..], prios) <==> Fits(q, prios, f, i)
  {
    var r := q[..i] + [f] + q[i..];
    forall j, m | Fits(q, prios, f, i) && 0 <= j < m < |r| ensures prios[r[j]] <= prios[r[m]] {
      var j', m' := if j <= i then j else j - 1, if m <= i then m else m - 1;
      assert j != i ==> r[j] == q[j'];
      assert m != i ==> r[m] == q[m'];
    }
    if Sorted(r, prios) {
      assert r[i] == f;
      assert i > 0 ==> r[i - 1] == q[i - 1];
      assert i < |q| ==> r[i + 1] == q[i];
    }
  }

  /** The queue after `report_father`, before sleepers are woken: in order exactly when the father,
      if it waits, fits at the place of its pid. */
  lemma DieOrderIff(k: Kernel, p: int, retval: int)
    requires Shaped(k) && InOrder(k) && IsPid(p) && k.procs[p].father != p
    requires Waits(k.procs, k.procs[p].father, p) ==> k.procs[p].father in k.queues[WAITING_CHILD]
    ensures var f, q := k.procs[p].father, k.queues[ACTIONABLE];
      InOrder(Die(k, p, retval)) <==> (Waits(k.procs, f, p) ==> FitsByPid(q, Prios(k.procs), f))
    ensures Prios(Die(k, p, retval).procs) == Prios(k.procs)
  {
    hide Add; hide Position; hide Sorted; hide BuryChildren; hide Fits; hide Remove;
    var f := k.procs[p].father;
    var k1 := Put(k, p, k.procs[p].(retvalue := retval, alarmTime := k.clock, state := ZOMBIE));
    var k2 := Enqueue(k1, p, ZOMBIE, Alarms(k1.procs));
    assert Prios(k1.procs) == Prios(k.procs);
    var k3 := ReportFather(k2, p);
    assert Prios(k3.procs) == Prios(k.procs);
    if Waits(k.procs, f, p) {
      assert k3.queues[ACTIONABLE] == Add(k.queues[ACTIONABLE], Numbers(), f);
      ByPidKeepsOrderIff(k.queues[ACTIONABLE], Prios(k.procs), f);
    }
    BurySame(k3, p, 0);
    var k4 := BuryChildren(k3, p, 0);
    assert Prios(Orphaned(k4.procs, p)) == Prios(k4.procs);
  }

  lemma DieGarbage(k: Kernel, p: int, retval: int)
    requires Shaped(k) && IsPid(p) && k.garbage == [] && k.procs[p].father != p
    ensures var k' := Die(k, p, retval); k'.garbage == [p] && k'.procs[p].state == ZOMBIE && k'.cur == k.cur
  {
    hide Add; hide Position; hide BuryChildren; hide Remove;
    var k1 := Put(k, p, k.procs[p].(retvalue := retval, alarmTime := k.clock, state := ZOMBIE));
    var k2 := ReportFather(Enqueue(k1, p, ZOMBIE, Alarms(k1.procs)), p);
    BurySelf(k2, p, 0);
    AddEmpty(p);
  }

  lemma AddEmpty(p: int)
    requires IsPid(p)
    ensures Add([], Numbers(), p) == [p]
  {
  }

  lemma {:induction false} BurySelf(k: Kernel, f: int, i: nat)
    requires Shaped(k) && IsPid(f) && i <= NB_PROCESS
    ensures var k' := BuryChildren(k, f, i); k'.procs[f] == k.procs[f] && k'.garbage == k.garbage && k'.cur == k.cur
    decreases NB_PROCESS - i
  {
    hide Add; hide Remove;
    if i < NB_PROCESS {
      if k.procs[i].father == f && k.procs[i].state == ZOMBIE && i != f {
        BurySelf(FreePid(Dequeue(k, i), i), f, i + 1);
      } else {
        BurySelf(k, f, i + 1);
      }
    }
  }

  lemma {:induction false} BurySame(k: Kernel, f: int, i: nat)
    requires Shaped(k) && IsPid(f) && i <= NB_PROCESS
    ensures BuryChildren(k, f, i).queues[ACTIONABLE] == k.queues[ACTIONABLE]
    ensures Prios(BuryChildren(k, f, i).procs) == Prios(k.procs)
    decreases NB_PROCESS - i
  {
    hide Add; hide Remove;
    if i < NB_PROCESS {
      if k.procs[i].father == f && k.procs[i].state == ZOMBIE && i != f {
        var k1 := FreePid(Dequeue(k, i), i);
        assert Prios(k1.procs) == Prios(k.procs);
        BurySame(k1, f, i + 1);
      } else {
        BurySame(k, f, i + 1);
      }
    }
  }

  lemma CollectSame(k: Kernel)
    requires Shaped(k) && (k.garbage == [] || (|k.garbage| == 1 && k.procs[k.garbage[0]].state == ZOMBIE))
    ensures GarbageCollect(k).queues[ACTIONABLE] == k.queues[ACTIONABLE]
    ensures Prios(GarbageCollect(k).procs) == Prios(k.procs) && GarbageCollect(k).cur == k.cur
  {
    hide Add; hide Remove;
    if k.garbage != [] {
      var d := k.garbage[0];
      var k1 := k.(garbage := k.garbage[..|k.garbage| - 1]);
      var k2 := if k1.procs[d].father == 0 then FreePid(Dequeue(k1, d), d) else k1;
      assert k2.garbage == [];
      assert Prios(k2.procs) == Prios(k.procs);
    }
  }

  lemma DequeueInOrder(k: Kernel, p: int)
    requires Shaped(k) && IsPid(p) && InOrder(k)
    ensures InOrder(Dequeue(k, p)) && Dequeue(k, p) == k.(queues := Dequeue(k, p).queues)
  {
    RemoveSorted(k.queues[ACTIONABLE], Prios(k.procs), p);
  }

  lemma ForfeitInOrder(k: Kernel, p: int)
    requires Inv(k) && IsPid(k.cur) && IsPid(p) && p != k.cur && InOrder(k)
    ensures var k' := Forfeit(k, p);
      InOrder(k') && k'.garbage == k.garbage && k'.cur == k.cur
  {
    hide Partition; hide AllOk; hide Ordered; hide Idle; hide SemLists; hide NoStranded; hide GarbageOk;
    hide ReleaseN; hide Blocked; hide Sorted;
    if k.procs[p].state == SEM_BLOCKED {
      ForfeitCore(k, p);
      var id := k.procs[p].semBlocked;
      var r := k.procs[p].(semBlocked := -1);
      ForfeitOk(k.procs, k.semUsed, p, k.garbage);
      PutSameQueues(k.queues, k.procs, {k.cur}, p, r);
      var k1 := Put(k, p, r);
      assert Prios(k1.procs) == Prios(k.procs);
      var k2 := SetValue(k1, id, k.semValue[id] + 1);
      ForfeitBlocked(k.procs, p);
      ReleaseNInOrder(k2, {k.cur}, {p}, -1, id, 1, 0);
    }
  }

  /** The process that dies in a step, or -1. */
  ghost function Victim(k: Kernel, e: Event): int
    requires Shaped(k)
  {
    if e.DoExit? && IsPid(k.cur) then k.cur
    else if e.DoKill? && 0 < e.pid < NB_PROCESS && Live(k.procs[e.pid]) then e.pid
    else -1
  }

  /** The event is the death of a process whose father waits for it. */
  ghost predicate WakesFather(k: Kernel, e: Event)
    requires Shaped(k)
  {
    var p := Victim(k, e);
    IsPid(p) && Waits(k.procs, k.procs[p].father, p)
  }

  /** The state in which a killed process has left its queue and its token has been given back. */
  ghost function Removed(k: Kernel, p: int): (k': Kernel)
    requires Shaped(k) && IsPid(p)
    ensures Shaped(k')
  {
    Dequeue(Forfeit(Put(k, p, k.procs[p].(retvalue := KILL_RETVAL)), p), p)
  }

  /** The father that `report_father` wakes fits at the place of its pid in the actionable queue. */
  ghost predicate FatherFits(k: Kernel, e: Event)
    requires Shaped(k) && IsPid(Victim(k, e))
  {
    var p := Victim(k, e);
    FitsByPid(if p == k.cur then k.queues[ACTIONABLE] else Removed(k, p).queues[ACTIONABLE],
              Prios(k.procs), k.procs[p].father)
  }

  lemma FatherQueued(queues: seq<seq<int>>, procs: seq<Process>, D: set<int>, f: int)
    requires Partition(queues, procs, D) && IsPid(f) && f !in D && procs[f].state == WAITING_CHILD
    ensures f in queues[WAITING_CHILD]
  {
  }

  lemma ExitOrderIff(k: Kernel, retval: int)
    requires Inv(k) && IsPid(k.cur) && k.cur != 0 && InOrder(k)
    ensures var f := k.procs[k.cur].father; var k1 := Die(k, k.cur, retval);
      && (InOrder(k1) <==> (Waits(k.procs, f, k.cur) ==> FitsByPid(k.queues[ACTIONABLE], Prios(k.procs), f)))
      && (InOrder(Exit(k, retval)) <==> InOrder(k1))
  {
    hide Partition; hide AllOk; hide Ordered; hide Idle; hide SemLists; hide NoStranded; hide Die; hide FitsByPid;
    hide Sorted; hide WakeDue; hide Requeue; hide Mortal;
    var p := k.cur;
    var f := k.procs[p].father;
    MortalRunning(k, p);
    MortalFather(k.procs, p);
    if Waits(k.procs, f, p) {
      FatherWaits(k.procs, k.semUsed, {}, p);
      FatherQueued(k.queues, k.procs, {p}, f);
    }
    DieOrderIff(k, p, retval);
    DieGarbage(k, p, retval);
    var k1 := Die(k, p, retval);
    WakeDueOrderIff(k1);
    WakeDueOthers(k1);
    RequeueOrderIff(WakeDue(k1));
  }

  lemma MortalFather(procs: seq<Process>, p: int)
    requires Mortal(procs, p)
    ensures |procs| == NB_PROCESS && IsPid(p) && p != 0 && IsPid(procs[p].father) && procs[p].father != p
  {
  }

  /** What `kill` of another process has done when the victim is out of its queue. */
  lemma RemovedParts(k: Kernel, p: int)
    requires Inv(k) && IsPid(k.cur) && k.cur != 0 && 0 < p < NB_PROCESS && p != k.cur && Live(k.procs[p])
    ensures var k' := Removed(k, p); var f := k.procs[p].father;
      && (InOrder(k) ==> InOrder(k')) && k'.garbage == [] && k'.cur == k.cur && Prios(k'.procs) == Prios(k.procs)
      && f != p && k'.procs[p].father == f && (Waits(k'.procs, f, p) <==> Waits(k.procs, f, p))
      && (Waits(k'.procs, f, p) ==> f in k'.queues[WAITING_CHILD] && k'.procs[f].state == WAITING_CHILD)
  {
    hide Partition; hide AllOk; hide Ordered; hide Idle; hide SemLists; hide NoStranded; hide Forfeit; hide Dequeue;
    hide Sorted; hide Mortal; hide Released; hide Blocked; hide GarbageOk;
    RetvalInv(k, p, KILL_RETVAL);
    var k1 := Put(k, p, k.procs[p].(retvalue := KILL_RETVAL));
    assert Prios(k1.procs) == Prios(k.procs);
    ForfeitParts(k1, p);
    var k2 := Forfeit(k1, p);
    if InOrder(k2) {
      DequeueInOrder(k2, p);
    }
    DequeueCore(k2, {k.cur}, {p}, -1, p);
    var k3 := Dequeue(k2, p);
    var f := k.procs[p].father;
    MortalFather(k2.procs, p);
    if Waits(k3.procs, f, p) {
      FatherWaits(k2.procs, k2.semUsed, {p}, p);
      assert k.cur != f;
      FatherQueued(k3.queues, k3.procs, {k.cur} + {p}, f);
    }
  }

  lemma ForfeitParts(k: Kernel, p: int)
    requires Inv(k) && IsPid(k.cur) && 0 < p < NB_PROCESS && p != k.cur && Live(k.procs[p])
    ensures var k' := Forfeit(k, p); var f := k.procs[p].father;
      && Core(k', {k.cur}, {p}, -1) && Mortal(k'.procs, p) && (InOrder(k) ==> InOrder(k'))
      && k'.garbage == k.garbage && k'.cur == k.cur && Prios(k'.procs) == Prios(k.procs)
      && k'.procs[p].father == f && k'.procs[f].childWaited == k.procs[f].childWaited
      && k'.procs[k.cur] == k.procs[k.cur]
  {
    hide Partition; hide AllOk; hide Ordered; hide Idle; hide SemLists; hide NoStranded; hide Mortal; hide GarbageOk;
    hide ReleaseN; hide Blocked; hide Sorted; hide Released; hide SignalDeath;
    if InOrder(k) {
      ForfeitInOrder(k, p);
    }
    if k.procs[p].state == SEM_BLOCKED {
      ForfeitCore(k, p);
      ForfeitFather(k, p);
      MortalKept(k.procs, Forfeit(k, p).procs, k.semUsed, p, k.procs[p].semBlocked);
      var b := k.procs[p := k.procs[p].(semBlocked := -1)];
      ReleasedPrios(b, Forfeit(k, p).procs, k.procs[p].semBlocked, 0);
      assert Prios(b) == Prios(k.procs);
    } else {
      MortalRunning(k, p);
      AllOkLess(k.procs, k.semUsed, {p}, -1);
    }
  }

  lemma ForfeitFather(k: Kernel, p: int)
    requires Inv(k) && IsPid(k.cur) && IsPid(p) && k.procs[p].state == SEM_BLOCKED
    requires var k' := Forfeit(k, p);
      Released(k.procs[p := k.procs[p].(semBlocked := -1)], k'.procs, k.procs[p].semBlocked, 0)
    ensures var k' := Forfeit(k, p); var f := k.procs[p].father;
      k'.procs[p].father == f && k'.procs[f].childWaited == k.procs[f].childWaited
  {
    hide Partition; hide AllOk; hide Ordered; hide Idle; hide SemLists; hide NoStranded; hide Forfeit; hide Blocked;
    InvShaped(k);
  }

  lemma AllOkLess(procs: seq<Process>, used: seq<int>, X: set<int>, d: int)
    requires AllOk(procs, used, {}, d)
    ensures AllOk(procs, used, X, d)
  {
  }

  lemma ReleasedPrios(a: seq<Process>, b: seq<Process>, id: int, wake: int)
    requires Released(a, b, id, wake)
    ensures Prios(b) == Prios(a)
  {
  }

  lemma KillOrderIff(k: Kernel, p: int)
    requires Inv(k) && IsPid(k.cur) && k.cur != 0 && 0 < p < NB_PROCESS && p != k.cur && Live(k.procs[p]) && InOrder(k)
    ensures var f := k.procs[p].father;
      && Kill(k, p).cur == k.cur
      && (InOrder(Kill(k, p)) <==>
            (Waits(k.procs, f, p) ==> FitsByPid(Removed(k, p).queues[ACTIONABLE], Prios(k.procs), f)))
  {
    hide Inv; hide InOrder; hide Die; hide GarbageCollect; hide Forfeit; hide Dequeue; hide FitsByPid;
    InvShaped(k);
    RemovedParts(k, p);
    var k3 := Removed(k, p);
    DieOrderIff(k3, p, KILL_RETVAL);
    DieGarbage(k3, p, KILL_RETVAL);
    var k4 := Die(k3, p, KILL_RETVAL);
    CollectSame(k4);
    SameOrder(k4, GarbageCollect(k4));
  }

  lemma SameOrder(a: Kernel, b: Kernel)
    requires Shaped(a) && Shaped(b) && b.queues[ACTIONABLE] == a.queues[ACTIONABLE] && Prios(b.procs) == Prios(a.procs)
    ensures InOrder(b) <==> InOrder(a)
  {
  }

  /** Through the death of a process the actionable queue stays in order if and only if the father,
      when it waits for that process, fits at the place of its pid. */
  lemma DeathKeepsOrderIff(k: Kernel, e: Event)
    requires Inv(k) && Enabled(k, e) && InOrder(k) && IsPid(Victim(k, e))
    ensures InOrder(Step(k, e)) <==> (WakesFather(k, e) ==> FatherFits(k, e))
  {
    hide Inv; hide InOrder; hide Kill; hide Exit; hide FitsByPid; hide Enabled; hide Removed;
    InvShaped(k);
    EnabledCaller(k, e);
    var p := Victim(k, e);
    if p == k.cur {
      ExitOrderIff(k, if e.DoExit? then e.retval else KILL_RETVAL);
      KillSelf(k, p);
    } else {
      KillOrderIff(k, p);
    }
  }

  lemma KillSelf(k: Kernel, p: int)
    requires Shaped(k) && IsPid(k.cur) && 0 < p < NB_PROCESS && p == k.cur
    ensures Kill(k, p) == Exit(k, KILL_RETVAL)
  {
  }
}

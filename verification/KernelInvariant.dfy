/**
  What every step of the kernel keeps.

  `Core(k, D, X, d)` is the invariant of intermediate states: D is the set of processes that are
  in no queue, X the processes whose record is being changed, d the pid of a process in the middle
  of dying (-1 for none).  `Inv` is the invariant of the states between steps, where only the
  running process is out of the queues.
*/
module KernelInvariant {
  import opened OrderedQueue
  import opened KernelModel

  ghost predicate ProcShape(procs: seq<Process>) {
    |procs| == NB_PROCESS
    && forall p :: 0 <= p < NB_PROCESS ==> 0 <= procs[p].state < NB_STATE && 0 <= procs[p].father < NB_PROCESS
  }

  predicate QueueShape(queues: seq<seq<int>>) {
    |queues| == NB_STATE && forall s :: 0 <= s < NB_STATE ==> AllPids(queues[s])
  }

  // ----- the queues partition the processes -----

  /** Every process outside D is in exactly one queue, the one named by its state; the processes
      of D are in none. */
  ghost predicate Partition(queues: seq<seq<int>>, procs: seq<Process>, D: set<int>) {
    && QueueShape(queues) && ProcShape(procs)
    && (forall s :: 0 <= s < NB_STATE ==> NoDup(queues[s]))
    && (forall s, x :: 0 <= s < NB_STATE && x in queues[s] ==> x !in D && procs[x].state == s)
    && (forall p :: IsPid(p) && p !in D ==> p in queues[procs[p].state])
  }

  lemma PartitionShape(queues: seq<seq<int>>, procs: seq<Process>, D: set<int>)
    requires Partition(queues, procs, D)
    ensures QueueShape(queues) && ProcShape(procs)
  {
  }

  lemma EnqueuePartition(queues: seq<seq<int>>, procs: seq<Process>, p: int, s: int, keys: seq<int>, D: set<int>)
    requires Partition(queues, procs, D) && p in D && IsPid(p) && |keys| == NB_PROCESS
    requires 0 <= s < NB_STATE && procs[p].state == s
    ensures Partition(queues[s := Add(queues[s], keys, p)], procs, D - {p})
  {
    hide Add; hide NoDup;
    AddMembers(queues[s], keys, p);
  }

  lemma DequeuePartition(queues: seq<seq<int>>, procs: seq<Process>, p: int, s: int, D: set<int>)
    requires Partition(queues, procs, D) && p !in D && IsPid(p) && s == procs[p].state
    ensures Partition(queues[s := Remove(queues[s], p)], procs, D + {p})
  {
    hide Remove; hide NoDup;
    RemoveMembers(queues[s], p);
  }

  lemma FirstPartition(queues: seq<seq<int>>, procs: seq<Process>, s: int, D: set<int>)
    requires Partition(queues, procs, D) && 0 <= s < NB_STATE && queues[s] != []
    ensures var q := queues[s];
      && IsPid(q[0]) && q[0] !in D && procs[q[0]].state == s
      && Partition(queues[s := q[1..]], procs, D + {q[0]})
  {
    var q := queues[s];
    assert q[0] in q;
    assert q == [q[0]] + q[1..];
  }

  lemma LastPartition(queues: seq<seq<int>>, procs: seq<Process>, s: int, D: set<int>)
    requires Partition(queues, procs, D) && 0 <= s < NB_STATE && queues[s] != []
    ensures var q := queues[s]; var p := q[|q| - 1];
      && IsPid(p) && p !in D && procs[p].state == s
      && Partition(queues[s := q[..|q| - 1]], procs, D + {p})
  {
    var q := queues[s];
    assert q[|q| - 1] in q;
    assert q == q[..|q| - 1] + [q[|q| - 1]];
  }

  lemma PutPartition(queues: seq<seq<int>>, procs: seq<Process>, p: int, r: Process, D: set<int>)
    requires Partition(queues, procs, D) && IsPid(p) && 0 <= r.state < NB_STATE && IsPid(r.father)
    requires p in D || r.state == procs[p].state
    ensures Partition(queues, procs[p := r], D)
  {
  }

  // ----- what a process record says about the others -----

  predicate Live(r: Process) { r.state != ZOMBIE && r.state != FREEPID }

  /** `childWaited` names a child of p. */
  predicate Awaited(procs: seq<Process>, p: int)
    requires |procs| == NB_PROCESS && IsPid(p)
  {
    0 < procs[p].childWaited < NB_PROCESS && procs[procs[p].childWaited].father == p
  }

  /** The consistency of one process with the rest of the table; `used` are the semaphores in use. */
  ghost predicate ProcOk(procs: seq<Process>, used: seq<int>, p: int, d: int)
    requires |procs| == NB_PROCESS && IsPid(p) && IsPid(procs[p].father)
  {
    var r := procs[p];
    && (r.state != FREEPID ==> (Live(procs[r.father]) || r.father == d) && (r.father == p ==> p == 0))
    && (r.state == SEM_BLOCKED ==> r.pending == InWait && r.semBlocked in used)
    && (r.state != SEM_BLOCKED ==> r.semBlocked == -1)
    && (r.state == ACTIONABLE && r.pending == InWait ==> r.awakener in {0, -3, -4})
    && (r.state == ASLEEP || r.state == IO_BLOCKED ==> r.pending == UserMode)
    && (Live(r) && r.pending != InWaitPid ==> r.childWaited == 0)
    && (r.state == WAITING_CHILD ==>
          && r.pending == InWaitPid
          && (r.childWaited == -1 || (Awaited(procs, p) && Live(procs[r.childWaited]))))
    && (r.state == ACTIONABLE && r.pending == InWaitPid ==>
          Awaited(procs, p) && procs[r.childWaited].state == ZOMBIE)
  }

  ghost predicate AllOk(procs: seq<Process>, used: seq<int>, X: set<int>, d: int) {
    && ProcShape(procs)
    && forall p :: IsPid(p) && p !in X ==> ProcOk(procs, used, p, d)
  }

  /** Idle never blocks, and a zombie without father is about to be collected. */
  ghost predicate Idle(procs: seq<Process>, garbage: seq<int>, d: int) {
    && ProcShape(procs)
    && procs[0].state == ACTIONABLE && procs[0].pending == UserMode && procs[0].father == 0
    && 0 !in garbage && d != 0
    && (forall p :: IsPid(p) && procs[p].state == ZOMBIE && procs[p].father == 0 ==> p in garbage || p == d)
  }

  ghost predicate SemLists(used: seq<int>, free: seq<int>) {
    && NoDup(used) && NoDup(free) && Sorted(free, Numbers()) && AllPids(used)
    && (forall id :: IsPid(id) ==> (id in used <==> id !in free))
  }

  ghost predicate Ordered(queues: seq<seq<int>>, procs: seq<Process>) {
    && |queues| == NB_STATE
    && Sorted(queues[SEM_BLOCKED], Prios(procs))
    && Sorted(queues[FREEPID], Numbers())
  }

  ghost predicate Core(k: Kernel, D: set<int>, X: set<int>, d: int) {
    && Shaped(k) && !k.crashed
    && Partition(k.queues, k.procs, D)
    && Ordered(k.queues, k.procs)
    && AllOk(k.procs, k.semUsed, X, d)
    && Idle(k.procs, k.garbage, d)
    && SemLists(k.semUsed, k.semFree)
  }

  /** The processes that wait for semaphore `id`. */
  ghost function Blocked(procs: seq<Process>, id: int): set<int> {
    set p | 0 <= p < |procs| && procs[p].state == SEM_BLOCKED && procs[p].semBlocked == id
  }

  ghost function Debt(v: int): nat { if v < 0 then -v else 0 }

  /** No stranded waiter: at most as many processes are blocked as the value owes. */
  ghost predicate NoStranded(procs: seq<Process>, used: seq<int>, value: seq<int>) {
    && |value| == NB_SEM
    && forall id :: IsPid(id) && id in used ==>
         && SHRT_MIN <= value[id] <= SHRT_MAX
         && |Blocked(procs, id)| <= Debt(value[id])
  }

  function Detached(k: Kernel): set<int> { if IsPid(k.cur) then {k.cur} else {} }

  ghost predicate GarbageOk(procs: seq<Process>, garbage: seq<int>) {
    && |procs| == NB_PROCESS && AllPids(garbage)
    && (garbage == [] || (|garbage| == 1 && procs[garbage[0]].state == ZOMBIE))
  }

  /** A state in which the processes of D are out of the queues and nobody is dying. */
  ghost predicate Stable(k: Kernel, D: set<int>) {
    Core(k, D, {}, -1) && NoStranded(k.procs, k.semUsed, k.semValue) && GarbageOk(k.procs, k.garbage)
  }

  ghost predicate Inv(k: Kernel) {
    && Stable(k, Detached(k))
    && (if IsPid(k.cur) then k.procs[k.cur].state == ACTIONABLE && k.garbage == [] else k.garbage != [])
  }

  // ----- the scheduler -----

  /** Between a and b, processes were only woken, and only after their alarm. */
  ghost predicate OnlyWoken(a: seq<Process>, b: seq<Process>, clock: int) {
    && |a| == |b|
    && forall p :: 0 <= p < |a| ==>
         || b[p] == a[p]
         || (a[p].state == ASLEEP && a[p].alarmTime < clock && b[p] == a[p].(alarmTime := 0, state := ACTIONABLE))
  }

  lemma OnlyWokenTrans(a: seq<Process>, b: seq<Process>, c: seq<Process>, clock: int)
    requires OnlyWoken(a, b, clock) && OnlyWoken(b, c, clock)
    ensures OnlyWoken(a, c, clock)
  {
    forall p | 0 <= p < |a| ensures
      || c[p] == a[p]
      || (a[p].state == ASLEEP && a[p].alarmTime < clock && c[p] == a[p].(alarmTime := 0, state := ACTIONABLE))
    {
    }
  }

  lemma OnlyWokenStranded(a: seq<Process>, b: seq<Process>, clock: int, used: seq<int>, value: seq<int>,
                          garbage: seq<int>)
    requires OnlyWoken(a, b, clock)
    ensures NoStranded(a, used, value) ==> NoStranded(b, used, value)
    ensures GarbageOk(a, garbage) ==> GarbageOk(b, garbage)
  {
    forall id ensures Blocked(b, id) == Blocked(a, id) {
    }
  }

  lemma OnlyWokenOk(a: seq<Process>, b: seq<Process>, clock: int, used: seq<int>, X: set<int>, d: int)
    requires AllOk(a, used, X, d) && OnlyWoken(a, b, clock)
    ensures AllOk(b, used, X, d)
  {
    forall p | IsPid(p) && p !in X ensures ProcOk(b, used, p, d) {
      assert ProcOk(a, used, p, d);
    }
  }

  lemma OnlyWokenIdle(a: seq<Process>, b: seq<Process>, clock: int, garbage: seq<int>, d: int)
    requires Idle(a, garbage, d) && OnlyWoken(a, b, clock)
    ensures Idle(b, garbage, d)
  {
  }

  lemma WakeFirstParts(k: Kernel, D: set<int>)
    requires Shaped(k) && Partition(k.queues, k.procs, D) && Ordered(k.queues, k.procs)
    requires k.queues[ASLEEP] != [] && k.procs[k.queues[ASLEEP][0]].alarmTime < k.clock
    ensures var k' := WakeFirst(k);
      && k' == k.(procs := k'.procs, queues := k'.queues)
      && Partition(k'.queues, k'.procs, D) && Ordered(k'.queues, k'.procs)
      && OnlyWoken(k.procs, k'.procs, k.clock)
  {
    hide Partition; hide Position; hide Add;
    var q := k.queues[ASLEEP];
    var p := q[0];
    FirstPartition(k.queues, k.procs, ASLEEP, D);
    var r := k.procs[p].(alarmTime := 0, state := ACTIONABLE);
    var q1 := k.queues[ASLEEP := q[1..]];
    var procs := k.procs[p := r];
    PutPartition(q1, k.procs, p, r, D + {p});
    EnqueuePartition(q1, procs, p, ACTIONABLE, Prios(procs), D + {p});
    assert D + {p} - {p} == D;
    SortedFrame(k.queues[SEM_BLOCKED], Prios(k.procs), Prios(procs));
  }

  lemma WakeFirstCore(k: Kernel, D: set<int>, X: set<int>, d: int)
    requires Core(k, D, X, d) && k.queues[ASLEEP] != [] && k.procs[k.queues[ASLEEP][0]].alarmTime < k.clock
    ensures var k' := WakeFirst(k);
      && Core(k', D, X, d) && k' == k.(procs := k'.procs, queues := k'.queues)
      && OnlyWoken(k.procs, k'.procs, k.clock)
  {
    hide Partition; hide AllOk; hide Ordered; hide Idle; hide SemLists; hide WakeFirst; hide OnlyWoken;
    WakeFirstParts(k, D);
    OnlyWokenOk(k.procs, WakeFirst(k).procs, k.clock, k.semUsed, X, d);
    OnlyWokenIdle(k.procs, WakeFirst(k).procs, k.clock, k.garbage, d);
  }

  lemma {:induction false} WakeDueCore(k: Kernel, D: set<int>, X: set<int>, d: int)
    requires Core(k, D, X, d)
    ensures var k' := WakeDue(k);
      && Core(k', D, X, d) && k' == k.(procs := k'.procs, queues := k'.queues)
      && OnlyWoken(k.procs, k'.procs, k.clock)
    decreases |k.queues[ASLEEP]|
  {
    hide Partition; hide AllOk; hide Ordered; hide Idle; hide SemLists; hide WakeFirst;
    var q := k.queues[ASLEEP];
    if q != [] && k.procs[q[0]].alarmTime < k.clock {
      WakeFirstCore(k, D, X, d);
      WakeDueCore(WakeFirst(k), D, X, d);
      OnlyWokenTrans(k.procs, WakeFirst(k).procs, WakeDue(k).procs, k.clock);
    }
  }

  lemma RequeueStable(k: Kernel)
    requires IsPid(k.cur) && Stable(k, {k.cur}) && k.procs[k.cur].state == ACTIONABLE
    ensures Stable(Requeue(k), {})
    ensures Requeue(k) == k.(queues := Requeue(k).queues)
  {
    hide Partition; hide AllOk; hide Idle; hide SemLists; hide NoStranded; hide Add; hide Sorted;
    EnqueuePartition(k.queues, k.procs, k.cur, ACTIONABLE, Prios(k.procs), {k.cur});
    assert {k.cur} - {k.cur} == {};
  }

  lemma IdleQueued(queues: seq<seq<int>>, procs: seq<Process>, garbage: seq<int>, d: int)
    requires Partition(queues, procs, {}) && Idle(procs, garbage, d)
    ensures queues[ACTIONABLE] != []
  {
    assert 0 in queues[procs[0].state];
  }

  lemma ElectInv(k: Kernel)
    requires Stable(k, {})
    ensures Inv(Elect(k))
    ensures var k' := Elect(k); k' == k.(queues := k'.queues, cur := k'.cur)
  {
    hide Partition; hide AllOk; hide Idle; hide SemLists; hide NoStranded; hide Sorted;
    if k.garbage == [] {
      IdleQueued(k.queues, k.procs, k.garbage, -1);
      LastPartition(k.queues, k.procs, ACTIONABLE, {});
      assert {} + {Elect(k).cur} == {Elect(k).cur};
    }
  }

  lemma WakeDueStable(k: Kernel, D: set<int>)
    requires Stable(k, D)
    ensures var k' := WakeDue(k);
      && Stable(k', D) && k' == k.(procs := k'.procs, queues := k'.queues)
      && OnlyWoken(k.procs, k'.procs, k.clock)
  {
    assert Shaped(k);
    hide Partition; hide AllOk; hide Ordered; hide Idle; hide SemLists;
    hide NoStranded; hide GarbageOk; hide WakeDue; hide OnlyWoken;
    WakeDueCore(k, D, {}, -1);
    OnlyWokenStranded(k.procs, WakeDue(k).procs, k.clock, k.semUsed, k.semValue, k.garbage);
  }

  /** `scheduler`, called by a process that has left the actionable state or by the collector:
      it ends in a state of the invariant, so it found a process to run, and it wakes no sleeper
      before its alarm. */
  lemma SchedulerInv(k: Kernel)
    requires Stable(k, {})
    requires IsPid(k.cur) ==>
      var me := k.procs[k.cur]; me.state != ACTIONABLE && (me.state == ASLEEP ==> me.alarmTime >= k.clock)
    ensures var k' := Scheduler(k);
      && Inv(k') && k' == k.(procs := k'.procs, queues := k'.queues, cur := k'.cur)
      && OnlyWoken(k.procs, k'.procs, k.clock)
  {
    hide Partition; hide AllOk; hide Ordered; hide Idle; hide SemLists;
    hide NoStranded; hide GarbageOk; hide WakeDue; hide Elect; hide Inv;
    WakeDueStable(k, {});
    assert Requeue(WakeDue(k)) == WakeDue(k);
    ElectInv(WakeDue(k));
  }

  /** The same when the calling process stays actionable, as for a preemption. */
  lemma YieldInv(k: Kernel)
    requires IsPid(k.cur) && Stable(k, {k.cur}) && k.procs[k.cur].state == ACTIONABLE
    ensures var k' := Scheduler(k);
      && Inv(k') && k' == k.(procs := k'.procs, queues := k'.queues, cur := k'.cur)
      && OnlyWoken(k.procs, k'.procs, k.clock)
  {
    hide Partition; hide AllOk; hide Ordered; hide Idle; hide SemLists;
    hide NoStranded; hide GarbageOk; hide WakeDue; hide Elect; hide Inv; hide Requeue;
    WakeDueStable(k, {k.cur});
    RequeueStable(WakeDue(k));
    ElectInv(Requeue(WakeDue(k)));
  }
}

/**
  Starting, sleeping, waiting for children and dying keep the invariant
  (kernel/process_handler.c:167-215, 301-608, 657-815).
*/
module KernelLife {
  import opened OrderedQueue
  import opened KernelModel
  import opened KernelInvariant
  import opened KernelSemaphores

  /** A change of the table that concerns no waiter of a semaphore. */
  ghost predicate Quiet(a: seq<Process>, b: seq<Process>, x: int) {
    && |a| == |b|
    && WaitersKept(a, b, -1, 0, x)
    && forall p :: 0 <= p < |a| ==>
         (a[p].state == SEM_BLOCKED && a[p].semBlocked >= 0 <==> b[p].state == SEM_BLOCKED && b[p].semBlocked >= 0)
         && (a[p].state == SEM_BLOCKED && a[p].semBlocked >= 0 ==> a[p].semBlocked == b[p].semBlocked)
  }

  lemma QuietBlocked(a: seq<Process>, b: seq<Process>, x: int)
    requires Quiet(a, b, x)
    ensures forall id :: id >= 0 ==> Blocked(b, id) == Blocked(a, id)
  {
    forall id | id >= 0 ensures Blocked(b, id) == Blocked(a, id) {
    }
  }

  lemma QuietStranded(a: seq<Process>, b: seq<Process>, x: int, used: seq<int>, value: seq<int>)
    requires Quiet(a, b, x) && NoStranded(a, used, value)
    ensures NoStranded(b, used, value)
  {
    hide Quiet; hide Blocked;
    QuietBlocked(a, b, x);
  }

  lemma QuietTrans(a: seq<Process>, b: seq<Process>, c: seq<Process>, x: int)
    requires Quiet(a, b, x) && Quiet(b, c, -1)
    ensures Quiet(a, c, x)
  {
    KeptWeaken(b, c, -1, 0, x);
    KeptTrans(a, b, c, -1, 0, x);
  }

  lemma WokenQuiet(a: seq<Process>, b: seq<Process>, clock: int, used: seq<int>)
    requires AllOk(a, used, {}, -1) && OnlyWoken(a, b, clock)
    ensures Quiet(a, b, -1)
  {
    WokenKept(a, b, clock, used, -1, 0);
  }

  /** Changing one process that is not suspended in `wait`. */
  lemma PutQuiet(a: seq<Process>, p: int, r: Process)
    requires 0 <= p < |a| && Live(a[p]) && a[p].pending != InWait && a[p].state != SEM_BLOCKED && r.state != SEM_BLOCKED
    ensures Quiet(a, a[p := r], -1)
  {
    var b := a[p := r];
    forall x | 0 <= x < |a| ensures Waiter(a[x], b[x], -1, 0) {
    }
  }

  // ----- start -----

  lemma StartOk(procs: seq<Process>, used: seq<int>, p: int, f: int, r: Process)
    requires AllOk(procs, used, {}, -1) && IsPid(p) && IsPid(f) && p != 0
    requires procs[p].state == FREEPID && Live(procs[f])
    requires r.state == ACTIONABLE && r.father == f && r.pending == UserMode && r.childWaited == 0
    requires r.semBlocked == procs[p].semBlocked
    ensures AllOk(procs[p := r], used, {}, -1)
  {
    var b := procs[p := r];
    assert ProcOk(procs, used, p, -1);
    forall x | IsPid(x) ensures ProcOk(b, used, x, -1) {
      assert ProcOk(procs, used, x, -1);
    }
  }

  lemma StartQueues(queues: seq<seq<int>>, procs: seq<Process>, c: int, r: Process)
    requires Partition(queues, procs, {c}) && Ordered(queues, procs) && queues[FREEPID] != []
    requires r.state == ACTIONABLE && IsPid(r.father)
    ensures var p := queues[FREEPID][0]; IsPid(p) && p != c && procs[p].state == FREEPID
    ensures var p := queues[FREEPID][0]; var b := procs[p := r]; var q1 := queues[FREEPID := queues[FREEPID][1..]];
      && Indexes(q1[ACTIONABLE], Prios(b))
      && var q := q1[ACTIONABLE := Add(q1[ACTIONABLE], Prios(b), p)];
         Partition(q, b, {c}) && Ordered(q, b)
  {
    hide Add; hide Position;
    var p := queues[FREEPID][0];
    var q1 := queues[FREEPID := queues[FREEPID][1..]];
    var b := procs[p := r];
    FirstPartition(queues, procs, FREEPID, {c});
    assert p !in queues[SEM_BLOCKED];
    SortedFrame(queues[SEM_BLOCKED], Prios(procs), Prios(b));
    hide Partition;
    PutPartition(q1, procs, p, r, {c} + {p});
    EnqueuePartition(q1, b, p, ACTIONABLE, Prios(b), {c} + {p});
    assert {c} + {p} - {p} == {c};
  }

  lemma StartRest(procs: seq<Process>, garbage: seq<int>, p: int, r: Process)
    requires Idle(procs, garbage, -1) && IsPid(p) && procs[p].state == FREEPID && GarbageOk(procs, garbage)
    requires r.state == ACTIONABLE && IsPid(r.father)
    ensures Idle(procs[p := r], garbage, -1) && GarbageOk(procs[p := r], garbage) && p != 0
    ensures Quiet(procs, procs[p := r], p)
  {
    var b := procs[p := r];
    forall x | 0 <= x < |procs| && x != p ensures Waiter(procs[x], b[x], -1, 0) {
    }
  }

  lemma StartInv(k: Kernel, prio: int)
    requires Inv(k) && IsPid(k.cur) && 1 <= prio <= MAXPRIO && k.queues[FREEPID] != []
    ensures var k' := Start(k, prio);
      && Inv(k') && k'.semUsed == k.semUsed && k'.semValue == k.semValue
      && Quiet(k.procs, k'.procs, k.queues[FREEPID][0])
  {
    hide Partition; hide AllOk; hide Ordered; hide Idle; hide SemLists; hide NoStranded; hide GarbageOk; hide Add;
    hide Scheduler; hide OnlyWoken; hide Quiet;
    var p := k.queues[FREEPID][0];
    StartQueues(k.queues, k.procs, k.cur, k.procs[k.cur]);
    var r := k.procs[p].(alarmTime := 0, prio := prio, retvalue := 0, state := ACTIONABLE,
                         childWaited := 0, father := k.cur, pending := UserMode);
    StartQueues(k.queues, k.procs, k.cur, r);
    StartRest(k.procs, k.garbage, p, r);
    StartOk(k.procs, k.semUsed, p, k.cur, r);
    QuietStranded(k.procs, k.procs[p := r], p, k.semUsed, k.semValue);
    var k1 := k.(queues := k.queues[FREEPID := k.queues[FREEPID][1..]]);
    var k2 := Put(k1, p, r);
    var k3 := Enqueue(k2, p, ACTIONABLE, Prios(k2.procs));
    StayInv(k3);
    YieldInv(k3);
    WokenQuiet(k3.procs, Scheduler(k3).procs, k.clock, k.semUsed);
    QuietTrans(k.procs, k3.procs, Scheduler(k3).procs, p);
  }

  // ----- wait_clock, waitpid that blocks -----

  lemma SuspendQueues(queues: seq<seq<int>>, procs: seq<Process>, p: int, r: Process, keys: seq<int>)
    requires Partition(queues, procs, {p}) && Ordered(queues, procs) && IsPid(p)
    requires (r.state == ASLEEP || r.state == WAITING_CHILD) && IsPid(r.father) && r.prio == procs[p].prio
    requires |keys| == NB_PROCESS
    ensures var b := procs[p := r];
      && Indexes(queues[r.state], keys)
      && var q := queues[r.state := Add(queues[r.state], keys, p)];
         Partition(q, b, {}) && Ordered(q, b)
  {
    hide Add; hide Position; hide Sorted;
    var b := procs[p := r];
    assert Prios(b) == Prios(procs);
    PutPartition(queues, procs, p, r, {p});
    EnqueuePartition(queues, b, p, r.state, keys, {p});
    assert {p} - {p} == {};
  }

  lemma SuspendOk(procs: seq<Process>, used: seq<int>, p: int, r: Process)
    requires AllOk(procs, used, {}, -1) && IsPid(p) && procs[p].state == ACTIONABLE && procs[p].pending == UserMode
    requires r.father == procs[p].father && r.semBlocked == procs[p].semBlocked
    requires
      || (r.state == ASLEEP && r.pending == UserMode && r.childWaited == 0)
      || (r.state == WAITING_CHILD && r.pending == InWaitPid
          && (r.childWaited == -1
              || (0 < r.childWaited < NB_PROCESS && procs[r.childWaited].father == p && Live(procs[r.childWaited])
                  && r.childWaited != p)))
    ensures AllOk(procs[p := r], used, {}, -1)
  {
    var b := procs[p := r];
    assert ProcOk(procs, used, p, -1);
    forall x | IsPid(x) ensures ProcOk(b, used, x, -1) {
      assert ProcOk(procs, used, x, -1);
    }
  }

  lemma SuspendRest(procs: seq<Process>, garbage: seq<int>, p: int, r: Process)
    requires Idle(procs, garbage, -1) && IsPid(p) && p != 0 && procs[p].state == ACTIONABLE && GarbageOk(procs, garbage)
    requires r.state != ZOMBIE && 0 <= r.state < NB_STATE && IsPid(r.father)
    ensures Idle(procs[p := r], garbage, -1) && GarbageOk(procs[p := r], garbage)
  {
  }

  lemma SuspendInv(k: Kernel, r: Process, keys: seq<int>)
    requires Inv(k) && IsPid(k.cur) && k.cur != 0 && k.procs[k.cur].pending == UserMode && |keys| == NB_PROCESS
    requires r.father == k.procs[k.cur].father && r.semBlocked == k.procs[k.cur].semBlocked
    requires r.prio == k.procs[k.cur].prio
    requires
      || (r.state == ASLEEP && r.pending == UserMode && r.childWaited == 0 && r.alarmTime > k.clock)
      || (r.state == WAITING_CHILD && r.pending == InWaitPid
          && (r.childWaited == -1
              || (0 < r.childWaited < NB_PROCESS && k.procs[r.childWaited].father == k.cur
                  && Live(k.procs[r.childWaited]) && r.childWaited != k.cur)))
    ensures Shaped(k) && IsPid(r.father)
    ensures var k1 := Put(k, k.cur, r); var k' := Scheduler(Enqueue(k1, k.cur, r.state, keys));
      && Inv(k') && k'.semUsed == k.semUsed && k'.semValue == k.semValue && Quiet(k.procs, k'.procs, -1)
  {
    hide Partition; hide AllOk; hide Ordered; hide Idle; hide SemLists; hide NoStranded; hide GarbageOk; hide Add;
    hide Scheduler; hide OnlyWoken; hide Quiet;
    var p := k.cur;
    SuspendQueues(k.queues, k.procs, p, r, keys);
    SuspendOk(k.procs, k.semUsed, p, r);
    SuspendRest(k.procs, k.garbage, p, r);
    PutQuiet(k.procs, p, r);
    QuietStranded(k.procs, k.procs[p := r], -1, k.semUsed, k.semValue);
    var k3 := Enqueue(Put(k, p, r), p, r.state, keys);
    SchedulerInv(k3);
    WokenQuiet(k3.procs, Scheduler(k3).procs, k.clock, k.semUsed);
    QuietTrans(k.procs, k3.procs, Scheduler(k3).procs, -1);
  }

  // ----- chprio -----

  lemma PrioOk(procs: seq<Process>, used: seq<int>, X: set<int>, d: int, p: int, n: int)
    requires AllOk(procs, used, X, d) && IsPid(p)
    ensures AllOk(procs[p := procs[p].(prio := n)], used, X, d)
  {
    var b := procs[p := procs[p].(prio := n)];
    forall x | IsPid(x) && x !in X ensures ProcOk(b, used, x, d) {
      assert ProcOk(procs, used, x, d);
    }
  }

  lemma PrioRest(procs: seq<Process>, garbage: seq<int>, p: int, n: int)
    requires Idle(procs, garbage, -1) && IsPid(p) && GarbageOk(procs, garbage)
    ensures var b := procs[p := procs[p].(prio := n)];
      Idle(b, garbage, -1) && GarbageOk(b, garbage) && Quiet(procs, b, -1)
  {
    var b := procs[p := procs[p].(prio := n)];
    forall x | 0 <= x < |procs| ensures Waiter(procs[x], b[x], -1, 0) {
    }
  }

  /** The record of the running process changes priority: it is in no queue. */
  lemma PrioCurQueues(queues: seq<seq<int>>, procs: seq<Process>, p: int, n: int)
    requires Partition(queues, procs, {p}) && Ordered(queues, procs) && IsPid(p)
    ensures var b := procs[p := procs[p].(prio := n)]; Partition(queues, b, {p}) && Ordered(queues, b)
  {
    var b := procs[p := procs[p].(prio := n)];
    assert p !in queues[SEM_BLOCKED];
    SortedFrame(queues[SEM_BLOCKED], Prios(procs), Prios(b));
  }

  /** Another process changes priority and is moved inside its queue. */
  lemma PrioQueues(queues: seq<seq<int>>, procs: seq<Process>, D: set<int>, p: int, n: int)
    requires Partition(queues, procs, D) && Ordered(queues, procs) && IsPid(p) && p !in D && Live(procs[p])
    ensures var b := procs[p := procs[p].(prio := n)]; var s := procs[p].state;
      var q1 := queues[s := Remove(queues[s], p)];
      && Indexes(q1[s], Prios(b))
      && var q2 := q1[s := Add(q1[s], Prios(b), p)];
         Partition(q2, b, D) && Ordered(q2, b)
  {
    hide Add; hide Position; hide Partition;
    PartitionShape(queues, procs, D);
    var b := procs[p := procs[p].(prio := n)];
    var s := procs[p].state;
    var q1 := queues[s := Remove(queues[s], p)];
    DequeuePartition(queues, procs, p, s, D);
    PutPartition(q1, procs, p, b[p], D + {p});
    PartitionShape(q1, b, D + {p});
    EnqueuePartition(q1, b, p, s, Prios(b), D + {p});
    assert D + {p} - {p} == D;
    RemoveSorted(queues[SEM_BLOCKED], Prios(procs), p);
    NotQueued(q1, b, D + {p}, SEM_BLOCKED, p);
    SortedFrame(q1[SEM_BLOCKED], Prios(procs), Prios(b));
    if s == SEM_BLOCKED {
      AddSorted(q1[SEM_BLOCKED], Prios(b), p);
    }
  }

  lemma NotQueued(queues: seq<seq<int>>, procs: seq<Process>, D: set<int>, s: int, p: int)
    requires Partition(queues, procs, D) && p in D && 0 <= s < NB_STATE
    ensures p !in queues[s]
  {
  }

  lemma ChPrioInv(k: Kernel, p: int, n: int)
    requires Inv(k) && IsPid(k.cur)
    ensures var k' := ChPrio(k, p, n);
      && Inv(k') && k'.semUsed == k.semUsed && k'.semValue == k.semValue && Quiet(k.procs, k'.procs, -1)
      && (IsPid(p) && Live(k.procs[p]) && 1 <= n <= MAXPRIO ==>
            OnlyWoken(k.procs[p := k.procs[p].(prio := n)], k'.procs, k.clock))
  {
    hide Partition; hide AllOk; hide Ordered; hide Idle; hide SemLists; hide NoStranded; hide GarbageOk; hide Add;
    hide Remove;
    hide Scheduler; hide OnlyWoken; hide Quiet;
    if IsPid(p) && Live(k.procs[p]) && 1 <= n <= MAXPRIO {
      var k1 := Put(k, p, k.procs[p].(prio := n));
      WokenSelf(k1.procs, k.clock);
      PrioOk(k.procs, k.semUsed, {}, -1, p, n);
      PrioRest(k.procs, k.garbage, p, n);
      QuietStranded(k.procs, k1.procs, -1, k.semUsed, k.semValue);
      var k2 := k1;
      if p != k.cur {
        PrioQueues(k.queues, k.procs, {k.cur}, p, n);
        k2 := Enqueue(Dequeue(k1, p), p, k1.procs[p].state, Prios(k1.procs));
      } else {
        PrioCurQueues(k.queues, k.procs, p, n);
      }
      StayInv(k2);
      YieldInv(k2);
      WokenQuiet(k2.procs, Scheduler(k2).procs, k.clock, k.semUsed);
      QuietTrans(k.procs, k2.procs, Scheduler(k2).procs, -1);
    } else {
      QuietRefl(k.procs);
    }
  }

  lemma QuietRefl(a: seq<Process>)
    ensures Quiet(a, a, -1)
  {
    KeptRefl(a, -1, 0);
  }

  // ----- the end of a process -----

  /** Freeing a zombie nobody waits for. */
  lemma FreeOk(procs: seq<Process>, used: seq<int>, X: set<int>, d: int, c: int)
    requires AllOk(procs, used, X, d) && IsPid(c) && procs[c].state == ZOMBIE && c != d
    requires forall x :: x in X ==> IsPid(x) && procs[x].father != c && procs[x].state != FREEPID
    requires var f := procs[c].father; f in X || !Live(procs[f]) || procs[f].pending != InWaitPid
    ensures AllOk(procs[c := procs[c].(awakener := -1, semBlocked := -1, state := FREEPID)], used, X, d)
  {
    var b := procs[c := procs[c].(awakener := -1, semBlocked := -1, state := FREEPID)];
    forall x | IsPid(x) && x !in X ensures ProcOk(b, used, x, d) {
      assert ProcOk(procs, used, x, d);
    }
  }

  lemma FreeQueues(queues: seq<seq<int>>, procs: seq<Process>, D: set<int>, c: int, r: Process)
    requires Partition(queues, procs, D) && Ordered(queues, procs) && IsPid(c) && c !in D && procs[c].state == ZOMBIE
    requires r.state == FREEPID && IsPid(r.father) && r.prio == procs[c].prio
    ensures var b := procs[c := r]; var q1 := queues[ZOMBIE := Remove(queues[ZOMBIE], c)];
      && Indexes(q1[FREEPID], Numbers())
      && var q2 := q1[FREEPID := Add(q1[FREEPID], Numbers(), c)];
         Partition(q2, b, D) && Ordered(q2, b)
  {
    hide Add; hide Position; hide Partition; hide Remove; hide Sorted;
    PartitionShape(queues, procs, D);
    var b := procs[c := r];
    var q1 := queues[ZOMBIE := Remove(queues[ZOMBIE], c)];
    assert Prios(b) == Prios(procs);
    DequeuePartition(queues, procs, c, ZOMBIE, D);
    PutPartition(q1, procs, c, r, D + {c});
    PartitionShape(q1, b, D + {c});
    EnqueuePartition(q1, b, c, FREEPID, Numbers(), D + {c});
    assert D + {c} - {c} == D;
    AddSorted(q1[FREEPID], Numbers(), c);
  }

  lemma FreeIdle(procs: seq<Process>, garbage: seq<int>, garbage': seq<int>, d: int, c: int, r: Process)
    requires Idle(procs, garbage, d) && IsPid(c) && procs[c].state == ZOMBIE
    requires r.state == FREEPID && IsPid(r.father)
    requires forall x :: x in garbage && x != c ==> x in garbage'
    requires 0 !in garbage'
    ensures Idle(procs[c := r], garbage', d) && c != 0
  {
  }

  lemma FreeQuiet(procs: seq<Process>, c: int, r: Process)
    requires 0 <= c < |procs| && procs[c].state == ZOMBIE && r.state == FREEPID
    ensures Quiet(procs, procs[c := r], -1)
  {
    var b := procs[c := r];
    forall x | 0 <= x < |procs| ensures Waiter(procs[x], b[x], -1, 0) {
    }
  }

  function Blank(r: Process): Process { r.(awakener := -1, semBlocked := -1, state := FREEPID) }

  lemma FreeZombie(k: Kernel, D: set<int>, X: set<int>, d: int, c: int, garbage: seq<int>)
    requires Core(k.(garbage := garbage), D, X, d) && IsPid(c) && c !in D && k.procs[c].state == ZOMBIE && c != d
    requires Shaped(k) && 0 !in k.garbage && forall x :: x in garbage && x != c ==> x in k.garbage
    requires forall x :: x in X ==> IsPid(x) && k.procs[x].father != c && k.procs[x].state != FREEPID
    requires var f := k.procs[c].father; f in X || !Live(k.procs[f]) || k.procs[f].pending != InWaitPid
    ensures var k' := FreePid(Dequeue(k, c), c);
      && Core(k', D, X, d) && k'.procs == k.procs[c := Blank(k.procs[c])]
      && k' == k.(procs := k'.procs, queues := k'.queues)
      && Quiet(k.procs, k'.procs, -1)
  {
    hide Partition; hide AllOk; hide Ordered; hide Idle; hide SemLists; hide Add; hide Remove; hide Quiet;
    FreeOk(k.procs, k.semUsed, X, d, c);
    FreeQueues(k.queues, k.procs, D, c, Blank(k.procs[c]));
    FreeIdle(k.procs, garbage, k.garbage, d, c, Blank(k.procs[c]));
    FreeQuiet(k.procs, c, Blank(k.procs[c]));
  }

  /** `garbage_collect` with one dead process in the list. */
  lemma CollectCore(k: Kernel, D: set<int>)
    requires Stable(k, D) && |k.garbage| == 1 && k.garbage[0] !in D
    ensures var k' := GarbageCollect(k);
      && Stable(k', D) && k'.garbage == [] && k'.cur == k.cur && Quiet(k.procs, k'.procs, -1)
      && (forall p :: p in D && IsPid(p) ==> k'.procs[p] == k.procs[p])
      && k'.semUsed == k.semUsed && k'.semValue == k.semValue && k'.clock == k.clock
  {
    hide Partition; hide AllOk; hide Ordered; hide SemLists; hide NoStranded; hide Quiet; hide FreePid; hide Dequeue;
    var d := k.garbage[0];
    var k1 := k.(garbage := k.garbage[..|k.garbage| - 1]);
    assert k1.garbage == [] && k1.(garbage := k.garbage) == k;
    if k.procs[d].father == 0 {
      FreeZombie(k1, D, {}, -1, d, k.garbage);
      var k2 := FreePid(Dequeue(k1, d), d);
      assert GarbageCollect(k2) == k2;
      QuietStranded(k.procs, k2.procs, -1, k.semUsed, k.semValue);
    } else {
      QuietRefl(k.procs);
      assert GarbageCollect(k1) == k1;
    }
  }

  function Waits(procs: seq<Process>, f: int, p: int): bool
    requires |procs| == NB_PROCESS && IsPid(f)
  {
    procs[f].childWaited == p || procs[f].childWaited == -1
  }

  function Reported(procs: seq<Process>, p: int): seq<Process>
    requires |procs| == NB_PROCESS && IsPid(p) && IsPid(procs[p].father)
  {
    var f := procs[p].father;
    if Waits(procs, f, p) then procs[f := procs[f].(childWaited := p, state := ACTIONABLE)] else procs
  }

  /** A process that can die: alive, not idle, without a token to give back. */
  ghost predicate Mortal(procs: seq<Process>, p: int) {
    && |procs| == NB_PROCESS && IsPid(p) && p != 0 && IsPid(procs[p].father)
    && Live(procs[p]) && procs[p].semBlocked == -1 && procs[p].father != p && Live(procs[procs[p].father])
  }

  /** A father that waits for p is in the `waiting_child` state, so `report_father` finds it. */
  lemma FatherWaits(procs: seq<Process>, used: seq<int>, X: set<int>, p: int)
    requires AllOk(procs, used, X, -1) && X <= {p} && Mortal(procs, p)
    ensures var f := procs[p].father; Waits(procs, f, p) ==> procs[f].state == WAITING_CHILD
  {
    var f := procs[p].father;
    assert ProcOk(procs, used, f, -1);
  }

  lemma ReportOk(procs: seq<Process>, used: seq<int>, X: set<int>, p: int, z: Process)
    requires AllOk(procs, used, X, -1) && X <= {p} && Mortal(procs, p)
    requires z.state == ZOMBIE && z.father == procs[p].father && z.semBlocked == -1
    ensures AllOk(Reported(procs[p := z], p), used, {}, p)
  {
    FatherWaits(procs, used, X, p);
    var c := Reported(procs[p := z], p);
    assert ProcOk(procs, used, z.father, -1);
    forall x | IsPid(x) ensures ProcOk(c, used, x, p) {
      if x != p {
        assert ProcOk(procs, used, x, -1);
      }
      ReportOkAt(procs, used, p, z, x);
    }
  }

  lemma ReportOkAt(procs: seq<Process>, used: seq<int>, p: int, z: Process, x: int)
    requires ProcShape(procs) && Mortal(procs, p) && IsPid(x) && ProcOk(procs, used, procs[p].father, -1)
    requires z.state == ZOMBIE && z.father == procs[p].father && z.semBlocked == -1
    requires Waits(procs, z.father, p) ==> procs[z.father].state == WAITING_CHILD
    requires x != p ==> ProcOk(procs, used, x, -1)
    ensures IsPid(Reported(procs[p := z], p)[x].father) && ProcOk(Reported(procs[p := z], p), used, x, p)
  {
  }

  lemma ReportIdle(procs: seq<Process>, garbage: seq<int>, used: seq<int>, X: set<int>, p: int, z: Process)
    requires AllOk(procs, used, X, -1) && X <= {p} && Mortal(procs, p) && Idle(procs, garbage, -1)
    requires z.state == ZOMBIE && z.father == procs[p].father
    ensures Idle(Reported(procs[p := z], p), garbage, p)
  {
    FatherWaits(procs, used, X, p);
  }

  lemma ZombieQueues(queues: seq<seq<int>>, procs: seq<Process>, D: set<int>, p: int, z: Process, keys: seq<int>)
    requires Partition(queues, procs, D) && Ordered(queues, procs) && IsPid(p) && p in D && |keys| == NB_PROCESS
    requires z.state == ZOMBIE && IsPid(z.father) && z.prio == procs[p].prio
    ensures var b := procs[p := z];
      && Indexes(queues[ZOMBIE], keys)
      && var q := queues[ZOMBIE := Add(queues[ZOMBIE], keys, p)];
         Partition(q, b, D - {p}) && Ordered(q, b)
  {
    hide Add; hide Position; hide Sorted; hide Partition;
    PartitionShape(queues, procs, D);
    var b := procs[p := z];
    assert Prios(b) == Prios(procs);
    PutPartition(queues, procs, p, z, D);
    EnqueuePartition(queues, b, p, ZOMBIE, keys, D);
  }

  lemma ReportQueues(queues: seq<seq<int>>, procs: seq<Process>, D: set<int>, f: int, r: Process)
    requires Partition(queues, procs, D) && Ordered(queues, procs) && IsPid(f) && f !in D
    requires procs[f].state == WAITING_CHILD
    requires r.state == ACTIONABLE && IsPid(r.father) && r.prio == procs[f].prio
    ensures f in queues[WAITING_CHILD]
    ensures var b := procs[f := r]; var q1 := queues[WAITING_CHILD := Remove(queues[WAITING_CHILD], f)];
      && Indexes(q1[ACTIONABLE], Numbers())
      && var q := q1[ACTIONABLE := Add(q1[ACTIONABLE], Numbers(), f)];
         Partition(q, b, D) && Ordered(q, b)
  {
    hide Add; hide Position; hide Sorted; hide Remove;
    assert f in queues[WAITING_CHILD];
    hide Partition;
    PartitionShape(queues, procs, D);
    var b := procs[f := r];
    var q1 := queues[WAITING_CHILD := Remove(queues[WAITING_CHILD], f)];
    assert Prios(b) == Prios(procs);
    DequeuePartition(queues, procs, f, WAITING_CHILD, D);
    PutPartition(q1, procs, f, r, D + {f});
    PartitionShape(q1, b, D + {f});
    EnqueuePartition(q1, b, f, ACTIONABLE, Numbers(), D + {f});
    assert D + {f} - {f} == D;
  }

  lemma ReportQuiet(procs: seq<Process>, used: seq<int>, X: set<int>, p: int, z: Process)
    requires AllOk(procs, used, X, -1) && X <= {p} && Mortal(procs, p) && z.state == ZOMBIE
    requires z.father == procs[p].father
    ensures Quiet(procs, Reported(procs[p := z], p), -1)
  {
    FatherWaits(procs, used, X, p);
    var c := Reported(procs[p := z], p);
    assert ProcOk(procs, used, z.father, -1);
    forall x | 0 <= x < |procs| ensures Waiter(procs[x], c[x], -1, 0) {
    }
  }

  /** The first half of a death: the process is a zombie and its father knows. */
  lemma DieFirst(k: Kernel, D: set<int>, X: set<int>, p: int, z: Process)
    requires Core(k, D, X, -1) && X <= {p} && p in D && Mortal(k.procs, p)
    requires forall x :: x in D && x != p ==> IsPid(x) && k.procs[x].state == ACTIONABLE
    requires z.state == ZOMBIE && z.father == k.procs[p].father && z.semBlocked == -1 && z.prio == k.procs[p].prio
    ensures var k1 := Put(k, p, z); var k2 := Enqueue(k1, p, ZOMBIE, Alarms(k1.procs)); var k' := ReportFather(k2, p);
      && Core(k', D - {p}, {}, p) && k'.procs == Reported(k.procs[p := z], p)
      && k' == k.(procs := k'.procs, queues := k'.queues)
      && Quiet(k.procs, k'.procs, -1)
      && (forall x :: x in D && x != p ==> k'.procs[x] == k.procs[x])
      && k'.procs[p] == z
  {
    hide Partition; hide AllOk; hide Ordered; hide Idle; hide SemLists; hide Add; hide Remove; hide Quiet; hide Shaped;
    CoreShaped(k, D, X, -1);
    var b := k.procs[p := z];
    ShapedProcs(k, p);
    ZombieQueues(k.queues, k.procs, D, p, z, Alarms(b));
    FatherWaits(k.procs, k.semUsed, X, p);
    ReportOk(k.procs, k.semUsed, X, p, z);
    ReportIdle(k.procs, k.garbage, k.semUsed, X, p, z);
    ReportQuiet(k.procs, k.semUsed, X, p, z);
    var f := z.father;
    if Waits(b, f, p) {
      var q := k.queues[ZOMBIE := Add(k.queues[ZOMBIE], Alarms(b), p)];
      ReportQueues(q, b, D - {p}, f, b[f].(childWaited := p, state := ACTIONABLE));
    }
  }

  lemma CoreShaped(k: Kernel, D: set<int>, X: set<int>, d: int)
    requires Core(k, D, X, d)
    ensures Shaped(k)
  {
  }

  lemma ShapedProcs(k: Kernel, p: int)
    requires Shaped(k) && IsPid(p)
    ensures |k.procs| == NB_PROCESS && |k.queues| == NB_STATE && IsPid(k.procs[p].father)
  {
  }

  /** `check_zombies_children` frees exactly the zombie children from pid i on. */
  lemma {:induction false} BuryCore(k: Kernel, D: set<int>, f: int, i: nat)
    requires Core(k, D, {}, f) && IsPid(f) && k.procs[f].state == ZOMBIE && i <= NB_PROCESS
    requires forall x :: x in D ==> IsPid(x) && k.procs[x].state == ACTIONABLE
    ensures var k' := BuryChildren(k, f, i);
      && Core(k', D, {}, f) && k' == k.(procs := k'.procs, queues := k'.queues)
      && (forall x :: i <= x < NB_PROCESS && x != f ==> !(k'.procs[x].state == ZOMBIE && k'.procs[x].father == f))
      && (forall x :: 0 <= x < NB_PROCESS ==>
            || k'.procs[x] == k.procs[x]
            || (i <= x && x != f && k.procs[x].state == ZOMBIE && k'.procs[x] == Blank(k.procs[x])))
      && Quiet(k.procs, k'.procs, -1)
    decreases NB_PROCESS - i
  {
    hide Partition; hide AllOk; hide Ordered; hide Idle; hide SemLists; hide Quiet; hide FreePid; hide Dequeue;
    if i == NB_PROCESS {
      QuietRefl(k.procs);
    } else if k.procs[i].father == f && k.procs[i].state == ZOMBIE && i != f {
      CoreIdle(k, D, {}, f);
      FreeZombie(k, D, {}, f, i, k.garbage);
      var k1 := FreePid(Dequeue(k, i), i);
      BuryCore(k1, D, f, i + 1);
      QuietTrans(k.procs, k1.procs, BuryChildren(k, f, i).procs, -1);
    } else {
      BuryCore(k, D, f, i + 1);
    }
  }

  lemma CoreIdle(k: Kernel, D: set<int>, X: set<int>, d: int)
    requires Core(k, D, X, d)
    ensures 0 !in k.garbage && d != 0
  {
  }

  lemma OrphanOk(procs: seq<Process>, used: seq<int>, p: int, garbage: seq<int>)
    requires AllOk(procs, used, {}, p) && Idle(procs, garbage, p) && IsPid(p) && procs[p].state == ZOMBIE
    requires procs[p].father != p
    ensures AllOk(Orphaned(procs, p), used, {}, -1)
  {
    var b := Orphaned(procs, p);
    forall x | IsPid(x) ensures ProcOk(b, used, x, -1) {
      assert ProcOk(procs, used, x, p);
    }
  }

  lemma OrphanIdle(procs: seq<Process>, p: int, garbage: seq<int>, garbage': seq<int>)
    requires Idle(procs, garbage, p) && IsPid(p) && procs[p].father != p
    requires forall x :: 0 <= x < NB_PROCESS && x != p ==> !(procs[x].state == ZOMBIE && procs[x].father == p)
    requires forall x :: x in garbage' <==> x in garbage || x == p
    ensures Idle(Orphaned(procs, p), garbage', -1)
  {
  }

  lemma OrphanRest(queues: seq<seq<int>>, procs: seq<Process>, D: set<int>, p: int)
    requires Partition(queues, procs, D) && Ordered(queues, procs) && IsPid(p)
    ensures Partition(queues, Orphaned(procs, p), D) && Ordered(queues, Orphaned(procs, p))
    ensures Quiet(procs, Orphaned(procs, p), -1)
  {
    var b := Orphaned(procs, p);
    assert Prios(b) == Prios(procs);
    forall x | 0 <= x < |procs| ensures Waiter(procs[x], b[x], -1, 0) {
    }
  }

  /** Death as a whole: the process is a zombie in the garbage list, its father is told, its zombie
      children are freed and the others have idle as father. */
  lemma DieStable(k: Kernel, D: set<int>, X: set<int>, p: int, retval: int)
    requires Core(k, D, X, -1) && X <= {p} && p in D && Mortal(k.procs, p) && k.garbage == []
    requires forall x :: x in D && x != p ==> IsPid(x) && k.procs[x].state == ACTIONABLE
    requires NoStranded(k.procs, k.semUsed, k.semValue)
    ensures var k' := Die(k, p, retval);
      && Stable(k', D - {p}) && k'.garbage == [p] && k'.procs[p].state == ZOMBIE
      && k' == k.(procs := k'.procs, queues := k'.queues, garbage := [p])
      && Quiet(k.procs, k'.procs, -1)
      && (forall x :: x in D && x != p ==> k'.procs[x].state == ACTIONABLE)
  {
    hide Partition; hide AllOk; hide Ordered; hide Idle; hide SemLists; hide Quiet; hide BuryChildren; hide NoStranded;
    hide ReportFather; hide Enqueue; hide Orphaned;
    var z := k.procs[p].(retvalue := retval, alarmTime := k.clock, state := ZOMBIE);
    DieFirst(k, D, X, p, z);
    var k1 := Put(k, p, z);
    var k2 := ReportFather(Enqueue(k1, p, ZOMBIE, Alarms(k1.procs)), p);
    BuryCore(k2, D - {p}, p, 0);
    var k3 := BuryChildren(k2, p, 0);
    OrphanOk(k3.procs, k3.semUsed, p, k3.garbage);
    assert Add([], Numbers(), p) == [p];
    OrphanIdle(k3.procs, p, k3.garbage, [p]);
    OrphanRest(k3.queues, k3.procs, D - {p}, p);
    QuietTrans(k.procs, k2.procs, k3.procs, -1);
    QuietTrans(k.procs, k3.procs, Orphaned(k3.procs, p), -1);
    QuietStranded(k.procs, Orphaned(k3.procs, p), -1, k.semUsed, k.semValue);
  }

  lemma MortalRunning(k: Kernel, p: int)
    requires Inv(k) && IsPid(p) && p != 0 && Live(k.procs[p]) && k.procs[p].state != SEM_BLOCKED
    ensures Mortal(k.procs, p)
  {
    assert ProcOk(k.procs, k.semUsed, p, -1);
  }

  lemma ExitInv(k: Kernel, retval: int)
    requires Inv(k) && IsPid(k.cur) && k.cur != 0
    ensures var k' := Exit(k, retval);
      && Inv(k') && k'.cur == PID_GARBAGE && k'.semUsed == k.semUsed && k'.semValue == k.semValue
      && Quiet(k.procs, k'.procs, -1)
  {
    MortalRunning(k, k.cur);
    ExitInvAux(k, retval);
  }

  lemma ExitInvAux(k: Kernel, retval: int)
    requires Inv(k) && IsPid(k.cur) && k.cur != 0 && Mortal(k.procs, k.cur)
    ensures var k' := Exit(k, retval);
      && Inv(k') && k'.cur == PID_GARBAGE && k'.semUsed == k.semUsed && k'.semValue == k.semValue
      && Quiet(k.procs, k'.procs, -1)
  {
    hide Core; hide NoStranded; hide GarbageOk; hide Die; hide Quiet; hide Scheduler; hide OnlyWoken; hide Mortal;
    InvShaped(k);
    DieStable(k, {k.cur}, {}, k.cur, retval);
    assert {k.cur} - {k.cur} == {};
    var k1 := Die(k, k.cur, retval);
    SchedulerInv(k1);
    StableOk(k1, {});
    WokenQuiet(k1.procs, Scheduler(k1).procs, k.clock, k.semUsed);
    QuietTrans(k.procs, k1.procs, Scheduler(k1).procs, -1);
  }

  lemma CollectInv(k: Kernel)
    requires Inv(k) && k.cur == PID_GARBAGE
    ensures var k' := Scheduler(GarbageCollect(k));
      && Inv(k') && IsPid(k'.cur) && k'.semUsed == k.semUsed && k'.semValue == k.semValue
      && Quiet(k.procs, k'.procs, -1)
  {
    hide Core; hide NoStranded; hide Quiet; hide Scheduler; hide OnlyWoken; hide GarbageCollect;
    InvShaped(k);
    CollectCore(k, {});
    var k1 := GarbageCollect(k);
    SchedulerInv(k1);
    StableOk(k1, {});
    WokenQuiet(k1.procs, Scheduler(k1).procs, k.clock, k.semUsed);
    QuietTrans(k.procs, k1.procs, Scheduler(k1).procs, -1);
  }

  // ----- waitpid that finds a zombie -----

  lemma ReapOk(procs: seq<Process>, used: seq<int>, me: int, r: Process)
    requires AllOk(procs, used, {me}, -1) && IsPid(me)
    requires r.state == ACTIONABLE && r.pending == UserMode && r.childWaited == 0 && r.semBlocked == -1
    requires r.father == procs[me].father && Live(procs[r.father]) && (r.father == me ==> me == 0)
    requires procs[me].state == ACTIONABLE
    ensures AllOk(procs[me := r], used, {}, -1)
  {
    var b := procs[me := r];
    forall x | IsPid(x) ensures ProcOk(b, used, x, -1) {
      if x != me {
        assert ProcOk(procs, used, x, -1);
      }
    }
  }

  /** The running process frees the dead child it has found. */
  lemma ReapInv(k: Kernel)
    requires IsPid(k.cur) && k.cur != 0 && Core(k, {k.cur}, {k.cur}, -1) && k.garbage == []
    requires NoStranded(k.procs, k.semUsed, k.semValue)
    requires var r := k.procs[k.cur];
      && r.state == ACTIONABLE && r.semBlocked == -1 && r.pending != InWait
      && Awaited(k.procs, k.cur) && k.procs[r.childWaited].state == ZOMBIE
      && IsPid(r.father) && Live(k.procs[r.father]) && r.father != k.cur
    ensures var k' := Reap(k);
      && Inv(k') && k'.semUsed == k.semUsed && k'.semValue == k.semValue && Quiet(k.procs, k'.procs, -1)
      && k'.cur == k.cur && k'.procs[k.procs[k.cur].childWaited].state == FREEPID
  {
    hide Partition; hide AllOk; hide Ordered; hide Idle; hide SemLists; hide Quiet; hide NoStranded; hide FreePid;
    hide Dequeue;
    hide GarbageOk;
    var me := k.cur;
    var c := k.procs[me].childWaited;
    ZombieQueued(k.queues, k.procs, {me}, c);
    FreeZombie(k, {me}, {me}, -1, c, k.garbage);
    var k1 := FreePid(Dequeue(k, c), c);
    var r := k1.procs[me].(childWaited := 0, pending := UserMode);
    ReapOk(k1.procs, k.semUsed, me, r);
    PutSameQueues(k1.queues, k1.procs, {me}, me, r);
    SuspendRest(k1.procs, k1.garbage, me, r) by { EmptyGarbage(k1.procs, k1.garbage); }
    PutQuiet(k1.procs, me, r);
    QuietTrans(k.procs, k1.procs, k1.procs[me := r], -1);
    QuietStranded(k.procs, k1.procs[me := r], -1, k.semUsed, k.semValue);
    assert Reap(k) == Put(k1, me, r);
  }

  lemma EmptyGarbage(procs: seq<Process>, garbage: seq<int>)
    requires |procs| == NB_PROCESS && garbage == []
    ensures GarbageOk(procs, garbage)
  {
  }

  lemma ZombieQueued(queues: seq<seq<int>>, procs: seq<Process>, D: set<int>, c: int)
    requires Partition(queues, procs, D) && IsPid(c) && c !in D && procs[c].state == ZOMBIE
    ensures c in queues[ZOMBIE]
  {
  }

  lemma PutSameQueues(queues: seq<seq<int>>, procs: seq<Process>, D: set<int>, p: int, r: Process)
    requires Partition(queues, procs, D) && Ordered(queues, procs) && IsPid(p)
    requires r.state == procs[p].state && r.father == procs[p].father && r.prio == procs[p].prio
    ensures Partition(queues, procs[p := r], D) && Ordered(queues, procs[p := r])
  {
    assert Prios(procs[p := r]) == Prios(procs);
  }
}

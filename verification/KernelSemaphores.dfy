/**
  Semaphore operations keep the invariant, wake a waiter of highest priority and account for
  every token (kernel/sem.c, kernel/process_handler.c:836-956).
*/
module KernelSemaphores {
  import opened OrderedQueue
  import opened KernelModel
  import opened KernelInvariant
  import opened SetFacts

  function Freed(r: Process, wake: int): Process {
    r.(state := ACTIONABLE, awakener := wake, semBlocked := -1)
  }

  /** Between a and b, some waiters of `id` were released with code `wake` and nothing else changed. */
  ghost predicate Released(a: seq<Process>, b: seq<Process>, id: int, wake: int) {
    && |a| == |b|
    && forall p :: 0 <= p < |a| ==> b[p] == a[p] || (p in Blocked(a, id) && b[p] == Freed(a[p], wake))
  }

  lemma ReleasedOthers(a: seq<Process>, b: seq<Process>, id: int, wake: int)
    requires Released(a, b, id, wake)
    ensures Blocked(b, id) <= Blocked(a, id)
    ensures forall id' :: id' != id ==> Blocked(b, id') == Blocked(a, id')
  {
    forall id' | id' != id ensures Blocked(b, id') == Blocked(a, id') {
    }
  }

  lemma ReleasedTrans(a: seq<Process>, b: seq<Process>, c: seq<Process>, id: int, wake: int)
    requires Released(a, b, id, wake) && Released(b, c, id, wake)
    ensures Released(a, c, id, wake)
  {
    ReleasedOthers(a, b, id, wake);
    forall p | 0 <= p < |a| ensures c[p] == a[p] || (p in Blocked(a, id) && c[p] == Freed(a[p], wake)) {
    }
  }

  lemma ReleaseOk(procs: seq<Process>, used: seq<int>, X: set<int>, d: int, p: int, wake: int)
    requires AllOk(procs, used, X, d) && IsPid(p) && p !in X && procs[p].state == SEM_BLOCKED
    requires wake in {0, -3, -4}
    ensures AllOk(procs[p := Freed(procs[p], wake)], used, X, d)
  {
    var b := procs[p := Freed(procs[p], wake)];
    assert ProcOk(procs, used, p, d);
    forall x | IsPid(x) && x !in X ensures ProcOk(b, used, x, d) {
      assert ProcOk(procs, used, x, d);
    }
  }

  lemma ReleaseIdle(procs: seq<Process>, garbage: seq<int>, d: int, p: int, wake: int)
    requires Idle(procs, garbage, d) && IsPid(p) && procs[p].state == SEM_BLOCKED
    ensures Idle(procs[p := Freed(procs[p], wake)], garbage, d)
  {
  }

  lemma ReleaseQueues(queues: seq<seq<int>>, procs: seq<Process>, D: set<int>, p: int, wake: int)
    requires Partition(queues, procs, D) && Ordered(queues, procs)
    requires p in queues[SEM_BLOCKED]
    ensures var b := procs[p := Freed(procs[p], wake)];
      var q1 := queues[SEM_BLOCKED := Remove(queues[SEM_BLOCKED], p)];
      && QueueShape(q1) && |b| == NB_PROCESS
      && var q2 := q1[ACTIONABLE := Add(q1[ACTIONABLE], Prios(b), p)];
         Partition(q2, b, D) && Ordered(q2, b)
  {
    hide Add; hide Position;
    var b := procs[p := Freed(procs[p], wake)];
    var q := queues[SEM_BLOCKED];
    var q1 := queues[SEM_BLOCKED := Remove(q, p)];
    DequeuePartition(queues, procs, p, SEM_BLOCKED, D);
    PutPartition(q1, procs, p, Freed(procs[p], wake), D + {p});
    EnqueuePartition(q1, b, p, ACTIONABLE, Prios(b), D + {p});
    assert D + {p} - {p} == D;
    RemoveSorted(q, Prios(procs), p);
    SortedFrame(Remove(q, p), Prios(procs), Prios(b));
  }

  lemma QueueMember(queues: seq<seq<int>>, procs: seq<Process>, D: set<int>, s: int, p: int)
    requires Partition(queues, procs, D) && 0 <= s < NB_STATE && p in queues[s]
    ensures IsPid(p) && p !in D && procs[p].state == s
  {
  }

  lemma ReleaseCore(k: Kernel, D: set<int>, X: set<int>, d: int, p: int, wake: int)
    requires Core(k, D, X, d) && p in k.queues[SEM_BLOCKED] && p !in X && wake in {0, -3, -4}
    ensures IsPid(p)
    ensures var k' := Release(k, p, wake);
      && Core(k', D, X, d) && k' == k.(procs := k'.procs, queues := k'.queues)
      && k'.procs == k.procs[p := Freed(k.procs[p], wake)]
  {
    hide Partition; hide AllOk; hide Ordered; hide Idle; hide SemLists; hide Add; hide Remove;
    QueueMember(k.queues, k.procs, D, SEM_BLOCKED, p);
    ReleaseQueues(k.queues, k.procs, D, p, wake);
    ReleaseOk(k.procs, k.semUsed, X, d, p, wake);
    ReleaseIdle(k.procs, k.garbage, d, p, wake);
  }

  /** `find_by_sem` finds a waiter exactly when there is one. */
  lemma FindComplete(queues: seq<seq<int>>, procs: seq<Process>, D: set<int>, id: int)
    requires Partition(queues, procs, D)
    requires forall x :: x in D && IsPid(x) ==> procs[x].state != SEM_BLOCKED
    ensures var p := FindBySem(queues[SEM_BLOCKED], procs, id);
      && (p == -1 ==> Blocked(procs, id) == {})
      && (p != -1 ==> p in Blocked(procs, id) && p in queues[SEM_BLOCKED])
  {
    var q := queues[SEM_BLOCKED];
    var p := FindBySem(q, procs, id);
    forall x | x in Blocked(procs, id) ensures x in q {
      assert IsPid(x);
    }
  }

  /** `find_by_sem` picks a waiter of highest priority: the queue is sorted and scanned backwards. */
  lemma {:induction false} FindHighest(q: seq<int>, procs: seq<Process>, id: int, x: int)
    requires |procs| == NB_PROCESS && AllPids(q) && Sorted(q, Prios(procs))
    requires x in q && procs[x].semBlocked == id
    ensures var p := FindBySem(q, procs, id);
      && p != -1 && procs[x].prio <= procs[p].prio
  {
    var last := q[|q| - 1];
    var i :| 0 <= i < |q| && q[i] == x;
    if procs[last].semBlocked != id {
      assert x == q[..|q| - 1][i];
      FindHighest(q[..|q| - 1], procs, id, x);
    }
  }

  /** The waiter found stands last among the waiters of the semaphore: with equal priorities it is the
      one that has waited longest. */
  lemma {:induction false} FindLast(q: seq<int>, procs: seq<Process>, id: int, i: nat)
    requires |procs| == NB_PROCESS && AllPids(q) && i < |q| && procs[q[i]].semBlocked == id
    ensures var p := FindBySem(q, procs, id); p in q[i..]
  {
    var n := |q| - 1;
    if procs[q[n]].semBlocked == id {
      assert q[i..][n - i] == q[n];
    } else {
      FindLast(q[..n], procs, id, i);
      assert forall x :: x in q[..n][i..] ==> x in q[i..] by {
        assert q[i..] == q[..n][i..] + [q[n]];
      }
    }
  }

  lemma RemoveFromBlocked(a: seq<Process>, p: int, id: int, wake: int)
    requires p in Blocked(a, id)
    ensures Blocked(a[p := Freed(a[p], wake)], id) == Blocked(a, id) - {p}
    ensures Released(a, a[p := Freed(a[p], wake)], id, wake)
  {
  }

  lemma {:induction false} ReleaseNCore(k: Kernel, D: set<int>, X: set<int>, d: int, id: int, n: nat, wake: int)
    requires Core(k, D, X, d) && wake in {0, -3, -4}
    requires forall x :: x in D && IsPid(x) ==> k.procs[x].state != SEM_BLOCKED
    requires forall x :: x in X ==> x !in Blocked(k.procs, id)
    ensures var k' := ReleaseN(k, id, n, wake);
      && Core(k', D, X, d) && Released(k.procs, k'.procs, id, wake)
      && |Blocked(k'.procs, id)| == (if n <= |Blocked(k.procs, id)| then |Blocked(k.procs, id)| - n else 0)
    decreases n
  {
    hide Partition; hide AllOk; hide Ordered; hide Idle; hide SemLists; hide Release; hide Blocked;
    FindComplete(k.queues, k.procs, D, id);
    var p := FindBySem(k.queues[SEM_BLOCKED], k.procs, id);
    if n > 0 && p != -1 {
      var k1 := Release(k, p, wake);
      ReleaseCore(k, D, X, d, p, wake);
      RemoveFromBlocked(k.procs, p, id, wake);
      DetachedStill(k.procs, p, wake, D, X, id);
      ReleaseNCore(k1, D, X, d, id, n - 1, wake);
      ReleasedTrans(k.procs, k1.procs, ReleaseN(k, id, n, wake).procs, id, wake);
    }
  }

  lemma DetachedStill(procs: seq<Process>, p: int, wake: int, D: set<int>, X: set<int>, id: int)
    requires |procs| == NB_PROCESS && p in Blocked(procs, id)
    requires forall x :: x in D && IsPid(x) ==> procs[x].state != SEM_BLOCKED
    requires forall x :: x in X ==> x !in Blocked(procs, id)
    ensures var b := procs[p := Freed(procs[p], wake)];
      && (forall x :: x in D && IsPid(x) ==> b[x].state != SEM_BLOCKED)
      && (forall x :: x in X ==> x !in Blocked(b, id))
  {
  }

  // ----- accounting -----

  lemma StrandedUpdate(a: seq<Process>, b: seq<Process>, used: seq<int>, value: seq<int>, id: int, v: int)
    requires NoStranded(a, used, value) && IsPid(id) && SHRT_MIN <= v <= SHRT_MAX
    requires forall id' :: id' != id ==> Blocked(b, id') == Blocked(a, id')
    requires |Blocked(b, id)| <= Debt(v)
    ensures NoStranded(b, used, value[id := v])
  {
    hide Blocked;
  }

  lemma ReleasedGarbage(a: seq<Process>, b: seq<Process>, id: int, wake: int, garbage: seq<int>)
    requires Released(a, b, id, wake)
    ensures GarbageOk(a, garbage) ==> GarbageOk(b, garbage)
  {
  }

  lemma ReleasedRunning(a: seq<Process>, b: seq<Process>, id: int, wake: int, p: int)
    requires Released(a, b, id, wake) && 0 <= p < |a| && a[p].state != SEM_BLOCKED
    ensures b[p] == a[p]
  {
  }

  lemma UsedIsId(used: seq<int>, free: seq<int>, id: int)
    requires SemLists(used, free) && id in used
    ensures IsPid(id)
  {
  }

  /** Release waiters after the value has become v, when v still owes at least the rest. */
  lemma ReleaseStable(k: Kernel, id: int, v: int, n: nat, wake: int)
    requires Inv(k) && IsPid(k.cur) && IsPid(id) && SHRT_MIN <= v <= SHRT_MAX && wake in {0, -3, -4}
    requires |Blocked(k.procs, id)| <= Debt(v) + n
    ensures var k1 := SetValue(k, id, v); var k' := ReleaseN(k1, id, n, wake);
      && Stable(k', {k.cur}) && Released(k.procs, k'.procs, id, wake)
      && k'.procs[k.cur] == k.procs[k.cur]
      && |Blocked(k'.procs, id)| == (if n <= |Blocked(k.procs, id)| then |Blocked(k.procs, id)| - n else 0)
  {
    hide Partition; hide AllOk; hide Ordered; hide Idle; hide SemLists; hide NoStranded; hide Released;
    hide ReleaseN; hide Blocked; hide GarbageOk;
    var k1 := SetValue(k, id, v);
    ReleaseNCore(k1, {k.cur}, {}, -1, id, n, wake);
    var k' := ReleaseN(k1, id, n, wake);
    ReleasedOthers(k.procs, k'.procs, id, wake);
    StrandedUpdate(k.procs, k'.procs, k.semUsed, k.semValue, id, v);
    ReleasedGarbage(k.procs, k'.procs, id, wake, k.garbage);
    ReleasedRunning(k.procs, k'.procs, id, wake, k.cur);
  }

  lemma StayInv(k: Kernel)
    requires IsPid(k.cur) && Stable(k, {k.cur}) && k.procs[k.cur].state == ACTIONABLE && k.garbage == []
    ensures Inv(k)
  {
    hide Core; hide NoStranded;
  }

  lemma PreemptInv(k: Kernel)
    requires IsPid(k.cur) && k.cur != 0 && Stable(k, {k.cur}) && k.procs[k.cur].state == ACTIONABLE && k.garbage == []
    ensures Inv(Preempt(k))
    ensures OnlyWoken(k.procs, Preempt(k).procs, k.clock)
    ensures var k' := Preempt(k); k' == k.(procs := k'.procs, queues := k'.queues, cur := k'.cur)
  {
    hide AllOk; hide Ordered; hide SemLists; hide NoStranded; hide Scheduler; hide Inv;
    assert 0 in k.queues[ACTIONABLE];
    YieldInv(k);
    StayInv(k);
  }

  // ----- what a step may do to a process suspended in `wait` -----

  /** A process suspended in `wait` stays as it is, dies, or is released with `code` from `id`. */
  ghost predicate Waiter(a: Process, b: Process, id: int, code: int) {
    && (!Live(a) ==> !Live(b))
    && (a.pending == InWait && Live(a) && Live(b) ==>
          && b.pending == InWait
          && (|| (b.state == a.state && b.semBlocked == a.semBlocked && b.awakener == a.awakener)
              || (a.state == SEM_BLOCKED && a.semBlocked == id && b.state == ACTIONABLE && b.awakener == code)))
  }

  ghost predicate WaitersKept(a: seq<Process>, b: seq<Process>, id: int, code: int, x: int) {
    && |a| == |b|
    && forall p :: 0 <= p < |a| && p != x ==> Waiter(a[p], b[p], id, code)
  }

  lemma KeptTrans(a: seq<Process>, b: seq<Process>, c: seq<Process>, id: int, code: int, x: int)
    requires WaitersKept(a, b, id, code, x) && WaitersKept(b, c, id, code, x)
    ensures WaitersKept(a, c, id, code, x)
  {
    forall p | 0 <= p < |a| && p != x ensures Waiter(a[p], c[p], id, code) {
      assert Waiter(a[p], b[p], id, code) && Waiter(b[p], c[p], id, code);
    }
  }

  lemma ReleasedKept(a: seq<Process>, b: seq<Process>, id: int, wake: int)
    requires Released(a, b, id, wake)
    ensures WaitersKept(a, b, id, wake, -1)
  {
    forall p | 0 <= p < |a| ensures Waiter(a[p], b[p], id, wake) {
    }
  }

  lemma WokenKept(a: seq<Process>, b: seq<Process>, clock: int, used: seq<int>, id: int, code: int)
    requires AllOk(a, used, {}, -1) && OnlyWoken(a, b, clock)
    ensures WaitersKept(a, b, id, code, -1)
  {
    forall p | 0 <= p < |a| ensures Waiter(a[p], b[p], id, code) {
      assert IsPid(p);
      assert ProcOk(a, used, p, -1);
    }
  }

  lemma KeptRefl(a: seq<Process>, id: int, code: int)
    ensures WaitersKept(a, a, id, code, -1)
  {
  }

  lemma KeptWeaken(a: seq<Process>, b: seq<Process>, id: int, code: int, x: int)
    requires WaitersKept(a, b, id, code, -1)
    ensures WaitersKept(a, b, id, code, x)
  {
  }

  /** A release followed by a reschedule. */
  lemma ReleaseThenWake(a: seq<Process>, b: seq<Process>, c: seq<Process>, id: int, wake: int, clock: int,
                        used: seq<int>)
    requires Released(a, b, id, wake) && AllOk(b, used, {}, -1) && OnlyWoken(b, c, clock)
    ensures WaitersKept(a, c, id, wake, -1)
    ensures Blocked(c, id) == Blocked(b, id) && Blocked(c, id) <= Blocked(a, id)
    ensures forall id' :: id' != id ==> Blocked(c, id') == Blocked(a, id')
  {
    ReleasedKept(a, b, id, wake);
    WokenKept(b, c, clock, used, id, wake);
    KeptTrans(a, b, c, id, wake, -1);
    ReleasedOthers(a, b, id, wake);
    forall id' ensures Blocked(c, id') == Blocked(b, id') {
    }
  }

  lemma WokenSelf(a: seq<Process>, clock: int)
    ensures OnlyWoken(a, a, clock)
  {
  }

  // ----- the calls -----

  lemma InvShaped(k: Kernel)
    requires Inv(k)
    ensures Shaped(k) && AllPids(k.semUsed)
  {
  }

  lemma InvSem(k: Kernel, id: int)
    requires Inv(k) && id in k.semUsed
    ensures Shaped(k) && IsPid(id)
    ensures SHRT_MIN <= k.semValue[id] <= SHRT_MAX && |Blocked(k.procs, id)| <= Debt(k.semValue[id])
  {
    hide Partition; hide AllOk; hide Ordered; hide Idle; hide Blocked;
    UsedIsId(k.semUsed, k.semFree, id);
  }

  lemma StableOk(k: Kernel, D: set<int>)
    requires Stable(k, D)
    ensures Shaped(k) && AllOk(k.procs, k.semUsed, {}, -1)
  {
  }

  lemma ReleaseNone(k: Kernel, id: int, wake: int)
    requires Shaped(k)
    ensures ReleaseN(k, id, 0, wake) == k
  {
  }

  /** The waiters after a call that sets the value of `id` to v and releases up to n of them. */
  ghost predicate SemStep(k: Kernel, k': Kernel, id: int, v: int, n: nat, wake: int)
    requires Shaped(k) && IsPid(id)
  {
    && k'.semValue == k.semValue[id := v]
    && WaitersKept(k.procs, k'.procs, id, wake, -1)
    && Blocked(k'.procs, id) <= Blocked(k.procs, id)
    && |Blocked(k'.procs, id)| == (if n <= |Blocked(k.procs, id)| then |Blocked(k.procs, id)| - n else 0)
    && (forall id' :: id' != id ==> Blocked(k'.procs, id') == Blocked(k.procs, id'))
  }

  lemma SignalInv(k: Kernel, id: int)
    requires Inv(k) && IsPid(k.cur) && id in k.semUsed && k.semValue[id] + 1 <= SHRT_MAX
    ensures Inv(Signal(k, id)) && Signal(k, id).semUsed == k.semUsed
    ensures IsPid(id) && Shaped(k)
    ensures SemStep(k, Signal(k, id), id, k.semValue[id] + 1, if k.semValue[id] < 0 then 1 else 0, 0)
  {
    hide Core; hide NoStranded; hide GarbageOk; hide ReleaseN; hide Scheduler; hide Blocked; hide FindBySem;
    hide GetPrio;
    hide Released; hide OnlyWoken; hide WaitersKept;
    InvSem(k, id);
    var v, n := k.semValue[id] + 1, if k.semValue[id] < 0 then 1 else 0;
    var k1 := SetValue(k, id, v);
    ReleaseStable(k, id, v, n, 0);
    ReleaseNone(k1, id, 0);
    var k2 := ReleaseN(k1, id, n, 0);
    StableOk(k2, {k.cur});
    StayInv(k2);
    YieldInv(k2);
    var k' := Signal(k, id);
    WokenSelf(k2.procs, k.clock);
    ReleaseThenWake(k.procs, k2.procs, k'.procs, id, 0, k.clock, k.semUsed);
  }

  lemma SignalNInv(k: Kernel, id: int, count: short)
    requires Inv(k) && IsPid(k.cur) && k.cur != 0 && id in k.semUsed && count >= 0 && k.semValue[id] + count <= SHRT_MAX
    ensures Inv(SignalN(k, id, count)) && SignalN(k, id, count).semUsed == k.semUsed
    ensures IsPid(id) && Shaped(k)
    ensures SemStep(k, SignalN(k, id, count), id, k.semValue[id] + count, count, 0)
  {
    hide Core; hide NoStranded; hide GarbageOk; hide ReleaseN; hide Preempt; hide Blocked;
    hide Released; hide OnlyWoken; hide WaitersKept;
    InvSem(k, id);
    var v := k.semValue[id] + count;
    var k1 := SetValue(k, id, v);
    ReleaseStable(k, id, v, count, 0);
    ReleaseNone(k1, id, 0);
    var k2 := ReleaseN(k1, id, count, 0);
    StableOk(k2, {k.cur});
    StayInv(k2);
    PreemptInv(k2);
    var k' := SignalN(k, id, count);
    WokenSelf(k2.procs, k.clock);
    ReleaseThenWake(k.procs, k2.procs, k'.procs, id, 0, k.clock, k.semUsed);
  }

  /** Nobody waits any more after `unblock_all_sem`. */
  lemma BlockedBound(queues: seq<seq<int>>, procs: seq<Process>, D: set<int>, id: int)
    requires Partition(queues, procs, D)
    requires forall x :: x in D && IsPid(x) ==> procs[x].state != SEM_BLOCKED
    ensures |Blocked(procs, id)| <= |queues[SEM_BLOCKED]|
  {
    var q := queues[SEM_BLOCKED];
    forall x | x in Blocked(procs, id) ensures x in q {
      assert IsPid(x);
    }
    SeqCovers(Blocked(procs, id), q);
  }

  lemma InvBound(k: Kernel, id: int)
    requires Inv(k) && IsPid(k.cur)
    ensures |Blocked(k.procs, id)| <= |k.queues[SEM_BLOCKED]|
  {
    hide Partition; hide AllOk; hide Ordered; hide Idle; hide Blocked; hide SemLists; hide NoStranded;
    BlockedBound(k.queues, k.procs, {k.cur}, id);
  }

  lemma SResetInv(k: Kernel, id: int, count: short)
    requires Inv(k) && IsPid(k.cur) && k.cur != 0 && id in k.semUsed && count >= 0
    ensures Inv(SReset(k, id, count)) && SReset(k, id, count).semUsed == k.semUsed
    ensures IsPid(id) && Shaped(k)
    ensures SemStep(k, SReset(k, id, count), id, count, |k.queues[SEM_BLOCKED]|, -4)
  {
    hide Core; hide NoStranded; hide GarbageOk; hide ReleaseN; hide Preempt; hide Blocked;
    hide Released; hide OnlyWoken; hide WaitersKept;
    InvSem(k, id);
    InvBound(k, id);
    var n := |k.queues[SEM_BLOCKED]|;
    ReleaseStable(k, id, count, n, -4);
    var k2 := ReleaseN(SetValue(k, id, count), id, n, -4);
    StableOk(k2, {k.cur});
    PreemptInv(k2);
    ReleaseThenWake(k.procs, k2.procs, SReset(k, id, count).procs, id, -4, k.clock, k.semUsed);
  }

  // ----- creation and deletion -----

  lemma {:induction false} ReleaseCommutes(k: Kernel, id: int, n: nat, wake: int, used: seq<int>, free: seq<int>)
    requires Shaped(k) && AllPids(used) && AllPids(free)
    ensures ReleaseN(k.(semUsed := used, semFree := free), id, n, wake)
         == ReleaseN(k, id, n, wake).(semUsed := used, semFree := free)
    decreases n
  {
    hide Release; hide FindBySem; hide Shaped;
    ShapedLists(k, used, free);
    var p := FindBySem(k.queues[SEM_BLOCKED], k.procs, id);
    if n > 0 && p != -1 {
      ReleaseOther(k, p, wake, used, free);
      ReleaseCommutes(Release(k, p, wake), id, n - 1, wake, used, free);
    }
  }

  lemma ShapedLists(k: Kernel, used: seq<int>, free: seq<int>)
    requires Shaped(k) && AllPids(used) && AllPids(free)
    ensures Shaped(k.(semUsed := used, semFree := free))
    ensures |k.queues| == NB_STATE && |k.procs| == NB_PROCESS && AllPids(k.queues[SEM_BLOCKED])
  {
  }

  /** Releasing a waiter has nothing to do with the lists of ids. */
  lemma ReleaseOther(k: Kernel, p: int, wake: int, used: seq<int>, free: seq<int>)
    requires Shaped(k) && AllPids(used) && AllPids(free) && IsPid(p)
    ensures Shaped(k.(semUsed := used, semFree := free))
    ensures Release(k.(semUsed := used, semFree := free), p, wake)
         == Release(k, p, wake).(semUsed := used, semFree := free)
  {
    hide Add; hide Remove; hide Prios;
  }

  lemma UsedOk(procs: seq<Process>, used: seq<int>, used': seq<int>, X: set<int>, d: int)
    requires AllOk(procs, used, X, d)
    requires forall id :: id in used && id !in used' ==> Blocked(procs, id) == {}
    ensures AllOk(procs, used', X, d)
  {
    forall p | IsPid(p) && p !in X ensures ProcOk(procs, used', p, d) {
      assert ProcOk(procs, used, p, d);
      assert procs[p].state == SEM_BLOCKED ==> p in Blocked(procs, procs[p].semBlocked);
    }
  }

  lemma DeleteLists(used: seq<int>, free: seq<int>, id: int)
    requires SemLists(used, free) && id in used && AllPids(free)
    ensures IsPid(id) && Indexes(free, Numbers())
    ensures SemLists(Remove(used, id), Add(free, Numbers(), id))
    ensures forall x :: x in Remove(used, id) <==> x in used && x != id
  {
    RemoveMembers(used, id);
    AddMembers(free, Numbers(), id);
    AddSorted(free, Numbers(), id);
  }

  lemma CreateLists(used: seq<int>, free: seq<int>)
    requires SemLists(used, free) && free != [] && AllPids(free)
    ensures Indexes(used, Numbers()) && IsPid(free[0])
    ensures SemLists(Add(used, Numbers(), free[0]), free[1..])
    ensures forall x :: x in Add(used, Numbers(), free[0]) <==> x in used || x == free[0]
    ensures free[0] !in used
  {
    var id := free[0];
    assert id in free;
    AddMembers(used, Numbers(), id);
    assert free == [id] + free[1..];
  }

  lemma StableDelete(k: Kernel, D: set<int>, id: int)
    requires Stable(k, D) && id in k.semUsed && Blocked(k.procs, id) == {}
    ensures IsPid(id) && Indexes(k.semFree, Numbers())
    ensures AllPids(Remove(k.semUsed, id))
    ensures Stable(k.(semUsed := Remove(k.semUsed, id), semFree := Add(k.semFree, Numbers(), id)), D)
  {
    hide Partition; hide Ordered; hide Idle; hide Remove; hide Add; hide AllOk; hide Blocked;
    DeleteLists(k.semUsed, k.semFree, id);
    UsedOk(k.procs, k.semUsed, Remove(k.semUsed, id), {}, -1);
  }

  lemma SDeleteInv(k: Kernel, id: int)
    requires Inv(k) && IsPid(k.cur) && k.cur != 0 && id in k.semUsed
    ensures Inv(SDelete(k, id)) && SDelete(k, id).semUsed == Remove(k.semUsed, id)
    ensures IsPid(id) && Shaped(k)
    ensures SemStep(k, SDelete(k, id), id, k.semValue[id], |k.queues[SEM_BLOCKED]|, -3)
  {
    hide Core; hide NoStranded; hide GarbageOk; hide ReleaseN; hide Preempt; hide Blocked;
    hide Released; hide OnlyWoken; hide WaitersKept; hide Remove; hide Add;
    InvSem(k, id);
    InvBound(k, id);
    var n := |k.queues[SEM_BLOCKED]|;
    ReleaseStable(k, id, k.semValue[id], n, -3);
    assert SetValue(k, id, k.semValue[id]) == k;
    var k2 := ReleaseN(k, id, n, -3);
    StableDelete(k2, {k.cur}, id);
    var used, free := Remove(k.semUsed, id), Add(k.semFree, Numbers(), id);
    ReleaseCommutes(k, id, n, -3, used, free);
    var k3 := k2.(semUsed := used, semFree := free);
    StableOk(k3, {k.cur});
    PreemptInv(k3);
    ReleaseThenWake(k.procs, k3.procs, SDelete(k, id).procs, id, -3, k.clock, used);
  }

  lemma FreshStranded(procs: seq<Process>, used: seq<int>, free: seq<int>, value: seq<int>, used': seq<int>,
                      id: int, v: int)
    requires NoStranded(procs, used, value) && AllOk(procs, used, {}, -1) && 0 <= v <= SHRT_MAX
    requires IsPid(id) && id !in used && forall x :: x in used' <==> x in used || x == id
    ensures NoStranded(procs, used', value[id := v]) && Blocked(procs, id) == {}
  {
    forall p | IsPid(p) ensures p !in Blocked(procs, id) {
      assert ProcOk(procs, used, p, -1);
    }
    assert Blocked(procs, id) == {};
  }

  /** A new semaphore has the count it was created with and no waiter. */
  lemma SCreateInv(k: Kernel, count: short)
    requires Inv(k) && IsPid(k.cur) && count >= 0 && k.semFree != []
    ensures var id := k.semFree[0]; var k' := SCreate(k, count);
      && Inv(k') && IsPid(id) && id !in k.semUsed && id in k'.semUsed
      && k' == k.(semValue := k.semValue[id := count], semFree := k.semFree[1..], semUsed := k'.semUsed)
      && Blocked(k'.procs, id) == {}
      && (forall x :: x in k'.semUsed <==> x in k.semUsed || x == id)
  {
    hide Partition; hide Ordered; hide Idle; hide Add; hide AllOk; hide Blocked; hide NoStranded; hide GarbageOk;
    var id := k.semFree[0];
    CreateLists(k.semUsed, k.semFree);
    var k' := SCreate(k, count);
    UsedOk(k.procs, k.semUsed, k'.semUsed, {}, -1);
    FreshStranded(k.procs, k.semUsed, k.semFree, k.semValue, k'.semUsed, id, count);
  }

  // ----- wait and try_wait -----

  lemma BlockOk(procs: seq<Process>, used: seq<int>, p: int, id: int)
    requires AllOk(procs, used, {}, -1) && IsPid(p) && id in used
    requires procs[p].state == ACTIONABLE && procs[p].pending == UserMode
    ensures AllOk(procs[p := procs[p].(semBlocked := id, state := SEM_BLOCKED, pending := InWait)], used, {}, -1)
  {
    var b := procs[p := procs[p].(semBlocked := id, state := SEM_BLOCKED, pending := InWait)];
    assert ProcOk(procs, used, p, -1);
    forall x | IsPid(x) ensures ProcOk(b, used, x, -1) {
      assert ProcOk(procs, used, x, -1);
    }
  }

  lemma BlockQueues(queues: seq<seq<int>>, procs: seq<Process>, p: int, r: Process)
    requires Partition(queues, procs, {p}) && Ordered(queues, procs) && IsPid(p)
    requires r.state == SEM_BLOCKED && IsPid(r.father) && r.prio == procs[p].prio
    ensures var b := procs[p := r];
      && Indexes(queues[SEM_BLOCKED], Prios(b))
      && var q := queues[SEM_BLOCKED := Add(queues[SEM_BLOCKED], Prios(b), p)];
         Partition(q, b, {}) && Ordered(q, b)
  {
    hide Add; hide Position;
    var b := procs[p := r];
    PutPartition(queues, procs, p, r, {p});
    SortedFrame(queues[SEM_BLOCKED], Prios(procs), Prios(b));
    EnqueuePartition(queues, b, p, SEM_BLOCKED, Prios(b), {p});
    assert {p} - {p} == {};
    AddSorted(queues[SEM_BLOCKED], Prios(b), p);
  }

  lemma BlockRest(procs: seq<Process>, garbage: seq<int>, used: seq<int>, value: seq<int>, p: int, id: int)
    requires IsPid(p) && p != 0 && IsPid(id) && id in used
    requires Idle(procs, garbage, -1) && GarbageOk(procs, garbage) && NoStranded(procs, used, value)
    requires procs[p].state == ACTIONABLE && SHRT_MIN <= value[id] - 1 < 0
    ensures var b := procs[p := procs[p].(semBlocked := id, state := SEM_BLOCKED, pending := InWait)];
      && Idle(b, garbage, -1) && GarbageOk(b, garbage) && NoStranded(b, used, value[id := value[id] - 1])
      && Blocked(b, id) == Blocked(procs, id) + {p}
      && (forall id' :: id' != id ==> Blocked(b, id') == Blocked(procs, id'))
  {
    var b := procs[p := procs[p].(semBlocked := id, state := SEM_BLOCKED, pending := InWait)];
    assert Blocked(b, id) == Blocked(procs, id) + {p};
    forall id' | id' != id ensures Blocked(b, id') == Blocked(procs, id') {
    }
    StrandedUpdate(procs, b, used, value, id, value[id] - 1);
  }

  lemma BlockKept(procs: seq<Process>, p: int, r: Process, id: int, code: int)
    requires 0 <= p < |procs| && procs[p].pending == UserMode && Live(procs[p])
    ensures WaitersKept(procs, procs[p := r], id, code, -1)
  {
    var b := procs[p := r];
    forall x | 0 <= x < |procs| ensures Waiter(procs[x], b[x], id, code) {
    }
  }

  /** A `wait` that finds no token: the caller joins the waiters. */
  lemma WaitBlocksInv(k: Kernel, id: int)
    requires Inv(k) && IsPid(k.cur) && k.cur != 0 && k.procs[k.cur].pending == UserMode
    requires id in k.semUsed && SHRT_MIN <= k.semValue[id] - 1 < 0
    ensures var k' := Wait(k, id);
      && Inv(k') && k'.semUsed == k.semUsed && IsPid(id) && k'.semValue == k.semValue[id := k.semValue[id] - 1]
      && Blocked(k'.procs, id) == Blocked(k.procs, id) + {k.cur} && k.cur !in Blocked(k.procs, id)
      && (forall id' :: id' != id ==> Blocked(k'.procs, id') == Blocked(k.procs, id'))
      && WaitersKept(k.procs, k'.procs, id, 0, -1)
  {
    hide Partition; hide AllOk; hide Ordered; hide Idle; hide SemLists; hide NoStranded; hide GarbageOk; hide Add;
    hide Blocked; hide Scheduler; hide OnlyWoken; hide WaitersKept;
    InvSem(k, id);
    var p := k.cur;
    var r := k.procs[p].(semBlocked := id, state := SEM_BLOCKED, pending := InWait);
    BlockOk(k.procs, k.semUsed, p, id);
    BlockQueues(k.queues, k.procs, p, r);
    BlockRest(k.procs, k.garbage, k.semUsed, k.semValue, p, id);
    BlockKept(k.procs, p, r, id, 0);
    var k1 := SetValue(k, id, k.semValue[id] - 1);
    var k2 := Put(k1, p, r);
    var k3 := Enqueue(k2, p, SEM_BLOCKED, Prios(k2.procs));
    SchedulerInv(k3);
    WokenKept(k3.procs, Scheduler(k3).procs, k.clock, k.semUsed, id, 0);
    KeptTrans(k.procs, k3.procs, Scheduler(k3).procs, id, 0, -1);
    WokenBlocked(k3.procs, Scheduler(k3).procs, k.clock);
    NotBlocked(k.procs, p, id);
  }

  lemma NotBlocked(procs: seq<Process>, p: int, id: int)
    requires 0 <= p < |procs| && procs[p].state != SEM_BLOCKED
    ensures p !in Blocked(procs, id)
  {
  }

  lemma WokenBlocked(a: seq<Process>, b: seq<Process>, clock: int)
    requires OnlyWoken(a, b, clock)
    ensures forall id :: Blocked(b, id) == Blocked(a, id)
  {
    forall id ensures Blocked(b, id) == Blocked(a, id) {
    }
  }

  /** A `wait` or `try_wait` that finds a token. */
  lemma TakeInv(k: Kernel, id: int)
    requires Inv(k) && id in k.semUsed && k.semValue[id] - 1 >= 0
    ensures IsPid(id) && Inv(SetValue(k, id, k.semValue[id] - 1)) && Blocked(k.procs, id) == {}
  {
    hide Core; hide GarbageOk; hide Blocked;
    InvSem(k, id);
    InvShaped(k);
    hide NoStranded;
    StrandedUpdate(k.procs, k.procs, k.semUsed, k.semValue, id, k.semValue[id] - 1);
    CoreValue(k, Detached(k), {}, -1, k.semValue[id := k.semValue[id] - 1]);
  }

  lemma CoreValue(k: Kernel, D: set<int>, X: set<int>, d: int, value: seq<int>)
    requires Core(k, D, X, d) && |value| == NB_SEM
    ensures Core(k.(semValue := value), D, X, d)
  {
    hide Partition; hide AllOk; hide Ordered; hide Idle; hide SemLists;
  }
}

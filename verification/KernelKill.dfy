/**
  `kill` and `waitpid` keep the invariant (kernel/process_handler.c:546-608, 754-815).  A killed
  waiter gives its token back through `signal_death`, which may wake one more waiter.
*/
module KernelKill {
  import opened OrderedQueue
  import opened KernelModel
  import opened KernelInvariant
  import opened KernelSemaphores
  import opened KernelLife

  lemma RetvalOk(procs: seq<Process>, used: seq<int>, p: int, v: int, garbage: seq<int>)
    requires AllOk(procs, used, {}, -1) && IsPid(p) && Idle(procs, garbage, -1) && GarbageOk(procs, garbage)
    ensures var b := procs[p := procs[p].(retvalue := v)];
      AllOk(b, used, {}, -1) && Idle(b, garbage, -1) && GarbageOk(b, garbage) && Quiet(procs, b, -1)
  {
    var b := procs[p := procs[p].(retvalue := v)];
    forall x | IsPid(x) ensures ProcOk(b, used, x, -1) {
      assert ProcOk(procs, used, x, -1);
    }
    forall x | 0 <= x < |procs| ensures Waiter(procs[x], b[x], -1, 0) {
    }
  }

  lemma RetvalInv(k: Kernel, p: int, v: int)
    requires Inv(k) && IsPid(p)
    ensures Shaped(k)
    ensures var k' := Put(k, p, k.procs[p].(retvalue := v)); Inv(k') && Quiet(k.procs, k'.procs, -1)
  {
    hide Partition; hide AllOk; hide Ordered; hide Idle; hide SemLists; hide Quiet; hide NoStranded; hide GarbageOk;
    var r := k.procs[p].(retvalue := v);
    RetvalOk(k.procs, k.semUsed, p, v, k.garbage);
    PutSameQueues(k.queues, k.procs, Detached(k), p, r);
    QuietStranded(k.procs, k.procs[p := r], -1, k.semUsed, k.semValue);
  }

  lemma ForfeitOk(procs: seq<Process>, used: seq<int>, p: int, garbage: seq<int>)
    requires AllOk(procs, used, {}, -1) && IsPid(p) && procs[p].state == SEM_BLOCKED && Idle(procs, garbage, -1)
    ensures var b := procs[p := procs[p].(semBlocked := -1)];
      AllOk(b, used, {p}, -1) && Idle(b, garbage, -1)
  {
    var b := procs[p := procs[p].(semBlocked := -1)];
    forall x | IsPid(x) && x != p ensures ProcOk(b, used, x, -1) {
      assert ProcOk(procs, used, x, -1);
    }
  }

  lemma ForfeitBlocked(procs: seq<Process>, p: int)
    requires IsPid(p) && |procs| == NB_PROCESS && procs[p].state == SEM_BLOCKED && procs[p].semBlocked >= 0
    ensures var b := procs[p := procs[p].(semBlocked := -1)]; var id := procs[p].semBlocked;
      && p in Blocked(procs, id) && Blocked(b, id) == Blocked(procs, id) - {p}
      && (forall id' :: id' != id && id' >= 0 ==> Blocked(b, id') == Blocked(procs, id'))
  {
    var b := procs[p := procs[p].(semBlocked := -1)];
    var id := procs[p].semBlocked;
    forall id' | id' != id && id' >= 0 ensures Blocked(b, id') == Blocked(procs, id') {
    }
  }

  lemma BlockedUsed(procs: seq<Process>, used: seq<int>, p: int)
    requires AllOk(procs, used, {}, -1) && IsPid(p) && procs[p].state == SEM_BLOCKED
    ensures procs[p].semBlocked in used
  {
    assert ProcOk(procs, used, p, -1);
  }

  lemma StrandedUpdatePos(a: seq<Process>, b: seq<Process>, used: seq<int>, value: seq<int>, id: int, v: int)
    requires NoStranded(a, used, value) && IsPid(id) && SHRT_MIN <= v <= SHRT_MAX
    requires forall id' :: id' != id && id' >= 0 ==> Blocked(b, id') == Blocked(a, id')
    requires |Blocked(b, id)| <= Debt(v)
    ensures NoStranded(b, used, value[id := v])
  {
    hide Blocked;
  }

  /** The victim of a `kill` was waiting: its token goes back and at most one other waiter wakes,
      so afterwards the value may owe more tokens than there are waiters, never fewer. */
  lemma ForfeitCore(k: Kernel, p: int)
    requires Inv(k) && IsPid(k.cur) && IsPid(p) && k.procs[p].state == SEM_BLOCKED
    ensures var k' := Forfeit(k, p); var id := k.procs[p].semBlocked;
      && IsPid(id) && id in k.semUsed && k.semValue[id] < 0
      && Core(k', {k.cur}, {p}, -1) && NoStranded(k'.procs, k'.semUsed, k'.semValue)
      && k' == k.(procs := k'.procs, queues := k'.queues, semValue := k.semValue[id := k.semValue[id] + 1])
      && Released(k.procs[p := k.procs[p].(semBlocked := -1)], k'.procs, id, 0)
      && k'.procs[p] == k.procs[p].(semBlocked := -1) && k'.procs[k.cur] == k.procs[k.cur]
      && |Blocked(k'.procs, id)| == (if |Blocked(k.procs, id)| >= 2 then |Blocked(k.procs, id)| - 2 else 0)
  {
    hide Partition; hide AllOk; hide Ordered; hide Idle; hide SemLists; hide NoStranded; hide Released;
    hide ReleaseN; hide Blocked; hide GarbageOk;
    var id := k.procs[p].semBlocked;
    BlockedUsed(k.procs, k.semUsed, p);
    InvSem(k, id);
    ForfeitBlocked(k.procs, p);
    ForfeitOk(k.procs, k.semUsed, p, k.garbage);
    var r := k.procs[p].(semBlocked := -1);
    PutSameQueues(k.queues, k.procs, {k.cur}, p, r);
    var k1 := Put(k, p, r);
    var k2 := SetValue(k1, id, k.semValue[id] + 1);
    ReleaseNCore(k2, {k.cur}, {p}, -1, id, 1, 0);
    var k' := ReleaseN(k2, id, 1, 0);
    assert Forfeit(k, p) == k';
    ReleasedOthers(k1.procs, k'.procs, id, 0);
    StrandedUpdatePos(k.procs, k'.procs, k.semUsed, k.semValue, id, k.semValue[id] + 1);
    ReleasedRunning(k1.procs, k'.procs, id, 0, k.cur);
    ReleasedOther(k1.procs, k'.procs, id, 0, p);
  }

  lemma ReleasedOther(a: seq<Process>, b: seq<Process>, id: int, wake: int, p: int)
    requires Released(a, b, id, wake) && 0 <= p < |a| && a[p].semBlocked != id
    ensures b[p] == a[p]
  {
  }

  lemma DequeueCore(k: Kernel, D: set<int>, X: set<int>, d: int, p: int)
    requires Core(k, D, X, d) && IsPid(p) && p !in D
    ensures Core(Dequeue(k, p), D + {p}, X, d) && Dequeue(k, p) == k.(queues := Dequeue(k, p).queues)
  {
    hide Partition; hide AllOk; hide Idle; hide SemLists; hide Remove; hide Sorted;
    var s := k.procs[p].state;
    DequeuePartition(k.queues, k.procs, p, s, D);
    RemoveSorted(k.queues[SEM_BLOCKED], Prios(k.procs), p);
    RemoveSorted(k.queues[FREEPID], Numbers(), p);
  }

  lemma MortalKept(a: seq<Process>, b: seq<Process>, used: seq<int>, p: int, id: int)
    requires AllOk(a, used, {}, -1) && IsPid(p) && p != 0 && a[p].state == SEM_BLOCKED
    requires Released(a[p := a[p].(semBlocked := -1)], b, id, 0) && b[p] == a[p].(semBlocked := -1)
    ensures Mortal(b, p)
  {
    assert ProcOk(a, used, p, -1);
  }

  /** From the victim out of its queues to the end of `kill`. */
  lemma KillEnd(k: Kernel, X: set<int>, p: int)
    requires IsPid(k.cur) && IsPid(p) && p != k.cur && Core(k, {k.cur}, X, -1) && X <= {p} && Mortal(k.procs, p)
    requires NoStranded(k.procs, k.semUsed, k.semValue) && k.garbage == [] && k.procs[k.cur].state == ACTIONABLE
    ensures var k' := GarbageCollect(Die(Dequeue(k, p), p, KILL_RETVAL));
      && Inv(k') && k'.semUsed == k.semUsed && k'.semValue == k.semValue && Quiet(k.procs, k'.procs, -1)
      && !Live(k'.procs[p])
  {
    hide Core; hide NoStranded; hide GarbageOk; hide Quiet; hide Die; hide GarbageCollect; hide Dequeue; hide Mortal;
    CoreShaped(k, {k.cur}, X, -1);
    DequeueCore(k, {k.cur}, X, -1, p);
    var k1 := Dequeue(k, p);
    DieStable(k1, {k.cur} + {p}, X, p, KILL_RETVAL);
    assert {k.cur} + {p} - {p} == {k.cur};
    var k2 := Die(k1, p, KILL_RETVAL);
    CollectCore(k2, {k.cur});
    var k3 := GarbageCollect(k2);
    StayInv(k3);
    QuietTrans(k.procs, k2.procs, k3.procs, -1);
    QuietDead(k2.procs, k3.procs, p);
  }

  lemma QuietDead(a: seq<Process>, b: seq<Process>, p: int)
    requires Quiet(a, b, -1) && 0 <= p < |a| && !Live(a[p])
    ensures !Live(b[p])
  {
    assert Waiter(a[p], b[p], -1, 0);
  }

  /** Killing a process that is not a waiter. */
  lemma KillOtherInv(k: Kernel, p: int)
    requires Inv(k) && IsPid(k.cur) && k.cur != 0 && 0 < p < NB_PROCESS && k.procs[p].state != SEM_BLOCKED
    ensures var k' := Kill(k, p);
      && Inv(k') && k'.semUsed == k.semUsed && k'.semValue == k.semValue && Quiet(k.procs, k'.procs, -1)
  {
    hide Core; hide NoStranded; hide GarbageOk; hide Quiet; hide Die; hide GarbageCollect; hide Forfeit; hide Exit;
    if p == k.cur {
      ExitInv(k, KILL_RETVAL);
    } else {
      RetvalInv(k, p, KILL_RETVAL);
      var k1 := Put(k, p, k.procs[p].(retvalue := KILL_RETVAL));
      if Live(k1.procs[p]) {
        MortalRunning(k1, p);
        KillOtherEnd(k, k1, p);
      }
    }
  }

  lemma KillOtherEnd(k: Kernel, k1: Kernel, p: int)
    requires Inv(k1) && IsPid(k1.cur) && IsPid(p) && p != k1.cur && Mortal(k1.procs, p)
    requires k1.procs[p].state != SEM_BLOCKED
    requires Quiet(k.procs, k1.procs, -1) && k1.semUsed == k.semUsed && k1.semValue == k.semValue
    ensures var k' := GarbageCollect(Die(Dequeue(Forfeit(k1, p), p), p, KILL_RETVAL));
      && Inv(k') && k'.semUsed == k.semUsed && k'.semValue == k.semValue && Quiet(k.procs, k'.procs, -1)
  {
    hide Core; hide NoStranded; hide GarbageOk; hide Quiet; hide Die; hide GarbageCollect; hide Dequeue; hide Mortal;
    InvShaped(k1);
    KillEnd(k1, {}, p);
    QuietTrans(k.procs, k1.procs, GarbageCollect(Die(Dequeue(k1, p), p, KILL_RETVAL)).procs, -1);
  }

  lemma KilledKept(k: Kernel, a: seq<Process>, b: seq<Process>, c: seq<Process>, used: seq<int>, p: int, id: int)
    requires AllOk(a, used, {}, -1) && AllPids(used) && IsPid(p) && a[p].state == SEM_BLOCKED
    requires Released(a[p := a[p].(semBlocked := -1)], b, id, 0) && Quiet(b, c, -1) && !Live(c[p])
    ensures WaitersKept(a, c, id, 0, -1)
  {
    forall x | 0 <= x < |a| ensures Waiter(a[x], c[x], id, 0) {
      if x != p {
        assert IsPid(x) && ProcOk(a, used, x, -1);
        assert Waiter(b[x], c[x], -1, 0);
      }
    }
  }

  lemma KilledBlocked(a: seq<Process>, b: seq<Process>, c: seq<Process>, p: int, id: int)
    requires |a| == NB_PROCESS && IsPid(p) && a[p].state == SEM_BLOCKED && a[p].semBlocked == id >= 0
    requires Released(a[p := a[p].(semBlocked := -1)], b, id, 0) && Quiet(b, c, -1)
    ensures Blocked(c, id) == Blocked(b, id)
    ensures forall id' :: id' != id && id' >= 0 ==> Blocked(c, id') == Blocked(a, id')
  {
    ForfeitBlocked(a, p);
    ReleasedOthers(a[p := a[p].(semBlocked := -1)], b, id, 0);
    QuietBlocked(b, c, -1);
  }

  /** Killing a waiter: one token returns, and with a second waiter two processes leave. */
  lemma KillWaiterInv(k: Kernel, p: int)
    requires Inv(k) && IsPid(k.cur) && k.cur != 0 && 0 < p < NB_PROCESS && k.procs[p].state == SEM_BLOCKED
    ensures var k' := Kill(k, p); var id := k.procs[p].semBlocked;
      && Inv(k') && k'.semUsed == k.semUsed && IsPid(id) && id in k.semUsed && k.semValue[id] < 0
      && k'.semValue == k.semValue[id := k.semValue[id] + 1]
      && WaitersKept(k.procs, k'.procs, id, 0, -1)
      && |Blocked(k'.procs, id)| == (if |Blocked(k.procs, id)| >= 2 then |Blocked(k.procs, id)| - 2 else 0)
      && (forall id' :: id' != id && id' >= 0 ==> Blocked(k'.procs, id') == Blocked(k.procs, id'))
  {
    hide Core; hide NoStranded; hide GarbageOk; hide Quiet; hide Die; hide GarbageCollect; hide Dequeue; hide Mortal;
    hide Released; hide Blocked; hide Forfeit; hide WaitersKept;
    RetvalInv(k, p, KILL_RETVAL);
    var k1 := Put(k, p, k.procs[p].(retvalue := KILL_RETVAL));
    ForfeitCore(k1, p);
    var id := k.procs[p].semBlocked;
    var k2 := Forfeit(k1, p);
    StableOk(k1, {k.cur});
    MortalKept(k1.procs, k2.procs, k.semUsed, p, id);
    KillEnd(k2, {p}, p);
    var k' := Kill(k, p);
    InvShaped(k1);
    KilledKept(k, k1.procs, k2.procs, k'.procs, k.semUsed, p, id);
    KilledBlocked(k1.procs, k2.procs, k'.procs, p, id);
    RetvalSame(k.procs, p, KILL_RETVAL);
    KeptSame(k.procs, k1.procs, k'.procs, p, id);
  }

  lemma RetvalSame(procs: seq<Process>, p: int, v: int)
    requires 0 <= p < |procs|
    ensures forall id :: Blocked(procs[p := procs[p].(retvalue := v)], id) == Blocked(procs, id)
  {
    forall id ensures Blocked(procs[p := procs[p].(retvalue := v)], id) == Blocked(procs, id) {
    }
  }

  lemma KeptSame(a: seq<Process>, b: seq<Process>, c: seq<Process>, p: int, id: int)
    requires 0 <= p < |a| && b == a[p := a[p].(retvalue := KILL_RETVAL)] && WaitersKept(b, c, id, 0, -1)
    ensures WaitersKept(a, c, id, 0, -1)
  {
    forall x | 0 <= x < |a| ensures Waiter(a[x], c[x], id, 0) {
      assert Waiter(b[x], c[x], id, 0);
    }
  }

  // ----- waitpid -----

  lemma AwaitCore(k: Kernel, c: int)
    requires Inv(k) && IsPid(k.cur) && k.cur != 0
    ensures Shaped(k)
    ensures var k1 := Put(k, k.cur, k.procs[k.cur].(childWaited := c));
      Core(k1, {k.cur}, {k.cur}, -1) && Quiet(k.procs, k1.procs, -1)
    ensures var r := k.procs[k.cur];
      r.semBlocked == -1 && IsPid(r.father) && Live(k.procs[r.father]) && r.father != k.cur
  {
    hide Partition; hide Ordered; hide SemLists; hide NoStranded; hide Quiet;
    var me := k.cur;
    var r := k.procs[me].(childWaited := c);
    PutSameQueues(k.queues, k.procs, {me}, me, r);
    AwaitOk(k.procs, k.semUsed, me, c);
  }

  lemma AwaitOk(procs: seq<Process>, used: seq<int>, me: int, c: int)
    requires AllOk(procs, used, {}, -1) && IsPid(me) && procs[me].state == ACTIONABLE
    ensures AllOk(procs[me := procs[me].(childWaited := c)], used, {me}, -1)
    ensures ProcOk(procs, used, me, -1)
    ensures Quiet(procs, procs[me := procs[me].(childWaited := c)], -1)
  {
    var b := procs[me := procs[me].(childWaited := c)];
    assert ProcOk(procs, used, me, -1);
    forall x | IsPid(x) && x != me ensures ProcOk(b, used, x, -1) {
      assert ProcOk(procs, used, x, -1);
    }
    forall x | 0 <= x < |procs| ensures Waiter(procs[x], b[x], -1, 0) {
    }
  }

  /** `waitpid` that finds a dead child at once. */
  lemma FoundInv(k: Kernel, c: int)
    requires Inv(k) && IsPid(k.cur) && k.cur != 0 && k.procs[k.cur].pending == UserMode
    requires 0 < c < NB_PROCESS && k.procs[c].father == k.cur && k.procs[c].state == ZOMBIE
    ensures Shaped(k)
    ensures var k' := Reap(Put(k, k.cur, k.procs[k.cur].(childWaited := c)));
      && Inv(k') && k'.semUsed == k.semUsed && k'.semValue == k.semValue && Quiet(k.procs, k'.procs, -1)
  {
    hide Partition; hide AllOk; hide Ordered; hide Idle; hide SemLists; hide NoStranded; hide Quiet; hide Reap;
    AwaitCore(k, c);
    var k1 := Put(k, k.cur, k.procs[k.cur].(childWaited := c));
    QuietStranded(k.procs, k1.procs, -1, k.semUsed, k.semValue);
    ReapInv(k1);
    QuietTrans(k.procs, k1.procs, Reap(k1).procs, -1);
  }

  /** The end of a `waitpid` that had to wait. */
  lemma ResumedInv(k: Kernel)
    requires Inv(k) && IsPid(k.cur) && k.procs[k.cur].pending == InWaitPid
    ensures var k' := Reap(k);
      && Inv(k') && k'.semUsed == k.semUsed && k'.semValue == k.semValue && Quiet(k.procs, k'.procs, -1)
  {
    var r := k.procs[k.cur];
    assert ProcOk(k.procs, k.semUsed, k.cur, -1);
    ResumedAux(k);
  }

  lemma ResumedAux(k: Kernel)
    requires Inv(k) && IsPid(k.cur) && k.cur != 0 && k.procs[k.cur].pending == InWaitPid
    requires Awaited(k.procs, k.cur) && k.procs[k.procs[k.cur].childWaited].state == ZOMBIE
    ensures var k' := Reap(k);
      && Inv(k') && k'.semUsed == k.semUsed && k'.semValue == k.semValue && Quiet(k.procs, k'.procs, -1)
  {
    hide Partition; hide AllOk; hide Ordered; hide Idle; hide SemLists; hide NoStranded; hide Quiet; hide Reap;
    AwaitCore(k, k.procs[k.cur].childWaited);
    assert Put(k, k.cur, k.procs[k.cur].(childWaited := k.procs[k.cur].childWaited)) == k;
    ReapInv(k);
  }

  lemma WaitPidInv(k: Kernel, p: int, found: int)
    requires Inv(k) && Enabled(k, DoWaitPid(p, found))
    ensures var k' := WaitPid(k, p, found);
      && Inv(k') && k'.semUsed == k.semUsed && k'.semValue == k.semValue && Quiet(k.procs, k'.procs, -1)
  {
    hide Core; hide NoStranded; hide GarbageOk; hide Quiet; hide Reap; hide Scheduler;
    InvShaped(k);
    var me := k.cur;
    if (p == -1 || 0 < p < NB_PROCESS) && HasChild(k, me) && (p == -1 || IsChild(k, p, me)) {
      var awaited := if p == -1 then found else if k.procs[p].state == ZOMBIE then p else -1;
      if awaited != -1 {
        FoundInv(k, awaited);
      } else {
        NotOwnChild(k, p);
        SuspendInv(k, k.procs[me].(childWaited := p, state := WAITING_CHILD, pending := InWaitPid), Numbers());
      }
    } else {
      QuietRefl(k.procs);
    }
  }

  lemma NotOwnChild(k: Kernel, p: int)
    requires Inv(k) && IsPid(k.cur) && k.cur != 0
    ensures k.procs[k.cur].father != k.cur
  {
    assert ProcOk(k.procs, k.semUsed, k.cur, -1);
  }
}

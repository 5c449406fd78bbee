/**
  The properties the semaphores are for, over whole runs: tokens are conserved, a blocked `wait`
  returns the code of the event that released it, and a wake-up goes to a highest priority waiter.
*/
module KernelTheorems {
  import opened OrderedQueue
  import opened KernelModel
  import opened KernelInvariant
  import opened KernelSemaphores
  import opened KernelLife
  import opened KernelKill
  import opened KernelRuns

  // ----- conservation over a run -----

  datatype Tally = Tally(added: nat, taken: nat, granted: nat)

  /** Tokens added, waits counted and waits let through by the events from the a-th to before the
      n-th of a run. */
  ghost function Tallied(ks: seq<Kernel>, es: seq<Event>, id: int, a: nat, n: nat): Tally
    requires Run(ks, es) && a <= n <= |es| && IsPid(id)
    decreases n
  {
    if n == a then Tally(0, 0, 0)
    else
      var t := Tallied(ks, es, id, a, n - 1);
      var k, e := ks[n - 1], es[n - 1];
      Tally(t.added + Added(k, e, id), t.taken + Taken(k, e, id), t.granted + Granted(k, e, id))
  }

  ghost predicate FairBetween(ks: seq<Kernel>, es: seq<Event>, id: int, a: nat, n: nat)
    requires Run(ks, es) && a <= n <= |es|
  {
    forall i :: a <= i < n ==> Fair(ks[i], es[i], id)
  }

  lemma {:induction false} TokensConserved(ks: seq<Kernel>, es: seq<Event>, id: int, a: nat, n: nat)
    requires Run(ks, es) && Inv(ks[0]) && a <= n <= |es| && IsPid(id) && id in ks[a].semUsed
    requires FairBetween(ks, es, id, a, n)
    ensures var t := Tallied(ks, es, id, a, n);
      && id in ks[n].semUsed
      && ks[n].semValue[id] == ks[a].semValue[id] + t.added - t.taken
      && |Blocked(ks[a].procs, id)| + t.taken == |Blocked(ks[n].procs, id)| + t.granted
      && (Exact(ks[a], id) ==> Exact(ks[n], id))
    decreases n
  {
    hide Inv; hide Step; hide Blocked; hide Enabled; hide Added; hide Taken; hide Granted;
    if n > a {
      TokensConserved(ks, es, id, a, n - 1);
      RunInv(ks, es, n - 1);
      assert Fair(ks[n - 1], es[n - 1], id);
      StepConserves(ks[n - 1], es[n - 1], id);
    }
  }

  /** A semaphore created with count c and left alone by `sdelete`, `sreset` and the death of its
      waiters: value = c + signals - (granted + blocked), the blocked processes are exactly the
      debt of the value, and no more waits get through than c plus the signals. */
  lemma SemaphoreLaw(ks: seq<Kernel>, es: seq<Event>, count: short, a: nat, n: nat)
    requires Run(ks, es) && Inv(ks[0]) && a < n <= |es|
    requires es[a] == DoSCreate(count) && count >= 0 && ks[a].semFree != []
    requires IsPid(ks[a].semFree[0]) && FairBetween(ks, es, ks[a].semFree[0], a + 1, n)
    ensures var id := ks[a].semFree[0]; var t := Tallied(ks, es, id, a + 1, n);
      var blocked := |Blocked(ks[n].procs, id)|;
      && id in ks[n].semUsed
      && ks[n].semValue[id] == count + t.added - (t.granted + blocked)
      && blocked == Debt(ks[n].semValue[id])
      && t.granted <= count + t.added
  {
    hide Inv; hide Enabled; hide Added; hide Taken; hide Granted; hide Blocked; hide Tallied; hide Step;
    var id := ks[a].semFree[0];
    RunInv(ks, es, a);
    Created(ks, es, count, a);
    TokensConserved(ks, es, id, a + 1, n);
  }

  /** The semaphore just created: its value is the count and nobody waits for it. */
  lemma Created(ks: seq<Kernel>, es: seq<Event>, count: short, a: nat)
    requires Run(ks, es) && a < |es| && es[a] == DoSCreate(count) && count >= 0 && ks[a].semFree != [] && Inv(ks[a])
    ensures var id := ks[a].semFree[0];
      && id in ks[a + 1].semUsed && ks[a + 1].semValue[id] == count && Blocked(ks[a + 1].procs, id) == {}
  {
    hide Inv; hide Blocked; hide SCreate;
    var k := ks[a];
    assert Enabled(k, es[a]) && ks[a + 1] == Step(k, es[a]);
    EnabledCaller(k, es[a]);
    SCreateInv(k, count);
  }

  /** Equality between waiters and debt survives the death of a waiter exactly when it was alone:
      `signal_death` also wakes a second waiter. */
  lemma KillBreaksExactness(k: Kernel, p: int)
    requires Inv(k) && Enabled(k, DoKill(p)) && 0 < p < NB_PROCESS && k.procs[p].state == SEM_BLOCKED
    requires IsPid(k.procs[p].semBlocked) && Exact(k, k.procs[p].semBlocked)
    ensures Exact(Step(k, DoKill(p)), k.procs[p].semBlocked) <==> |Blocked(k.procs, k.procs[p].semBlocked)| == 1
  {
    hide Core; hide NoStranded; hide GarbageOk; hide Blocked; hide WaitersKept; hide Kill; hide Enabled;
    InvShaped(k);
    EnabledCaller(k, DoKill(p));
    KillWaiterInv(k, p);
  }

  // ----- the return value of a blocked wait -----

  /** The process p is suspended in `wait` from state i to state j. */
  ghost predicate Suspended(ks: seq<Kernel>, es: seq<Event>, p: int, i: nat, j: nat)
    requires Run(ks, es) && IsPid(p) && i <= j < |ks|
  {
    && (forall m :: i <= m <= j ==> Live(ks[m].procs[p]))
    && (forall m :: i <= m < j ==> !(es[m] == Resume && ks[m].cur == p))
  }

  lemma StepWaiter(k: Kernel, e: Event, p: int)
    requires Inv(k) && Enabled(k, e) && IsPid(p) && Live(k.procs[p]) && Live(Step(k, e).procs[p])
    requires k.procs[p].pending == InWait && !(e == Resume && k.cur == p)
    ensures Waiter(k.procs[p], Step(k, e).procs[p], Target(k, e), ReturnCode(e))
  {
    hide Core; hide NoStranded; hide GarbageOk; hide Step; hide Enabled; hide Target; hide Waiter; hide Blocked;
    StepKeeps(k, e);
    NewIsFree(k);
  }

  lemma NewIsFree(k: Kernel)
    requires Inv(k)
    ensures k.queues[FREEPID] != [] ==> !Live(k.procs[k.queues[FREEPID][0]])
  {
    hide AllOk; hide Ordered; hide Idle; hide SemLists; hide NoStranded; hide GarbageOk; hide Partition;
    if k.queues[FREEPID] != [] {
      FirstPartition(k.queues, k.procs, FREEPID, Detached(k));
    }
  }

  /** What released a waiter: between i and j there is one event on the semaphore it waited for, and
      the code it finds is the code of that event, whatever happened before and after. */
  lemma {:induction false} WaitReturnsReleaseCode(ks: seq<Kernel>, es: seq<Event>, p: int, i: nat, j: nat)
    requires Run(ks, es) && Inv(ks[0]) && IsPid(p) && i <= j < |ks| && Suspended(ks, es, p, i, j)
    requires ks[i].procs[p].state == SEM_BLOCKED && ks[i].procs[p].pending == InWait
    ensures ks[j].procs[p].pending == InWait
    ensures
      || (ks[j].procs[p].state == SEM_BLOCKED && ks[j].procs[p].semBlocked == ks[i].procs[p].semBlocked)
      || (ks[j].procs[p].state == ACTIONABLE && exists m :: i <= m < j && ReleasedBy(ks, es, p, i, j, m))
    decreases j
  {
    hide Inv; hide Step; hide Enabled; hide Target;
    if i < j {
      assert Suspended(ks, es, p, i, j - 1);
      WaitReturnsReleaseCode(ks, es, p, i, j - 1);
      RunInv(ks, es, j - 1);
      assert Live(ks[j - 1].procs[p]) && Live(ks[j].procs[p]) && !(es[j - 1] == Resume && ks[j - 1].cur == p);
      assert ks[j] == Step(ks[j - 1], es[j - 1]) && Enabled(ks[j - 1], es[j - 1]);
      StepWaiter(ks[j - 1], es[j - 1], p);
      if ks[j].procs[p].state == ACTIONABLE {
        if ks[j - 1].procs[p].state == SEM_BLOCKED {
          assert ReleasedBy(ks, es, p, i, j, j - 1);
        } else {
          var m :| i <= m < j - 1 && ReleasedBy(ks, es, p, i, j - 1, m);
          assert ReleasedBy(ks, es, p, i, j, m);
        }
      }
    }
  }

  ghost predicate ReleasedBy(ks: seq<Kernel>, es: seq<Event>, p: int, i: nat, j: nat, m: nat)
    requires Run(ks, es) && IsPid(p) && i <= m < j < |ks|
  {
    && ks[m].procs[p].state == SEM_BLOCKED && ks[m + 1].procs[p].state == ACTIONABLE
    && Target(ks[m], es[m]) == ks[i].procs[p].semBlocked
    && ks[j].procs[p].awakener == ReturnCode(es[m])
  }

  // ----- a wake-up goes to a highest priority waiter -----

  /** Everybody left behind has at most the priority of everybody released. */
  ghost predicate BestFirst(a: seq<Process>, b: seq<Process>, id: int) {
    && |a| == |b|
    && forall r, x :: r in Blocked(a, id) && r !in Blocked(b, id) && x in Blocked(b, id) && x in Blocked(a, id)
         ==> a[x].prio <= a[r].prio
  }

  lemma {:induction false} ReleaseNBestFirst(k: Kernel, D: set<int>, X: set<int>, id: int, n: nat, wake: int)
    requires Core(k, D, X, -1) && wake in {0, -3, -4}
    requires forall x :: x in D && IsPid(x) ==> k.procs[x].state != SEM_BLOCKED
    requires forall x :: x in X ==> x !in Blocked(k.procs, id)
    ensures BestFirst(k.procs, ReleaseN(k, id, n, wake).procs, id)
    decreases n
  {
    hide Partition; hide AllOk; hide Ordered; hide Idle; hide SemLists; hide Release; hide Blocked; hide BestFirst;
    hide Released;
    FindComplete(k.queues, k.procs, D, id);
    var p := FindBySem(k.queues[SEM_BLOCKED], k.procs, id);
    if n > 0 && p != -1 {
      var k1 := Release(k, p, wake);
      ReleaseCore(k, D, X, -1, p, wake);
      RemoveFromBlocked(k.procs, p, id, wake);
      DetachedStill(k.procs, p, wake, D, X, id);
      ReleaseNBestFirst(k1, D, X, id, n - 1, wake);
      ReleaseNCore(k1, D, X, -1, id, n - 1, wake);
      BestTrans(k, D, X, id, p, wake, ReleaseN(k, id, n, wake).procs);
    } else {
      BestRefl(k.procs, id);
    }
  }

  lemma BestRefl(a: seq<Process>, id: int)
    ensures BestFirst(a, a, id)
  {
  }

  lemma FoundIsHighest(queues: seq<seq<int>>, procs: seq<Process>, D: set<int>, id: int, x: int)
    requires Partition(queues, procs, D) && Ordered(queues, procs) && x in Blocked(procs, id)
    requires forall y :: y in D && IsPid(y) ==> procs[y].state != SEM_BLOCKED
    ensures var p := FindBySem(queues[SEM_BLOCKED], procs, id); p != -1 && procs[x].prio <= procs[p].prio
  {
    assert IsPid(x) && x in queues[SEM_BLOCKED];
    FindHighest(queues[SEM_BLOCKED], procs, id, x);
  }

  lemma BestTrans(k: Kernel, D: set<int>, X: set<int>, id: int, p: int, wake: int, c: seq<Process>)
    requires Core(k, D, X, -1) && p in Blocked(k.procs, id) && p == FindBySem(k.queues[SEM_BLOCKED], k.procs, id)
    requires forall y :: y in D && IsPid(y) ==> k.procs[y].state != SEM_BLOCKED
    requires var b := k.procs[p := Freed(k.procs[p], wake)];
      BestFirst(b, c, id) && Released(b, c, id, wake) && Blocked(b, id) == Blocked(k.procs, id) - {p}
    ensures BestFirst(k.procs, c, id)
  {
    hide Partition; hide AllOk; hide Ordered; hide Idle; hide SemLists; hide Blocked; hide Released;
    BlockedPid(k.procs, id, p);
    var b := k.procs[p := Freed(k.procs[p], wake)];
    ReleasedOthers(b, c, id, wake);
    forall r, x | r in Blocked(k.procs, id) && r !in Blocked(c, id) && x in Blocked(c, id) && x in Blocked(k.procs, id)
      ensures 0 <= r < |k.procs| && 0 <= x < |k.procs| && k.procs[x].prio <= k.procs[r].prio
    {
      BlockedPid(k.procs, id, r);
      BlockedPid(k.procs, id, x);
      FoundIsHighest(k.queues, k.procs, D, id, x);
    }
  }

  lemma BlockedPid(procs: seq<Process>, id: int, x: int)
    requires x in Blocked(procs, id)
    ensures 0 <= x < |procs|
  {
  }

  /** `signal` and `signaln` wake waiters of highest priority: whoever still waits afterwards has at
      most the priority of whoever was woken. */
  lemma SignalWakesHighest(k: Kernel, e: Event)
    requires Inv(k) && Enabled(k, e) && (e.DoSignal? || e.DoSignalN?) && Accepted(k, e) && IsPid(e.id)
    ensures BestFirst(k.procs, Step(k, e).procs, e.id)
  {
    hide Core; hide NoStranded; hide GarbageOk; hide ReleaseN; hide Preempt; hide Blocked; hide Scheduler;
    hide BestFirst;
    hide Released; hide OnlyWoken; hide WaitersKept; hide FindBySem; hide GetPrio; hide Enabled;
    InvShaped(k);
    EnabledCaller(k, e);
    var id := e.id;
    InvSem(k, id);
    var v := k.semValue[id] + (if e.DoSignal? then 1 else e.count);
    var n := if e.DoSignalN? then e.count else if k.semValue[id] < 0 then 1 else 0;
    ReleaseNone(SetValue(k, id, v), id, 0);
    ReleasedBest(k, id, v, n);
  }

  /** Releasing waiters after the value has become v, with and without a reschedule. */
  lemma ReleasedBest(k: Kernel, id: int, v: int, n: nat)
    requires Inv(k) && IsPid(k.cur) && k.cur != 0 && IsPid(id) && SHRT_MIN <= v <= SHRT_MAX
    requires |Blocked(k.procs, id)| <= Debt(v) + n
    ensures Shaped(k)
    ensures var k2 := ReleaseN(SetValue(k, id, v), id, n, 0);
      && BestFirst(k.procs, k2.procs, id) && BestFirst(k.procs, Scheduler(k2).procs, id)
      && IsPid(k2.cur) && BestFirst(k.procs, Preempt(k2).procs, id)
  {
    hide Core; hide NoStranded; hide GarbageOk; hide ReleaseN; hide Preempt; hide Blocked; hide Scheduler;
    hide BestFirst;
    hide Released; hide OnlyWoken;
    InvShaped(k);
    var k1 := SetValue(k, id, v);
    ReleaseStable(k, id, v, n, 0);
    CoreValue(k, {k.cur}, {}, -1, k1.semValue);
    ReleaseNBestFirst(k1, {k.cur}, {}, id, n, 0);
    var k2 := ReleaseN(k1, id, n, 0);
    YieldInv(k2);
    PreemptInv(k2);
    BestWoken(k.procs, k2.procs, Scheduler(k2).procs, id, k.clock);
    BestWoken(k.procs, k2.procs, Preempt(k2).procs, id, k.clock);
  }

  lemma BestWoken(a: seq<Process>, b: seq<Process>, c: seq<Process>, id: int, clock: int)
    requires BestFirst(a, b, id) && OnlyWoken(b, c, clock)
    ensures BestFirst(a, c, id)
  {
    assert Blocked(c, id) == Blocked(b, id);
  }

  /** `signal_death`, called by `kill`, wakes a highest priority waiter among those that are left when
      the victim is gone. */
  lemma DeathWakesHighest(k: Kernel, p: int)
    requires Inv(k) && Enabled(k, DoKill(p)) && IsPid(p) && k.procs[p].state == SEM_BLOCKED
    ensures var id := k.procs[p].semBlocked; var left := k.procs[p := k.procs[p].(semBlocked := -1)];
      Blocked(left, id) == Blocked(k.procs, id) - {p} && BestFirst(left, Step(k, DoKill(p)).procs, id)
  {
    hide Core; hide NoStranded; hide GarbageOk; hide Quiet; hide Die; hide GarbageCollect; hide Dequeue; hide Mortal;
    hide Released; hide Blocked; hide Forfeit; hide BestFirst; hide Enabled;
    InvShaped(k);
    EnabledCaller(k, DoKill(p));
    KillFirst(k, p);
    RetvalInv(k, p, KILL_RETVAL);
    var k1 := Put(k, p, k.procs[p].(retvalue := KILL_RETVAL));
    ForfeitCore(k1, p);
    var id, k2 := k.procs[p].semBlocked, Forfeit(k1, p);
    StableOk(k1, {k.cur});
    MortalKept(k1.procs, k2.procs, k.semUsed, p, id);
    KillEnd(k2, {p}, p);
    var k' := Kill(k, p);
    ForfeitBest(k1, p);
    KilledBlocked(k1.procs, k2.procs, k'.procs, p, id);
    var left1 := k1.procs[p := k1.procs[p].(semBlocked := -1)];
    ForfeitBlocked(k.procs, p);
    BestSame(k.procs[p := k.procs[p].(semBlocked := -1)], left1, k2.procs, k'.procs, p, id);
  }

  lemma ForfeitBest(k: Kernel, p: int)
    requires Inv(k) && IsPid(k.cur) && IsPid(p) && k.procs[p].state == SEM_BLOCKED
    ensures BestFirst(k.procs[p := k.procs[p].(semBlocked := -1)], Forfeit(k, p).procs, k.procs[p].semBlocked)
  {
    hide Partition; hide AllOk; hide Ordered; hide Idle; hide SemLists; hide NoStranded; hide Released;
    hide ReleaseN; hide Blocked; hide GarbageOk; hide BestFirst;
    var id := k.procs[p].semBlocked;
    BlockedUsed(k.procs, k.semUsed, p);
    InvSem(k, id);
    ForfeitBlocked(k.procs, p);
    ForfeitOk(k.procs, k.semUsed, p, k.garbage);
    var r := k.procs[p].(semBlocked := -1);
    PutSameQueues(k.queues, k.procs, {k.cur}, p, r);
    var k2 := SetValue(Put(k, p, r), id, k.semValue[id] + 1);
    ReleaseNBestFirst(k2, {k.cur}, {p}, id, 1, 0);
  }

  /** The order of waking does not depend on return values, nor on what happens after it. */
  lemma BestSame(a: seq<Process>, b: seq<Process>, c: seq<Process>, d: seq<Process>, p: int, id: int)
    requires 0 <= p < |a| && b == a[p := a[p].(retvalue := KILL_RETVAL)] && BestFirst(b, c, id)
    requires |d| == |c| && Blocked(d, id) == Blocked(c, id)
    ensures BestFirst(a, d, id)
  {
    assert Blocked(a, id) == Blocked(b, id);
  }
}

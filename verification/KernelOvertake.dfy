/**
  Calls after which a runnable process may stand above the running one, because they make a process
  runnable and do not reschedule: `start` called by idle, and `kill` of another process, which can
  wake its father and, through `signal_death`, one waiter of its semaphore.
*/
module KernelOvertake {
  import opened OrderedQueue
  import opened SetFacts
  import opened KernelModel
  import opened KernelInvariant
  import opened KernelSemaphores
  import opened KernelLife
  import opened KernelKill
  import opened KernelRuns
  import opened KernelOrder
  import opened KernelTheorems

  /** The event makes a process runnable that is above the running one, without rescheduling. */
  ghost predicate Overtakes(k: Kernel, e: Event)
    requires Shaped(k)
  {
    && IsPid(k.cur)
    && (|| (e.DoStart? && k.cur == 0 && StartsAbove(k, e.prio))
        || (e.DoKill? && Victim(k, e) != -1 && e.pid != k.cur && (WakesAbove(k, e.pid) || ReleasesAbove(k, e.pid))))
  }

  /** The start is accepted and the new process has a higher priority than the running one. */
  ghost predicate StartsAbove(k: Kernel, prio: int)
    requires Shaped(k) && IsPid(k.cur)
  {
    1 <= prio <= MAXPRIO && k.queues[FREEPID] != [] && k.procs[k.cur].prio < prio
  }

  /** The father of p waits for it and has a higher priority than the running process. */
  ghost predicate WakesAbove(k: Kernel, p: int)
    requires Shaped(k) && IsPid(k.cur) && IsPid(p)
  {
    var f := k.procs[p].father;
    Waits(k.procs, f, p) && k.procs[k.cur].prio < k.procs[f].prio
  }

  /** p waits for a semaphore for which a process above the running one waits, too. */
  ghost predicate ReleasesAbove(k: Kernel, p: int)
    requires Shaped(k) && IsPid(k.cur) && IsPid(p)
  {
    k.procs[p].state == SEM_BLOCKED && WaiterAbove(k.procs, k.procs[p].semBlocked, p, k.procs[k.cur].prio)
  }

  ghost predicate WaiterAbove(procs: seq<Process>, id: int, p: int, c: int) {
    exists w :: w in Blocked(procs, id) && w != p && c < procs[w].prio
  }

  /** All runnable processes have at most the priority c. */
  ghost predicate AtMost(procs: seq<Process>, c: int) {
    forall q :: 0 <= q < |procs| && procs[q].state == ACTIONABLE ==> procs[q].prio <= c
  }

  /** The same processes are runnable, with the same priorities. */
  ghost predicate SameRunnable(a: seq<Process>, b: seq<Process>) {
    && |a| == |b|
    && forall q :: 0 <= q < |a| ==> a[q].prio == b[q].prio && (a[q].state == ACTIONABLE <==> b[q].state == ACTIONABLE)
  }

  /** `signal_death` wakes a highest priority waiter: one above c exactly when there is one. */
  lemma ForfeitAboveIff(k: Kernel, p: int, c: int)
    requires Inv(k) && IsPid(k.cur) && IsPid(p) && k.procs[p].state == SEM_BLOCKED && AtMost(k.procs, c)
    ensures AtMost(Forfeit(k, p).procs, c) <==> !WaiterAbove(k.procs, k.procs[p].semBlocked, p, c)
  {
    hide Core; hide NoStranded; hide GarbageOk; hide Blocked; hide Forfeit; hide BestFirst; hide Released;
    InvShaped(k);
    ForfeitCore(k, p);
    ForfeitBest(k, p);
    ForfeitBlocked(k.procs, p);
    ReleasedAboveIff(k.procs, Forfeit(k, p).procs, k.procs[p].semBlocked, p, c);
  }

  lemma ReleasedAboveIff(a: seq<Process>, b: seq<Process>, id: int, p: int, c: int)
    requires 0 <= p < |a| && AtMost(a, c) && a[p].state == SEM_BLOCKED && a[p].semBlocked == id != -1
    requires var left := a[p := a[p].(semBlocked := -1)];
      && Released(left, b, id, 0) && BestFirst(left, b, id) && Blocked(left, id) == Blocked(a, id) - {p}
    requires |Blocked(b, id)| == if |Blocked(a, id)| >= 2 then |Blocked(a, id)| - 2 else 0
    ensures AtMost(b, c) <==> !WaiterAbove(a, id, p, c)
  {
    var left := a[p := a[p].(semBlocked := -1)];
    if w :| w in Blocked(a, id) && w != p && c < a[w].prio {
      assert p in Blocked(a, id) && |Blocked(left, id)| == |Blocked(a, id)| - 1;
      var r := OneLeft(left, b, id, w);
      assert c < b[r].prio;
    } else {
      forall q | 0 <= q < |b| && b[q].state == ACTIONABLE ensures b[q].prio <= c {
        if b[q] != left[q] {
          assert q in Blocked(left, id);
        }
      }
    }
  }

  /** If fewer wait than before, one that was released is at least as high as any waiter w. */
  lemma OneLeft(a: seq<Process>, b: seq<Process>, id: int, w: int) returns (r: int)
    requires Released(a, b, id, 0) && BestFirst(a, b, id) && w in Blocked(a, id)
    requires |Blocked(b, id)| < |Blocked(a, id)|
    ensures 0 <= r < |b| && b[r].state == ACTIONABLE && b[r].prio >= a[w].prio
  {
    if w !in Blocked(b, id) {
      r := w;
    } else {
      ReleasedOthers(a, b, id, 0);
      r := OneMissing(Blocked(a, id), Blocked(b, id));
    }
  }

  lemma OneMissing(a: set<int>, b: set<int>) returns (x: int)
    requires |b| < |a|
    ensures x in a && x !in b
  {
    if forall y :: y in a ==> y in b {
      assert a <= b;
      SubsetSize(a, b);
      assert false;
    }
    x :| x in a && x !in b;
  }

  // ----- a death -----

  lemma {:induction false} BuryRunnable(k: Kernel, f: int, i: nat)
    requires Shaped(k) && IsPid(f) && i <= NB_PROCESS
    ensures SameRunnable(k.procs, BuryChildren(k, f, i).procs)
    decreases NB_PROCESS - i
  {
    hide Add; hide Remove;
    if i < NB_PROCESS {
      if k.procs[i].father == f && k.procs[i].state == ZOMBIE && i != f {
        BuryRunnable(FreePid(Dequeue(k, i), i), f, i + 1);
      } else {
        BuryRunnable(k, f, i + 1);
      }
    }
  }

  lemma CollectRunnable(k: Kernel)
    requires Shaped(k) && |k.garbage| == 1 && k.procs[k.garbage[0]].state == ZOMBIE
    ensures SameRunnable(k.procs, GarbageCollect(k).procs)
  {
    hide Add; hide Remove;
    var d := k.garbage[0];
    var k1 := k.(garbage := k.garbage[..|k.garbage| - 1]);
    var k2 := if k1.procs[d].father == 0 then FreePid(Dequeue(k1, d), d) else k1;
    assert k2.garbage == [];
  }

  /** A death makes its waiting father runnable and nobody else. */
  lemma DieAboveIff(k: Kernel, p: int, retval: int, c: int)
    requires Shaped(k) && IsPid(p) && k.procs[p].father != p
    requires var f := k.procs[p].father; Waits(k.procs, f, p) ==> f in k.queues[WAITING_CHILD]
    requires k.procs[p].state == ACTIONABLE ==> k.procs[p].prio <= c
    ensures var f := k.procs[p].father;
      AtMost(Die(k, p, retval).procs, c) <==>
        AtMost(k.procs, c) && (Waits(k.procs, f, p) ==> k.procs[f].prio <= c)
    ensures Prios(Die(k, p, retval).procs) == Prios(k.procs)
  {
    hide Add; hide Position; hide BuryChildren; hide Remove; hide AtMost;
    var f := k.procs[p].father;
    var z := k.procs[p].(retvalue := retval, alarmTime := k.clock, state := ZOMBIE);
    var k1 := Put(k, p, z);
    var k2 := Enqueue(k1, p, ZOMBIE, Alarms(k1.procs));
    var k3 := ReportFather(k2, p);
    assert Waits(k1.procs, f, p) == Waits(k.procs, f, p);
    BuryRunnable(k3, p, 0);
    var k4 := BuryChildren(k3, p, 0);
    OrphansRunnable(k4.procs, p);
    ReportAboveIff(k.procs, k3.procs, p, z, c);
    SameAtMost(k3.procs, k4.procs, c);
    SameAtMost(k4.procs, Orphaned(k4.procs, p), c);
  }

  lemma OrphansRunnable(procs: seq<Process>, p: int)
    ensures SameRunnable(procs, Orphaned(procs, p))
  {
  }

  lemma ReportAboveIff(a: seq<Process>, b: seq<Process>, p: int, z: Process, c: int)
    requires |a| == NB_PROCESS && IsPid(p) && IsPid(a[p].father) && z.father == a[p].father != p && z.state == ZOMBIE
    requires b == Reported(a[p := z], p) && (a[p].state == ACTIONABLE ==> a[p].prio <= c)
    ensures AtMost(b, c) <==> AtMost(a, c) && (Waits(a, a[p].father, p) ==> a[a[p].father].prio <= c)
  {
    var f := a[p].father;
    if AtMost(b, c) {
      forall q | 0 <= q < |a| && a[q].state == ACTIONABLE ensures a[q].prio <= c {
        assert q != p ==> b[q].prio == a[q].prio && b[q].state == ACTIONABLE;
      }
      assert Waits(a, f, p) ==> b[f].state == ACTIONABLE && b[f].prio == a[f].prio;
    }
  }

  lemma SameAtMost(a: seq<Process>, b: seq<Process>, c: int)
    requires SameRunnable(a, b)
    ensures AtMost(a, c) <==> AtMost(b, c)
  {
    assert forall q :: 0 <= q < |a| ==> a[q].prio == b[q].prio;
  }

  lemma RetvalRunnable(a: seq<Process>, p: int, id: int, c: int)
    requires 0 <= p < |a|
    ensures var b := a[p := a[p].(retvalue := KILL_RETVAL)];
      SameRunnable(a, b) && (WaiterAbove(a, id, p, c) <==> WaiterAbove(b, id, p, c))
  {
    var b := a[p := a[p].(retvalue := KILL_RETVAL)];
    assert Blocked(b, id) == Blocked(a, id);
  }

  /** What is runnable once the victim is out of its queue and its token given back. */
  lemma RemovedAboveIff(k: Kernel, p: int)
    requires Inv(k) && IsPid(k.cur) && 0 < p < NB_PROCESS && p != k.cur && Live(k.procs[p])
    requires AtMost(k.procs, k.procs[k.cur].prio)
    ensures var k', c := Removed(k, p), k.procs[k.cur].prio;
      && (AtMost(k'.procs, c) <==> !ReleasesAbove(k, p)) && (k'.procs[p].state == ACTIONABLE ==> k'.procs[p].prio <= c)
  {
    hide Core; hide NoStranded; hide GarbageOk; hide SignalDeath; hide Released; hide Blocked; hide WaiterAbove;
    hide Remove;
    InvShaped(k);
    var c, id := k.procs[k.cur].prio, k.procs[p].semBlocked;
    var k1 := Put(k, p, k.procs[p].(retvalue := KILL_RETVAL));
    RetvalInv(k, p, KILL_RETVAL);
    RetvalRunnable(k.procs, p, id, c);
    SameAtMost(k.procs, k1.procs, c);
    if k.procs[p].state == SEM_BLOCKED {
      ForfeitCore(k1, p);
      ForfeitAboveIff(k1, p, c);
    }
  }

  /** After `kill` of another process the running process, if it had maximal priority, still has it
      if and only if the kill wakes neither a father nor a waiter above it. */
  lemma KillAboveIff(k: Kernel, p: int)
    requires Inv(k) && IsPid(k.cur) && k.cur != 0 && 0 < p < NB_PROCESS && p != k.cur && Live(k.procs[p])
    requires AtMost(k.procs, k.procs[k.cur].prio)
    ensures AtMost(Kill(k, p).procs, k.procs[k.cur].prio) <==> !WakesAbove(k, p) && !ReleasesAbove(k, p)
    ensures Kill(k, p).cur == k.cur && Kill(k, p).procs[k.cur].prio == k.procs[k.cur].prio
  {
    hide Inv; hide Die; hide GarbageCollect; hide InOrder; hide AtMost; hide ReleasesAbove; hide Removed;
    InvShaped(k);
    var c := k.procs[k.cur].prio;
    RemovedParts(k, p);
    RemovedAboveIff(k, p);
    var k3 := Removed(k, p);
    var k4 := Die(k3, p, KILL_RETVAL);
    KillParts(k, p);
    assert Prios(k3.procs)[k3.procs[p].father] == Prios(k.procs)[k.procs[p].father];
    DieAboveIff(k3, p, KILL_RETVAL, c);
    DieGarbage(k3, p, KILL_RETVAL);
    CollectRunnable(k4);
    SameAtMost(k4.procs, GarbageCollect(k4).procs, c);
    CollectSame(k4);
    assert Prios(Kill(k, p).procs)[k.cur] == Prios(k.procs)[k.cur];
  }

  lemma KillParts(k: Kernel, p: int)
    requires Shaped(k) && IsPid(k.cur) && 0 < p < NB_PROCESS && p != k.cur && Live(k.procs[p])
    ensures Kill(k, p) == GarbageCollect(Die(Removed(k, p), p, KILL_RETVAL))
  {
    hide Die; hide GarbageCollect; hide Forfeit; hide Dequeue;
  }
}

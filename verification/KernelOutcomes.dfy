/**
  What becomes of the processes concerned by `start`, `exit`, `kill`, `waitpid` and the collector
  (kernel/process_handler.c:301-461, 514-604, 668-811).
*/
module KernelOutcomes {
  import opened OrderedQueue
  import opened KernelModel
  import opened KernelInvariant
  import opened KernelSemaphores
  import opened KernelLife
  import opened KernelKill
  import opened KernelRuns
  import opened KernelOrder
  import opened KernelOvertake

  lemma WokenRest(a: seq<Process>, b: seq<Process>, clock: int, p: int)
    requires OnlyWoken(a, b, clock) && 0 <= p < |a| && a[p].state != ASLEEP
    ensures b[p] == a[p]
  {
  }

  // ----- start -----

  /** The new process has the lowest free pid, the given priority and the caller as father, and it
      is runnable; nobody else changes except sleepers whose alarm is due. */
  lemma StartGives(k: Kernel, prio: int)
    requires Inv(k) && IsPid(k.cur) && 1 <= prio <= MAXPRIO && k.queues[FREEPID] != []
    ensures var p, k' := k.queues[FREEPID][0], Start(k, prio);
      && IsPid(p) && k.procs[p].state == FREEPID && (forall q :: 0 <= q < p ==> k.procs[q].state != FREEPID)
      && k'.procs[p].state == ACTIONABLE && k'.procs[p].prio == prio && k'.procs[p].father == k.cur
      && k'.procs[p].pending == UserMode
      && OnlyWoken(k.procs[p := k'.procs[p]], k'.procs, k.clock)
  {
    hide Partition; hide AllOk; hide Ordered; hide Idle; hide SemLists; hide NoStranded; hide GarbageOk; hide Add;
    hide Scheduler; hide OnlyWoken; hide Quiet;
    var p := k.queues[FREEPID][0];
    StartQueues(k.queues, k.procs, k.cur, k.procs[k.cur]);
    LowestFree(k.queues, k.procs, {k.cur}, k.cur);
    var r := k.procs[p].(alarmTime := 0, prio := prio, retvalue := 0, state := ACTIONABLE,
                         childWaited := 0, father := k.cur, pending := UserMode);
    StartQueues(k.queues, k.procs, k.cur, r);
    StartRest(k.procs, k.garbage, p, r);
    StartOk(k.procs, k.semUsed, p, k.cur, r);
    QuietStranded(k.procs, k.procs[p := r], p, k.semUsed, k.semValue);
    var k2 := Put(k.(queues := k.queues[FREEPID := k.queues[FREEPID][1..]]), p, r);
    var k3 := Enqueue(k2, p, ACTIONABLE, Prios(k2.procs));
    YieldInv(k3);
    WokenSelf(k3.procs, k.clock);
    WokenRest(k3.procs, Scheduler(k3).procs, k.clock, p);
  }

  lemma LowestFree(queues: seq<seq<int>>, procs: seq<Process>, D: set<int>, c: int)
    requires Partition(queues, procs, D) && Ordered(queues, procs) && queues[FREEPID] != []
    requires D == {c} && IsPid(c) && procs[c].state != FREEPID
    ensures forall q :: 0 <= q < queues[FREEPID][0] ==> procs[q].state != FREEPID
  {
    var free := queues[FREEPID];
    assert IsPid(free[0]);
    forall q | 0 <= q < NB_PROCESS && procs[q].state == FREEPID ensures free[0] <= q {
      assert IsPid(q) && q in free;
    }
  }

  // ----- chprio -----

  /** `chprio` with acceptable arguments gives the process the new priority and changes nobody else
      but due sleepers; otherwise it does nothing. */
  lemma ChPrioOutcome(k: Kernel, p: int, n: int)
    requires Inv(k) && IsPid(k.cur)
    ensures var k' := ChPrio(k, p, n);
      if IsPid(p) && Live(k.procs[p]) && 1 <= n <= MAXPRIO
      then k'.procs[p].prio == n && OnlyWoken(k.procs[p := k.procs[p].(prio := n)], k'.procs, k.clock)
      else k' == k
  {
    hide Core; hide NoStranded; hide GarbageOk; hide Scheduler; hide Quiet; hide GetPrio; hide Enqueue; hide Dequeue;
    hide OnlyWoken;
    InvShaped(k);
    ChPrioInv(k, p, n);
    if IsPid(p) && Live(k.procs[p]) && 1 <= n <= MAXPRIO {
      WokenPrio(k.procs[p := k.procs[p].(prio := n)], ChPrio(k, p, n).procs, k.clock, p);
    }
  }

  lemma WokenPrio(a: seq<Process>, b: seq<Process>, clock: int, p: int)
    requires OnlyWoken(a, b, clock) && 0 <= p < |a|
    ensures b[p].prio == a[p].prio
  {
  }

  // ----- death -----

  /** What a death makes of the children of the dead process. */
  ghost predicate ChildrenLeft(a: seq<Process>, b: seq<Process>, p: int) {
    && |a| == |b|
    && forall c :: 0 <= c < |a| && c != p && a[c].father == p ==>
         && (a[c].state == ZOMBIE ==> b[c].state == FREEPID)
         && (Live(a[c]) ==> Live(b[c]) && b[c].father == 0)
  }

  lemma DieOutcome(k: Kernel, D: set<int>, X: set<int>, p: int, retval: int)
    requires Core(k, D, X, -1) && X <= {p} && p in D && Mortal(k.procs, p) && k.garbage == []
    requires forall x :: x in D && x != p ==> IsPid(x) && k.procs[x].state == ACTIONABLE
    ensures Shaped(k)
    ensures var k' := Die(k, p, retval);
      && ChildrenLeft(k.procs, k'.procs, p) && k'.procs[p].state == ZOMBIE && k'.procs[p].retvalue == retval
      && k'.procs[p].father == k.procs[p].father
  {
    hide Partition; hide AllOk; hide Ordered; hide Idle; hide SemLists; hide Quiet; hide BuryChildren;
    hide ReportFather; hide Enqueue; hide Orphaned;
    var z := k.procs[p].(retvalue := retval, alarmTime := k.clock, state := ZOMBIE);
    DieFirst(k, D, X, p, z);
    var k1 := Put(k, p, z);
    var k2 := ReportFather(Enqueue(k1, p, ZOMBIE, Alarms(k1.procs)), p);
    BuryCore(k2, D - {p}, p, 0);
    var k3 := BuryChildren(k2, p, 0);
    MortalFather(k.procs, p);
    ReportKeeps(k, X, p, z);
    LeftAlone(k.procs, k2.procs, k3.procs, p);
  }

  /** Telling the father wakes it at most; nobody else changes. */
  lemma ReportKeeps(k: Kernel, X: set<int>, p: int, z: Process)
    requires AllOk(k.procs, k.semUsed, X, -1) && X <= {p} && Mortal(k.procs, p) && z.father == k.procs[p].father
    ensures IsPid(z.father)
    ensures forall c :: 0 <= c < NB_PROCESS && c != p ==>
      var a, b := k.procs[c], Reported(k.procs[p := z], p)[c];
      b.father == a.father && (Live(a) ==> Live(b)) && (!Live(a) ==> b == a)
  {
    FatherWaits(k.procs, k.semUsed, X, p);
    hide AllOk;
  }

  lemma LeftAlone(a: seq<Process>, b: seq<Process>, c: seq<Process>, p: int)
    requires |a| == |b| == |c| == NB_PROCESS && IsPid(p) && b[p].father != p
    requires forall x :: 0 <= x < NB_PROCESS && x != p ==>
      b[x].father == a[x].father && (Live(a[x]) ==> Live(b[x])) && (!Live(a[x]) ==> b[x] == a[x])
    requires forall x :: 0 <= x < NB_PROCESS && x != p ==> !(c[x].state == ZOMBIE && c[x].father == p)
    requires forall x :: 0 <= x < NB_PROCESS ==>
      c[x] == b[x] || (x != p && b[x].state == ZOMBIE && c[x] == Blank(b[x]))
    ensures ChildrenLeft(a, Orphaned(c, p), p) && Orphaned(c, p)[p] == b[p]
  {
  }

  /** Who is concerned by a death: the dead process, its father, its children. */
  predicate Kin(procs: seq<Process>, p: int, x: int)
    requires 0 <= p < |procs| && 0 <= x < |procs|
  {
    x == p || x == procs[p].father || procs[x].father == p
  }

  /** A father that waits is woken and learns whose death it was. */
  ghost predicate FatherTold(a: seq<Process>, b: seq<Process>, p: int)
    requires |a| == |b| == NB_PROCESS && IsPid(p) && IsPid(a[p].father)
  {
    var f := a[p].father;
    Waits(a, f, p) ==> b[f].state == ACTIONABLE && b[f].childWaited == p
  }

  lemma {:induction false} BuryOnly(k: Kernel, f: int, i: nat)
    requires Shaped(k) && IsPid(f) && i <= NB_PROCESS
    ensures var k' := BuryChildren(k, f, i); forall x :: 0 <= x < NB_PROCESS ==>
      k'.procs[x] == k.procs[x] || (k.procs[x].father == f && k.procs[x].state == ZOMBIE)
    decreases NB_PROCESS - i
  {
    hide Add; hide Remove;
    if i < NB_PROCESS {
      if k.procs[i].father == f && k.procs[i].state == ZOMBIE && i != f {
        BuryOnly(FreePid(Dequeue(k, i), i), f, i + 1);
      } else {
        BuryOnly(k, f, i + 1);
      }
    }
  }

  /** A death changes nobody but the kin, and tells the father. */
  lemma DieTells(k: Kernel, p: int, retval: int)
    requires Shaped(k) && IsPid(p) && k.procs[p].father != p
    requires Waits(k.procs, k.procs[p].father, p) ==> k.procs[p].father in k.queues[WAITING_CHILD]
    ensures var k' := Die(k, p, retval);
      && FatherTold(k.procs, k'.procs, p)
      && forall x :: 0 <= x < NB_PROCESS && !Kin(k.procs, p, x) ==> k'.procs[x] == k.procs[x]
  {
    hide Add; hide Remove; hide BuryChildren;
    var z := k.procs[p].(retvalue := retval, alarmTime := k.clock, state := ZOMBIE);
    var k1 := Put(k, p, z);
    var k2 := ReportFather(Enqueue(k1, p, ZOMBIE, Alarms(k1.procs)), p);
    BuryOnly(k2, p, 0);
  }

  /** `exit`: the caller is a zombie with its return value, handed to the collector; its dead
      children are freed and the living ones have idle as father. */
  lemma ExitOutcome(k: Kernel, retval: int)
    requires Inv(k) && IsPid(k.cur) && k.cur != 0
    ensures var k' := Exit(k, retval);
      && k'.cur == PID_GARBAGE && k'.garbage == [k.cur] && ChildrenLeft(k.procs, k'.procs, k.cur)
      && k'.procs[k.cur].state == ZOMBIE && k'.procs[k.cur].retvalue == retval
      && FatherTold(k.procs, k'.procs, k.cur)
      && forall x :: 0 <= x < NB_PROCESS && !Kin(k.procs, k.cur, x) && k.procs[x].state != ASLEEP ==>
           k'.procs[x] == k.procs[x]
  {
    hide Core; hide NoStranded; hide GarbageOk; hide Die; hide Scheduler; hide OnlyWoken; hide Mortal;
    hide ChildrenLeft;
    hide Quiet;
    InvShaped(k);
    var p := k.cur;
    MortalRunning(k, p);
    ExitTells(k, retval);
    DieStable(k, {p}, {}, p, retval);
    assert {p} - {p} == {};
    DieOutcome(k, {p}, {}, p, retval);
    var k1 := Die(k, p, retval);
    SchedulerInv(k1);
    ExitInv(k, retval);
    WokenRest(k1.procs, Scheduler(k1).procs, k.clock, p);
    LeftWoken(k.procs, k1.procs, Scheduler(k1).procs, p, k.clock);
    ToldWoken(k.procs, k1.procs, Scheduler(k1).procs, p, k.clock);
  }

  lemma ExitTells(k: Kernel, retval: int)
    requires Inv(k) && IsPid(k.cur) && k.cur != 0 && Mortal(k.procs, k.cur)
    ensures var k' := Die(k, k.cur, retval);
      && FatherTold(k.procs, k'.procs, k.cur)
      && forall x :: 0 <= x < NB_PROCESS && !Kin(k.procs, k.cur, x) ==> k'.procs[x] == k.procs[x]
  {
    hide Partition; hide AllOk; hide Ordered; hide Idle; hide SemLists; hide NoStranded; hide GarbageOk; hide Die;
    hide Mortal;
    var p := k.cur;
    MortalFather(k.procs, p);
    FatherWaits(k.procs, k.semUsed, {}, p);
    var f := k.procs[p].father;
    if Waits(k.procs, f, p) {
      FatherQueued(k.queues, k.procs, {p}, f);
    }
    DieTells(k, p, retval);
  }

  lemma ToldWoken(a: seq<Process>, b: seq<Process>, c: seq<Process>, p: int, clock: int)
    requires |a| == |b| == NB_PROCESS && IsPid(p) && IsPid(a[p].father) && FatherTold(a, b, p) && OnlyWoken(b, c, clock)
    requires forall x :: 0 <= x < NB_PROCESS && !Kin(a, p, x) ==> b[x] == a[x]
    ensures FatherTold(a, c, p)
    ensures forall x :: 0 <= x < NB_PROCESS && !Kin(a, p, x) && a[x].state != ASLEEP ==> c[x] == a[x]
  {
  }

  /** `kill` of another living process: the victim is a zombie with return value 0, or freed at once
      when its father is idle; children, father and bystanders as for `exit`, except that one waiter
      of the victim's semaphore may be released. */
  lemma KillOutcome(k: Kernel, p: int)
    requires Inv(k) && Enabled(k, DoKill(p)) && 0 < p < NB_PROCESS && p != k.cur && Live(k.procs[p])
    ensures var k' := Kill(k, p);
      && k'.cur == k.cur && k'.procs[p].state == (if k.procs[p].father == 0 then FREEPID else ZOMBIE)
      && k'.procs[p].retvalue == 0 && ChildrenLeft(k.procs, k'.procs, p) && FatherTold(k.procs, k'.procs, p)
      && forall x :: 0 <= x < NB_PROCESS && !Kin(k.procs, p, x) && !SharesWait(k.procs, p, x) ==>
           k'.procs[x] == k.procs[x]
  {
    hide Inv; hide Enabled; hide Die; hide GarbageCollect; hide Removed; hide ChildrenLeft; hide Kin; hide FatherTold;
    InvShaped(k);
    EnabledCaller(k, DoKill(p));
    RemovedParts(k, p);
    RemovedRest(k, p);
    KillParts(k, p);
    var k3 := Removed(k, p);
    KillLeft(k, p);
    DieTells(k3, p, KILL_RETVAL);
    DieGarbage(k3, p, KILL_RETVAL);
    var k4 := Die(k3, p, KILL_RETVAL);
    Collected(k4);
    CollectSame(k4);
    KilledAll(k.procs, k3.procs, k4.procs, GarbageCollect(k4).procs, p);
  }

  /** `kill` of idle or of no process does nothing.  `kill` of a dead process, which fails, replaces
      the value its father is going to get by 0. */
  lemma KillRefused(k: Kernel, p: int)
    requires Inv(k) && Enabled(k, DoKill(p)) && !(0 < p < NB_PROCESS && Live(k.procs[p]))
    ensures Kill(k, p) == if 0 < p < NB_PROCESS then k.(procs := k.procs[p := k.procs[p].(retvalue := 0)]) else k
  {
    hide Core; hide NoStranded; hide GarbageOk; hide Die; hide GarbageCollect; hide Forfeit; hide Exit;
    InvShaped(k);
  }

  lemma RemovedCore(k: Kernel, p: int)
    requires Inv(k) && IsPid(k.cur) && 0 < p < NB_PROCESS && p != k.cur && Live(k.procs[p])
    ensures Shaped(k)
    ensures var k' := Removed(k, p);
      && Core(k', {k.cur} + {p}, {p}, -1) && Mortal(k'.procs, p) && k'.garbage == []
      && k'.procs[k.cur].state == ACTIONABLE
  {
    hide Core; hide NoStranded; hide GarbageOk; hide Forfeit; hide Dequeue; hide Mortal; hide InOrder;
    InvShaped(k);
    RetvalInv(k, p, KILL_RETVAL);
    var k1 := Put(k, p, k.procs[p].(retvalue := KILL_RETVAL));
    ForfeitParts(k1, p);
    DequeueCore(Forfeit(k1, p), {k.cur}, {p}, -1, p);
  }

  lemma KillLeft(k: Kernel, p: int)
    requires Inv(k) && IsPid(k.cur) && 0 < p < NB_PROCESS && p != k.cur && Live(k.procs[p])
    ensures Shaped(k)
    ensures var k3 := Removed(k, p); var k4 := Die(k3, p, KILL_RETVAL);
      && ChildrenLeft(k3.procs, k4.procs, p) && k4.procs[p].state == ZOMBIE && k4.procs[p].retvalue == 0
      && k4.procs[p].father == k3.procs[p].father
  {
    hide Inv; hide Core; hide Removed; hide Mortal; hide Die; hide ChildrenLeft;
    InvShaped(k);
    RemovedCore(k, p);
    DieOutcome(Removed(k, p), {k.cur} + {p}, {p}, p, KILL_RETVAL);
  }

  /** The parts of a `kill` together. */
  lemma KilledAll(a: seq<Process>, b: seq<Process>, c: seq<Process>, d: seq<Process>, p: int)
    requires |a| == |b| == |c| == |d| == NB_PROCESS && IsPid(p) && IsPid(a[p].father) && a[p].father != p
    requires Apart(a, b, p) && ChildrenLeft(b, c, p) && FatherTold(b, c, p) && c[p].father == b[p].father
    requires forall x :: 0 <= x < NB_PROCESS && !Kin(b, p, x) ==> c[x] == b[x]
    requires forall x :: 0 <= x < NB_PROCESS ==> d[x] == if x == p && c[p].father == 0 then Blank(c[p]) else c[x]
    ensures ChildrenLeft(a, d, p) && FatherTold(a, d, p)
    ensures forall x :: 0 <= x < NB_PROCESS && !Kin(a, p, x) && !SharesWait(a, p, x) ==> d[x] == a[x]
  {
    forall x | 0 <= x < NB_PROCESS && x != p
      ensures b[x].father == a[x].father && (b[x] == a[x] || b[x] == Freed(a[x], 0))
    {
      assert SharesWait(a, p, x) || b[x] == a[x];
    }
  }

  /** p and x wait for the same semaphore. */
  predicate SharesWait(procs: seq<Process>, p: int, x: int)
    requires 0 <= p < |procs| && 0 <= x < |procs|
  {
    procs[p].state == SEM_BLOCKED && procs[x].state == SEM_BLOCKED && procs[x].semBlocked == procs[p].semBlocked
  }

  /** Until the victim is out of its queue nobody changes but the victim and a waiter. */
  ghost predicate Apart(a: seq<Process>, b: seq<Process>, p: int)
    requires |a| == |b| == NB_PROCESS && IsPid(p)
  {
    && b[p].father == a[p].father
    && forall x :: 0 <= x < NB_PROCESS && x != p ==>
         if SharesWait(a, p, x) then b[x] == a[x] || b[x] == Freed(a[x], 0) else b[x] == a[x]
  }

  lemma RemovedRest(k: Kernel, p: int)
    requires Inv(k) && IsPid(k.cur) && IsPid(p) && p != k.cur
    ensures Shaped(k) && Apart(k.procs, Removed(k, p).procs, p)
  {
    hide Core; hide NoStranded; hide GarbageOk; hide Remove; hide SignalDeath; hide Released;
    InvShaped(k);
    RetvalInv(k, p, KILL_RETVAL);
    var k1 := Put(k, p, k.procs[p].(retvalue := KILL_RETVAL));
    if k.procs[p].state == SEM_BLOCKED {
      ForfeitCore(k1, p);
      ReleasedApart(k1.procs, Forfeit(k1, p).procs, p);
    }
  }

  lemma ReleasedApart(a: seq<Process>, b: seq<Process>, p: int)
    requires |a| == |b| == NB_PROCESS && IsPid(p) && a[p].state == SEM_BLOCKED && b[p] == a[p].(semBlocked := -1)
    requires Released(a[p := a[p].(semBlocked := -1)], b, a[p].semBlocked, 0)
    ensures Apart(a, b, p)
  {
  }

  lemma LeftWoken(a: seq<Process>, b: seq<Process>, c: seq<Process>, p: int, clock: int)
    requires ChildrenLeft(a, b, p) && OnlyWoken(b, c, clock)
    ensures ChildrenLeft(a, c, p)
  {
  }

  // ----- the collector -----

  /** The collector frees exactly the dead processes without father. */
  lemma CollectOutcome(k: Kernel)
    requires Inv(k) && k.cur == PID_GARBAGE
    ensures Shaped(k)
    ensures var k' := Scheduler(GarbageCollect(k));
      forall p :: 0 <= p < NB_PROCESS && k.procs[p].state != FREEPID ==>
        (k'.procs[p].state == FREEPID <==> k.procs[p].state == ZOMBIE && k.procs[p].father == 0)
  {
    hide Core; hide NoStranded; hide Scheduler; hide OnlyWoken; hide GarbageCollect; hide Quiet;
    InvShaped(k);
    CollectCore(k, {});
    Collected(k);
    OnlyGarbage(k);
    var k1 := GarbageCollect(k);
    SchedulerInv(k1);
    forall p | 0 <= p < NB_PROCESS && k.procs[p].state != FREEPID
      ensures Scheduler(k1).procs[p].state == FREEPID <==> k.procs[p].state == ZOMBIE && k.procs[p].father == 0
    {
      WokenState(k1.procs, Scheduler(k1).procs, k.clock, p);
    }
  }

  lemma WokenState(a: seq<Process>, b: seq<Process>, clock: int, p: int)
    requires OnlyWoken(a, b, clock) && 0 <= p < |a|
    ensures b[p].state == FREEPID <==> a[p].state == FREEPID
  {
  }

  lemma Collected(k: Kernel)
    requires Shaped(k) && |k.garbage| == 1
    ensures var d := k.garbage[0]; forall p :: 0 <= p < NB_PROCESS ==>
      GarbageCollect(k).procs[p] == if p == d && k.procs[d].father == 0 then Blank(k.procs[d]) else k.procs[p]
  {
    hide Add; hide Remove;
    var d := k.garbage[0];
    var k1 := k.(garbage := k.garbage[..|k.garbage| - 1]);
    var k2 := if k1.procs[d].father == 0 then FreePid(Dequeue(k1, d), d) else k1;
    assert k2.garbage == [] && GarbageCollect(k2) == k2;
  }

  lemma OnlyGarbage(k: Kernel)
    requires Inv(k) && k.cur == PID_GARBAGE
    ensures |k.garbage| == 1 && IsPid(k.garbage[0]) && k.procs[k.garbage[0]].state == ZOMBIE
    ensures forall p :: 0 <= p < NB_PROCESS && k.procs[p].state == ZOMBIE && k.procs[p].father == 0 ==>
      p == k.garbage[0]
  {
    hide Partition; hide AllOk; hide Ordered; hide SemLists; hide NoStranded;
    forall p | 0 <= p < NB_PROCESS && k.procs[p].state == ZOMBIE && k.procs[p].father == 0 ensures p == k.garbage[0] {
      assert IsPid(p);
    }
  }

  // ----- waitpid -----

  /** The arguments that `waitpid` refuses. */
  predicate Refused(k: Kernel, p: int)
    requires Shaped(k)
  {
    (p != -1 && (p <= 0 || p >= NB_PROCESS)) || !HasChild(k, k.cur) || (p >= 0 && !IsChild(k, p, k.cur))
  }

  /** The dead child that `waitpid` reaps, or -1. */
  function Corpse(k: Kernel, p: int, found: int): int
    requires Shaped(k)
  {
    if p == -1 then found else if IsPid(p) && k.procs[p].state == ZOMBIE then p else -1
  }

  /** `waitpid` with acceptable arguments frees a dead child and returns, or suspends the caller until
      that child, or any for -1, dies. */
  lemma WaitPidOutcome(k: Kernel, p: int, found: int)
    requires Inv(k) && Enabled(k, DoWaitPid(p, found))
    ensures Refused(k, p) ==> WaitPid(k, p, found) == k
    ensures !Refused(k, p) ==>
      var k', c := WaitPid(k, p, found), Corpse(k, p, found);
      if c != -1
      then ZombieChild(k, c, k.cur) && k'.cur == k.cur && k'.procs[c].state == FREEPID
      else k'.cur != k.cur && k'.procs[k.cur].state == WAITING_CHILD && k'.procs[k.cur].childWaited == p
  {
    hide Core; hide NoStranded; hide GarbageOk; hide Quiet; hide Reap; hide Scheduler; hide HasChild; hide OnlyWoken;
    InvShaped(k);
    if !Refused(k, p) {
      var c := Corpse(k, p, found);
      if c != -1 {
        AwaitCore(k, c);
        var k1 := Put(k, k.cur, k.procs[k.cur].(childWaited := c));
        ReapFrees(k1);
      } else {
        NotOwnChild(k, p);
        WaitPidInv(k, p, found);
        Suspends(k, p);
      }
    }
  }

  lemma ReapFrees(k: Kernel)
    requires IsPid(k.cur) && Core(k, {k.cur}, {k.cur}, -1)
    requires var c := k.procs[k.cur].childWaited; IsPid(c) && c != k.cur && k.procs[c].state == ZOMBIE
    ensures Reap(k).cur == k.cur && Reap(k).procs[k.procs[k.cur].childWaited].state == FREEPID
  {
    hide Add; hide Remove; hide Partition; hide AllOk; hide Ordered; hide Idle; hide SemLists;
    ZombieQueued(k.queues, k.procs, {k.cur}, k.procs[k.cur].childWaited);
  }

  lemma Suspends(k: Kernel, p: int)
    requires Inv(k) && IsPid(k.cur) && k.cur != 0
    requires var r := k.procs[k.cur].(childWaited := p, state := WAITING_CHILD, pending := InWaitPid);
      Shaped(k) && Inv(Scheduler(Enqueue(Put(k, k.cur, r), k.cur, WAITING_CHILD, Numbers())))
    ensures var r := k.procs[k.cur].(childWaited := p, state := WAITING_CHILD, pending := InWaitPid);
      var k' := Scheduler(Enqueue(Put(k, k.cur, r), k.cur, WAITING_CHILD, Numbers()));
      k'.cur != k.cur && k'.procs[k.cur] == r
  {
    hide Partition; hide AllOk; hide Ordered; hide Idle; hide SemLists; hide NoStranded; hide GarbageOk; hide Add;
    hide WakeDue;
    var me := k.cur;
    var r := k.procs[me].(childWaited := p, state := WAITING_CHILD, pending := InWaitPid);
    var k1 := Enqueue(Put(k, me, r), me, WAITING_CHILD, Numbers());
    NotQueued(k.queues, k.procs, {me}, ASLEEP, me);
    WakeDueOutside(k1, me);
  }

  lemma {:induction false} WakeDueOutside(k: Kernel, p: int)
    requires Shaped(k) && IsPid(p) && p !in k.queues[ASLEEP]
    ensures WakeDue(k).procs[p] == k.procs[p]
    decreases |k.queues[ASLEEP]|
  {
    hide Add;
    var q := k.queues[ASLEEP];
    if q != [] && k.procs[q[0]].alarmTime < k.clock {
      assert WakeFirst(k).queues[ASLEEP] == q[1..];
      WakeDueOutside(WakeFirst(k), p);
    }
  }
}

/**
  Sleepers: between two steps of a run, a process whose alarm lies ahead stays asleep, whatever the
  others do, unless it is killed (kernel/process_handler.c:469-479, 1105-1120).
*/
module KernelSleep {
  import opened OrderedQueue
  import opened KernelModel
  import opened KernelInvariant
  import opened KernelSemaphores
  import opened KernelLife
  import opened KernelKill
  import opened KernelRuns
  import opened KernelOrder

  /** Between a and b, every sleeper other than x whose alarm is not before t has gone on sleeping. */
  ghost predicate SleepOn(a: seq<Process>, b: seq<Process>, t: int, x: int) {
    && |a| == |b|
    && forall p :: 0 <= p < |a| && p != x && a[p].state == ASLEEP && a[p].alarmTime >= t ==>
         b[p].state == ASLEEP && b[p].alarmTime == a[p].alarmTime
  }

  lemma SleepTrans(a: seq<Process>, b: seq<Process>, c: seq<Process>, t: int, x: int)
    requires SleepOn(a, b, t, x) && SleepOn(b, c, t, x)
    ensures SleepOn(a, c, t, x)
  {
  }

  lemma SleepWeaken(a: seq<Process>, b: seq<Process>, t: int, x: int)
    requires SleepOn(a, b, t, -1)
    ensures SleepOn(a, b, t, x)
  {
  }

  /** Changing one process that is not asleep, or the exempt one. */
  lemma PutSleep(a: seq<Process>, p: int, r: Process, t: int, x: int)
    requires 0 <= p < |a| && (p == x || a[p].state != ASLEEP)
    ensures SleepOn(a, a[p := r], t, x)
  {
  }

  lemma ReleasedSleep(a: seq<Process>, b: seq<Process>, id: int, wake: int, t: int)
    requires Released(a, b, id, wake)
    ensures SleepOn(a, b, t, -1)
  {
  }

  // ----- the scheduler -----

  lemma {:induction false} WakeDueSleep(k: Kernel)
    requires Shaped(k)
    ensures SleepOn(k.procs, WakeDue(k).procs, k.clock, -1) && WakeDue(k).clock == k.clock
    decreases |k.queues[ASLEEP]|
  {
    hide Add;
    var q := k.queues[ASLEEP];
    if q != [] && k.procs[q[0]].alarmTime < k.clock {
      WakeDueSleep(WakeFirst(k));
      SleepTrans(k.procs, WakeFirst(k).procs, WakeDue(k).procs, k.clock, -1);
    }
  }

  lemma SchedulerSleep(k: Kernel)
    requires Shaped(k)
    ensures SleepOn(k.procs, Scheduler(k).procs, k.clock, -1) && Scheduler(k).clock == k.clock
  {
    hide SleepOn; hide WakeDue; hide Add;
    WakeDueSleep(k);
  }

  lemma ThenSchedule(a: seq<Process>, k: Kernel)
    requires Shaped(k) && SleepOn(a, k.procs, k.clock, -1)
    ensures SleepOn(a, Scheduler(k).procs, k.clock, -1) && Scheduler(k).clock == k.clock
  {
    hide SleepOn; hide Scheduler;
    SchedulerSleep(k);
    SleepTrans(a, k.procs, Scheduler(k).procs, k.clock, -1);
  }

  // ----- semaphores -----

  /** A call that releases waiters and may reschedule. */
  lemma ReleaseSleep(k: Kernel, id: int, v: int, n: nat, wake: int)
    requires Inv(k) && IsPid(k.cur) && IsPid(id) && wake in {0, -3, -4}
    ensures Shaped(k)
    ensures var k1 := ReleaseN(SetValue(k, id, v), id, n, wake);
      && k1.clock == k.clock && SleepOn(k.procs, k1.procs, k.clock, -1)
      && Scheduler(k1).clock == k.clock && SleepOn(k.procs, Scheduler(k1).procs, k.clock, -1)
  {
    hide Core; hide NoStranded; hide Blocked; hide GarbageOk; hide ReleaseN; hide Released; hide SleepOn;
    hide Scheduler;
    InvShaped(k);
    CoreValue(k, {k.cur}, {}, -1, k.semValue[id := v]);
    ReleaseNCore(SetValue(k, id, v), {k.cur}, {}, -1, id, n, wake);
    var k1 := ReleaseN(SetValue(k, id, v), id, n, wake);
    ReleasedSleep(k.procs, k1.procs, id, wake, k.clock);
    ThenSchedule(k.procs, k1);
  }

  lemma SemSleep(k: Kernel, e: Event)
    requires Inv(k) && IsPid(k.cur) && Enabled(k, e) && (e.DoSignal? || e.DoSignalN? || e.DoSReset? || e.DoSDelete?)
    ensures Step(k, e).clock == k.clock && SleepOn(k.procs, Step(k, e).procs, k.clock, -1)
  {
    hide Inv; hide SleepOn; hide Enabled; hide Signal; hide SignalN; hide SReset; hide SDelete;
    InvShaped(k);
    SameSleep(k.procs, k.clock);
    if e.id in k.semUsed {
      IdInRange(k, e.id);
      match e
      case DoSignal(id) => SignalSleep(k, id);
      case DoSignalN(id, c) => SignalNSleep(k, id, c);
      case DoSReset(id, c) => ResetSleep(k, id, c);
      case DoSDelete(id) => DeleteSleep(k, id);
    } else {
      Unknown(k, e);
    }
  }

  lemma IdInRange(k: Kernel, id: int)
    requires Inv(k) && id in k.semUsed
    ensures IsPid(id)
  {
    InvSem(k, id);
  }

  lemma Unknown(k: Kernel, e: Event)
    requires Shaped(k) && Enabled(k, e) && (e.DoSignal? || e.DoSignalN? || e.DoSReset? || e.DoSDelete?)
    requires e.id !in k.semUsed
    ensures Step(k, e) == k
  {
  }

  lemma SignalSleep(k: Kernel, id: int)
    requires Inv(k) && IsPid(k.cur) && id in k.semUsed && IsPid(id)
    ensures Signal(k, id).clock == k.clock && SleepOn(k.procs, Signal(k, id).procs, k.clock, -1)
  {
    hide Core; hide NoStranded; hide GarbageOk; hide ReleaseN; hide SleepOn; hide Scheduler; hide FindBySem;
    hide GetPrio;
    InvShaped(k);
    SameSleep(k.procs, k.clock);
    ReleaseSleep(k, id, k.semValue[id] + 1, 1, 0);
  }

  lemma SignalNSleep(k: Kernel, id: int, c: short)
    requires Inv(k) && IsPid(k.cur) && id in k.semUsed && IsPid(id)
    ensures SignalN(k, id, c).clock == k.clock && SleepOn(k.procs, SignalN(k, id, c).procs, k.clock, -1)
  {
    hide Core; hide NoStranded; hide GarbageOk; hide ReleaseN; hide SleepOn; hide Scheduler;
    InvShaped(k);
    SameSleep(k.procs, k.clock);
    if c >= 0 {
      ReleaseSleep(k, id, k.semValue[id] + c, c, 0);
    }
  }

  lemma ResetSleep(k: Kernel, id: int, c: short)
    requires Inv(k) && IsPid(k.cur) && id in k.semUsed && IsPid(id)
    ensures SReset(k, id, c).clock == k.clock && SleepOn(k.procs, SReset(k, id, c).procs, k.clock, -1)
  {
    hide Core; hide NoStranded; hide GarbageOk; hide ReleaseN; hide SleepOn; hide Scheduler;
    InvShaped(k);
    SameSleep(k.procs, k.clock);
    if c >= 0 {
      ReleaseSleep(k, id, c, |k.queues[SEM_BLOCKED]|, -4);
    }
  }

  lemma DeleteSleep(k: Kernel, id: int)
    requires Inv(k) && IsPid(k.cur) && id in k.semUsed && IsPid(id)
    ensures SDelete(k, id).clock == k.clock && SleepOn(k.procs, SDelete(k, id).procs, k.clock, -1)
  {
    hide Core; hide NoStranded; hide GarbageOk; hide ReleaseN; hide SleepOn; hide Scheduler; hide Remove; hide Add;
    hide Blocked;
    InvShaped(k);
    RemoveIn(k.semUsed, id);
    var n, used, free := |k.queues[SEM_BLOCKED]|, Remove(k.semUsed, id), Add(k.semFree, Numbers(), id);
    ReleaseSleep(k, id, k.semValue[id], n, -3);
    assert SetValue(k, id, k.semValue[id]) == k;
    ReleaseCommutes(k, id, n, -3, used, free);
    var k1 := ReleaseN(k, id, n, -3).(semUsed := used, semFree := free);
    ThenSchedule(k.procs, k1);
  }

  lemma SameSleep(a: seq<Process>, t: int)
    ensures SleepOn(a, a, t, -1)
  {
  }

  // ----- processes -----

  lemma {:induction false} BurySleep(k: Kernel, f: int, i: nat, t: int)
    requires Shaped(k) && IsPid(f) && i <= NB_PROCESS
    ensures SleepOn(k.procs, BuryChildren(k, f, i).procs, t, -1) && BuryChildren(k, f, i).clock == k.clock
    decreases NB_PROCESS - i
  {
    hide Add; hide Remove;
    if i < NB_PROCESS {
      if k.procs[i].father == f && k.procs[i].state == ZOMBIE && i != f {
        var k1 := FreePid(Dequeue(k, i), i);
        BurySleep(k1, f, i + 1, t);
        SleepTrans(k.procs, k1.procs, BuryChildren(k, f, i).procs, t, -1);
      } else {
        BurySleep(k, f, i + 1, t);
      }
    }
  }

  lemma DieSleep(k: Kernel, p: int, retval: int, t: int)
    requires Shaped(k) && IsPid(p) && k.procs[p].father != p
    requires Waits(k.procs, k.procs[p].father, p) ==> k.procs[k.procs[p].father].state == WAITING_CHILD
    ensures SleepOn(k.procs, Die(k, p, retval).procs, t, p) && Die(k, p, retval).clock == k.clock
  {
    hide Add; hide Remove; hide BuryChildren; hide SleepOn;
    var z := k.procs[p].(retvalue := retval, alarmTime := k.clock, state := ZOMBIE);
    var k1 := Put(k, p, z);
    var k2 := Enqueue(k1, p, ZOMBIE, Alarms(k1.procs));
    var k3 := ReportFather(k2, p);
    PutSleep(k.procs, p, z, t, p);
    var f := k.procs[p].father;
    SameSleep(k1.procs, t);
    SleepWeaken(k1.procs, k1.procs, t, p);
    if Waits(k.procs, f, p) {
      PutSleep(k1.procs, f, k1.procs[f].(childWaited := p, state := ACTIONABLE), t, p);
    }
    SleepTrans(k.procs, k1.procs, k3.procs, t, p);
    BurySleep(k3, p, 0, t);
    var k4 := BuryChildren(k3, p, 0);
    SleepWeaken(k3.procs, k4.procs, t, p);
    SleepTrans(k.procs, k3.procs, k4.procs, t, p);
    OrphanSleep(k4.procs, p, t);
    SleepTrans(k.procs, k4.procs, Orphaned(k4.procs, p), t, p);
  }

  lemma OrphanSleep(a: seq<Process>, f: int, t: int)
    ensures SleepOn(a, Orphaned(a, f), t, f)
  {
  }

  lemma CollectSleep(k: Kernel, t: int)
    requires Shaped(k) && (k.garbage == [] || (|k.garbage| == 1 && k.procs[k.garbage[0]].state == ZOMBIE))
    ensures SleepOn(k.procs, GarbageCollect(k).procs, t, -1) && GarbageCollect(k).clock == k.clock
  {
    hide Add; hide Remove;
    if k.garbage != [] {
      var d := k.garbage[0];
      var k1 := k.(garbage := k.garbage[..|k.garbage| - 1]);
      var k2 := if k1.procs[d].father == 0 then FreePid(Dequeue(k1, d), d) else k1;
      assert k2.garbage == [] && GarbageCollect(k2) == k2;
    }
  }

  lemma ExitSleep(k: Kernel, retval: int)
    requires Inv(k) && IsPid(k.cur) && k.cur != 0
    ensures Exit(k, retval).clock == k.clock && SleepOn(k.procs, Exit(k, retval).procs, k.clock, -1)
  {
    hide Partition; hide AllOk; hide Ordered; hide Idle; hide SemLists; hide NoStranded; hide GarbageOk; hide Die;
    hide SleepOn; hide Scheduler; hide Mortal;
    var p := k.cur;
    MortalRunning(k, p);
    MortalFather(k.procs, p);
    FatherWaits(k.procs, k.semUsed, {}, p);
    DieSleep(k, p, retval, k.clock);
    AwakeNotExempt(k.procs, Die(k, p, retval).procs, k.clock, p);
    ThenSchedule(k.procs, Die(k, p, retval));
  }

  lemma AwakeNotExempt(a: seq<Process>, b: seq<Process>, t: int, x: int)
    requires SleepOn(a, b, t, x) && 0 <= x < |a| && a[x].state != ASLEEP
    ensures SleepOn(a, b, t, -1)
  {
  }

  lemma KillSleep(k: Kernel, p: int)
    requires Inv(k) && IsPid(k.cur) && k.cur != 0
    ensures Kill(k, p).clock == k.clock && SleepOn(k.procs, Kill(k, p).procs, k.clock, p)
  {
    hide Inv; hide Die; hide GarbageCollect; hide Forfeit; hide Dequeue; hide SleepOn; hide Exit; hide InOrder;
    InvShaped(k);
    SameSleep(k.procs, k.clock);
    SleepWeaken(k.procs, k.procs, k.clock, p);
    if 0 < p < NB_PROCESS && p == k.cur {
      ExitSleep(k, KILL_RETVAL);
      SleepWeaken(k.procs, Exit(k, KILL_RETVAL).procs, k.clock, p);
    } else if 0 < p < NB_PROCESS {
      PutSleep(k.procs, p, k.procs[p].(retvalue := KILL_RETVAL), k.clock, p);
      if Live(k.procs[p]) {
        KillOtherSleep(k, p);
      }
    }
  }

  lemma KillOtherSleep(k: Kernel, p: int)
    requires Inv(k) && IsPid(k.cur) && k.cur != 0 && 0 < p < NB_PROCESS && p != k.cur && Live(k.procs[p])
    ensures Kill(k, p).clock == k.clock && SleepOn(k.procs, Kill(k, p).procs, k.clock, p)
  {
    hide Inv; hide Die; hide GarbageCollect; hide Forfeit; hide Dequeue; hide SleepOn; hide InOrder;
    InvShaped(k);
    RemovedParts(k, p);
    RemovedSleep(k, p);
    var k3 := Removed(k, p);
    DieSleep(k3, p, KILL_RETVAL, k.clock);
    var k4 := Die(k3, p, KILL_RETVAL);
    SleepTrans(k.procs, k3.procs, k4.procs, k.clock, p);
    DieGarbage(k3, p, KILL_RETVAL);
    CollectSleep(k4, k.clock);
    var k5 := GarbageCollect(k4);
    SleepWeaken(k4.procs, k5.procs, k.clock, p);
    SleepTrans(k.procs, k4.procs, k5.procs, k.clock, p);
  }

  lemma RemovedSleep(k: Kernel, p: int)
    requires Inv(k) && IsPid(k.cur) && IsPid(p)
    ensures Shaped(k) && Removed(k, p).clock == k.clock && SleepOn(k.procs, Removed(k, p).procs, k.clock, p)
  {
    hide Core; hide NoStranded; hide GarbageOk; hide SleepOn; hide Remove; hide Forfeit; hide Released; hide Blocked;
    RetvalInv(k, p, KILL_RETVAL);
    var k1 := Put(k, p, k.procs[p].(retvalue := KILL_RETVAL));
    PutSleep(k.procs, p, k1.procs[p], k.clock, p);
    ForfeitSleep(k1, p);
    SleepTrans(k.procs, k1.procs, Forfeit(k1, p).procs, k.clock, p);
  }

  lemma ForfeitSleep(k: Kernel, p: int)
    requires Inv(k) && IsPid(k.cur) && IsPid(p)
    ensures Forfeit(k, p).clock == k.clock && SleepOn(k.procs, Forfeit(k, p).procs, k.clock, p)
  {
    hide Core; hide NoStranded; hide GarbageOk; hide SleepOn; hide SignalDeath; hide Released; hide Blocked;
    InvShaped(k);
    SameSleep(k.procs, k.clock);
    SleepWeaken(k.procs, k.procs, k.clock, p);
    if k.procs[p].state == SEM_BLOCKED {
      ForfeitCore(k, p);
      var a, b := k.procs[p := k.procs[p].(semBlocked := -1)], Forfeit(k, p).procs;
      PutSleep(k.procs, p, a[p], k.clock, p);
      ReleasedSleep(a, b, k.procs[p].semBlocked, 0, k.clock);
      SleepWeaken(a, b, k.clock, p);
      SleepTrans(k.procs, a, b, k.clock, p);
    }
  }

  lemma StartSleep(k: Kernel, prio: int)
    requires Inv(k) && IsPid(k.cur)
    ensures Start(k, prio).clock == k.clock && SleepOn(k.procs, Start(k, prio).procs, k.clock, -1)
  {
    hide AllOk; hide Ordered; hide Idle; hide SemLists; hide NoStranded; hide GarbageOk; hide Partition;
    hide SleepOn; hide Scheduler; hide Add;
    SameSleep(k.procs, k.clock);
    if 1 <= prio <= MAXPRIO && k.queues[FREEPID] != [] {
      FirstPartition(k.queues, k.procs, FREEPID, {k.cur});
      var p := k.queues[FREEPID][0];
      var r := k.procs[p].(alarmTime := 0, prio := prio, retvalue := 0, state := ACTIONABLE,
                           childWaited := 0, father := k.cur, pending := UserMode);
      PutSleep(k.procs, p, r, k.clock, -1);
      var k2 := Put(k.(queues := k.queues[FREEPID := k.queues[FREEPID][1..]]), p, r);
      ThenSchedule(k.procs, Enqueue(k2, p, ACTIONABLE, Prios(k2.procs)));
    }
  }

  /** The running process gives itself up. */
  lemma SuspendSleep(k: Kernel, value: seq<int>, r: Process, s: int, keys: seq<int>)
    requires Inv(k) && IsPid(k.cur) && 0 <= r.state < NB_STATE && IsPid(r.father) && 0 <= s < NB_STATE
    requires |keys| == NB_PROCESS
    requires |value| == NB_SEM
    ensures Shaped(k)
    ensures var k1 := Scheduler(Enqueue(Put(k.(semValue := value), k.cur, r), k.cur, s, keys));
      k1.clock == k.clock && SleepOn(k.procs, k1.procs, k.clock, -1)
  {
    hide Core; hide NoStranded; hide GarbageOk; hide SleepOn; hide Scheduler; hide Add;
    InvShaped(k);
    PutSleep(k.procs, k.cur, r, k.clock, -1);
    ThenSchedule(k.procs, Enqueue(Put(k.(semValue := value), k.cur, r), k.cur, s, keys));
  }

  lemma ChPrioSleep(k: Kernel, p: int, n: int)
    requires Inv(k) && IsPid(k.cur)
    ensures ChPrio(k, p, n).clock == k.clock && SleepOn(k.procs, ChPrio(k, p, n).procs, k.clock, -1)
  {
    hide Core; hide NoStranded; hide GarbageOk; hide SleepOn; hide Scheduler; hide Add; hide Remove; hide GetPrio;
    InvShaped(k);
    SameSleep(k.procs, k.clock);
    if IsPid(p) && Live(k.procs[p]) && 1 <= n <= MAXPRIO {
      var k1 := Put(k, p, k.procs[p].(prio := n));
      PrioSleep(k.procs, p, n, k.clock);
      var k2 := if p == k.cur then k1 else Enqueue(Dequeue(k1, p), p, k1.procs[p].state, Prios(k1.procs));
      ThenSchedule(k.procs, k2);
    }
  }

  lemma PrioSleep(a: seq<Process>, p: int, n: int, t: int)
    requires 0 <= p < |a|
    ensures SleepOn(a, a[p := a[p].(prio := n)], t, -1)
  {
  }

  lemma ReapSleep(k: Kernel)
    requires Shaped(k) && IsPid(k.cur) && k.procs[k.cur].state == ACTIONABLE
    requires IsPid(k.procs[k.cur].childWaited) && k.procs[k.procs[k.cur].childWaited].state == ZOMBIE
    ensures Reap(k).clock == k.clock && SleepOn(k.procs, Reap(k).procs, k.clock, -1)
  {
    hide Add; hide Remove;
  }

  lemma WaitPidSleep(k: Kernel, p: int, found: int)
    requires Inv(k) && Enabled(k, DoWaitPid(p, found))
    ensures WaitPid(k, p, found).clock == k.clock && SleepOn(k.procs, WaitPid(k, p, found).procs, k.clock, -1)
  {
    hide Core; hide NoStranded; hide GarbageOk; hide SleepOn; hide Scheduler; hide Reap; hide Add;
    InvShaped(k);
    SameSleep(k.procs, k.clock);
    var me := k.cur;
    if (p == -1 || 0 < p < NB_PROCESS) && HasChild(k, me) && (p == -1 || IsChild(k, p, me)) {
      var awaited := if p == -1 then found else if k.procs[p].state == ZOMBIE then p else -1;
      if awaited != -1 {
        var k1 := Put(k, me, k.procs[me].(childWaited := awaited));
        PutSleep(k.procs, me, k1.procs[me], k.clock, -1);
        ReapSleep(k1);
        SleepTrans(k.procs, k1.procs, Reap(k1).procs, k.clock, -1);
      } else {
        assert k.(semValue := k.semValue) == k;
        SuspendSleep(k, k.semValue, k.procs[me].(childWaited := p, state := WAITING_CHILD, pending := InWaitPid),
                     WAITING_CHILD, Numbers());
      }
    }
  }

  lemma WaitSleep(k: Kernel, id: int)
    requires Inv(k) && IsPid(k.cur)
    ensures Wait(k, id).clock == k.clock && SleepOn(k.procs, Wait(k, id).procs, k.clock, -1)
  {
    hide Core; hide NoStranded; hide GarbageOk; hide SleepOn; hide Scheduler; hide Add;
    InvShaped(k);
    SameSleep(k.procs, k.clock);
    if id in k.semUsed && k.semValue[id] - 1 >= SHRT_MIN && k.semValue[id] - 1 < 0 {
      var r := k.procs[k.cur].(semBlocked := id, state := SEM_BLOCKED, pending := InWait);
      SuspendSleep(k, k.semValue[id := k.semValue[id] - 1], r, SEM_BLOCKED, Prios(k.procs[k.cur := r]));
    }
  }

  lemma ClockSleep(k: Kernel, t: int)
    requires Inv(k) && IsPid(k.cur)
    ensures WaitClock(k, t).clock == k.clock && SleepOn(k.procs, WaitClock(k, t).procs, k.clock, -1)
  {
    hide Core; hide NoStranded; hide GarbageOk; hide SleepOn; hide Scheduler; hide Add;
    InvShaped(k);
    SameSleep(k.procs, k.clock);
    var r := k.procs[k.cur].(alarmTime := t, state := ASLEEP);
    assert k.(semValue := k.semValue) == k;
    SuspendSleep(k, k.semValue, r, ASLEEP, Alarms(k.procs[k.cur := r]));
  }

  lemma ResumeSleep(k: Kernel)
    requires Inv(k) && Enabled(k, Resume)
    ensures var k' := Step(k, Resume); k'.clock == k.clock && SleepOn(k.procs, k'.procs, k.clock, -1)
  {
    hide Core; hide NoStranded; hide GarbageOk; hide SleepOn; hide Reap;
    InvShaped(k);
    if k.procs[k.cur].pending == InWaitPid {
      AwaitedZombie(k);
      ReapSleep(k);
    } else {
      PutSleep(k.procs, k.cur, k.procs[k.cur].(pending := UserMode), k.clock, -1);
    }
  }

  lemma CollectorSleep(k: Kernel)
    requires Inv(k) && k.cur == PID_GARBAGE
    ensures Shaped(k)
    ensures var k' := Scheduler(GarbageCollect(k)); k'.clock == k.clock && SleepOn(k.procs, k'.procs, k.clock, -1)
  {
    hide Core; hide NoStranded; hide SleepOn; hide Scheduler; hide GarbageCollect;
    InvShaped(k);
    CollectSleep(k, k.clock);
    ThenSchedule(k.procs, GarbageCollect(k));
  }

  lemma TickSleep(k: Kernel, b: bool)
    requires Shaped(k)
    ensures var k1 := Ticked(k); var k' := if b then Scheduler(k1) else k1;
      k'.clock == k.clock + 1 && SleepOn(k.procs, k'.procs, k.clock + 1, -1)
  {
    hide SleepOn; hide Scheduler;
    SameSleep(k.procs, k.clock + 1);
    ThenSchedule(k.procs, Ticked(k));
  }

  lemma AwaitedZombie(k: Kernel)
    requires Inv(k) && IsPid(k.cur) && k.procs[k.cur].pending == InWaitPid
    ensures IsPid(k.procs[k.cur].childWaited) && k.procs[k.procs[k.cur].childWaited].state == ZOMBIE
  {
    assert ProcOk(k.procs, k.semUsed, k.cur, -1);
  }

  /** The victim of a `kill`, or -1. */
  function Killed(e: Event): int { if e.DoKill? then e.pid else -1 }

  /** No step wakes a sleeper before its alarm, and the clock counts the timer interrupts. */
  lemma StepSleeps(k: Kernel, e: Event)
    requires Inv(k) && Enabled(k, e)
    ensures var k' := Step(k, e);
      k'.clock == k.clock + (if e.ClockTick? then 1 else 0) && SleepOn(k.procs, k'.procs, k'.clock, Killed(e))
  {
    hide Inv; hide SleepOn; hide Enabled; hide Signal; hide SignalN; hide SReset; hide SDelete; hide Wait;
    hide Start; hide Exit;
    hide WaitPid; hide WaitClock; hide ChPrio; hide Reap; hide Kill; hide Scheduler; hide GarbageCollect; hide SCreate;
    hide TryWait;
    InvShaped(k);
    EnabledCaller(k, e);
    match e
    case DoStart(prio) => StartSleep(k, prio);
    case DoExit(v) => ExitSleep(k, v);
    case DoKill(p) => KillSleep(k, p);
    case DoWaitPid(p, found) => WaitPidSleep(k, p, found);
    case DoChPrio(p, n) => ChPrioSleep(k, p, n);
    case DoSDelete(_) => SemSleep(k, e);
    case DoSReset(_, _) => SemSleep(k, e);
    case DoSignal(_) => SemSleep(k, e);
    case DoSignalN(_, _) => SemSleep(k, e);
    case DoWait(id) => WaitSleep(k, id);
    case DoWaitClock(t) => ClockSleep(k, t);
    case ClockTick(b) => TickSleep(k, b);
    case Resume => ResumeSleep(k);
    case Collect =>
      CollectorRuns(k);
      CollectorSleep(k);
    case DoSCreate(c) => SameProcs(k, e);
    case DoTryWait(id) => SameProcs(k, e);
  }

  lemma SameProcs(k: Kernel, e: Event)
    requires Shaped(k) && Enabled(k, e) && (e.DoSCreate? || e.DoTryWait?)
    ensures var k' := Step(k, e); k'.clock == k.clock && SleepOn(k.procs, k'.procs, k.clock, -1)
  {
    hide Add; hide Enabled;
  }

  /** Over a whole run: a process asleep in state i that nobody kills is asleep in every later state
      whose clock has not passed its alarm. */
  lemma {:induction false} SleepsUntilAlarm(ks: seq<Kernel>, es: seq<Event>, p: int, i: nat, j: nat)
    requires Run(ks, es) && Inv(ks[0]) && IsPid(p) && i <= j < |ks| && ks[i].procs[p].state == ASLEEP
    requires ks[j].clock <= ks[i].procs[p].alarmTime && forall m :: i <= m < j ==> es[m] != DoKill(p)
    ensures ks[i].clock <= ks[j].clock
    ensures ks[j].procs[p].state == ASLEEP && ks[j].procs[p].alarmTime == ks[i].procs[p].alarmTime
    decreases j
  {
    hide Inv; hide Step; hide Enabled;
    if i < j {
      RunInv(ks, es, j - 1);
      StepSleeps(ks[j - 1], es[j - 1]);
      SleepsUntilAlarm(ks, es, p, i, j - 1);
    }
  }
}

/**
  Sleepers are woken: as long as the asleep queue is in the order of the alarms, no sleeper is overdue
  after a context switch or a reschedule (kernel/process_handler.c:1105-1120).  The queue stays in this
  order unless `chprio` of a sleeping process, which inserts it by priority, puts it elsewhere.
*/
module KernelAlarm {
  import opened OrderedQueue
  import opened KernelModel
  import opened KernelInvariant
  import opened KernelSemaphores
  import opened KernelLife
  import opened KernelKill
  import opened KernelRuns
  import opened KernelOrder
  import opened KernelPriority
  import opened KernelSleep

  /** The asleep queue holds sleepers, once each. */
  ghost predicate Asleep(queues: seq<seq<int>>, procs: seq<Process>) {
    && |queues| == NB_STATE && |procs| == NB_PROCESS && NoDup(queues[ASLEEP])
    && forall i :: 0 <= i < |queues[ASLEEP]| ==> IsPid(queues[ASLEEP][i]) && procs[queues[ASLEEP][i]].state == ASLEEP
  }

  /** The asleep queue is in the order of the alarms. */
  ghost predicate ByAlarm(k: Kernel) {
    Shaped(k) && Asleep(k.queues, k.procs) && Sorted(k.queues[ASLEEP], Alarms(k.procs))
  }

  /** The loop of `scheduler` has done its work: the first sleeper is not due. */
  ghost predicate FirstNotDue(k: Kernel)
    requires Shaped(k)
  {
    var q := k.queues[ASLEEP];
    q == [] || k.procs[q[0]].alarmTime >= k.clock
  }

  /** No sleeper is overdue. */
  ghost predicate NoneOverdue(k: Kernel)
    requires Shaped(k)
  {
    forall p :: 0 <= p < NB_PROCESS && k.procs[p].state == ASLEEP ==> k.procs[p].alarmTime >= k.clock
  }

  // ----- the scheduler -----

  /** Even when the queue is in no order, the loop stops only at a sleeper that is not due. */
  lemma {:induction false} WakeDueExit(k: Kernel)
    requires Shaped(k)
    ensures FirstNotDue(WakeDue(k)) && WakeDue(k).clock == k.clock
    decreases |k.queues[ASLEEP]|
  {
    hide Add;
    var q := k.queues[ASLEEP];
    if q != [] && k.procs[q[0]].alarmTime < k.clock {
      WakeDueExit(WakeFirst(k));
    }
  }

  /** After `scheduler` the first sleeper of the queue is not due. */
  lemma SchedulerExit(k: Kernel)
    requires Shaped(k)
    ensures FirstNotDue(Scheduler(k)) && Scheduler(k).clock == k.clock
  {
    hide WakeDue; hide Add;
    WakeDueExit(k);
  }

  /** Equal priorities take turns: when nobody is due and somebody of at least the priority of the
      running process is runnable, a reschedule elects the one at the end of the queue, and the
      running process is inserted before all that have its priority. */
  lemma TakesTurns(k: Kernel)
    requires Shaped(k) && FirstNotDue(k) && IsPid(k.cur) && k.procs[k.cur].state == ACTIONABLE && k.garbage == []
    requires InOrder(k)
    requires var q := k.queues[ACTIONABLE]; q != [] && k.procs[q[|q| - 1]].prio >= k.procs[k.cur].prio
    ensures var q, k' := k.queues[ACTIONABLE], Scheduler(k);
      var rest, n := q[..|q| - 1], Position(q, Prios(k.procs), k.procs[k.cur].prio);
      && k'.cur == q[|q| - 1] && n <= |rest|
      && k'.queues[ACTIONABLE] == rest[..n] + [k.cur] + rest[n..] && k'.procs == k.procs
      && (forall i :: 0 <= i < n ==> k.procs[rest[i]].prio < k.procs[k.cur].prio)
      && (forall i :: n <= i < |rest| ==> k.procs[rest[i]].prio >= k.procs[k.cur].prio)
  {
    hide Add; hide Position; hide Sorted;
    var q, prios := k.queues[ACTIONABLE], Prios(k.procs);
    AddBeforeLast(q, prios, k.cur);
    assert WakeDue(k) == k;
    var all := Add(q, prios, k.cur);
    assert Requeue(k) == k.(queues := k.queues[ACTIONABLE := all]);
  }

  lemma AddBeforeLast(q: seq<int>, keys: seq<int>, e: int)
    requires Sorted(q, keys) && 0 <= e < |keys| && q != [] && keys[e] <= keys[q[|q| - 1]]
    ensures var n, rest, all := Position(q, keys, keys[e]), q[..|q| - 1], Add(q, keys, e);
      && n <= |rest| && all[|all| - 1] == q[|q| - 1] && all[..|all| - 1] == rest[..n] + [e] + rest[n..]
      && (forall i :: 0 <= i < n ==> keys[rest[i]] < keys[e])
      && (forall i :: n <= i < |rest| ==> keys[rest[i]] >= keys[e])
  {
    var n, rest := Position(q, keys, keys[e]), q[..|q| - 1];
    assert n <= |rest|;
    assert q[n..] == rest[n..] + [q[|q| - 1]] && q[..n] == rest[..n];
    assert Add(q, keys, e) == (rest[..n] + [e] + rest[n..]) + [q[|q| - 1]];
    forall i | n <= i < |rest| ensures keys[rest[i]] >= keys[e] {
      assert rest[i] == q[i] && keys[q[n]] <= keys[q[i]];
    }
  }

  lemma FirstAlarm(k: Kernel)
    requires ByAlarm(k) && k.queues[ASLEEP] != []
    ensures ByAlarm(WakeFirst(k))
  {
    hide Add;
    var q := k.queues[ASLEEP];
    assert WakeFirst(k).queues[ASLEEP] == q[1..];
  }

  lemma {:induction false} WakeDueAlarm(k: Kernel)
    requires ByAlarm(k)
    ensures ByAlarm(WakeDue(k))
    decreases |k.queues[ASLEEP]|
  {
    hide WakeFirst; hide ByAlarm;
    ByAlarmShaped(k);
    var q := k.queues[ASLEEP];
    if q != [] && k.procs[q[0]].alarmTime < k.clock {
      FirstAlarm(k);
      WakeDueAlarm(WakeFirst(k));
    }
  }

  lemma ByAlarmShaped(k: Kernel)
    requires ByAlarm(k)
    ensures Shaped(k)
  {
  }

  /** The asleep queue and the alarms of its members are the same. */
  lemma SameAlarms(a: Kernel, b: Kernel)
    requires ByAlarm(a) && Shaped(b) && b.queues[ASLEEP] == a.queues[ASLEEP]
    requires forall i :: 0 <= i < |a.queues[ASLEEP]| ==>
      var p := a.queues[ASLEEP][i];
      b.procs[p].alarmTime == a.procs[p].alarmTime && b.procs[p].state == a.procs[p].state
    ensures ByAlarm(b)
  {
  }

  lemma SchedulerAlarm(k: Kernel)
    requires ByAlarm(k)
    ensures ByAlarm(Scheduler(k)) && FirstNotDue(Scheduler(k))
  {
    hide WakeDue; hide Add; hide ByAlarm;
    ByAlarmShaped(k);
    WakeDueAlarm(k);
    SchedulerExit(k);
    SameAlarms(WakeDue(k), Scheduler(k));
  }

  /** What a step promises: the order of the alarms, and that a context switch leaves no due sleeper
      at the front. */
  ghost predicate Alarmed(k: Kernel, k': Kernel) {
    ByAlarm(k') && (k'.cur != k.cur ==> FirstNotDue(k'))
  }

  lemma ThenScheduler(k0: Kernel, k: Kernel)
    requires ByAlarm(k)
    ensures Shaped(k) && Alarmed(k0, Scheduler(k))
  {
    hide Scheduler; hide ByAlarm;
    ByAlarmShaped(k);
    SchedulerAlarm(k);
  }

  // ----- wait_clock -----

  lemma {:induction false} WakeDueWoken(k: Kernel)
    requires Shaped(k) && Asleep(k.queues, k.procs)
    ensures OnlyWoken(k.procs, WakeDue(k).procs, k.clock)
    decreases |k.queues[ASLEEP]|
  {
    hide Add;
    var q := k.queues[ASLEEP];
    if q != [] && k.procs[q[0]].alarmTime < k.clock {
      assert WakeFirst(k).queues[ASLEEP] == q[1..];
      WakeDueWoken(WakeFirst(k));
    }
  }

  lemma InvAsleep(k: Kernel)
    requires Inv(k)
    ensures Shaped(k) && Asleep(k.queues, k.procs)
  {
    hide AllOk; hide Ordered; hide Idle; hide SemLists; hide NoStranded; hide GarbageOk;
    forall i | 0 <= i < |k.queues[ASLEEP]|
      ensures IsPid(k.queues[ASLEEP][i]) && k.procs[k.queues[ASLEEP][i]].state == ASLEEP
    {
      assert k.queues[ASLEEP][i] in k.queues[ASLEEP];
    }
  }

  /** `wait_clock` of a time that lies ahead puts the caller to sleep with this alarm and hands the
      processor over; of any other time it does nothing.  Nobody else changes but due sleepers. */
  lemma WaitClockOutcome(k: Kernel, t: int)
    requires Inv(k) && Enabled(k, DoWaitClock(t))
    ensures t <= k.clock ==> WaitClock(k, t) == k
    ensures t > k.clock ==>
      var k', r := WaitClock(k, t), k.procs[k.cur].(alarmTime := t, state := ASLEEP);
      k'.cur != k.cur && k'.procs[k.cur] == r && OnlyWoken(k.procs[k.cur := r], k'.procs, k.clock)
  {
    hide Inv; hide Scheduler; hide Add; hide OnlyWoken; hide Enabled;
    InvShaped(k);
    EnabledCaller(k, DoWaitClock(t));
    if t > k.clock {
      ClockInv(k, t);
      var p, r := k.cur, k.procs[k.cur].(alarmTime := t, state := ASLEEP);
      var k1 := Put(k, p, r);
      AsleepToo(k, t);
      var k2 := Enqueue(k1, p, ASLEEP, Alarms(k1.procs));
      SchedulerWoken(k2);
      StillAsleep(k2.procs, Scheduler(k2).procs, k.clock, p);
    }
  }

  lemma StillAsleep(a: seq<Process>, b: seq<Process>, clock: int, p: int)
    requires OnlyWoken(a, b, clock) && 0 <= p < |a| && a[p].alarmTime >= clock
    ensures b[p] == a[p]
  {
  }

  lemma ClockInv(k: Kernel, t: int)
    requires Inv(k) && Enabled(k, DoWaitClock(t)) && IsPid(k.cur)
    ensures var k' := WaitClock(k, t); Inv(k') && (IsPid(k'.cur) ==> k'.procs[k'.cur].state == ACTIONABLE)
  {
    hide Core; hide NoStranded; hide GarbageOk; hide WaitClock; hide WaitersKept;
    StepInv(k, DoWaitClock(t));
  }

  lemma SchedulerWoken(k: Kernel)
    requires Shaped(k) && Asleep(k.queues, k.procs)
    ensures OnlyWoken(k.procs, Scheduler(k).procs, k.clock)
  {
    hide WakeDue; hide Add; hide OnlyWoken; hide Asleep;
    WakeDueWoken(k);
  }

  lemma AsleepToo(k: Kernel, t: int)
    requires Inv(k) && IsPid(k.cur)
    ensures var r := k.procs[k.cur].(alarmTime := t, state := ASLEEP); var k1 := Put(k, k.cur, r);
      var k2 := Enqueue(k1, k.cur, ASLEEP, Alarms(k1.procs)); Asleep(k2.queues, k2.procs)
  {
    hide Core; hide NoStranded; hide GarbageOk; hide Add;
    InvAsleep(k);
    var p := k.cur;
    var k1 := Put(k, p, k.procs[p].(alarmTime := t, state := ASLEEP));
    var q := k.queues[ASLEEP];
    assert p !in q;
    AddMembers(q, Alarms(k1.procs), p);
    var q' := Add(q, Alarms(k1.procs), p);
    forall i | 0 <= i < |q'| ensures IsPid(q'[i]) && k1.procs[q'[i]].state == ASLEEP {
      assert q'[i] in q';
    }
  }

  // ----- parts of calls -----

  lemma PutAlarm(k: Kernel, p: int, r: Process)
    requires ByAlarm(k) && IsPid(p) && 0 <= r.state < NB_STATE && IsPid(r.father)
    requires p !in k.queues[ASLEEP] || (r.state == ASLEEP && r.alarmTime == k.procs[p].alarmTime)
    ensures ByAlarm(Put(k, p, r))
  {
  }

  lemma AwakePut(k: Kernel, p: int, r: Process)
    requires ByAlarm(k) && IsPid(p) && 0 <= r.state < NB_STATE && IsPid(r.father) && k.procs[p].state != ASLEEP
    ensures ByAlarm(Put(k, p, r)) && p !in k.queues[ASLEEP]
  {
    hide Sorted;
    PutAlarm(k, p, r);
  }

  lemma EnqueueAlarm(k: Kernel, p: int, s: int, keys: seq<int>)
    requires ByAlarm(k) && IsPid(p) && 0 <= s < NB_STATE && s != ASLEEP && |keys| == NB_PROCESS
    ensures ByAlarm(Enqueue(k, p, s, keys))
  {
    hide Add;
  }

  lemma DequeueAlarm(k: Kernel, p: int)
    requires ByAlarm(k) && IsPid(p)
    ensures ByAlarm(Dequeue(k, p)) && p !in Dequeue(k, p).queues[ASLEEP]
    ensures Dequeue(k, p) == k.(queues := Dequeue(k, p).queues)
  {
    hide Remove; hide Sorted;
    var q := k.queues[ASLEEP];
    if k.procs[p].state == ASLEEP {
      RemoveSorted(q, Alarms(k.procs), p);
      RemoveMembers(q, p);
    }
  }

  lemma FreePidAlarm(k: Kernel, p: int)
    requires ByAlarm(k) && IsPid(p) && p !in k.queues[ASLEEP]
    ensures ByAlarm(FreePid(k, p))
  {
    hide ByAlarm; hide Add;
    ByAlarmShaped(k);
    var r := k.procs[p].(awakener := -1, semBlocked := -1, state := FREEPID);
    PutAlarm(k, p, r);
    EnqueueAlarm(Put(k, p, r), p, FREEPID, Numbers());
  }

  lemma ReleaseAlarm(k: Kernel, p: int, wake: int)
    requires ByAlarm(k) && IsPid(p)
    ensures ByAlarm(Release(k, p, wake))
  {
    hide ByAlarm; hide Add; hide Dequeue;
    ByAlarmShaped(k);
    DequeueAlarm(k, p);
    var k1 := Dequeue(k, p);
    var k2 := Put(k1, p, k1.procs[p].(state := ACTIONABLE, awakener := wake, semBlocked := -1));
    PutAlarm(k1, p, k2.procs[p]);
    EnqueueAlarm(k2, p, ACTIONABLE, Prios(k2.procs));
  }

  lemma {:induction false} ReleaseNAlarm(k: Kernel, id: int, n: nat, wake: int)
    requires ByAlarm(k)
    ensures ByAlarm(ReleaseN(k, id, n, wake))
    decreases n
  {
    hide ByAlarm; hide Release;
    ByAlarmShaped(k);
    var p := FindBySem(k.queues[SEM_BLOCKED], k.procs, id);
    if n > 0 && p != -1 {
      ReleaseAlarm(k, p, wake);
      ReleaseNAlarm(Release(k, p, wake), id, n - 1, wake);
    }
  }

  lemma PreemptAlarm(k0: Kernel, k: Kernel)
    requires ByAlarm(k) && IsPid(k.cur) && k.cur == k0.cur
    ensures Alarmed(k0, Preempt(k))
  {
    hide Scheduler; hide ByAlarm;
    ByAlarmShaped(k);
    ThenScheduler(k0, k);
    SameAlarms(k, Crash(k));
  }

  lemma SemAlarm(k: Kernel, id: int, v: int, n: nat, wake: int)
    requires ByAlarm(k) && IsPid(id)
    ensures ByAlarm(SetValue(k, id, v)) && ByAlarm(ReleaseN(SetValue(k, id, v), id, n, wake))
  {
    hide ByAlarm; hide ReleaseN;
    ByAlarmShaped(k);
    SameAlarms(k, SetValue(k, id, v));
    ReleaseNAlarm(SetValue(k, id, v), id, n, wake);
  }

  // ----- semaphores -----

  lemma SignalAlarm(k: Kernel, id: int)
    requires ByAlarm(k) && IsPid(k.cur) && IsPid(id)
    ensures Alarmed(k, Signal(k, id))
  {
    hide ByAlarm; hide ReleaseN; hide Scheduler; hide FindBySem; hide GetPrio;
    ByAlarmShaped(k);
    SemAlarm(k, id, k.semValue[id] + 1, 1, 0);
    ThenScheduler(k, ReleaseN(SetValue(k, id, k.semValue[id] + 1), id, 1, 0));
  }

  lemma SignalNAlarm(k: Kernel, id: int, count: short)
    requires ByAlarm(k) && IsPid(k.cur) && IsPid(id)
    ensures Alarmed(k, SignalN(k, id, count))
  {
    hide ByAlarm; hide ReleaseN; hide Preempt;
    ByAlarmShaped(k);
    if count >= 0 {
      SemAlarm(k, id, k.semValue[id] + count, count, 0);
      PreemptAlarm(k, ReleaseN(SetValue(k, id, k.semValue[id] + count), id, count, 0));
    }
  }

  lemma SResetAlarm(k: Kernel, id: int, count: short)
    requires ByAlarm(k) && IsPid(k.cur) && IsPid(id)
    ensures Alarmed(k, SReset(k, id, count))
  {
    hide ByAlarm; hide ReleaseN; hide Preempt;
    ByAlarmShaped(k);
    var n := |k.queues[SEM_BLOCKED]|;
    SemAlarm(k, id, count % 0x1_0000, n, -4);
    PreemptAlarm(k, ReleaseN(SetValue(k, id, count % 0x1_0000), id, n, -4));
  }

  lemma SDeleteAlarm(k: Kernel, id: int)
    requires ByAlarm(k) && IsPid(k.cur) && IsPid(id)
    ensures Alarmed(k, SDelete(k, id))
  {
    hide ByAlarm; hide ReleaseN; hide Preempt; hide Add; hide Remove;
    ByAlarmShaped(k);
    if id in k.semUsed {
      RemoveIn(k.semUsed, id);
      var k1 := k.(semUsed := Remove(k.semUsed, id), semFree := Add(k.semFree, Numbers(), id));
      SameAlarms(k, k1);
      ReleaseNAlarm(k1, id, |k1.queues[SEM_BLOCKED]|, -3);
      PreemptAlarm(k, ReleaseN(k1, id, |k1.queues[SEM_BLOCKED]|, -3));
    }
  }

  lemma SemCalls(k: Kernel, e: Event)
    requires Inv(k) && ByAlarm(k) && IsPid(k.cur) && Enabled(k, e)
    requires e.DoSignal? || e.DoSignalN? || e.DoSReset? || e.DoSDelete?
    ensures Alarmed(k, Step(k, e))
  {
    hide ByAlarm; hide Enabled; hide Signal; hide SignalN; hide SReset; hide SDelete; hide Inv;
    InvShaped(k);
    if e.id in k.semUsed {
      IdInRange(k, e.id);
      match e
      case DoSignal(id) => SignalAlarm(k, id);
      case DoSignalN(id, c) => SignalNAlarm(k, id, c);
      case DoSReset(id, c) => SResetAlarm(k, id, c);
      case DoSDelete(id) => SDeleteAlarm(k, id);
    } else {
      Unknown(k, e);
    }
  }

  // ----- suspending -----

  /** The running process gives itself up, not to sleep. */
  lemma SuspendAlarm(k: Kernel, k1: Kernel, r: Process, s: int, keys: seq<int>)
    requires ByAlarm(k1) && k1.cur == k.cur && IsPid(k.cur) && k1.procs[k.cur].state == ACTIONABLE
    requires 0 <= r.state < NB_STATE && IsPid(r.father) && 0 <= s < NB_STATE && s != ASLEEP && |keys| == NB_PROCESS
    ensures Shaped(k1) && Alarmed(k, Scheduler(Enqueue(Put(k1, k.cur, r), k.cur, s, keys)))
  {
    hide ByAlarm; hide Scheduler; hide Enqueue; hide Put;
    ByAlarmShaped(k1);
    AwakePut(k1, k.cur, r);
    EnqueueAlarm(Put(k1, k.cur, r), k.cur, s, keys);
    ThenScheduler(k, Enqueue(Put(k1, k.cur, r), k.cur, s, keys));
  }

  lemma WaitAlarm(k: Kernel, id: int)
    requires ByAlarm(k) && IsPid(k.cur) && IsPid(id) && k.procs[k.cur].state == ACTIONABLE
    ensures Alarmed(k, Wait(k, id))
  {
    hide ByAlarm; hide Scheduler; hide Add;
    ByAlarmShaped(k);
    var k1 := SetValue(k, id, k.semValue[id] - 1);
    SameAlarms(k, k1);
    var r := k.procs[k.cur].(semBlocked := id, state := SEM_BLOCKED, pending := InWait);
    SuspendAlarm(k, k1, r, SEM_BLOCKED, Prios(k.procs[k.cur := r]));
  }

  /** `wait_clock` inserts the caller at the place of its alarm. */
  lemma ClockAlarm(k: Kernel, t: int)
    requires ByAlarm(k) && IsPid(k.cur) && k.procs[k.cur].state == ACTIONABLE
    ensures Alarmed(k, WaitClock(k, t))
  {
    hide ByAlarm; hide Scheduler; hide Add;
    ByAlarmShaped(k);
    if t > k.clock {
      var p, r := k.cur, k.procs[k.cur].(alarmTime := t, state := ASLEEP);
      AwakePut(k, p, r);
      var k1 := Put(k, p, r);
      EnqueueAsleep(k1, p);
      ThenScheduler(k, Enqueue(k1, p, ASLEEP, Alarms(k1.procs)));
    }
  }

  lemma EnqueueAsleep(k: Kernel, p: int)
    requires ByAlarm(k) && IsPid(p) && p !in k.queues[ASLEEP] && k.procs[p].state == ASLEEP
    ensures ByAlarm(Enqueue(k, p, ASLEEP, Alarms(k.procs)))
  {
    hide Add; hide Sorted;
    var q := k.queues[ASLEEP];
    AddSorted(q, Alarms(k.procs), p);
    AddMembers(q, Alarms(k.procs), p);
    var k' := Enqueue(k, p, ASLEEP, Alarms(k.procs));
    forall i | 0 <= i < |k'.queues[ASLEEP]|
      ensures IsPid(k'.queues[ASLEEP][i]) && k'.procs[k'.queues[ASLEEP][i]].state == ASLEEP
    {
      assert k'.queues[ASLEEP][i] in k'.queues[ASLEEP];
    }
  }

  lemma ReapAlarm(k: Kernel)
    requires ByAlarm(k) && IsPid(k.cur) && k.procs[k.cur].state == ACTIONABLE
    ensures Alarmed(k, Reap(k))
  {
    hide ByAlarm; hide FreePid; hide Dequeue;
    ByAlarmShaped(k);
    SameAlarms(k, Crash(k));
    var c := k.procs[k.cur].childWaited;
    if IsPid(c) && c in k.queues[ZOMBIE] {
      DequeueAlarm(k, c);
      var k1 := Dequeue(k, c);
      FreePidAlarm(k1, c);
      var k2 := FreePid(k1, c);
      CurFreed(k1, c);
      AwakePut(k2, k.cur, k2.procs[k.cur].(childWaited := 0, pending := UserMode));
    }
  }

  lemma CurFreed(k: Kernel, c: int)
    requires Shaped(k) && IsPid(c) && IsPid(k.cur) && k.procs[k.cur].state == ACTIONABLE
    ensures var k' := FreePid(k, c); k'.cur == k.cur && k'.procs[k.cur].state != ASLEEP
  {
    hide Add;
  }

  lemma WaitPidAlarm(k: Kernel, p: int, found: int)
    requires ByAlarm(k) && IsPid(k.cur) && k.procs[k.cur].state == ACTIONABLE
    requires found == -1 || ZombieChild(k, found, k.cur)
    ensures Alarmed(k, WaitPid(k, p, found))
  {
    hide ByAlarm; hide Scheduler; hide Reap; hide Enqueue;
    ByAlarmShaped(k);
    var me := k.cur;
    if (p == -1 || 0 < p < NB_PROCESS) && HasChild(k, me) && (p == -1 || IsChild(k, p, me)) {
      var awaited := if p == -1 then found else if k.procs[p].state == ZOMBIE then p else -1;
      if awaited != -1 {
        var r := k.procs[me].(childWaited := awaited);
        AwakePut(k, me, r);
        ReapAlarm(Put(k, me, r));
      } else {
        SuspendAlarm(k, k, k.procs[me].(childWaited := p, state := WAITING_CHILD, pending := InWaitPid),
                     WAITING_CHILD, Numbers());
      }
    }
  }

  // ----- life and death -----

  lemma StartAlarm(k: Kernel, prio: int)
    requires Inv(k) && ByAlarm(k) && IsPid(k.cur)
    ensures Alarmed(k, Start(k, prio))
  {
    hide AllOk; hide Ordered; hide Idle; hide SemLists; hide NoStranded; hide GarbageOk; hide Partition;
    hide Scheduler; hide Add; hide ByAlarm;
    if 1 <= prio <= MAXPRIO && k.queues[FREEPID] != [] {
      FirstPartition(k.queues, k.procs, FREEPID, {k.cur});
      var p := k.queues[FREEPID][0];
      var r := k.procs[p].(alarmTime := 0, prio := prio, retvalue := 0, state := ACTIONABLE,
                           childWaited := 0, father := k.cur, pending := UserMode);
      var k1 := k.(queues := k.queues[FREEPID := k.queues[FREEPID][1..]]);
      SameAlarms(k, k1);
      AwakePut(k1, p, r);
      var k2 := Put(k1, p, r);
      EnqueueAlarm(k2, p, ACTIONABLE, Prios(k2.procs));
      ThenScheduler(k, Enqueue(k2, p, ACTIONABLE, Prios(k2.procs)));
    }
  }

  lemma {:induction false} BuryAlarm(k: Kernel, f: int, i: nat)
    requires ByAlarm(k) && IsPid(f) && i <= NB_PROCESS
    ensures ByAlarm(BuryChildren(k, f, i))
    decreases NB_PROCESS - i
  {
    hide ByAlarm; hide FreePid; hide Dequeue;
    ByAlarmShaped(k);
    if i < NB_PROCESS {
      if k.procs[i].father == f && k.procs[i].state == ZOMBIE && i != f {
        DequeueAlarm(k, i);
        FreePidAlarm(Dequeue(k, i), i);
        BuryAlarm(FreePid(Dequeue(k, i), i), f, i + 1);
      } else {
        BuryAlarm(k, f, i + 1);
      }
    }
  }

  lemma DieAlarm(k: Kernel, p: int, retval: int)
    requires ByAlarm(k) && IsPid(p) && k.procs[p].father != p && p !in k.queues[ASLEEP]
    requires Waits(k.procs, k.procs[p].father, p) ==> k.procs[k.procs[p].father].state == WAITING_CHILD
    ensures ByAlarm(Die(k, p, retval)) && Die(k, p, retval).cur == k.cur
  {
    hide ByAlarm; hide BuryChildren; hide Add; hide Remove;
    ByAlarmShaped(k);
    var z := k.procs[p].(retvalue := retval, alarmTime := k.clock, state := ZOMBIE);
    PutAlarm(k, p, z);
    var k1 := Put(k, p, z);
    EnqueueAlarm(k1, p, ZOMBIE, Alarms(k1.procs));
    var k2 := Enqueue(k1, p, ZOMBIE, Alarms(k1.procs));
    ReportAlarm(k2, p);
    var k3 := ReportFather(k2, p);
    BuryAlarm(k3, p, 0);
    BuryCur(k3, p, 0);
    var k4 := BuryChildren(k3, p, 0);
    SameAlarms(k4, k4.(procs := Orphaned(k4.procs, p)));
    SameAlarms(k4, Die(k, p, retval));
  }

  lemma BuryCur(k: Kernel, f: int, i: nat)
    requires Shaped(k) && IsPid(f) && i <= NB_PROCESS
    ensures BuryChildren(k, f, i).cur == k.cur
  {
    BurySelf(k, f, i);
  }

  lemma ReportAlarm(k: Kernel, p: int)
    requires ByAlarm(k) && IsPid(p)
    requires Waits(k.procs, k.procs[p].father, p) ==> k.procs[k.procs[p].father].state == WAITING_CHILD
    ensures ByAlarm(ReportFather(k, p)) && ReportFather(k, p).cur == k.cur
  {
    hide ByAlarm; hide Add; hide Remove;
    ByAlarmShaped(k);
    SameAlarms(k, Crash(k));
    var f := k.procs[p].father;
    if Waits(k.procs, f, p) && f in k.queues[WAITING_CHILD] {
      RemoveIn(k.queues[WAITING_CHILD], f);
      var k1 := k.(queues := k.queues[WAITING_CHILD := Remove(k.queues[WAITING_CHILD], f)]);
      SameAlarms(k, k1);
      EnqueueAlarm(k1, f, ACTIONABLE, Numbers());
      var k2 := Enqueue(k1, f, ACTIONABLE, Numbers());
      AwakePut(k2, f, k2.procs[f].(childWaited := p, state := ACTIONABLE));
    }
  }

  lemma {:induction false} CollectAlarm(k: Kernel)
    requires ByAlarm(k)
    ensures ByAlarm(GarbageCollect(k)) && GarbageCollect(k).cur == k.cur
    decreases |k.garbage|
  {
    hide ByAlarm; hide FreePid; hide Dequeue;
    ByAlarmShaped(k);
    if k.garbage != [] {
      var d := k.garbage[|k.garbage| - 1];
      var k1 := k.(garbage := k.garbage[..|k.garbage| - 1]);
      SameAlarms(k, k1);
      DequeueAlarm(k1, d);
      FreePidAlarm(Dequeue(k1, d), d);
      FreedRest(Dequeue(k1, d), d);
      CollectAlarm(if k1.procs[d].father == 0 then FreePid(Dequeue(k1, d), d) else k1);
    }
  }

  lemma FreedRest(k: Kernel, d: int)
    requires Shaped(k) && IsPid(d)
    ensures FreePid(k, d).garbage == k.garbage && FreePid(k, d).cur == k.cur
  {
    hide Add;
  }

  lemma ExitAlarm(k: Kernel, retval: int)
    requires Inv(k) && ByAlarm(k) && IsPid(k.cur) && k.cur != 0
    ensures Alarmed(k, Exit(k, retval))
  {
    hide Partition; hide AllOk; hide Ordered; hide Idle; hide SemLists; hide NoStranded; hide GarbageOk; hide Die;
    hide Scheduler; hide Mortal; hide ByAlarm;
    var p := k.cur;
    MortalRunning(k, p);
    MortalFather(k.procs, p);
    FatherWaits(k.procs, k.semUsed, {}, p);
    AwakePut(k, p, k.procs[p]);
    DieAlarm(k, p, retval);
    ThenScheduler(k, Die(k, p, retval));
  }

  lemma KillAlarm(k: Kernel, p: int)
    requires Inv(k) && ByAlarm(k) && IsPid(k.cur) && k.cur != 0
    ensures Alarmed(k, Kill(k, p))
  {
    hide Inv; hide Die; hide GarbageCollect; hide Forfeit; hide Dequeue; hide ByAlarm; hide Exit; hide InOrder;
    InvShaped(k);
    if p <= 0 || p >= NB_PROCESS {
    } else if p == k.cur {
      ExitAlarm(k, KILL_RETVAL);
    } else {
      RetvalAlarm(k, p);
      if Live(k.procs[p]) {
        RemovedParts(k, p);
        RemovedAlarm(k, p);
        var k3 := Removed(k, p);
        DieAlarm(k3, p, KILL_RETVAL);
        CollectAlarm(Die(k3, p, KILL_RETVAL));
      }
    }
  }

  lemma RetvalAlarm(k: Kernel, p: int)
    requires ByAlarm(k) && IsPid(p)
    ensures ByAlarm(Put(k, p, k.procs[p].(retvalue := KILL_RETVAL)))
  {
  }

  lemma RemovedAlarm(k: Kernel, p: int)
    requires ByAlarm(k) && IsPid(p)
    ensures Shaped(k) && ByAlarm(Removed(k, p)) && p !in Removed(k, p).queues[ASLEEP]
  {
    hide ByAlarm; hide Dequeue; hide ReleaseN;
    ByAlarmShaped(k);
    RetvalAlarm(k, p);
    var k1 := Put(k, p, k.procs[p].(retvalue := KILL_RETVAL));
    if k1.procs[p].state == SEM_BLOCKED {
      var id, r := k1.procs[p].semBlocked, k1.procs[p].(semBlocked := -1);
      AwakePut(k1, p, r);
      if IsPid(id) {
        SemAlarm(Put(k1, p, r), id, k1.semValue[id] + 1, 1, 0);
      }
    }
    DequeueAlarm(Forfeit(k1, p), p);
  }

  // ----- chprio -----

  /** A sleeper whose priority changes is inserted by priority; it fits there if its neighbours' alarms
      are not later and not earlier than its own. */
  ghost predicate SleeperFits(k: Kernel, p: int, n: int)
    requires Shaped(k) && IsPid(p)
  {
    RemoveIn(k.queues[ASLEEP], p);
    var q, prios := Remove(k.queues[ASLEEP], p), Prios(k.procs[p := k.procs[p].(prio := n)]);
    Fits(q, Alarms(k.procs), p, Position(q, prios, n))
  }

  /** The event gives a sleeper a priority by which it does not fit into the asleep queue. */
  ghost predicate Misplaces(k: Kernel, e: Event)
    requires Shaped(k)
  {
    && e.DoChPrio? && IsPid(e.pid) && e.pid != k.cur && 1 <= e.newprio <= MAXPRIO
    && k.procs[e.pid].state == ASLEEP && !SleeperFits(k, e.pid, e.newprio)
  }

  /** The state of `chprio` of another process before it reschedules. */
  ghost function Moved(k: Kernel, p: int, n: int): (k': Kernel)
    requires Shaped(k) && IsPid(p)
    ensures Shaped(k')
  {
    var k1 := Put(k, p, k.procs[p].(prio := n));
    Enqueue(Dequeue(k1, p), p, k1.procs[p].state, Prios(k1.procs))
  }

  /** `chprio` of a sleeper keeps the order of the alarms exactly when it fits at its new place. */
  lemma SleeperMovedIff(k: Kernel, p: int, n: int)
    requires ByAlarm(k) && IsPid(p) && k.procs[p].state == ASLEEP
    ensures ByAlarm(Moved(k, p, n)) <==> SleeperFits(k, p, n)
  {
    hide Add; hide Sorted; hide Remove; hide Fits;
    var q := k.queues[ASLEEP];
    RemoveIn(q, p);
    var r, prios := Remove(q, p), Prios(k.procs[p := k.procs[p].(prio := n)]);
    var k' := Moved(k, p, n);
    RemoveSorted(q, Alarms(k.procs), p);
    RemoveMembers(q, p);
    AddMembers(r, prios, p);
    AddIs(r, prios, p);
    InsertSortedIff(r, Alarms(k.procs), p, Position(r, prios, n));
    assert Alarms(k'.procs) == Alarms(k.procs);
    forall i | 0 <= i < |k'.queues[ASLEEP]|
      ensures IsPid(k'.queues[ASLEEP][i]) && k'.procs[k'.queues[ASLEEP][i]].state == ASLEEP
    {
      assert k'.queues[ASLEEP][i] in k'.queues[ASLEEP];
    }
  }

  lemma AddIs(q: seq<int>, keys: seq<int>, e: int)
    requires Indexes(q, keys) && 0 <= e < |keys|
    ensures var i := Position(q, keys, keys[e]); Add(q, keys, e) == q[..i] + [e] + q[i..]
  {
  }

  lemma ChPrioAlarm(k: Kernel, p: int, n: int)
    requires ByAlarm(k) && IsPid(k.cur) && k.procs[k.cur].state == ACTIONABLE && !Misplaces(k, DoChPrio(p, n))
    ensures Alarmed(k, ChPrio(k, p, n))
  {
    hide ByAlarm; hide Scheduler; hide Enqueue; hide Dequeue; hide SleeperFits; hide GetPrio;
    ByAlarmShaped(k);
    if IsPid(p) && Live(k.procs[p]) && 1 <= n <= MAXPRIO {
      PrioAlarm(k, p, n);
      var k1 := Put(k, p, k.procs[p].(prio := n));
      if p == k.cur {
        ThenScheduler(k, k1);
      } else {
        if k.procs[p].state == ASLEEP {
          SleeperMovedIff(k, p, n);
        } else {
          DequeueAlarm(k1, p);
          EnqueueAlarm(Dequeue(k1, p), p, k1.procs[p].state, Prios(k1.procs));
        }
        MovedRest(k, p, n);
        ThenScheduler(k, Moved(k, p, n));
      }
    }
  }

  lemma MovedRest(k: Kernel, p: int, n: int)
    requires Shaped(k) && IsPid(p)
    ensures Moved(k, p, n) == k.(procs := k.procs[p := k.procs[p].(prio := n)], queues := Moved(k, p, n).queues)
  {
  }

  lemma PrioAlarm(k: Kernel, p: int, n: int)
    requires ByAlarm(k) && IsPid(p)
    ensures ByAlarm(Put(k, p, k.procs[p].(prio := n)))
  {
  }

  // ----- steps and runs -----

  lemma QuietAlarm(k: Kernel, e: Event)
    requires ByAlarm(k) && Enabled(k, e) && (e.DoSCreate? || e.DoTryWait? || e.ClockTick? || e.Resume?)
    requires IsPid(k.cur) && k.procs[k.cur].state == ACTIONABLE
    ensures Alarmed(k, Step(k, e))
  {
    hide ByAlarm; hide Scheduler; hide Reap; hide Add;
    ByAlarmShaped(k);
    if e.ClockTick? {
      SameAlarms(k, Ticked(k));
      ThenScheduler(k, Ticked(k));
    } else if e.Resume? {
      ReapAlarm(k);
      AwakePut(k, k.cur, k.procs[k.cur].(pending := UserMode));
    } else {
      SameAlarms(k, Step(k, e));
    }
  }

  lemma StepAlarm(k: Kernel, e: Event)
    requires Inv(k) && Enabled(k, e) && ByAlarm(k) && !Misplaces(k, e)
    ensures Alarmed(k, Step(k, e))
  {
    hide Core; hide NoStranded; hide GarbageOk; hide ByAlarm; hide Enabled; hide Signal; hide SignalN; hide SReset;
    hide SDelete; hide Wait; hide Start; hide Exit; hide WaitPid; hide WaitClock; hide ChPrio; hide Reap; hide Kill;
    hide Scheduler; hide GarbageCollect; hide SCreate; hide TryWait; hide Misplaces; hide Alarmed;
    InvShaped(k);
    EnabledCaller(k, e);
    match e
    case DoStart(prio) => StartAlarm(k, prio);
    case DoExit(v) => ExitAlarm(k, v);
    case DoKill(p) => KillAlarm(k, p);
    case DoWaitPid(p, found) =>
      FoundZombie(k, p, found);
      WaitPidAlarm(k, p, found);
    case DoChPrio(p, n) => ChPrioAlarm(k, p, n);
    case DoSDelete(_) => SemCalls(k, e);
    case DoSReset(_, _) => SemCalls(k, e);
    case DoSignal(_) => SemCalls(k, e);
    case DoSignalN(_, _) => SemCalls(k, e);
    case DoWait(id) => WaitCall(k, id);
    case DoWaitClock(t) => ClockAlarm(k, t);
    case ClockTick(b) => QuietAlarm(k, e);
    case Resume => QuietAlarm(k, e);
    case Collect =>
      CollectorRuns(k);
      CollectAlarm(k);
      ThenScheduler(k, GarbageCollect(k));
    case DoSCreate(c) => QuietAlarm(k, e);
    case DoTryWait(id) => QuietAlarm(k, e);
  }

  lemma FoundZombie(k: Kernel, p: int, found: int)
    requires Shaped(k) && Enabled(k, DoWaitPid(p, found))
    ensures found == -1 || ZombieChild(k, found, k.cur)
  {
  }

  lemma WaitCall(k: Kernel, id: int)
    requires Inv(k) && ByAlarm(k) && IsPid(k.cur)
    ensures Alarmed(k, Wait(k, id))
  {
    hide Core; hide NoStranded; hide GarbageOk; hide ByAlarm; hide Scheduler; hide BlockSem;
    InvShaped(k);
    if id in k.semUsed {
      IdInRange(k, id);
      WaitAlarm(k, id);
    }
  }

  /** In a queue ordered by alarm, a first sleeper that is not due bounds all. */
  lemma AllBounded(k: Kernel)
    requires Inv(k) && ByAlarm(k) && FirstNotDue(k)
    ensures NoneOverdue(k)
  {
    hide AllOk; hide Ordered; hide Idle; hide SemLists; hide NoStranded; hide GarbageOk;
    var q := k.queues[ASLEEP];
    forall p | 0 <= p < NB_PROCESS && k.procs[p].state == ASLEEP ensures k.procs[p].alarmTime >= k.clock {
      assert IsPid(p) && p in q;
      var i :| 0 <= i < |q| && q[i] == p;
      assert Alarms(k.procs)[q[0]] <= Alarms(k.procs)[q[i]];
    }
  }

  /** A reschedule leaves no due sleeper at the front, even when the same process goes on. */
  lemma RescheduleAlarm(k: Kernel, e: Event)
    requires Shaped(k) && Enabled(k, e) && Reschedules(k, e)
    ensures FirstNotDue(Step(k, e))
  {
    hide Scheduler; hide FirstNotDue;
    if e.ClockTick? {
      SchedulerExit(Ticked(k));
    } else {
      SchedulerExit(Put(k, k.cur, k.procs[k.cur].(prio := e.newprio)));
    }
  }

  /** Every step that does not misplace a sleeper keeps the order of the alarms, and after a context
      switch or a reschedule no sleeper is overdue. */
  lemma StepWakes(k: Kernel, e: Event)
    requires Inv(k) && Enabled(k, e) && ByAlarm(k) && !Misplaces(k, e)
    ensures ByAlarm(Step(k, e))
    ensures Step(k, e).cur != k.cur || Reschedules(k, e) ==> NoneOverdue(Step(k, e))
  {
    hide Inv; hide Enabled; hide Step; hide ByAlarm; hide Misplaces; hide NoneOverdue; hide FirstNotDue;
    hide Reschedules;
    InvShaped(k);
    StepAlarm(k, e);
    StepInv(k, e);
    if Reschedules(k, e) {
      RescheduleAlarm(k, e);
    }
    if Step(k, e).cur != k.cur || Reschedules(k, e) {
      AllBounded(Step(k, e));
    }
  }

  /** Over a whole run from boot in which no sleeper is misplaced: the asleep queue is in the order of
      the alarms, and after every context switch and every reschedule no sleeper is overdue. */
  lemma {:induction false} RunWakes(ks: seq<Kernel>, es: seq<Event>, i: nat)
    requires Run(ks, es) && ks[0] == Boot() && i < |ks|
    requires forall j :: 0 <= j < i ==> !Misplaces(ks[j], es[j])
    ensures ByAlarm(ks[i])
    ensures i > 0 && (ks[i].cur != ks[i - 1].cur || Reschedules(ks[i - 1], es[i - 1])) ==> NoneOverdue(ks[i])
  {
    hide Inv; hide Step; hide Enabled; hide ByAlarm; hide Misplaces; hide NoneOverdue; hide Reschedules;
    if i == 0 {
      BootAlarm();
    } else {
      RunWakes(ks, es, i - 1);
      BootInv();
      RunInv(ks, es, i - 1);
      StepWakes(ks[i - 1], es[i - 1]);
    }
  }

  lemma BootAlarm()
    ensures ByAlarm(Boot())
  {
    BootShape();
  }
}

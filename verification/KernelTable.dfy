/**
  The kernel as it is written: tables updated in place, lists scanned by loops
  (kernel/process_handler.c, kernel/sem.c).  Every method is proved to take the abstract state
  `View()` to the state the model of module KernelModel prescribes, and to return the code the
  caller sees.  A method that reaches `scheduler` ends there: what the suspended call does later
  is the method `Resume`.
*/
module KernelTable {
  import opened OrderedQueue
  import opened KernelModel
  import opened KernelInvariant
  import opened KernelSemaphores
  import opened KernelLife
  import opened KernelKill
  import opened KernelRuns

  /** The record field a list is ordered by. */
  datatype Key = ByPrio | ByAlarm | ByPid

  function Keys(procs: seq<Process>, key: Key): (r: seq<int>)
    ensures |procs| == NB_PROCESS ==> |r| == NB_PROCESS
  {
    match key
    case ByPrio => Prios(procs)
    case ByAlarm => Alarms(procs)
    case ByPid => Numbers()
  }

  lemma PositionUnique(q: seq<int>, keys: seq<int>, k: int, i: nat)
    requires Indexes(q, keys) && i <= |q|
    requires forall j :: 0 <= j < i ==> keys[q[j]] < k
    requires i < |q| ==> k <= keys[q[i]]
    ensures i == Position(q, keys, k)
  {
  }

  lemma AddAt(q: seq<int>, keys: seq<int>, e: int, i: nat)
    requires Indexes(q, keys) && 0 <= e < |keys| && i == Position(q, keys, keys[e])
    ensures Add(q, keys, e) == q[..i] + [e] + q[i..]
  {
  }

  lemma ShapedQueue(k: Kernel, s: int)
    requires Shaped(k) && 0 <= s < NB_STATE
    ensures |k.queues| == NB_STATE && |k.procs| == NB_PROCESS && AllPids(k.queues[s])
  {
  }

  /** The lists of semaphore ids after one has been given back. */
  lemma ShapedSems(k: Kernel, id: int)
    requires Shaped(k) && IsPid(id)
    ensures AllPids(k.semUsed) && AllPids(k.semFree)
    ensures Shaped(k.(semUsed := Remove(k.semUsed, id), semFree := Add(k.semFree, Numbers(), id)))
  {
    hide Add; hide Remove;
    RemoveIn(k.semUsed, id);
  }

  lemma RemoveAbsent(q: seq<int>, e: int)
    requires e !in q
    ensures Remove(q, e) == q
  {
  }

  /** The members of the list of blocked processes are blocked. */
  ghost predicate BlockedList(queues: seq<seq<int>>, procs: seq<Process>)
    requires |queues| == NB_STATE && |procs| == NB_PROCESS
  {
    AllPids(queues[SEM_BLOCKED]) && forall i :: 0 <= i < |queues[SEM_BLOCKED]| ==>
      procs[queues[SEM_BLOCKED][i]].state == SEM_BLOCKED
  }

  lemma ReleaseShrinks(k: Kernel, p: int, wake: int)
    requires Shaped(k) && BlockedList(k.queues, k.procs) && NoDup(k.queues[SEM_BLOCKED])
    requires p in k.queues[SEM_BLOCKED] && IsPid(p)
    ensures var k' := Release(k, p, wake);
      && BlockedList(k'.queues, k'.procs) && NoDup(k'.queues[SEM_BLOCKED])
      && |k'.queues[SEM_BLOCKED]| == |k.queues[SEM_BLOCKED]| - 1
  {
    hide Add; hide Position;
    RemoveMembers(k.queues[SEM_BLOCKED], p);
  }

  /** Once there are more wake-ups than waiters their number no longer matters. */
  lemma {:induction false} ReleaseEnough(k: Kernel, id: int, n: nat, m: nat, wake: int)
    requires Shaped(k) && BlockedList(k.queues, k.procs) && NoDup(k.queues[SEM_BLOCKED])
    requires |k.queues[SEM_BLOCKED]| <= n && |k.queues[SEM_BLOCKED]| <= m
    ensures ReleaseN(k, id, n, wake) == ReleaseN(k, id, m, wake)
    decreases n
  {
    hide Release;
    var p := FindBySem(k.queues[SEM_BLOCKED], k.procs, id);
    if p != -1 {
      ReleaseShrinks(k, p, wake);
      ReleaseEnough(Release(k, p, wake), id, n - 1, m - 1, wake);
    }
  }

  /** One turn of the release loops. */
  lemma ReleaseTurn(k: Kernel, id: int, n: nat, wake: int)
    requires Shaped(k)
    ensures var p := FindBySem(k.queues[SEM_BLOCKED], k.procs, id);
      ReleaseN(k, id, n, wake) == if n == 0 || p == -1 then k else ReleaseN(Release(k, p, wake), id, n - 1, wake)
  {
    hide Release; hide FindBySem;
  }

  /** What the invariant gives to the code of a system call. */
  lemma CallFacts(k: Kernel, e: Event)
    requires Inv(k) && Enabled(k, e)
    ensures Inv(Step(k, e))
    ensures Shaped(k) && BlockedList(k.queues, k.procs) && NoDup(k.queues[SEM_BLOCKED])
    ensures !e.Collect? ==> IsPid(k.cur)
    ensures forall id :: id in k.semUsed ==> IsPid(id)
  {
    hide AllOk; hide Ordered; hide Idle; hide NoStranded; hide GarbageOk; hide Step; hide Enabled; hide SemLists;
    InvShaped(k);
    StepKeeps(k, e);
    EnabledCaller(k, e);
    forall i | 0 <= i < |k.queues[SEM_BLOCKED]| ensures k.procs[k.queues[SEM_BLOCKED][i]].state == SEM_BLOCKED {
      assert k.queues[SEM_BLOCKED][i] in k.queues[SEM_BLOCKED];
    }
  }

  lemma ResumeFacts(k: Kernel)
    requires Inv(k) && Enabled(k, Resume)
    ensures IsPid(k.cur)
    ensures k.procs[k.cur].pending == InWait ==> k.procs[k.cur].awakener in {0, -3, -4}
    ensures k.procs[k.cur].pending == InWaitPid ==> ZombieChild(k, k.procs[k.cur].childWaited, k.cur)
  {
    assert ProcOk(k.procs, k.semUsed, k.cur, -1);
  }

  /** How a call that may wait for something ends. */
  datatype Outcome = Returned(code: int) | Suspended

  /** One turn of `garbage_collect`. */
  function Swept(k: Kernel): (k': Kernel)
    requires Shaped(k) && k.garbage != []
    ensures Shaped(k')
  {
    var d := k.garbage[|k.garbage| - 1];
    var k1 := k.(garbage := k.garbage[..|k.garbage| - 1]);
    if k1.procs[d].father == 0 then FreePid(Dequeue(k1, d), d) else k1
  }

  lemma CollectStep(k: Kernel)
    requires Shaped(k) && k.garbage != []
    ensures GarbageCollect(k) == GarbageCollect(Swept(k))
  {
    hide FreePid; hide Dequeue;
  }

  lemma CollectNone(k: Kernel)
    requires Shaped(k) && k.garbage == []
    ensures GarbageCollect(k) == k
  {
  }

  class Table {
    const procs: array<Process>
    const values: array<int>
    var queues: seq<seq<int>>
    var cur: int
    var clock: int
    var garbage: seq<int>
    var semUsed: seq<int>
    var semFree: seq<int>
    ghost var crashed: bool

    ghost function View(): Kernel
      reads this, procs, values
    {
      Kernel(procs[..], queues, cur, clock, garbage, values[..], semUsed, semFree, crashed)
    }

    ghost predicate Valid()
      reads this, procs, values
    {
      Shaped(View())
    }

    constructor ()
      ensures View() == Boot() && Inv(View()) && fresh(procs) && fresh(values)
    {
      var blank := Process(0, -1, 0, 0, -1, 0, 0, FREEPID, UserMode);
      procs := new Process[NB_PROCESS](p => if p == 0 then blank.(state := ACTIONABLE) else blank);
      values := new int[NB_SEM](i => 0);
      queues := [[], [], [], [], [], [], seq(NB_PROCESS - 1, i => i + 1)];
      cur, clock, garbage, semUsed, semFree := 0, 0, [], [], seq(NB_SEM, i => i);
      crashed := false;
      new;
      assert View().procs == Boot().procs && View().semValue == Boot().semValue;
      BootInv();
    }

    // ----- the lists of shared/queue.h -----

    method Scan(q: seq<int>, p: int, key: Key) returns (i: nat)
      requires Valid() && AllPids(q) && IsPid(p)
      ensures i == Position(q, Keys(procs[..], key), Keys(procs[..], key)[p])
    {
      ghost var keys := Keys(procs[..], key);
      i := 0;
      while i < |q| && match key
                       case ByPrio => procs[q[i]].prio < procs[p].prio
                       case ByAlarm => procs[q[i]].alarmTime < procs[p].alarmTime
                       case ByPid => q[i] < p
        invariant i <= |q|
        invariant forall j :: 0 <= j < i ==> keys[q[j]] < keys[p]
      {
        i := i + 1;
      }
      PositionUnique(q, keys, keys[p], i);
    }

    method QueueAdd(p: int, s: int, key: Key)
      requires Valid() && IsPid(p) && 0 <= s < NB_STATE
      modifies `queues
      ensures Valid() && View() == Enqueue(old(View()), p, s, Keys(procs[..], key))
    {
      hide Shaped; hide Add; hide Position; hide Keys;
      ShapedQueue(View(), s);
      var q := queues[s];
      var i := Scan(q, p, key);
      AddAt(q, Keys(procs[..], key), p, i);
      ghost var done := Enqueue(View(), p, s, Keys(procs[..], key));
      queues := queues[s := q[..i] + [p] + q[i..]];
      assert View() == done;
    }

    method Without(q: seq<int>, p: int) returns (r: seq<int>)
      ensures r == Remove(q, p)
    {
      var i := 0;
      while i < |q| && q[i] != p
        invariant i <= |q| && p !in q[..i]
      {
        i := i + 1;
      }
      if i == |q| {
        assert q[..i] == q;
        RemoveAbsent(q, p);
        return q;
      }
      RemoveAt(q, p, i);
      return q[..i] + q[i + 1..];
    }

    method QueueDel(p: int)
      requires Valid() && IsPid(p)
      modifies `queues
      ensures Valid() && View() == Dequeue(old(View()), p)
    {
      var s := procs[p].state;
      var r := Without(queues[s], p);
      RemoveIn(queues[s], p);
      queues := queues[s := r];
    }

    // ----- scheduler -----

    method Scheduler()
      requires Valid()
      modifies this, procs
      ensures Valid() && View() == KernelModel.Scheduler(old(View()))
    {
      hide WakeDue; hide Requeue;
      WakeSleepers();
      PutBack();
      if garbage != [] {
        cur := PID_GARBAGE;
      } else if queues[ACTIONABLE] == [] {
        crashed := true;
      } else {
        var q := queues[ACTIONABLE];
        cur := q[|q| - 1];
        queues := queues[ACTIONABLE := q[..|q| - 1]];
      }
    }

    method WakeSleepers()
      requires Valid()
      modifies `queues, procs
      ensures Valid() && View() == WakeDue(old(View()))
    {
      hide WakeFirst;
      while queues[ASLEEP] != [] && procs[queues[ASLEEP][0]].alarmTime < clock
        invariant Valid() && WakeDue(View()) == WakeDue(old(View()))
        decreases |queues[ASLEEP]|
      {
        Awake();
      }
    }

    method PutBack()
      requires Valid()
      modifies `queues
      ensures Valid() && View() == Requeue(old(View()))
    {
      if cur != PID_GARBAGE && procs[cur].state == ACTIONABLE {
        QueueAdd(cur, ACTIONABLE, ByPrio);
      }
    }

    method Awake()
      requires Valid() && queues[ASLEEP] != []
      modifies `queues, procs
      ensures Valid() && View() == WakeFirst(old(View()))
    {
      var q := queues[ASLEEP];
      var p := q[0];
      queues := queues[ASLEEP := q[1..]];
      procs[p] := procs[p].(alarmTime := 0, state := ACTIONABLE);
      QueueAdd(p, ACTIONABLE, ByPrio);
    }

    method GetPrio(p: int) returns (r: int)
      requires Valid()
      ensures r == KernelModel.GetPrio(View(), p)
    {
      if !IsPid(p) || procs[p].state == FREEPID || procs[p].state == ZOMBIE { return -1; }
      return procs[p].prio;
    }

    // ----- processes blocked on a semaphore -----

    method FindBySem(id: int) returns (p: int)
      requires Valid()
      ensures p == KernelModel.FindBySem(queues[SEM_BLOCKED], procs[..], id)
    {
      var q := queues[SEM_BLOCKED];
      var i := |q|;
      assert q[..i] == q;
      while i > 0
        invariant i <= |q|
        invariant KernelModel.FindBySem(q[..i], procs[..], id) == KernelModel.FindBySem(q, procs[..], id)
      {
        assert q[..i][..i - 1] == q[..i - 1];
        if procs[q[i - 1]].semBlocked == id { return q[i - 1]; }
        i := i - 1;
      }
      return -1;
    }

    method Unblock(p: int, wake: int)
      requires Valid() && IsPid(p)
      modifies `queues, procs
      ensures Valid() && View() == Release(old(View()), p, wake)
    {
      QueueDel(p);
      procs[p] := procs[p].(state := ACTIONABLE, awakener := wake, semBlocked := -1);
      QueueAdd(p, ACTIONABLE, ByPrio);
    }

    method UnblockSem(id: int) returns (p: int)
      requires Valid()
      modifies `queues, procs
      ensures Valid() && View() == ReleaseN(old(View()), id, 1, 0)
      ensures p == KernelModel.FindBySem(old(queues[SEM_BLOCKED]), old(procs[..]), id)
    {
      p := FindBySem(id);
      if p != -1 {
        Unblock(p, 0);
        assert View() == ReleaseN(View(), id, 0, 0);
      }
    }

    method UnblockN(id: int, n: short)
      requires Valid() && IsPid(cur)
      modifies this, procs
      ensures Valid()
      ensures View() == if n <= 0 then old(View()) else Preempt(ReleaseN(old(View()), id, n, 0))
    {
      hide Preempt; hide Release; hide ReleaseN; hide KernelModel.FindBySem;
      if n <= 0 { return; }
      var count: nat := 0;
      var p := FindBySem(id);
      while p != -1 && count < n
        invariant Valid() && count <= n && cur == old(cur)
        invariant p == KernelModel.FindBySem(queues[SEM_BLOCKED], procs[..], id)
        invariant ReleaseN(View(), id, n - count, 0) == ReleaseN(old(View()), id, n, 0)
        decreases n - count
      {
        ReleaseTurn(View(), id, n - count, 0);
        count := count + 1;
        Unblock(p, 0);
        p := FindBySem(id);
      }
      ReleaseTurn(View(), id, n - count, 0);
      Switch();
    }

    method UnblockAll(id: int, wake: int)
      requires Valid() && IsPid(cur) && BlockedList(queues, procs[..]) && NoDup(queues[SEM_BLOCKED])
      modifies this, procs
      ensures Valid() && View() == Preempt(ReleaseN(old(View()), id, |old(queues[SEM_BLOCKED])|, wake))
    {
      hide Preempt; hide Release; hide BlockedList; hide ReleaseN; hide KernelModel.FindBySem;
      var p := FindBySem(id);
      while p != -1
        invariant Valid() && cur == old(cur) && BlockedList(queues, procs[..]) && NoDup(queues[SEM_BLOCKED])
        invariant p == KernelModel.FindBySem(queues[SEM_BLOCKED], procs[..], id)
        invariant ReleaseN(View(), id, |queues[SEM_BLOCKED]|, wake)
               == ReleaseN(old(View()), id, |old(queues[SEM_BLOCKED])|, wake)
        decreases |queues[SEM_BLOCKED]|
      {
        ReleaseTurn(View(), id, |queues[SEM_BLOCKED]|, wake);
        ReleaseShrinks(View(), p, wake);
        Unblock(p, wake);
        p := FindBySem(id);
      }
      ReleaseTurn(View(), id, |queues[SEM_BLOCKED]|, wake);
      Switch();
    }

    /** Reschedule when the best actionable process beats the running one. */
    method Switch()
      requires Valid() && IsPid(cur)
      modifies this, procs
      ensures Valid() && View() == Preempt(old(View()))
    {
      hide KernelModel.Scheduler;
      var q := queues[ACTIONABLE];
      if q == [] {
        crashed := true;
      } else if procs[q[|q| - 1]].prio > procs[cur].prio {
        Scheduler();
      }
    }

    method BlockSem(id: int)
      requires Valid() && IsPid(cur)
      modifies this, procs
      ensures Valid() && View() == KernelModel.BlockSem(old(View()), id)
    {
      hide KernelModel.Scheduler;
      procs[cur] := procs[cur].(semBlocked := id, state := SEM_BLOCKED, pending := InWait);
      QueueAdd(cur, SEM_BLOCKED, ByPrio);
      Scheduler();
    }

    // ----- the semaphore calls of kernel/sem.c -----

    method FindSem(id: int) returns (found: bool)
      ensures found <==> id in semUsed
    {
      var i := 0;
      while i < |semUsed|
        invariant i <= |semUsed| && id !in semUsed[..i]
      {
        if semUsed[i] == id { return true; }
        i := i + 1;
      }
      assert semUsed[..i] == semUsed;
      return false;
    }

    method SCreate(count: short) returns (id: int)
      requires Inv(View()) && Enabled(View(), DoSCreate(count))
      modifies this, procs, values
      ensures Inv(View()) && View() == Step(old(View()), DoSCreate(count))
      ensures id == if count < 0 || old(semFree) == [] then -1 else old(semFree)[0]
    {
      hide Inv; hide Enabled;
      CallFacts(View(), DoSCreate(count));
      if count < 0 || semFree == [] { return -1; }
      id := semFree[0];
      semFree := semFree[1..];
      values[id] := count;
      var i := Scan(semUsed, id, ByPid);
      semUsed := semUsed[..i] + [id] + semUsed[i..];
    }

    method SDelete(id: int) returns (r: int)
      requires Inv(View()) && Enabled(View(), DoSDelete(id))
      modifies this, procs, values
      ensures Inv(View()) && View() == Step(old(View()), DoSDelete(id))
      ensures r == if id in old(semUsed) then 0 else -1
    {
      hide Inv; hide Enabled; hide Preempt; hide ReleaseN; hide BlockedList;
      CallFacts(View(), DoSDelete(id));
      var found := FindSem(id);
      if !found { return -1; }
      FreeId(id);
      UnblockAll(id, -3);
      return 0;
    }

    method FreeId(id: int)
      requires Valid() && IsPid(id)
      modifies `semUsed, `semFree
      ensures Valid()
      ensures View() == old(View()).(semUsed := Remove(old(semUsed), id), semFree := Add(old(semFree), Numbers(), id))
    {
      hide Shaped; hide Add; hide Position; hide Remove;
      ShapedSems(View(), id);
      var used := Without(semUsed, id);
      var i := Scan(semFree, id, ByPid);
      AddAt(semFree, Numbers(), id, i);
      semUsed := used;
      semFree := semFree[..i] + [id] + semFree[i..];
    }

    method SReset(id: int, count: short) returns (r: int)
      requires Inv(View()) && Enabled(View(), DoSReset(id, count))
      modifies this, procs, values
      ensures Inv(View()) && View() == Step(old(View()), DoSReset(id, count))
      ensures r == if id in old(semUsed) && count >= 0 then 0 else -1
    {
      hide Inv; hide Enabled; hide Preempt; hide ReleaseN; hide BlockedList;
      CallFacts(View(), DoSReset(id, count));
      var found := FindSem(id);
      if !found || count < 0 { return -1; }
      values[id] := count % 0x1_0000;
      UnblockAll(id, -4);
      return 0;
    }

    method Signal(id: int) returns (r: int)
      requires Inv(View()) && Enabled(View(), DoSignal(id))
      modifies this, procs, values
      ensures Inv(View()) && View() == Step(old(View()), DoSignal(id))
      ensures r == if id !in old(semUsed) then -1 else if old(values[id]) == SHRT_MAX then -2 else 0
    {
      hide Inv; hide Enabled; hide KernelModel.Scheduler; hide ReleaseN; hide BlockedList; hide KernelModel.GetPrio;
      CallFacts(View(), DoSignal(id));
      var found := FindSem(id);
      if !found { return -1; }
      InvSem(View(), id);
      var test := values[id] + 1;
      if test > SHRT_MAX { return -2; }
      values[id] := test;
      if test <= 0 {
        var p := UnblockSem(id);
        var theirs := GetPrio(p);
        var mine := GetPrio(cur);
        if theirs > mine {
          Scheduler();
        }
      }
      return 0;
    }

    method SignalN(id: int, count: short) returns (r: int)
      requires Inv(View()) && Enabled(View(), DoSignalN(id, count))
      modifies this, procs, values
      ensures Inv(View()) && View() == Step(old(View()), DoSignalN(id, count))
      ensures r == if count < 0 || id !in old(semUsed) then -1 else if old(values[id]) + count > SHRT_MAX then -2 else 0
    {
      hide Inv; hide Enabled; hide Preempt; hide ReleaseN; hide BlockedList;
      CallFacts(View(), DoSignalN(id, count));
      if count < 0 { return -1; }
      var found := FindSem(id);
      if !found { return -1; }
      var test := values[id] + count;
      if test > SHRT_MAX { return -2; }
      values[id] := test;
      UnblockN(id, count);
      return 0;
    }

    /** A `wait` that blocks ends in the scheduler; `Resume` gives its result. */
    method Wait(id: int) returns (r: Outcome)
      requires Inv(View()) && Enabled(View(), DoWait(id))
      modifies this, procs, values
      ensures Inv(View()) && View() == Step(old(View()), DoWait(id))
      ensures r == if id !in old(semUsed) then Returned(-1)
                   else if old(values[id]) == SHRT_MIN then Returned(-2)
                   else if old(values[id]) <= 0 then Suspended
                   else Returned(0)
    {
      hide Inv; hide Enabled; hide KernelModel.BlockSem; hide BlockedList;
      CallFacts(View(), DoWait(id));
      var found := FindSem(id);
      if !found { return Returned(-1); }
      InvSem(View(), id);
      var test := values[id] - 1;
      if test < SHRT_MIN { return Returned(-2); }
      values[id] := test;
      if values[id] < 0 {
        BlockSem(id);
        return Suspended;
      }
      return Returned(0);
    }

    method TryWait(id: int) returns (r: int)
      requires Inv(View()) && Enabled(View(), DoTryWait(id))
      modifies values
      ensures Inv(View()) && View() == Step(old(View()), DoTryWait(id))
      ensures r == if id !in old(semUsed) then -1
                   else if old(values[id]) == SHRT_MIN then -2
                   else if old(values[id]) <= 0 then -3
                   else 0
    {
      hide Inv; hide Enabled; hide BlockedList;
      CallFacts(View(), DoTryWait(id));
      var found := FindSem(id);
      if !found { return -1; }
      InvSem(View(), id);
      var test := values[id] - 1;
      if test < SHRT_MIN { return -2; }
      if test < 0 { return -3; }
      values[id] := test;
      return 0;
    }

    method SCount(id: int) returns (r: int)
      requires Inv(View())
      ensures r == if id !in semUsed then -1 else if values[id] >= 0 then values[id] else 0x1_0000 + values[id]
    {
      hide Inv; hide Blocked;
      InvShaped(View());
      var found := FindSem(id);
      if !found { return -1; }
      InvSem(View(), id);
      return values[id] % 0x1_0000;
    }

    method SignalDeath(id: int) returns (r: int)
      requires Valid() && forall i :: i in semUsed ==> IsPid(i)
      modifies `queues, procs, values
      ensures Valid() && View() == KernelModel.SignalDeath(old(View()), id)
      ensures r == if id !in old(semUsed) then -1 else if old(values[id]) + 1 > SHRT_MAX then -2 else 0
    {
      hide ReleaseN;
      var found := FindSem(id);
      if !found { return -1; }
      var test := values[id] + 1;
      if test > SHRT_MAX { return -2; }
      values[id] := test;
      if test <= 0 {
        var p := UnblockSem(id);
      }
      return 0;
    }

    // ----- processes -----

    method ChPrio(p: int, newprio: int) returns (r: int)
      requires Inv(View()) && Enabled(View(), DoChPrio(p, newprio))
      modifies this, procs, values
      ensures Inv(View()) && View() == Step(old(View()), DoChPrio(p, newprio))
      ensures r == if IsPid(p) && Live(old(procs[p])) && 1 <= newprio <= MAXPRIO then old(procs[p].prio) else -1
    {
      hide Inv; hide Enabled; hide KernelModel.Scheduler; hide BlockedList; hide Add; hide Remove;
      CallFacts(View(), DoChPrio(p, newprio));
      if !IsPid(p) || procs[p].state == FREEPID || procs[p].state == ZOMBIE { return -1; }
      if newprio < 1 || newprio > MAXPRIO { return -1; }
      var before := procs[p].prio;
      procs[p] := procs[p].(prio := newprio);
      if p != cur {
        QueueDel(p);
        QueueAdd(p, procs[p].state, ByPrio);
      }
      var mine := GetPrio(cur);
      if p != cur && newprio > mine {
        Scheduler();
      } else if p == cur && newprio < before {
        Scheduler();
      }
      return before;
    }

    method Start(prio: int) returns (r: int)
      requires Inv(View()) && Enabled(View(), DoStart(prio))
      modifies this, procs, values
      ensures Inv(View()) && View() == Step(old(View()), DoStart(prio))
      ensures r == if 1 <= prio <= MAXPRIO && old(queues[FREEPID]) != [] then old(queues[FREEPID])[0] else -1
    {
      hide Inv; hide Enabled; hide KernelModel.Scheduler; hide BlockedList; hide Add;
      CallFacts(View(), DoStart(prio));
      if prio < 1 || prio > MAXPRIO || queues[FREEPID] == [] { return -1; }
      var p := queues[FREEPID][0];
      queues := queues[FREEPID := queues[FREEPID][1..]];
      procs[p] := procs[p].(alarmTime := 0, prio := prio, retvalue := 0, state := ACTIONABLE,
                            childWaited := 0, father := cur, pending := UserMode);
      QueueAdd(p, ACTIONABLE, ByPrio);
      if cur != 0 && procs[cur].prio < prio {
        Scheduler();
      }
      return p;
    }

    method WaitClock(until: int)
      requires Inv(View()) && Enabled(View(), DoWaitClock(until))
      modifies this, procs, values
      ensures Inv(View()) && View() == Step(old(View()), DoWaitClock(until))
    {
      hide Inv; hide Enabled; hide KernelModel.Scheduler; hide BlockedList; hide Add;
      CallFacts(View(), DoWaitClock(until));
      if until > clock {
        procs[cur] := procs[cur].(alarmTime := until, state := ASLEEP);
        QueueAdd(cur, ASLEEP, ByAlarm);
        Scheduler();
      }
    }

    method FreePid(p: int)
      requires Valid() && IsPid(p)
      modifies `queues, procs
      ensures Valid() && View() == KernelModel.FreePid(old(View()), p)
    {
      procs[p] := procs[p].(awakener := -1, semBlocked := -1, state := FREEPID);
      QueueAdd(p, FREEPID, ByPid);
    }

    method ReportFather(p: int)
      requires Valid() && IsPid(p)
      modifies `queues, `crashed, procs
      ensures Valid() && View() == KernelModel.ReportFather(old(View()), p)
    {
      hide Add;
      var f := procs[p].father;
      if procs[f].childWaited == p || procs[f].childWaited == -1 {
        if f !in queues[WAITING_CHILD] {
          crashed := true;
        } else {
          var q := Without(queues[WAITING_CHILD], f);
          RemoveIn(queues[WAITING_CHILD], f);
          queues := queues[WAITING_CHILD := q];
          QueueAdd(f, ACTIONABLE, ByPid);
          procs[f] := procs[f].(childWaited := p, state := ACTIONABLE);
        }
      }
    }

    method CheckZombiesChildren(f: int)
      requires Valid() && IsPid(f)
      modifies `queues, procs
      ensures Valid() && View() == BuryChildren(old(View()), f, 0)
    {
      hide Dequeue; hide KernelModel.FreePid;
      var i := 0;
      while i < NB_PROCESS
        invariant Valid() && i <= NB_PROCESS
        invariant BuryChildren(View(), f, i) == BuryChildren(old(View()), f, 0)
      {
        if procs[i].father == f && procs[i].state == ZOMBIE && i != f {
          QueueDel(i);
          FreePid(i);
        }
        i := i + 1;
      }
    }

    method Funeral(f: int)
      requires procs.Length == NB_PROCESS
      modifies procs
      ensures procs[..] == Orphaned(old(procs[..]), f)
    {
      var i := 0;
      while i < procs.Length
        invariant 0 <= i <= procs.Length
        invariant forall p :: 0 <= p < procs.Length ==>
          procs[p] == if p < i then Orphaned(old(procs[..]), f)[p] else old(procs[p])
      {
        if procs[i].father == f && procs[i].state != FREEPID {
          procs[i] := procs[i].(father := 0);
        }
        i := i + 1;
      }
    }

    method GarbageCollect()
      requires Valid()
      modifies `queues, `garbage, procs
      ensures Valid() && View() == KernelModel.GarbageCollect(old(View()))
    {
      hide KernelModel.GarbageCollect; hide Shaped;
      while garbage != []
        invariant Valid() && KernelModel.GarbageCollect(View()) == KernelModel.GarbageCollect(old(View()))
        decreases |garbage|
      {
        CollectStep(View());
        CollectOne();
      }
      CollectNone(View());
    }

    /** The last process of the garbage list leaves it, and is freed if it has no father. */
    method CollectOne()
      requires Valid() && garbage != []
      modifies `queues, `garbage, procs
      ensures Valid() && View() == Swept(old(View())) && |garbage| == |old(garbage)| - 1
    {
      hide Dequeue; hide KernelModel.FreePid;
      var d := garbage[|garbage| - 1];
      garbage := garbage[..|garbage| - 1];
      if procs[d].father == 0 {
        QueueDel(d);
        FreePid(d);
      }
    }

    method Die(p: int, retval: int)
      requires Valid() && IsPid(p)
      modifies `queues, `garbage, `crashed, procs
      ensures Valid() && View() == KernelModel.Die(old(View()), p, retval)
    {
      hide KernelModel.ReportFather; hide BuryChildren; hide Orphaned; hide Enqueue; hide Put; hide Add;
      BecomeZombie(p, retval);
      ReportFather(p);
      CheckZombiesChildren(p);
      Mourn(p);
      ToGarbage(p);
    }

    method ToGarbage(p: int)
      requires Valid() && IsPid(p)
      modifies `garbage
      ensures Valid() && View() == old(View()).(garbage := Add(old(garbage), Numbers(), p))
    {
      hide Add; hide Position;
      var i := Scan(garbage, p, ByPid);
      AddAt(garbage, Numbers(), p, i);
      garbage := garbage[..i] + [p] + garbage[i..];
    }

    method BecomeZombie(p: int, retval: int)
      requires Valid() && IsPid(p)
      modifies `queues, procs
      ensures Valid()
      ensures View() ==
        var z := old(procs[p]).(retvalue := retval, alarmTime := clock, state := ZOMBIE);
        var k1 := Put(old(View()), p, z);
        Enqueue(k1, p, ZOMBIE, Alarms(k1.procs))
    {
      procs[p] := procs[p].(retvalue := retval, alarmTime := clock, state := ZOMBIE);
      QueueAdd(p, ZOMBIE, ByAlarm);
    }

    method Mourn(p: int)
      requires Valid() && IsPid(p)
      modifies procs
      ensures Valid() && View() == old(View()).(procs := Orphaned(old(procs[..]), p))
    {
      Funeral(p);
    }

    method Exit(retval: int)
      requires Inv(View()) && Enabled(View(), DoExit(retval))
      modifies this, procs, values
      ensures Inv(View()) && View() == Step(old(View()), DoExit(retval))
    {
      hide Inv; hide Enabled; hide KernelModel.Scheduler; hide BlockedList; hide KernelModel.Die;
      CallFacts(View(), DoExit(retval));
      Die(cur, retval);
      Scheduler();
    }

    method Kill(p: int) returns (r: int)
      requires Inv(View()) && Enabled(View(), DoKill(p))
      modifies this, procs, values
      ensures Inv(View()) && View() == Step(old(View()), DoKill(p))
      ensures r == if 0 < p < NB_PROCESS && (p == old(cur) || Live(old(procs[p]))) then 0 else -1
    {
      hide Inv; hide Enabled; hide KernelModel.Scheduler; hide BlockedList; hide KernelModel.Die;
      hide KernelModel.GarbageCollect; hide Forfeit; hide Dequeue;
      CallFacts(View(), DoKill(p));
      if p <= 0 || p >= NB_PROCESS { return -1; }
      if p == cur {
        Die(cur, KILL_RETVAL);
        Scheduler();
        return 0;
      }
      procs[p] := procs[p].(retvalue := KILL_RETVAL);
      if procs[p].state == ZOMBIE || procs[p].state == FREEPID { return -1; }
      GiveUp(p);
      QueueDel(p);
      Die(p, KILL_RETVAL);
      GarbageCollect();
      return 0;
    }

    method GiveUp(p: int)
      requires Valid() && IsPid(p) && forall i :: i in semUsed ==> IsPid(i)
      modifies `queues, procs, values
      ensures Valid() && View() == Forfeit(old(View()), p)
    {
      hide KernelModel.SignalDeath;
      if procs[p].state == SEM_BLOCKED {
        var id := procs[p].semBlocked;
        procs[p] := procs[p].(semBlocked := -1);
        var r := SignalDeath(id);
      }
    }

    /** The list of children, searched by pid: is there a child, is there a dead one? */
    method SearchChildren(f: int) returns (any: bool, zombie: int)
      requires Valid()
      ensures any <==> HasChild(View(), f)
      ensures if zombie == -1 then forall c :: IsPid(c) ==>
        !ZombieChild(View(), c, f) else ZombieChild(View(), zombie, f)
    {
      any, zombie := false, -1;
      var i := 1;
      while i < NB_PROCESS
        invariant 1 <= i <= NB_PROCESS
        invariant any <==> exists c :: 0 <= c < i && IsChild(View(), c, f)
        invariant zombie == -1 ==> forall c :: 0 <= c < i ==> !ZombieChild(View(), c, f)
        invariant zombie != -1 ==> ZombieChild(View(), zombie, f)
      {
        if procs[i].father == f && procs[i].state != FREEPID {
          assert IsChild(View(), i, f);
          any := true;
          if procs[i].state == ZOMBIE { zombie := i; }
        }
        i := i + 1;
      }
    }

    /** `waitpid`: a dead child is reaped and its pid and exit value returned; otherwise the caller
        waits and `Resume` gives the result. */
    method WaitPid(p: int) returns (r: Outcome, retval: int, ghost found: int)
      requires Inv(View()) && IsPid(cur) && cur != 0 && procs[cur].pending == UserMode
      modifies this, procs, values
      ensures old(Enabled(View(), DoWaitPid(p, found))) && Inv(View())
      ensures View() == Step(old(View()), DoWaitPid(p, found))
      ensures r.Returned? && r.code != -1 ==>
        old(ZombieChild(View(), r.code, cur)) && retval == old(procs[r.code].retvalue)
      ensures r.Returned? && r.code != -1 && p > 0 ==> r.code == p
      ensures r == Returned(-1) <==>
        old((p != -1 && (p <= 0 || p >= NB_PROCESS)) || !HasChild(View(), cur) || (p >= 0 && !IsChild(View(), p, cur)))
    {
      hide KernelModel.Scheduler; hide KernelModel.Reap; hide BlockedList; hide Inv; hide HasChild;
      InvShaped(View());
      retval := 0;
      var any, zombie := SearchChildren(cur);
      found := zombie;
      CallFacts(View(), DoWaitPid(p, found));
      if p != -1 && (p <= 0 || p >= NB_PROCESS) { return Returned(-1), 0, found; }
      if !any { return Returned(-1), 0, found; }
      if p >= 0 && !(procs[p].father == cur && procs[p].state != FREEPID) { return Returned(-1), 0, found; }
      var awaited := if p == -1 then zombie else if procs[p].state == ZOMBIE then p else -1;
      if awaited != -1 {
        procs[cur] := procs[cur].(childWaited := awaited);
        retval := procs[awaited].retvalue;
        Reap();
        return Returned(awaited), retval, found;
      }
      AwaitChild(p);
      return Suspended, 0, found;
    }

    /** The caller goes to sleep until child p, or any child for -1, dies. */
    method AwaitChild(p: int)
      requires Valid() && IsPid(cur)
      modifies this, procs, values
      ensures Valid()
      ensures View() ==
        var r := old(procs[cur]).(childWaited := p, state := WAITING_CHILD, pending := InWaitPid);
        var k1 := Put(old(View()), old(cur), r);
        KernelModel.Scheduler(Enqueue(k1, old(cur), WAITING_CHILD, Numbers()))
    {
      hide KernelModel.Scheduler; hide Add;
      procs[cur] := procs[cur].(childWaited := p, state := WAITING_CHILD, pending := InWaitPid);
      QueueAdd(cur, WAITING_CHILD, ByPid);
      Scheduler();
    }

    method Reap()
      requires Valid() && IsPid(cur)
      modifies `queues, `crashed, procs
      ensures Valid() && View() == KernelModel.Reap(old(View()))
    {
      hide Dequeue; hide KernelModel.FreePid;
      var c := procs[cur].childWaited;
      if !IsPid(c) || c !in queues[ZOMBIE] {
        crashed := true;
      } else {
        QueueDel(c);
        FreePid(c);
        procs[cur] := procs[cur].(childWaited := 0, pending := UserMode);
      }
    }

    /** The rest of a `wait` or a `waitpid` that was suspended in the scheduler: the code set by the
        event that woke it, or the dead child and its exit value. */
    method Resume() returns (code: int, retval: int)
      requires Inv(View()) && Enabled(View(), KernelModel.Resume)
      modifies this, procs, values
      ensures Inv(View()) && View() == Step(old(View()), KernelModel.Resume)
      ensures old(procs[cur].pending) == InWait ==> code == old(procs[cur].awakener) && code in {0, -3, -4}
      ensures old(procs[cur].pending) == InWaitPid ==>
                old(ZombieChild(View(), code, cur)) && retval == old(procs[code].retvalue)
      ensures old(procs[cur].pending) == InWaitPid ==> code == old(procs[cur].childWaited)
    {
      hide Inv; hide Enabled; hide BlockedList; hide KernelModel.Reap;
      CallFacts(View(), KernelModel.Resume);
      ResumeFacts(View());
      if procs[cur].pending == InWaitPid {
        code := procs[cur].childWaited;
        retval := procs[code].retvalue;
        Reap();
      } else {
        code, retval := procs[cur].awakener, 0;
        procs[cur] := procs[cur].(pending := UserMode);
      }
    }

    method Tick(reschedule: bool)
      requires Inv(View()) && Enabled(View(), ClockTick(reschedule))
      modifies this, procs, values
      ensures Inv(View()) && View() == Step(old(View()), ClockTick(reschedule))
    {
      hide Inv; hide Enabled; hide KernelModel.Scheduler; hide BlockedList;
      CallFacts(View(), ClockTick(reschedule));
      clock := clock + 1;
      if reschedule { Scheduler(); }
    }

    method Collector()
      requires Inv(View()) && Enabled(View(), Collect)
      modifies this, procs, values
      ensures Inv(View()) && View() == Step(old(View()), Collect)
    {
      hide Inv; hide Enabled; hide KernelModel.Scheduler; hide BlockedList; hide KernelModel.GarbageCollect;
      CallFacts(View(), Collect);
      GarbageCollect();
      Scheduler();
    }

  }
}

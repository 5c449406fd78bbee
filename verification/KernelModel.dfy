/**
  The process table, the scheduler and the semaphores as one state machine
  (kernel/process_handler.c, kernel/sem.c).

  System calls enter through interrupt gates, so a call runs without interruption up to
  `scheduler`, which ends the step by changing `cur`.  What is left of a call that was suspended
  in `scheduler` is recorded in `pending`; it is the first thing the process does when it runs
  again.  A dereference of a null queue element sets `crashed`.
*/
module KernelModel {
  import opened OrderedQueue

  const NB_PROCESS := 100
  const PID_GARBAGE := 100
  const NB_SEM := 100
  const MAXPRIO := 256
  const SHRT_MAX := 32767
  const SHRT_MIN := -32767
  const KILL_RETVAL := 0

  type short = x: int | -32768 <= x <= 32767

  // list_type of kernel/private_process.h: the process states, which number the queues
  const ACTIONABLE := 0
  const ASLEEP := 1
  const SEM_BLOCKED := 2
  const IO_BLOCKED := 3
  const WAITING_CHILD := 4
  const ZOMBIE := 5
  const FREEPID := 6
  const NB_STATE := 7

  /** What the process does first when it is next scheduled. */
  datatype Pending = UserMode | InWait | InWaitPid

  datatype Process = Process(
    prio: int, awakener: int, retvalue: int, alarmTime: int, semBlocked: int,
    father: int, childWaited: int, state: int, pending: Pending)

  datatype Kernel = Kernel(
    procs: seq<Process>, queues: seq<seq<int>>, cur: int, clock: int, garbage: seq<int>,
    semValue: seq<int>, semUsed: seq<int>, semFree: seq<int>, crashed: bool)

  predicate IsPid(p: int) { 0 <= p < NB_PROCESS }

  predicate AllPids(q: seq<int>) { forall i :: 0 <= i < |q| ==> IsPid(q[i]) }

  /** The tables have the sizes of the C arrays and the lists hold table indices. */
  predicate Shaped(k: Kernel) {
    && |k.procs| == NB_PROCESS && |k.queues| == NB_STATE
    && (forall p :: 0 <= p < NB_PROCESS ==> 0 <= k.procs[p].state < NB_STATE && 0 <= k.procs[p].father < NB_PROCESS)
    && (forall s :: 0 <= s < NB_STATE ==> AllPids(k.queues[s]))
    && AllPids(k.garbage)
    && |k.semValue| == NB_SEM && AllPids(k.semUsed) && AllPids(k.semFree)
    && 0 <= k.cur <= PID_GARBAGE
  }

  function Prios(procs: seq<Process>): (r: seq<int>)
    ensures |r| == |procs| && forall i :: 0 <= i < |r| ==> r[i] == procs[i].prio
  {
    seq(|procs|, i requires 0 <= i < |procs| => procs[i].prio)
  }

  function Alarms(procs: seq<Process>): (r: seq<int>)
    ensures |r| == |procs| && forall i :: 0 <= i < |r| ==> r[i] == procs[i].alarmTime
  {
    seq(|procs|, i requires 0 <= i < |procs| => procs[i].alarmTime)
  }

  /** The key `pid` (or `id`): every element is its own key. */
  function Numbers(): (r: seq<int>)
    ensures |r| == NB_PROCESS && forall i :: 0 <= i < |r| ==> r[i] == i
  {
    seq(NB_PROCESS, i => i)
  }

  function Crash(k: Kernel): Kernel { k.(crashed := true) }

  function Put(k: Kernel, p: int, r: Process): (k': Kernel)
    requires Shaped(k) && IsPid(p) && 0 <= r.state < NB_STATE && IsPid(r.father)
    ensures Shaped(k')
  {
    k.(procs := k.procs[p := r])
  }

  function Enqueue(k: Kernel, p: int, s: int, keys: seq<int>): (k': Kernel)
    requires Shaped(k) && IsPid(p) && 0 <= s < NB_STATE && |keys| == NB_PROCESS
    ensures Shaped(k')
  {
    k.(queues := k.queues[s := Add(k.queues[s], keys, p)])
  }

  /** `queue_del` on the state link of process p. */
  function Dequeue(k: Kernel, p: int): (k': Kernel)
    requires Shaped(k) && IsPid(p)
    ensures Shaped(k')
  {
    var s := k.procs[p].state;
    RemoveIn(k.queues[s], p);
    k.(queues := k.queues[s := Remove(k.queues[s], p)])
  }

  // ----- scheduler -----

  /** The loop of `scheduler` that moves due sleepers to the actionable queue. */
  function WakeDue(k: Kernel): (k': Kernel)
    requires Shaped(k)
    ensures Shaped(k')
    decreases |k.queues[ASLEEP]|
  {
    var q := k.queues[ASLEEP];
    if q == [] || k.procs[q[0]].alarmTime >= k.clock then k
    else WakeDue(WakeFirst(k))
  }

  function WakeFirst(k: Kernel): (k': Kernel)
    requires Shaped(k) && k.queues[ASLEEP] != []
    ensures Shaped(k') && |k'.queues[ASLEEP]| < |k.queues[ASLEEP]|
  {
    var q := k.queues[ASLEEP];
    var p := q[0];
    var k1 := k.(queues := k.queues[ASLEEP := q[1..]]);
    var k2 := Put(k1, p, k1.procs[p].(alarmTime := 0, state := ACTIONABLE));
    Enqueue(k2, p, ACTIONABLE, Prios(k2.procs))
  }

  /** The running process goes back to the actionable queue unless it changed state. */
  function Requeue(k: Kernel): (k': Kernel)
    requires Shaped(k)
    ensures Shaped(k')
  {
    if k.cur != PID_GARBAGE && k.procs[k.cur].state == ACTIONABLE
    then Enqueue(k, k.cur, ACTIONABLE, Prios(k.procs))
    else k
  }

  function Elect(k: Kernel): (k': Kernel)
    requires Shaped(k)
    ensures Shaped(k')
  {
    var q := k.queues[ACTIONABLE];
    if k.garbage != [] then k.(cur := PID_GARBAGE)
    else if q == [] then Crash(k)
    else k.(cur := q[|q| - 1], queues := k.queues[ACTIONABLE := q[..|q| - 1]])
  }

  function Scheduler(k: Kernel): (k': Kernel)
    requires Shaped(k)
    ensures Shaped(k')
  {
    Elect(Requeue(WakeDue(k)))
  }

  // ----- priorities -----

  function GetPrio(k: Kernel, p: int): int
    requires Shaped(k)
  {
    if !IsPid(p) || k.procs[p].state == FREEPID || k.procs[p].state == ZOMBIE then -1
    else k.procs[p].prio
  }

  function ChPrio(k: Kernel, p: int, newprio: int): (k': Kernel)
    requires Shaped(k)
    ensures Shaped(k')
  {
    if !IsPid(p) || k.procs[p].state == FREEPID || k.procs[p].state == ZOMBIE
       || newprio < 1 || newprio > MAXPRIO then k
    else
      var oldprio := k.procs[p].prio;
      var k1 := Put(k, p, k.procs[p].(prio := newprio));
      if p != k.cur then
        var k2 := Enqueue(Dequeue(k1, p), p, k1.procs[p].state, Prios(k1.procs));
        if newprio > GetPrio(k2, k2.cur) then Scheduler(k2) else k2
      else if newprio < oldprio then Scheduler(k1)
      else k1
  }

  // ----- processes blocked on a semaphore -----

  /** `find_by_sem`: the last process of the queue that waits for `id`, or -1. */
  function FindBySem(q: seq<int>, procs: seq<Process>, id: int): (p: int)
    requires |procs| == NB_PROCESS && AllPids(q)
    ensures p != -1 ==> IsPid(p) && p in q && procs[p].semBlocked == id
    ensures p == -1 ==> forall i :: 0 <= i < |q| ==> procs[q[i]].semBlocked != id
  {
    if q == [] then -1
    else
      var last := q[|q| - 1];
      if procs[last].semBlocked == id then last else FindBySem(q[..|q| - 1], procs, id)
  }

  /** The common part of `unblock_sem`, `unblock_n_sems` and `unblock_all_sem`. */
  function Release(k: Kernel, p: int, wake: int): (k': Kernel)
    requires Shaped(k) && IsPid(p)
    ensures Shaped(k')
  {
    var k1 := Dequeue(k, p);
    var k2 := Put(k1, p, k1.procs[p].(state := ACTIONABLE, awakener := wake, semBlocked := -1));
    Enqueue(k2, p, ACTIONABLE, Prios(k2.procs))
  }

  /** Release up to n waiters of `id`, one `find_by_sem` at a time. */
  function ReleaseN(k: Kernel, id: int, n: nat, wake: int): (k': Kernel)
    requires Shaped(k)
    ensures Shaped(k') && k' == k.(procs := k'.procs, queues := k'.queues)
    decreases n
  {
    var p := FindBySem(k.queues[SEM_BLOCKED], k.procs, id);
    if n == 0 || p == -1 then k else ReleaseN(Release(k, p, wake), id, n - 1, wake)
  }

  /** The end of `unblock_n_sems` and `unblock_all_sem`. */
  function Preempt(k: Kernel): (k': Kernel)
    requires Shaped(k) && IsPid(k.cur)
    ensures Shaped(k')
  {
    var q := k.queues[ACTIONABLE];
    if q == [] then Crash(k)
    else if k.procs[q[|q| - 1]].prio > k.procs[k.cur].prio then Scheduler(k)
    else k
  }

  function BlockSem(k: Kernel, id: int): (k': Kernel)
    requires Shaped(k) && IsPid(k.cur)
    ensures Shaped(k')
  {
    var p := k.cur;
    var k1 := Put(k, p, k.procs[p].(semBlocked := id, state := SEM_BLOCKED, pending := InWait));
    Scheduler(Enqueue(k1, p, SEM_BLOCKED, Prios(k1.procs)))
  }

  // ----- semaphores (kernel/sem.c) -----

  function SetValue(k: Kernel, id: int, v: int): (k': Kernel)
    requires Shaped(k) && IsPid(id)
    ensures Shaped(k')
  {
    k.(semValue := k.semValue[id := v])
  }

  function SCreate(k: Kernel, count: short): (k': Kernel)
    requires Shaped(k)
    ensures Shaped(k')
  {
    if count < 0 || k.semFree == [] then k
    else
      var id := k.semFree[0];
      SetValue(k, id, count).(semFree := k.semFree[1..], semUsed := Add(k.semUsed, Numbers(), id))
  }

  function SDelete(k: Kernel, id: int): (k': Kernel)
    requires Shaped(k) && IsPid(k.cur)
    ensures Shaped(k')
  {
    if id !in k.semUsed then k
    else
      RemoveIn(k.semUsed, id);
      var k1 := k.(semUsed := Remove(k.semUsed, id), semFree := Add(k.semFree, Numbers(), id));
      Preempt(ReleaseN(k1, id, |k1.queues[SEM_BLOCKED]|, -3))
  }

  function SReset(k: Kernel, id: int, count: short): (k': Kernel)
    requires Shaped(k) && IsPid(k.cur)
    ensures Shaped(k')
  {
    if id !in k.semUsed || count < 0 then k
    else
      var k1 := SetValue(k, id, count % 0x1_0000);
      Preempt(ReleaseN(k1, id, |k1.queues[SEM_BLOCKED]|, -4))
  }

  function Signal(k: Kernel, id: int): (k': Kernel)
    requires Shaped(k) && IsPid(k.cur)
    ensures Shaped(k')
  {
    if id !in k.semUsed || k.semValue[id] + 1 > SHRT_MAX then k
    else
      var k1 := SetValue(k, id, k.semValue[id] + 1);
      if k1.semValue[id] > 0 then k1
      else
        var p := FindBySem(k1.queues[SEM_BLOCKED], k1.procs, id);
        var k2 := ReleaseN(k1, id, 1, 0);
        if GetPrio(k2, p) > GetPrio(k2, k2.cur) then Scheduler(k2) else k2
  }

  /** Called by `kill` only: a signal that never reschedules. */
  function SignalDeath(k: Kernel, id: int): (k': Kernel)
    requires Shaped(k)
    ensures Shaped(k')
  {
    if id !in k.semUsed || k.semValue[id] + 1 > SHRT_MAX then k
    else
      var k1 := SetValue(k, id, k.semValue[id] + 1);
      if k1.semValue[id] > 0 then k1 else ReleaseN(k1, id, 1, 0)
  }

  function SignalN(k: Kernel, id: int, count: short): (k': Kernel)
    requires Shaped(k) && IsPid(k.cur)
    ensures Shaped(k')
  {
    if count < 0 || id !in k.semUsed || k.semValue[id] + count > SHRT_MAX then k
    else
      var k1 := SetValue(k, id, k.semValue[id] + count);
      if count == 0 then k1 else Preempt(ReleaseN(k1, id, count, 0))
  }

  function Wait(k: Kernel, id: int): (k': Kernel)
    requires Shaped(k) && IsPid(k.cur)
    ensures Shaped(k')
  {
    if id !in k.semUsed || k.semValue[id] - 1 < SHRT_MIN then k
    else
      var k1 := SetValue(k, id, k.semValue[id] - 1);
      if k1.semValue[id] < 0 then BlockSem(k1, id) else k1
  }

  function TryWait(k: Kernel, id: int): (k': Kernel)
    requires Shaped(k)
    ensures Shaped(k')
  {
    if id !in k.semUsed || k.semValue[id] - 1 < SHRT_MIN || k.semValue[id] - 1 < 0 then k
    else SetValue(k, id, k.semValue[id] - 1)
  }

  // ----- life and death of processes -----

  /** `start`, when its memory allocations succeed. */
  function Start(k: Kernel, prio: int): (k': Kernel)
    requires Shaped(k) && IsPid(k.cur)
    ensures Shaped(k')
  {
    var free := k.queues[FREEPID];
    if prio < 1 || prio > MAXPRIO || free == [] then k
    else
      var p := free[0];
      var k1 := k.(queues := k.queues[FREEPID := free[1..]]);
      var k2 := Put(k1, p, k1.procs[p].(alarmTime := 0, prio := prio, retvalue := 0, state := ACTIONABLE,
                                        childWaited := 0, father := k.cur, pending := UserMode));
      var k3 := Enqueue(k2, p, ACTIONABLE, Prios(k2.procs));
      if k.cur != 0 && k3.procs[k.cur].prio < prio then Scheduler(k3) else k3
  }

  function WaitClock(k: Kernel, clock: int): (k': Kernel)
    requires Shaped(k) && IsPid(k.cur)
    ensures Shaped(k')
  {
    if clock <= k.clock then k
    else
      var p := k.cur;
      var k1 := Put(k, p, k.procs[p].(alarmTime := clock, state := ASLEEP));
      Scheduler(Enqueue(k1, p, ASLEEP, Alarms(k1.procs)))
  }

  /** `free_pid` */
  function FreePid(k: Kernel, p: int): (k': Kernel)
    requires Shaped(k) && IsPid(p)
    ensures Shaped(k')
  {
    var k1 := Put(k, p, k.procs[p].(awakener := -1, semBlocked := -1, state := FREEPID));
    Enqueue(k1, p, FREEPID, Numbers())
  }

  /** `report_father`: wakes a father that waits for this child.  The father enters the
      actionable queue at the place of its pid. */
  function ReportFather(k: Kernel, p: int): (k': Kernel)
    requires Shaped(k) && IsPid(p)
    ensures Shaped(k')
  {
    var f := k.procs[p].father;
    if k.procs[f].childWaited != p && k.procs[f].childWaited != -1 then k
    else if f !in k.queues[WAITING_CHILD] then Crash(k)
    else
      RemoveIn(k.queues[WAITING_CHILD], f);
      var k1 := k.(queues := k.queues[WAITING_CHILD := Remove(k.queues[WAITING_CHILD], f)]);
      var k2 := Enqueue(k1, f, ACTIONABLE, Numbers());
      Put(k2, f, k2.procs[f].(childWaited := p, state := ACTIONABLE))
  }

  /** `check_zombies_children` from pid i on: the zombie children of f are freed. */
  function BuryChildren(k: Kernel, f: int, i: nat): (k': Kernel)
    requires Shaped(k) && IsPid(f) && i <= NB_PROCESS
    ensures Shaped(k')
    decreases NB_PROCESS - i
  {
    if i == NB_PROCESS then k
    else if k.procs[i].father == f && k.procs[i].state == ZOMBIE && i != f
    then BuryChildren(FreePid(Dequeue(k, i), i), f, i + 1)
    else BuryChildren(k, f, i + 1)
  }

  /** `funeral`: the surviving children become children of idle. */
  function Orphaned(procs: seq<Process>, f: int): (r: seq<Process>)
    ensures |r| == |procs|
    ensures forall p :: 0 <= p < |r| ==>
              r[p] == if procs[p].father == f && procs[p].state != FREEPID then procs[p].(father := 0) else procs[p]
  {
    seq(|procs|, p requires 0 <= p < |procs| =>
      if procs[p].father == f && procs[p].state != FREEPID then procs[p].(father := 0) else procs[p])
  }

  /** `garbage_collect` */
  function GarbageCollect(k: Kernel): (k': Kernel)
    requires Shaped(k)
    ensures Shaped(k')
    decreases |k.garbage|
  {
    if k.garbage == [] then k
    else
      var d := k.garbage[|k.garbage| - 1];
      var k1 := k.(garbage := k.garbage[..|k.garbage| - 1]);
      GarbageCollect(if k1.procs[d].father == 0 then FreePid(Dequeue(k1, d), d) else k1)
  }

  /** The common part of `exit` and `kill`: process p, already out of its queue, becomes a zombie. */
  function Die(k: Kernel, p: int, retval: int): (k': Kernel)
    requires Shaped(k) && IsPid(p)
    ensures Shaped(k')
  {
    var k1 := Put(k, p, k.procs[p].(retvalue := retval, alarmTime := k.clock, state := ZOMBIE));
    var k2 := Enqueue(k1, p, ZOMBIE, Alarms(k1.procs));
    var k3 := BuryChildren(ReportFather(k2, p), p, 0);
    var k4 := k3.(procs := Orphaned(k3.procs, p));
    k4.(garbage := Add(k4.garbage, Numbers(), p))
  }

  function Exit(k: Kernel, retval: int): (k': Kernel)
    requires Shaped(k) && IsPid(k.cur)
    ensures Shaped(k')
  {
    Scheduler(Die(k, k.cur, retval))
  }

  /** The part of `kill` before the victim leaves its queue: a waiter gives its token back. */
  function Forfeit(k: Kernel, p: int): (k': Kernel)
    requires Shaped(k) && IsPid(p)
    ensures Shaped(k')
  {
    if k.procs[p].state == SEM_BLOCKED
    then SignalDeath(Put(k, p, k.procs[p].(semBlocked := -1)), k.procs[p].semBlocked)
    else k
  }

  function Kill(k: Kernel, p: int): (k': Kernel)
    requires Shaped(k) && IsPid(k.cur)
    ensures Shaped(k')
  {
    if p <= 0 || p >= NB_PROCESS then k
    else if p == k.cur then Exit(k, KILL_RETVAL)
    else
      var k1 := Put(k, p, k.procs[p].(retvalue := KILL_RETVAL));
      if k1.procs[p].state == ZOMBIE || k1.procs[p].state == FREEPID then k1
      else GarbageCollect(Die(Dequeue(Forfeit(k1, p), p), p, KILL_RETVAL))
  }

  predicate IsChild(k: Kernel, c: int, f: int)
    requires Shaped(k)
  {
    IsPid(c) && c != 0 && k.procs[c].father == f && k.procs[c].state != FREEPID
  }

  predicate ZombieChild(k: Kernel, c: int, f: int)
    requires Shaped(k)
  {
    IsChild(k, c, f) && k.procs[c].state == ZOMBIE
  }

  predicate HasChild(k: Kernel, f: int)
    requires Shaped(k)
  {
    exists c :: 0 <= c < NB_PROCESS && IsChild(k, c, f)
  }

  /** The end of `waitpid`: the dead child is freed. */
  function Reap(k: Kernel): (k': Kernel)
    requires Shaped(k) && IsPid(k.cur)
    ensures Shaped(k')
  {
    var c := k.procs[k.cur].childWaited;
    if !IsPid(c) || c !in k.queues[ZOMBIE] then Crash(k)
    else
      var k1 := FreePid(Dequeue(k, c), c);
      Put(k1, k.cur, k1.procs[k.cur].(childWaited := 0, pending := UserMode))
  }

  /** `waitpid`.  With several zombie children the order of the list of children decides; it is
      not modelled, so the zombie that `waitpid(-1)` finds is the parameter `found`. */
  function WaitPid(k: Kernel, p: int, found: int): (k': Kernel)
    requires Shaped(k) && IsPid(k.cur)
    requires found == -1 || ZombieChild(k, found, k.cur)
    ensures Shaped(k')
  {
    var me := k.cur;
    if p != -1 && (p <= 0 || p >= NB_PROCESS) then k
    else if !HasChild(k, me) then k
    else if p >= 0 && !IsChild(k, p, me) then k
    else
      var awaited := if p == -1 then found else if k.procs[p].state == ZOMBIE then p else -1;
      if awaited != -1 then
        Reap(Put(k, me, k.procs[me].(childWaited := awaited)))
      else
        var k1 := Put(k, me, k.procs[me].(childWaited := p, state := WAITING_CHILD, pending := InWaitPid));
        Scheduler(Enqueue(k1, me, WAITING_CHILD, Numbers()))
  }

  /** The timer interrupt counts. */
  function Ticked(k: Kernel): (k': Kernel)
    requires Shaped(k)
    ensures Shaped(k')
  {
    k.(clock := k.clock + 1)
  }

  // ----- the state machine -----

  datatype Event =
    | DoStart(prio: int)
    | DoExit(retval: int)
    | DoKill(pid: int)
    | DoWaitPid(pid: int, found: int)
    | DoWaitClock(until: int)
    | DoChPrio(pid: int, newprio: int)
    | DoSCreate(count: short)
    | DoSDelete(id: int)
    | DoSReset(id: int, count: short)
    | DoSignal(id: int)
    | DoSignalN(id: int, count: short)
    | DoWait(id: int)
    | DoTryWait(id: int)
    | ClockTick(reschedule: bool)  // the timer interrupt
    | Resume                       // the running process finishes the call it was suspended in
    | Collect                      // the garbage collector process

  /** Which events can happen next.  Idle executes `sti; hlt; cli` only, apart from the boot code
      that starts the first process, so the other calls come from processes other than 0. */
  ghost predicate Enabled(k: Kernel, e: Event)
    requires Shaped(k)
  {
    if e.Collect? then k.cur == PID_GARBAGE
    else if e.Resume? then IsPid(k.cur) && k.procs[k.cur].pending != UserMode
    else
      && IsPid(k.cur) && k.procs[k.cur].pending == UserMode
      && (k.cur == 0 ==> e.DoStart? || e.ClockTick?)
      && (e.DoWaitPid? ==>
            if e.found == -1 then forall c :: IsPid(c) ==> !ZombieChild(k, c, k.cur)
            else ZombieChild(k, e.found, k.cur))
  }

  ghost function Step(k: Kernel, e: Event): (k': Kernel)
    requires Shaped(k) && Enabled(k, e)
    ensures Shaped(k')
  {
    match e
    case DoStart(prio) => Start(k, prio)
    case DoExit(v) => Exit(k, v)
    case DoKill(p) => Kill(k, p)
    case DoWaitPid(p, found) => WaitPid(k, p, found)
    case DoWaitClock(t) => WaitClock(k, t)
    case DoChPrio(p, n) => ChPrio(k, p, n)
    case DoSCreate(c) => SCreate(k, c)
    case DoSDelete(id) => SDelete(k, id)
    case DoSReset(id, c) => SReset(k, id, c)
    case DoSignal(id) => Signal(k, id)
    case DoSignalN(id, c) => SignalN(k, id, c)
    case DoWait(id) => Wait(k, id)
    case DoTryWait(id) => TryWait(k, id)
    case ClockTick(b) => if b then Scheduler(Ticked(k)) else Ticked(k)
    case Resume =>
      if k.procs[k.cur].pending == InWaitPid then Reap(k)
      else Put(k, k.cur, k.procs[k.cur].(pending := UserMode))
    case Collect => Scheduler(GarbageCollect(k))
  }

  /** `init_process_handling` and `init_sem_free`: idle runs, everything else is free. */
  function Boot(): (k: Kernel)
  {
    var blank := Process(0, -1, 0, 0, -1, 0, 0, FREEPID, UserMode);
    Kernel(
      seq(NB_PROCESS, p => if p == 0 then blank.(state := ACTIONABLE) else blank),
      [[], [], [], [], [], [], seq(NB_PROCESS - 1, i => i + 1)],
      0, 0, [], seq(NB_SEM, i => 0), [], seq(NB_SEM, i => i), false)
  }
}

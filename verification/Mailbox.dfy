/**
  The mailbox of kernel/lwip/outils_projet/sys_arch.c: a ring of 128 slots guarded by binary
  semaphores, with any number of producers and one consumer.  A step is one semaphore operation
  together with the local code that follows it; between steps any other thread may run.
*/
module Mailbox {
  const SYS_MBOX_SIZE := 128

  type Msg = int

  /** Where a producer is in `sys_mbox_post` or, when `try`, in `sys_mbox_trypost`. */
  datatype Producer =
    | PIdle
    | PEnter(msg: Msg, try: bool)    // at the wait on mutex
    | PLocked(msg: Msg, try: bool)   // has mutex, before the test for a full ring
    | PRefuse                        // trypost on a full ring, before the signal of mutex
    | PSleep(msg: Msg)               // has counted itself in wait_send, before the signal of mutex
    | PWaiting(msg: Msg)             // at the wait on not_full
    | PRelock(msg: Msg)              // woken, at the wait on mutex
    | PAnnounce                      // posted into an empty ring, before the signal of not_empty
    | PLeave                         // before the signal of mutex

  datatype Fetching = Fetch(timed: bool) | TryFetch

  /** Where the consumer is in `sys_arch_mbox_fetch` or `sys_arch_mbox_tryfetch`. */
  datatype Consumer =
    | CIdle
    | CEnter(call: Fetching)
    | CLocked(call: Fetching)
    | CEmpty(call: Fetching)         // found the ring empty, before the signal of mutex
    | CWaiting(timed: bool)          // at the wait on not_empty
    | CNotify                        // took a message, before the signal of not_full
    | CLeave

  /** `posted` and `fetched` record all messages that went in and came out. */
  datatype State = State(
    ring: seq<Msg>, first: nat, last: nat, mutex: nat, notEmpty: nat, notFull: nat, waitSend: int,
    producers: seq<Producer>, consumer: Consumer, posted: seq<Msg>, fetched: seq<Msg>)

  /** `sys_mbox_new` with n threads that may post. */
  function Init(ring: seq<Msg>, n: nat): State
  {
    State(ring, 0, 0, 1, 0, 0, 0, seq(n, i => PIdle), CIdle, [], [])
  }

  datatype Action =
    | Post(i: nat, msg: Msg, try: bool)   // producer i starts a call
    | Produce(i: nat)                     // producer i makes its next step
    | StartFetch(call: Fetching)
    | Consume
    | TimeOut

  predicate IsFull(s: State) { s.last + 1 >= s.first + SYS_MBOX_SIZE }

  predicate CanProduce(s: State, i: nat)
    requires i < |s.producers|
  {
    var p := s.producers[i];
    && !p.PIdle?
    && (p.PEnter? || p.PRelock? ==> s.mutex > 0)
    && (p.PWaiting? ==> s.notFull > 0)
  }

  predicate CanConsume(s: State) {
    && !s.consumer.CIdle?
    && (s.consumer.CEnter? ==> s.mutex > 0)
    && (s.consumer.CWaiting? ==> s.notEmpty > 0)
  }

  predicate Enabled(s: State, a: Action) {
    match a
    case Post(i, _, _) => i < |s.producers| && s.producers[i].PIdle?
    case Produce(i) => i < |s.producers| && CanProduce(s, i)
    case StartFetch(_) => s.consumer.CIdle?
    case Consume => CanConsume(s)
    case TimeOut => s.consumer.CWaiting? && s.consumer.timed
  }

  /** The next step of producer i, as the new shared state and the new place of the producer. */
  function Produced(s: State, i: nat): State
    requires i < |s.producers| && CanProduce(s, i) && |s.ring| == SYS_MBOX_SIZE
  {
    match s.producers[i]
    case PEnter(m, t) => s.(mutex := s.mutex - 1, producers := s.producers[i := PLocked(m, t)])
    case PLocked(m, t) =>
      if IsFull(s) then
        if t then s.(producers := s.producers[i := PRefuse])
        else s.(waitSend := s.waitSend + 1, producers := s.producers[i := PSleep(m)])
      else
        s.(ring := s.ring[s.last % SYS_MBOX_SIZE := m], last := s.last + 1, posted := s.posted + [m],
           producers := s.producers[i := if s.last == s.first then PAnnounce else PLeave])
    case PRefuse => s.(mutex := 1, producers := s.producers[i := PIdle])
    case PSleep(m) => s.(mutex := 1, producers := s.producers[i := PWaiting(m)])
    case PWaiting(m) => s.(notFull := s.notFull - 1, producers := s.producers[i := PRelock(m)])
    case PRelock(m) =>
      s.(mutex := s.mutex - 1, waitSend := s.waitSend - 1, producers := s.producers[i := PLocked(m, false)])
    case PAnnounce => s.(notEmpty := 1, producers := s.producers[i := PLeave])
    case PLeave => s.(mutex := 1, producers := s.producers[i := PIdle])
    case PIdle => s
  }

  function Consumed(s: State): State
    requires CanConsume(s) && |s.ring| == SYS_MBOX_SIZE
  {
    match s.consumer
    case CEnter(c) => s.(mutex := s.mutex - 1, consumer := CLocked(c))
    case CLocked(c) =>
      if s.first == s.last then s.(consumer := CEmpty(c))
      else
        s.(first := s.first + 1, fetched := s.fetched + [s.ring[s.first % SYS_MBOX_SIZE]],
           consumer := if s.waitSend != 0 then CNotify else CLeave)
    case CEmpty(c) => s.(mutex := 1, consumer := if c.TryFetch? then CIdle else CWaiting(c.timed))
    case CWaiting(t) => s.(notEmpty := s.notEmpty - 1, consumer := CEnter(Fetch(t)))
    case CNotify => s.(notFull := 1, consumer := CLeave)
    case CLeave => s.(mutex := 1, consumer := CIdle)
    case CIdle => s
  }

  function Next(s: State, a: Action): State
    requires Enabled(s, a) && |s.ring| == SYS_MBOX_SIZE
  {
    match a
    case Post(i, m, t) => s.(producers := s.producers[i := PEnter(m, t)])
    case Produce(i) => Produced(s, i)
    case StartFetch(c) => s.(consumer := CEnter(c))
    case Consume => Consumed(s)
    case TimeOut => s.(consumer := CIdle)
  }

  // ----- the invariant -----

  predicate PHolds(p: Producer) { p.PLocked? || p.PRefuse? || p.PSleep? || p.PAnnounce? || p.PLeave? }

  predicate CHolds(c: Consumer) { c.CLocked? || c.CEmpty? || c.CNotify? || c.CLeave? }

  /** The mutex is free exactly when nobody holds it, and at most one thread holds it. */
  ghost predicate Exclusive(s: State) {
    && s.mutex <= 1
    && (forall i :: 0 <= i < |s.producers| && PHolds(s.producers[i]) ==> s.mutex == 0 && !CHolds(s.consumer))
    && (forall i, j :: 0 <= i < |s.producers| && 0 <= j < |s.producers| ==>
          PHolds(s.producers[i]) && PHolds(s.producers[j]) ==> i == j)
    && (CHolds(s.consumer) ==> s.mutex == 0)
    && (s.mutex == 0 ==> CHolds(s.consumer) || exists i :: 0 <= i < |s.producers| && PHolds(s.producers[i]))
  }

  /** The ring holds the messages posted and not yet fetched, at most 127, in order. */
  ghost predicate Contents(s: State) {
    && |s.ring| == SYS_MBOX_SIZE && s.first <= s.last < s.first + SYS_MBOX_SIZE
    && |s.posted| == s.last && s.fetched == s.posted[..s.first]
    && (forall k :: s.first <= k < s.last ==> s.ring[k % SYS_MBOX_SIZE] == s.posted[k])
  }

  predicate Counted(p: Producer) { p.PSleep? || p.PWaiting? || p.PRelock? }

  ghost function Count(ps: seq<Producer>): nat {
    if ps == [] then 0 else Count(ps[..|ps| - 1]) + (if Counted(ps[|ps| - 1]) then 1 else 0)
  }

  ghost predicate Announcing(ps: seq<Producer>) { exists i :: 0 <= i < |ps| && ps[i].PAnnounce? }

  predicate Sleeping(p: Producer) { p.PSleep? || p.PWaiting? }

  predicate Coming(p: Producer) { p.PRelock? || p.PLocked? }

  ghost predicate SomeAsleep(ps: seq<Producer>) { exists i :: 0 <= i < |ps| && Sleeping(ps[i]) }

  ghost predicate SomeComing(ps: seq<Producer>) { exists i :: 0 <= i < |ps| && Coming(ps[i]) }

  /** A consumer that waits, or is about to, will be told about a message in the ring. */
  ghost predicate Wakes(s: State) {
    (s.consumer.CEmpty? || s.consumer.CWaiting?) && s.first < s.last ==> s.notEmpty == 1 || Announcing(s.producers)
  }

  /** When the ring is empty, waiting producers have a token, or somebody is on the way to use or
      to give one. */
  ghost predicate Refills(s: State) {
    SomeAsleep(s.producers) && s.first == s.last ==> s.notFull == 1 || s.consumer.CNotify? || SomeComing(s.producers)
  }

  ghost predicate Inv(s: State) {
    && Exclusive(s) && Contents(s) && s.waitSend == Count(s.producers) && s.notEmpty <= 1 && s.notFull <= 1
    && Wakes(s) && Refills(s)
  }

  lemma {:induction false} CountUpdate(ps: seq<Producer>, i: nat, p: Producer)
    requires i < |ps|
    ensures Count(ps[i := p]) == Count(ps) - (if Counted(ps[i]) then 1 else 0) + (if Counted(p) then 1 else 0)
  {
    var n := |ps| - 1;
    if i == n {
      assert ps[i := p][..n] == ps[..n];
    } else {
      CountUpdate(ps[..n], i, p);
      assert ps[i := p][..n] == ps[..n][i := p];
    }
  }

  lemma {:induction false} CountPositive(ps: seq<Producer>, i: nat)
    requires i < |ps| && Counted(ps[i])
    ensures Count(ps) > 0
  {
    if i < |ps| - 1 {
      CountPositive(ps[..|ps| - 1], i);
    }
  }

  // ----- every step keeps the invariant -----

  lemma ProducedExclusive(s: State, i: nat)
    requires Exclusive(s) && |s.ring| == SYS_MBOX_SIZE && i < |s.producers| && CanProduce(s, i)
    ensures Exclusive(Produced(s, i))
  {
    var s' := Produced(s, i);
    assert forall j :: 0 <= j < |s.producers| && j != i ==> s'.producers[j] == s.producers[j];
    if PHolds(s'.producers[i]) {
      assert 0 <= i < |s'.producers|;
    }
  }

  lemma ConsumedExclusive(s: State)
    requires Exclusive(s) && |s.ring| == SYS_MBOX_SIZE && CanConsume(s)
    ensures Exclusive(Consumed(s))
  {
  }

  lemma PutContents(s: State, m: Msg)
    requires Contents(s) && !IsFull(s)
    ensures Contents(s.(ring := s.ring[s.last % SYS_MBOX_SIZE := m], last := s.last + 1, posted := s.posted + [m]))
  {
    forall k | s.first <= k < s.last + 1
      ensures s.ring[s.last % SYS_MBOX_SIZE := m][k % SYS_MBOX_SIZE] == (s.posted + [m])[k]
    {
      SlotsDiffer(k, s.last);
    }
  }

  /** Different messages of the ring are in different slots. */
  lemma SlotsDiffer(k: nat, n: nat)
    requires k <= n < k + SYS_MBOX_SIZE
    ensures k % SYS_MBOX_SIZE == n % SYS_MBOX_SIZE ==> k == n
  {
  }

  lemma ProducedContents(s: State, i: nat)
    requires Contents(s) && i < |s.producers| && CanProduce(s, i)
    ensures Contents(Produced(s, i))
  {
    if s.producers[i].PLocked? && !IsFull(s) {
      PutContents(s, s.producers[i].msg);
    }
  }

  lemma ConsumedContents(s: State)
    requires Contents(s) && CanConsume(s)
    ensures Contents(Consumed(s))
  {
  }

  lemma ProducedWakes(s: State, i: nat)
    requires Inv(s) && i < |s.producers| && CanProduce(s, i)
    ensures Wakes(Produced(s, i)) && Refills(Produced(s, i))
  {
    hide Count;
    var s' := Produced(s, i);
    assert s'.producers[i] == s'.producers[i];
    forall j | 0 <= j < |s.producers| && j != i ensures s'.producers[j] == s.producers[j] {
    }
  }

  lemma ConsumedWakes(s: State)
    requires Inv(s) && CanConsume(s)
    ensures Wakes(Consumed(s)) && Refills(Consumed(s))
  {
    hide Count;
    if SomeAsleep(s.producers) {
      var i :| 0 <= i < |s.producers| && Sleeping(s.producers[i]);
      CountPositive(s.producers, i);
    }
  }

  /** Every step keeps the invariant. */
  lemma StepInv(s: State, a: Action)
    requires Inv(s) && Enabled(s, a)
    ensures Inv(Next(s, a))
  {
    match a
    case Post(i, m, t) => StartInv(s, i, m, t);
    case Produce(i) => ProducedInv(s, i);
    case StartFetch(c) =>
    case Consume => ConsumedInv(s);
    case TimeOut =>
  }

  lemma ProducedInv(s: State, i: nat)
    requires Inv(s) && i < |s.producers| && CanProduce(s, i)
    ensures Inv(Produced(s, i))
  {
    hide Exclusive; hide Wakes; hide Refills; hide Count;
    ProducedExclusive(s, i);
    ProducedContents(s, i);
    ProducedWakes(s, i);
    CountUpdate(s.producers, i, Produced(s, i).producers[i]);
    assert s.producers[i := Produced(s, i).producers[i]] == Produced(s, i).producers;
  }

  lemma ConsumedInv(s: State)
    requires Inv(s) && CanConsume(s)
    ensures Inv(Consumed(s))
  {
    hide Exclusive; hide Wakes; hide Refills; hide Count;
    ConsumedExclusive(s);
    ConsumedContents(s);
    ConsumedWakes(s);
  }

  lemma StartInv(s: State, i: nat, m: Msg, t: bool)
    requires Inv(s) && i < |s.producers| && s.producers[i].PIdle?
    ensures Inv(s.(producers := s.producers[i := PEnter(m, t)]))
  {
    hide Count;
    CountUpdate(s.producers, i, PEnter(m, t));
    var ps := s.producers[i := PEnter(m, t)];
    assert forall j :: 0 <= j < |ps| && j != i ==> ps[j] == s.producers[j];
  }

  // ----- whole runs -----

  ghost predicate Run(ss: seq<State>, acts: seq<Action>) {
    && |ss| == |acts| + 1 && |ss[0].ring| == SYS_MBOX_SIZE && ss[0] == Init(ss[0].ring, |ss[0].producers|)
    && forall k :: 0 <= k < |acts| ==>
       |ss[k].ring| == SYS_MBOX_SIZE && Enabled(ss[k], acts[k]) && ss[k + 1] == Next(ss[k], acts[k])
  }

  lemma {:induction false} InitCount(n: nat)
    ensures Count(seq(n, i => PIdle)) == 0
  {
    if n > 0 {
      InitCount(n - 1);
      assert seq(n, i => PIdle)[..n - 1] == seq(n - 1, i => PIdle);
    }
  }

  lemma InitInv(ring: seq<Msg>, n: nat)
    requires |ring| == SYS_MBOX_SIZE
    ensures Inv(Init(ring, n))
  {
    InitCount(n);
  }

  lemma {:induction false} RunInv(ss: seq<State>, acts: seq<Action>, k: nat)
    requires Run(ss, acts) && k < |ss|
    ensures Inv(ss[k])
  {
    hide Inv; hide Next; hide Enabled;
    if k == 0 {
      InitInv(ss[0].ring, |ss[0].producers|);
    } else {
      RunInv(ss, acts, k - 1);
      StepInv(ss[k - 1], acts[k - 1]);
    }
  }

  // ----- what the mailbox promises -----

  /** The messages in the ring, oldest first. */
  ghost function Held(s: State): seq<Msg>
    requires Contents(s)
  {
    seq(s.last - s.first, j requires 0 <= j < s.last - s.first => s.ring[(s.first + j) % SYS_MBOX_SIZE])
  }

  /** In every state of every run, what has been posted is what has been fetched, in order, followed
      by what is in the ring, and the ring holds at most 127 messages. */
  lemma InOrderExactlyOnce(ss: seq<State>, acts: seq<Action>, k: nat)
    requires Run(ss, acts) && k < |ss|
    ensures Contents(ss[k]) && ss[k].posted == ss[k].fetched + Held(ss[k]) && |Held(ss[k])| <= SYS_MBOX_SIZE - 1
  {
    hide Run; hide Exclusive; hide Wakes; hide Refills; hide Count;
    RunInv(ss, acts, k);
    var s := ss[k];
    assert s.posted == s.posted[..s.first] + s.posted[s.first..];
    assert s.posted[s.first..] == Held(s) by {
      forall j | 0 <= j < s.last - s.first ensures s.posted[s.first..][j] == Held(s)[j] {
        assert s.ring[(s.first + j) % SYS_MBOX_SIZE] == s.posted[s.first + j];
      }
    }
  }

  /** A message goes in only when a producer with the mutex finds room, and then its call is over
      but for the signals: it neither posts again nor waits. */
  lemma PostedOnce(s: State, a: Action)
    requires Inv(s) && Enabled(s, a)
    ensures Next(s, a).posted == s.posted
      || (a.Produce? && s.producers[a.i].PLocked? && !IsFull(s)
          && Next(s, a).posted == s.posted + [s.producers[a.i].msg]
          && (Next(s, a).producers[a.i].PAnnounce? || Next(s, a).producers[a.i].PLeave?))
    ensures Next(s, a).fetched == s.fetched
      || (a.Consume? && s.first < s.last && Next(s, a).fetched == s.fetched + [s.posted[s.first]])
  {
    hide Exclusive; hide Wakes; hide Refills; hide Count;
  }

  /** A producer with the mutex that finds room stores its message; on a full ring a `trypost` is
      refused and a `post` goes to sleep. */
  lemma ProduceLaw(s: State, i: nat)
    requires Inv(s) && i < |s.producers| && CanProduce(s, i) && s.producers[i].PLocked?
    ensures var s', m, try := Produced(s, i), s.producers[i].msg, s.producers[i].try;
      if s.last - s.first < SYS_MBOX_SIZE - 1
      then s'.posted == s.posted + [m] && s'.producers[i] == if s.first == s.last then PAnnounce else PLeave
      else s'.posted == s.posted && s'.producers[i] == if try then PRefuse else PSleep(m)
  {
    hide Exclusive; hide Wakes; hide Refills; hide Count;
  }

  /** The consumer with the mutex takes the oldest message if there is one, in `tryfetch`, too. */
  lemma ConsumeLaw(s: State)
    requires Inv(s) && s.consumer.CLocked?
    ensures var s' := Consumed(s);
      if |s.fetched| < |s.posted|
      then s'.fetched == s.fetched + [s.posted[|s.fetched|]] && (s'.consumer.CNotify? || s'.consumer.CLeave?)
      else s'.fetched == s.fetched && s'.consumer == CEmpty(s.consumer.call)
  {
    hide Exclusive; hide Wakes; hide Refills; hide Count;
  }

  // ----- whole calls -----

  /** The messages that producer i stored in the steps from a up to b. */
  ghost function StoredBy(ss: seq<State>, acts: seq<Action>, i: nat, a: nat, b: nat): seq<Msg>
    requires Run(ss, acts) && b <= |acts|
  {
    if b <= a then []
    else
      var before, after := ss[b - 1].posted, ss[b].posted;
      StoredBy(ss, acts, i, a, b - 1)
      + if acts[b - 1] == Produce(i) && |before| <= |after| then after[|before|..] else []
  }

  /** Producer i has been inside one call since step a. */
  ghost predicate Inside(ss: seq<State>, acts: seq<Action>, i: nat, a: nat, b: nat) {
    && Run(ss, acts) && a < b <= |acts| && acts[a].Post? && acts[a].i == i < |ss[a].producers|
    && forall k :: a < k < b ==> i < |ss[k].producers| && !ss[k].producers[i].PIdle?
  }

  /** What has happened in a call, by the place the producer has reached. */
  ghost predicate Progress(p: Producer, m: Msg, try: bool, stored: seq<Msg>) {
    match p
    case PIdle => stored == [m] || (try && stored == [])
    case PEnter(m', t) => m' == m && t == try && stored == []
    case PLocked(m', t) => m' == m && t == try && stored == []
    case PRefuse => try && stored == []
    case PSleep(m') => m' == m && !try && stored == []
    case PWaiting(m') => m' == m && !try && stored == []
    case PRelock(m') => m' == m && !try && stored == []
    case PAnnounce => stored == [m]
    case PLeave => stored == [m]
  }

  lemma ProgressStep(s: State, a: Action, i: nat, m: Msg, try: bool, stored: seq<Msg>)
    requires Inv(s) && Enabled(s, a) && i < |s.producers| && !s.producers[i].PIdle?
    requires Progress(s.producers[i], m, try, stored)
    ensures var s' := Next(s, a);
      && |s.posted| <= |s'.posted| && i < |s'.producers|
      && Progress(s'.producers[i], m, try, stored + if a == Produce(i) then s'.posted[|s.posted|..] else [])
      && (s'.producers[i].PIdle? ==> a == Produce(i) && (s.producers[i].PRefuse? || s.producers[i].PLeave?))
      && (s'.producers[i].PRefuse? && !s.producers[i].PRefuse? ==> IsFull(s))
  {
    hide Exclusive; hide Wakes; hide Refills; hide Count;
    var s' := Next(s, a);
    assert s.posted[|s.posted|..] == [];
    assert forall x :: (s.posted + [x])[|s.posted|..] == [x];
    assert stored + [] == stored;
  }

  lemma {:induction false} CallProgress(ss: seq<State>, acts: seq<Action>, i: nat, a: nat, b: nat)
    requires Inside(ss, acts, i, a, b)
    ensures i < |ss[b].producers| && Progress(ss[b].producers[i], acts[a].msg, acts[a].try, StoredBy(ss, acts, i, a, b))
    decreases b
  {
    hide Inv; hide Progress; hide Next; hide Enabled;
    RunInv(ss, acts, b - 1);
    RunStep(ss, acts, b - 1);
    var s, e := ss[b - 1], acts[b - 1];
    if b == a + 1 {
      CallStarts(s, e);
      assert StoredBy(ss, acts, i, a, a) == [] && StoredBy(ss, acts, i, a, b) == [] + [];
    } else {
      CallProgress(ss, acts, i, a, b - 1);
      ProgressStep(s, e, i, acts[a].msg, acts[a].try, StoredBy(ss, acts, i, a, b - 1));
    }
  }

  lemma RunStep(ss: seq<State>, acts: seq<Action>, k: nat)
    requires Run(ss, acts) && k < |acts|
    ensures |ss[k].ring| == SYS_MBOX_SIZE && Enabled(ss[k], acts[k]) && ss[k + 1] == Next(ss[k], acts[k])
  {
  }

  lemma CallStarts(s: State, e: Action)
    requires Enabled(s, e) && e.Post? && |s.ring| == SYS_MBOX_SIZE
    ensures e.i < |Next(s, e).producers| && Next(s, e).producers[e.i] == PEnter(e.msg, e.try)
    ensures Progress(Next(s, e).producers[e.i], e.msg, e.try, []) && Next(s, e).posted == s.posted
  {
  }

  /** A call that returns has stored its message exactly once, unless it was a `trypost` that was
      refused, which happens only at a moment when the ring was full. */
  lemma CallStores(ss: seq<State>, acts: seq<Action>, i: nat, a: nat, b: nat)
    requires Inside(ss, acts, i, a, b) && i < |ss[b].producers| && ss[b].producers[i].PIdle?
    ensures a + 1 < b && i < |ss[b - 1].producers|
    ensures
      if ss[b - 1].producers[i].PRefuse?
      then acts[a].try && StoredBy(ss, acts, i, a, b) == [] && exists k :: a < k < b && IsFull(ss[k])
      else StoredBy(ss, acts, i, a, b) == [acts[a].msg]
  {
    hide Inv; hide Progress; hide Next; hide Enabled;
    RunInv(ss, acts, b - 1);
    RunStep(ss, acts, a);
    RunStep(ss, acts, b - 1);
    CallStarts(ss[a], acts[a]);
    assert b != a + 1;
    CallProgress(ss, acts, i, a, b - 1);
    ProgressStep(ss[b - 1], acts[b - 1], i, acts[a].msg, acts[a].try, StoredBy(ss, acts, i, a, b - 1));
    LastStep(ss[b - 1], acts[b - 1], i, acts[a].msg, acts[a].try, StoredBy(ss, acts, i, a, b - 1));
    if ss[b - 1].producers[i].PRefuse? {
      var k := WasFull(ss, acts, i, a, b - 1);
    }
  }

  /** The last step of a call stores nothing. */
  lemma LastStep(s: State, a: Action, i: nat, m: Msg, try: bool, stored: seq<Msg>)
    requires Inv(s) && Enabled(s, a) && i < |s.producers| && Progress(s.producers[i], m, try, stored)
    requires a == Produce(i) && (s.producers[i].PRefuse? || s.producers[i].PLeave?)
    ensures Next(s, a).posted == s.posted && s.posted[|s.posted|..] == [] && stored + [] == stored
    ensures if s.producers[i].PRefuse? then try && stored == [] else stored == [m]
  {
    hide Exclusive; hide Wakes; hide Refills; hide Count;
  }

  /** A refusal was preceded by a look at a full ring. */
  lemma {:induction false} WasFull(ss: seq<State>, acts: seq<Action>, i: nat, a: nat, b: nat) returns (k: nat)
    requires Inside(ss, acts, i, a, b) && i < |ss[b].producers| && ss[b].producers[i].PRefuse?
    ensures a < k < b && IsFull(ss[k])
    decreases b
  {
    hide Inv; hide Progress; hide Next; hide Enabled;
    RunInv(ss, acts, b - 1);
    RunStep(ss, acts, a);
    RunStep(ss, acts, b - 1);
    CallStarts(ss[a], acts[a]);
    assert b != a + 1;
    CallProgress(ss, acts, i, a, b - 1);
    if ss[b - 1].producers[i].PRefuse? {
      k := WasFull(ss, acts, i, a, b - 1);
    } else {
      ProgressStep(ss[b - 1], acts[b - 1], i, acts[a].msg, acts[a].try, StoredBy(ss, acts, i, a, b - 1));
      k := b - 1;
    }
  }

  /** The consumer has been inside one call since step a. */
  ghost predicate Fetches(ss: seq<State>, acts: seq<Action>, a: nat, b: nat) {
    && Run(ss, acts) && a < b <= |acts| && acts[a].StartFetch?
    && forall k :: a < k < b ==> !ss[k].consumer.CIdle?
  }

  /** What has happened in a fetch, by the place the consumer has reached. */
  ghost predicate FetchProgress(c: Consumer, call: Fetching, before: seq<Msg>, now: seq<Msg>) {
    match c
    case CIdle => true
    case CEnter(c') => c' == call && now == before
    case CLocked(c') => c' == call && now == before
    case CEmpty(c') => c' == call && now == before
    case CWaiting(t) => call == Fetch(t) && now == before
    case CNotify => |now| == |before| + 1 && now[..|before|] == before
    case CLeave => |now| == |before| + 1 && now[..|before|] == before
  }

  lemma FetchStep(s: State, a: Action, call: Fetching, before: seq<Msg>)
    requires Inv(s) && Enabled(s, a) && !s.consumer.CIdle? && FetchProgress(s.consumer, call, before, s.fetched)
    ensures FetchProgress(Next(s, a).consumer, call, before, Next(s, a).fetched)
  {
    hide Exclusive; hide Wakes; hide Refills; hide Count;
  }

  lemma {:induction false} CallFetching(ss: seq<State>, acts: seq<Action>, a: nat, b: nat)
    requires Fetches(ss, acts, a, b)
    ensures FetchProgress(ss[b].consumer, acts[a].call, ss[a].fetched, ss[b].fetched)
    decreases b
  {
    hide Inv;
    RunInv(ss, acts, b - 1);
    if b > a + 1 {
      hide FetchProgress; hide Next;
      CallFetching(ss, acts, a, b - 1);
      FetchStep(ss[b - 1], acts[b - 1], acts[a].call, ss[a].fetched);
    }
  }

  /** A fetch that returns has taken exactly one message, the oldest, unless it timed out or was a
      `tryfetch` that found the ring empty. */
  lemma CallFetchesOne(ss: seq<State>, acts: seq<Action>, a: nat, b: nat)
    requires Fetches(ss, acts, a, b) && ss[b].consumer.CIdle?
    ensures a + 1 < b
    ensures
      if acts[b - 1].TimeOut? || ss[b - 1].consumer.CEmpty?
      then ss[b].fetched == ss[a].fetched && acts[a].call != Fetch(false)
      else
        var n := |ss[a].fetched|;
        n < |ss[b].posted| && ss[b].fetched == ss[a].fetched + [ss[b].posted[n]]
  {
    hide Exclusive; hide Wakes; hide Refills; hide Count;
    RunInv(ss, acts, b - 1);
    RunInv(ss, acts, b);
    assert Enabled(ss[b - 1], acts[b - 1]) && ss[b] == Next(ss[b - 1], acts[b - 1]);
    CallFetching(ss, acts, a, b - 1);
  }

  /** Every thread that is inside a call is blocked. */
  ghost predicate Stuck(s: State) {
    && !CanConsume(s) && !(s.consumer.CWaiting? && s.consumer.timed)
    && forall i: nat :: i < |s.producers| ==> !CanProduce(s, i)
  }

  lemma StuckShape(s: State)
    requires Inv(s) && Stuck(s)
    ensures s.mutex == 1
    ensures s.consumer.CIdle? || (s.consumer.CWaiting? && s.notEmpty == 0)
    ensures forall i :: 0 <= i < |s.producers| ==> s.producers[i].PIdle? || (s.producers[i].PWaiting? && s.notFull == 0)
  {
    hide Count; hide Contents; hide Wakes; hide Refills;
    if s.mutex == 0 {
      HolderRuns(s);
    }
    forall i | 0 <= i < |s.producers| ensures s.producers[i].PIdle? || (s.producers[i].PWaiting? && s.notFull == 0) {
      assert !CanProduce(s, i);
      assert !PHolds(s.producers[i]);
    }
  }

  /** Whoever has the mutex can make a step. */
  lemma HolderRuns(s: State)
    requires Exclusive(s) && s.mutex == 0
    ensures CanConsume(s) || exists i: nat :: i < |s.producers| && CanProduce(s, i)
  {
    if !CHolds(s.consumer) {
      var i :| 0 <= i < |s.producers| && PHolds(s.producers[i]);
      assert CanProduce(s, i);
    }
  }

  /** Producers and consumer never block each other.  If every thread inside a call is blocked, the
      mutex is free and either the consumer waits for a message, the ring is empty and no producer
      is inside a call, or producers wait for room, the ring is not empty and the consumer is not
      inside a call. */
  lemma NotStuck(ss: seq<State>, acts: seq<Action>, k: nat)
    requires Run(ss, acts) && k < |ss| && Stuck(ss[k])
    ensures ss[k].mutex == 1
    ensures ss[k].consumer.CWaiting? ==>
      ss[k].first == ss[k].last && forall i :: 0 <= i < |ss[k].producers| ==> ss[k].producers[i].PIdle?
    ensures SomeAsleep(ss[k].producers) ==> ss[k].first < ss[k].last && ss[k].consumer.CIdle?
  {
    hide Run; hide Count; hide Stuck; hide Exclusive;
    RunInv(ss, acts, k);
    StuckShape(ss[k]);
  }

  /** A consumer that waits without a token while the mutex is free has nothing to fetch. */
  lemma BlockedConsumer(ss: seq<State>, acts: seq<Action>, k: nat)
    requires Run(ss, acts) && k < |ss| && ss[k].mutex == 1 && ss[k].consumer.CWaiting? && ss[k].notEmpty == 0
    ensures ss[k].first == ss[k].last
  {
    hide Run; hide Count;
    RunInv(ss, acts, k);
    assert forall i :: 0 <= i < |ss[k].producers| ==> !PHolds(ss[k].producers[i]);
  }

  /** Producers that wait without a token while the mutex is free and none of them is woken face a
      ring with messages in it. */
  lemma BlockedProducers(ss: seq<State>, acts: seq<Action>, k: nat)
    requires Run(ss, acts) && k < |ss| && ss[k].mutex == 1 && ss[k].notFull == 0 && SomeAsleep(ss[k].producers)
    requires forall i :: 0 <= i < |ss[k].producers| ==> !ss[k].producers[i].PRelock?
    ensures ss[k].first < ss[k].last
  {
    hide Run; hide Count;
    RunInv(ss, acts, k);
    assert forall i :: 0 <= i < |ss[k].producers| ==> !PHolds(ss[k].producers[i]);
  }

  // ----- the code, one step at a time -----

  /** The mailbox in memory, with the place of every thread.  A step method does what the C code of
      that thread does from one semaphore operation to the next. */
  class Mbox {
    const msgs: array<Msg>
    var first: nat
    var last: nat
    var mutex: nat
    var notEmpty: nat
    var notFull: nat
    var waitSend: int
    var producers: seq<Producer>
    var consumer: Consumer
    ghost var posted: seq<Msg>
    ghost var fetched: seq<Msg>

    ghost function View(): State
      reads this, msgs
    {
      State(msgs[..], first, last, mutex, notEmpty, notFull, waitSend, producers, consumer, posted, fetched)
    }

    constructor (n: nat)
      ensures fresh(msgs) && View() == Init(msgs[..], n) && Inv(View())
    {
      msgs := new Msg[SYS_MBOX_SIZE];
      first, last, mutex, notEmpty, notFull, waitSend := 0, 0, 1, 0, 0, 0;
      producers, consumer := seq(n, i => PIdle), CIdle;
      posted, fetched := [], [];
      new;
      InitInv(msgs[..], n);
    }

    method ProducerStep(i: nat)
      requires Inv(View()) && i < |producers| && CanProduce(View(), i)
      modifies this, msgs
      ensures Inv(View()) && View() == Produced(old(View()), i)
    {
      hide Count; hide Exclusive; hide Wakes; hide Refills;
      ProducedInv(View(), i);
      match producers[i]
      case PEnter(m, try) =>
        mutex := mutex - 1;
        producers := producers[i := PLocked(m, try)];
      case PLocked(m, try) =>
        if last + 1 >= first + SYS_MBOX_SIZE {
          if try {
            producers := producers[i := PRefuse];
          } else {
            waitSend := waitSend + 1;
            producers := producers[i := PSleep(m)];
          }
        } else {
          msgs[last % SYS_MBOX_SIZE] := m;
          var wasEmpty := last == first;
          last := last + 1;
          posted := posted + [m];
          producers := producers[i := if wasEmpty then PAnnounce else PLeave];
        }
      case PRefuse =>
        mutex := 1;
        producers := producers[i := PIdle];
      case PSleep(m) =>
        mutex := 1;
        producers := producers[i := PWaiting(m)];
      case PWaiting(m) =>
        notFull := notFull - 1;
        producers := producers[i := PRelock(m)];
      case PRelock(m) =>
        mutex := mutex - 1;
        waitSend := waitSend - 1;
        producers := producers[i := PLocked(m, false)];
      case PAnnounce =>
        notEmpty := 1;
        producers := producers[i := PLeave];
      case PLeave =>
        mutex := 1;
        producers := producers[i := PIdle];
    }

    /** One step of the consumer; `msg` is the message when this step takes one. */
    method ConsumerStep() returns (taken: bool, msg: Msg)
      requires Inv(View()) && CanConsume(View())
      modifies this
      ensures Inv(View()) && View() == Consumed(old(View()))
      ensures taken <==> first == old(first) + 1
      ensures taken ==> msg == old(posted[first]) && fetched == old(fetched) + [msg]
      ensures !taken ==> first == old(first) && fetched == old(fetched)
    {
      hide Count; hide Exclusive; hide Wakes; hide Refills;
      ConsumedInv(View());
      taken, msg := false, 0;
      match consumer
      case CEnter(c) =>
        mutex := mutex - 1;
        consumer := CLocked(c);
      case CLocked(c) =>
        if first == last {
          consumer := CEmpty(c);
        } else {
          taken, msg := true, msgs[first % SYS_MBOX_SIZE];
          first := first + 1;
          fetched := fetched + [msg];
          consumer := if waitSend != 0 then CNotify else CLeave;
        }
      case CEmpty(c) =>
        mutex := 1;
        consumer := if c.TryFetch? then CIdle else CWaiting(c.timed);
      case CWaiting(timed) =>
        notEmpty := notEmpty - 1;
        consumer := CEnter(Fetch(timed));
      case CNotify =>
        notFull := 1;
        consumer := CLeave;
      case CLeave =>
        mutex := 1;
        consumer := CIdle;
    }
  }
}

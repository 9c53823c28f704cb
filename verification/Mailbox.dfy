/**
 * The mailbox of an arena slot: a linked queue with any number of pushers, each of which first swings
 * `my_last` and then fills in the link it got, and one consumer that takes the first proxy of a given
 * isolation. Every atomic access is a step. Proxies are numbered in the order in which they swing `my_last`.
 */
module Mailbox {
  import opened Behaviors

  const NO_ISOLATION := 0

  /** What `my_last` and the consumer's `prev_ptr` point at. */
  datatype Loc = First | NextOf(id: nat)

  /** `link`: the location the pusher got from `my_last`; `linked`: it has stored the proxy there. */
  datatype Proxy = Proxy(tag: nat, next: Option<nat>, link: Loc, linked: bool)

  /** The consumer inside internal_pop. `at` is the place of `curr` in the queue. */
  datatype Pc =
    | Idle
    | Start(isolation: nat)
    | Test(isolation: nat, prev: Loc, curr: nat, at: nat)
    | Easy(isolation: nat, prev: Loc, curr: nat, at: nat, second: nat)
    | Clear(isolation: nat, prev: Loc, curr: nat, at: nat)
    | Cas(isolation: nat, prev: Loc, curr: nat, at: nat)
    | Spin(isolation: nat, prev: Loc, curr: nat, at: nat)
    | Store(isolation: nat, prev: Loc, curr: nat, at: nat, second: nat)

  /** `queue`: pushed and not popped, in order; `popped`: what pop has returned, in order. */
  datatype State = State(
    proxies: seq<Proxy>, first: Option<nat>, last: Loc, pc: Pc, queue: seq<nat>, popped: seq<nat>)

  datatype Event = Push(tag: nat) | Link(id: nat) | Pop(isolation: nat) | Consume

  predicate Init(s: State) {
    s == State([], None, First, Idle, [], [])
  }

  function At(s: State, id: nat): Proxy {
    if id < |s.proxies| then s.proxies[id] else Proxy(NO_ISOLATION, None, First, false)
  }

  function Read(s: State, loc: Loc): Option<nat> {
    match loc
    case First => s.first
    case NextOf(id) => At(s, id).next
  }

  function Write(s: State, loc: Loc, value: Option<nat>): State {
    match loc
    case First => s.(first := value)
    case NextOf(id) => if id < |s.proxies| then s.(proxies := s.proxies[id := s.proxies[id].(next := value)]) else s
  }

  function Without(queue: seq<nat>, at: nat): seq<nat> {
    if at < |queue| then queue[..at] + queue[at + 1..] else queue
  }

  /** pop returns `curr`. */
  function Return(s: State): State
    requires !s.pc.Idle? && !s.pc.Start?
  {
    s.(pc := Idle, queue := Without(s.queue, s.pc.at), popped := s.popped + [s.pc.curr])
  }

  function ConsumerStep(s: State): Option<State> {
    match s.pc
    case Idle => None
    case Start(isolation) =>
      (match s.first
       case None => Some(s.(pc := Idle))
       case Some(curr) => Some(s.(pc := Test(isolation, First, curr, 0))))
    case Test(isolation, prev, curr, at) =>
      var proxy := At(s, curr);
      if isolation != NO_ISOLATION && proxy.tag != isolation then
        (match proxy.next
         case None => Some(s.(pc := Idle))
         case Some(x) => Some(s.(pc := Test(isolation, NextOf(curr), x, at + 1))))
      else
        (match proxy.next
         case Some(second) => Some(s.(pc := Easy(isolation, prev, curr, at, second)))
         case None => Some(s.(pc := Clear(isolation, prev, curr, at))))
    case Easy(_, prev, _, _, second) => Some(Return(Write(s, prev, Some(second))))
    case Clear(isolation, prev, curr, at) => Some(Write(s, prev, None).(pc := Cas(isolation, prev, curr, at)))
    case Cas(isolation, prev, curr, at) =>
      if s.last == NextOf(curr) then Some(Return(s.(last := prev))) else Some(s.(pc := Spin(isolation, prev, curr, at)))
    case Spin(isolation, prev, curr, at) =>
      (match At(s, curr).next
       case None => None
       case Some(second) => Some(s.(pc := Store(isolation, prev, curr, at, second))))
    case Store(_, prev, _, _, second) => Some(Return(Write(s, prev, Some(second))))
  }

  function Step(s: State, e: Event): Option<State> {
    match e
    case Push(tag) =>
      Some(s.(proxies := s.proxies + [Proxy(tag, None, s.last, false)], last := NextOf(|s.proxies|),
              queue := s.queue + [|s.proxies|]))
    case Link(id) =>
      if id < |s.proxies| && !s.proxies[id].linked then
        Some(Write(s.(proxies := s.proxies[id := s.proxies[id].(linked := true)]), s.proxies[id].link, Some(id)))
      else None
    case Pop(isolation) => if s.pc == Idle then Some(s.(pc := Start(isolation))) else None
    case Consume => ConsumerStep(s)
  }

  ghost predicate Next(s: State, s': State) {
    exists e :: Step(s, e) == Some(s')
  }

  // ---------------------------------------------------------------- invariant

  /** The location that points, or will point, at the j-th proxy of the queue. */
  function Before(queue: seq<nat>, j: nat): Loc
    requires j <= |queue|
  {
    if j == 0 then First else NextOf(queue[j - 1])
  }

  predicate Rising(queue: seq<nat>) {
    forall i, j | 0 <= i < j < |queue| :: queue[i] < queue[j]
  }

  predicate Partition(s: State) {
    && Rising(s.queue)
    && (forall id | id in s.queue :: id < |s.proxies| && id !in s.popped)
    && (forall i, j | 0 <= i < j < |s.popped| :: s.popped[i] != s.popped[j])
    && (forall id | id in s.popped :: id < |s.proxies| && At(s, id).linked)
    && (forall id: nat | id < |s.proxies| :: id in s.queue || id in s.popped)
  }

  /** The consumer has cleared the location before `curr` and not filled it in again. */
  predicate Cleared(pc: Pc) {
    pc.Cas? || pc.Spin? || pc.Store?
  }

  predicate ChainOk(s: State, j: nat)
    requires j < |s.queue|
  {
    var x, loc := s.queue[j], Before(s.queue, j);
    if At(s, x).linked then Read(s, loc) == if Cleared(s.pc) && s.pc.at == j then None else Some(x)
    else Read(s, loc) == None && At(s, x).link == loc
  }

  predicate Chain(s: State) {
    && (forall j | 0 <= j < |s.queue| :: ChainOk(s, j))
    && s.last == Before(s.queue, |s.queue|) && Read(s, s.last) == None
  }

  predicate Matches(s: State, isolation: nat, id: nat) {
    isolation == NO_ISOLATION || At(s, id).tag == isolation
  }

  predicate Ready(s: State, at: nat) {
    at < |s.queue| && At(s, s.queue[at]).linked
  }

  predicate PcOk(s: State) {
    s.pc.Idle? || s.pc.Start? ||
    var at := s.pc.at;
    && Ready(s, at) && s.pc.curr == s.queue[at] && s.pc.prev == Before(s.queue, at)
    && (forall j | 0 <= j < at :: !Matches(s, s.pc.isolation, s.queue[j]))
    && (!s.pc.Test? ==> Matches(s, s.pc.isolation, s.pc.curr))
    && (s.pc.Easy? || s.pc.Store? ==> Ready(s, at + 1) && s.pc.second == s.queue[at + 1])
    && (s.pc.Spin? ==> at + 1 < |s.queue|)
  }

  predicate Later(s: State, p: nat, x: nat) {
    At(s, p).tag == At(s, x).tag ==> p < x
  }

  /** Among proxies of one isolation, what has been popped was pushed before what has not. */
  predicate Order(s: State) {
    && (forall p, x | p in s.popped && x in s.queue :: Later(s, p, x))
    && (forall i, j | 0 <= i < j < |s.popped| :: Later(s, s.popped[i], s.popped[j]))
  }

  predicate Inv(s: State) {
    Partition(s) && Chain(s) && PcOk(s) && Order(s)
  }

  // ---------------------------------------------------------------- pushers

  /** Steps of pushers only append to the queue and only set `linked`. */
  predicate Pushed(s: State, s': State) {
    && s'.pc == s.pc && s'.popped == s.popped && s.queue <= s'.queue && |s.proxies| <= |s'.proxies|
    && forall id: nat | id < |s.proxies| ::
         At(s', id).tag == At(s, id).tag && (At(s, id).linked ==> At(s', id).linked)
  }

  lemma QueueInRange(s: State, j: nat)
    requires Partition(s) && j <= |s.queue|
    ensures j < |s.queue| ==> s.queue[j] < |s.proxies|
    ensures InRange(s, Before(s.queue, j))
  {
    assert j < |s.queue| ==> s.queue[j] in s.queue;
    assert 0 < j ==> s.queue[j - 1] in s.queue;
  }

  lemma PushersKeepPc(s: State, s': State)
    requires Partition(s) && PcOk(s) && Pushed(s, s')
    ensures PcOk(s')
  {
    hide Partition;
    if !s.pc.Idle? && !s.pc.Start? {
      var at := s.pc.at;
      QueueInRange(s, at);
      if at + 1 < |s.queue| { QueueInRange(s, at + 1); }
      forall j | 0 <= j < at ensures !Matches(s', s.pc.isolation, s'.queue[j]) {
        QueueInRange(s, j);
        assert !Matches(s, s.pc.isolation, s.queue[j]);
      }
    }
  }

  lemma PushersKeepOrder(s: State, s': State)
    requires Partition(s) && Order(s) && Pushed(s, s')
    requires forall x | x in s'.queue :: x in s.queue || x >= |s.proxies|
    ensures Order(s')
  {
    forall i, j | 0 <= i < j < |s'.popped| ensures Later(s', s'.popped[i], s'.popped[j]) {
      assert s.popped[i] in s.popped && s.popped[j] in s.popped && Later(s, s.popped[i], s.popped[j]);
    }
    forall p, x | p in s'.popped && x in s'.queue ensures Later(s', p, x) {
      assert x in s.queue ==> Later(s, p, x);
    }
  }

  lemma PushEffect(s: State, tag: nat, s': State)
    requires Step(s, Push(tag)) == Some(s')
    ensures s'.queue == s.queue + [|s.proxies|] && Pushed(s, s') && s'.first == s.first
    ensures |s'.proxies| == |s.proxies| + 1 && s'.last == NextOf(|s.proxies|)
    ensures forall id: nat :: At(s', id) == if id == |s.proxies| then Proxy(tag, None, s.last, false) else At(s, id)
  {
  }

  lemma PushKeepsPartition(s: State, tag: nat, s': State)
    requires Partition(s) && Step(s, Push(tag)) == Some(s')
    ensures Partition(s')
  {
    PushEffect(s, tag, s');
    hide Step, Pushed;
    assert forall j | 0 <= j < |s.queue| :: s.queue[j] in s.queue;
    assert forall id: nat | id < |s'.proxies| :: id == |s.proxies| || id in s.queue || id in s.popped;
    assert s'.queue[|s.queue|] == |s.proxies|;
  }

  lemma PushKeepsChain(s: State, tag: nat, s': State)
    requires Partition(s) && Chain(s) && Step(s, Push(tag)) == Some(s')
    ensures Chain(s')
  {
    PushEffect(s, tag, s');
    hide Step, Partition, Pushed;
    var n := |s.queue|;
    forall j | 0 <= j < |s'.queue| ensures ChainOk(s', j) {
      QueueInRange(s, j);
      assert Before(s'.queue, j) == Before(s.queue, j);
      assert j < n ==> s'.queue[j] == s.queue[j] && ChainOk(s, j);
    }
  }

  predicate InRange(s: State, loc: Loc) {
    loc.NextOf? ==> loc.id < |s.proxies|
  }

  lemma LinkEffect(s: State, id: nat, s': State)
    requires Step(s, Link(id)) == Some(s')
    ensures id < |s.proxies| && !At(s, id).linked
    ensures s'.queue == s.queue && Pushed(s, s') && s'.last == s.last && |s'.proxies| == |s.proxies|
    ensures forall x: nat :: At(s', x).link == At(s, x).link && At(s', x).linked == (At(s, x).linked || x == id)
    ensures forall loc :: InRange(s, loc) ==>
              Read(s', loc) == if loc == At(s, id).link then Some(id) else Read(s, loc)
  {
  }

  lemma LinkKeepsPartition(s: State, id: nat, s': State)
    requires Partition(s) && Step(s, Link(id)) == Some(s')
    ensures Partition(s')
  {
    LinkEffect(s, id, s');
    hide Step, Read;
  }

  lemma BeforeInjective(queue: seq<nat>, i: nat, j: nat)
    requires Rising(queue) && i <= |queue| && j <= |queue| && Before(queue, i) == Before(queue, j)
    ensures i == j
  {
  }

  lemma LinkKeepsChain(s: State, id: nat, s': State)
    requires Partition(s) && Chain(s) && PcOk(s) && Step(s, Link(id)) == Some(s')
    ensures Chain(s')
  {
    LinkEffect(s, id, s');
    hide Step, Read, Pushed, Rising;
    assert id in s.queue;
    var i :| 0 <= i < |s.queue| && s.queue[i] == id;
    assert ChainOk(s, i);
    forall j | 0 <= j <= |s.queue|
      ensures Read(s', Before(s.queue, j)) == if j == i then Some(id) else Read(s, Before(s.queue, j))
    {
      QueueInRange(s, j);
      if Before(s.queue, j) == Before(s.queue, i) { BeforeInjective(s.queue, i, j); }
    }
    forall j | 0 <= j < |s'.queue| ensures ChainOk(s', j) {
      assert ChainOk(s, j);
    }
  }

  // ---------------------------------------------------------------- the consumer

  predicate Quiet(s: State) {
    s.pc.Start? || s.pc.Test? || s.pc.Spin? || (s.pc.Cas? && s.last != NextOf(s.pc.curr))
  }

  /** A step that only reads. */
  lemma QuietEffect(s: State, s': State)
    requires Quiet(s) && ConsumerStep(s) == Some(s')
    ensures s' == s.(pc := s'.pc) && Cleared(s'.pc) == Cleared(s.pc)
    ensures Cleared(s.pc) ==> s'.pc.at == s.pc.at
  {
  }

  lemma QuietKeepsChain(s: State, s': State)
    requires Chain(s) && Quiet(s) && ConsumerStep(s) == Some(s')
    ensures Chain(s')
  {
    QuietEffect(s, s');
    hide ConsumerStep, Quiet;
    forall j | 0 <= j < |s'.queue| ensures ChainOk(s', j) {
      assert ChainOk(s, j) && Read(s', Before(s.queue, j)) == Read(s, Before(s.queue, j));
    }
  }

  lemma QuietKeepsPc(s: State, s': State)
    requires Partition(s) && Chain(s) && PcOk(s) && Quiet(s) && ConsumerStep(s) == Some(s')
    ensures PcOk(s')
  {
    hide Partition;
    var n := |s.queue|;
    if s.pc.Start? {
      assert n > 0 ==> ChainOk(s, 0);
    } else {
      assert s.pc.at + 1 < n ==> ChainOk(s, s.pc.at + 1);
    }
  }

  lemma QuietKeepsOrder(s: State, s': State)
    requires Partition(s) && Order(s) && Quiet(s) && ConsumerStep(s) == Some(s')
    ensures Partition(s') && Order(s')
  {
    QuietEffect(s, s');
    hide ConsumerStep, Quiet, Rising;
    forall i, j | 0 <= i < j < |s'.popped| ensures Later(s', s'.popped[i], s'.popped[j]) {
      assert Later(s, s.popped[i], s.popped[j]);
    }
    forall p, x | p in s'.popped && x in s'.queue ensures Later(s', p, x) {
      assert Later(s, p, x);
    }
  }

  lemma WriteEffect(s: State, loc: Loc, value: Option<nat>)
    requires InRange(s, loc)
    ensures var t := Write(s, loc, value);
            && t == s.(first := t.first, proxies := t.proxies) && |t.proxies| == |s.proxies|
            && (forall x: nat :: At(t, x) == At(s, x).(next := At(t, x).next))
            && (forall l :: Read(t, l) == if l == loc then value else Read(s, l))
  {
  }

  /** Steps of the consumer that write one location leave tags, links and flags alone. */
  ghost predicate SameLabels(s: State, s': State) {
    && |s'.proxies| == |s.proxies|
    && forall x: nat :: At(s', x).tag == At(s, x).tag && At(s', x).link == At(s, x).link
                        && At(s', x).linked == At(s, x).linked
  }

  lemma ClearEffect(s: State, s': State)
    requires Partition(s) && PcOk(s) && s.pc.Clear? && ConsumerStep(s) == Some(s')
    ensures SameLabels(s, s') && s'.queue == s.queue && s'.popped == s.popped && s'.last == s.last
    ensures s'.pc == Cas(s.pc.isolation, s.pc.prev, s.pc.curr, s.pc.at)
    ensures forall l :: Read(s', l) == if l == s.pc.prev then None else Read(s, l)
  {
    hide Partition;
    QueueInRange(s, s.pc.at);
    WriteEffect(s, s.pc.prev, None);
  }

  lemma ClearKeepsOrder(s: State, s': State)
    requires Partition(s) && Order(s) && SameLabels(s, s') && s'.queue == s.queue && s'.popped == s.popped
    ensures Partition(s') && Order(s')
  {
    forall i, j | 0 <= i < j < |s'.popped| ensures Later(s', s'.popped[i], s'.popped[j]) {
      assert Later(s, s.popped[i], s.popped[j]);
    }
    forall p, x | p in s'.popped && x in s'.queue ensures Later(s', p, x) {
      assert Later(s, p, x);
    }
  }

  lemma ClearKeepsInv(s: State, s': State)
    requires Inv(s) && s.pc.Clear? && ConsumerStep(s) == Some(s')
    ensures Inv(s')
  {
    ClearEffect(s, s');
    ClearKeepsOrder(s, s');
    hide ConsumerStep, Partition, Order, Read, Rising;
    var at, n := s.pc.at, |s.queue|;
    forall j | 0 <= j <= n && j != at ensures Before(s.queue, j) != s.pc.prev {
      if Before(s.queue, j) == Before(s.queue, at) { PartitionRises(s); BeforeInjective(s.queue, j, at); }
    }
    forall j | 0 <= j < n ensures ChainOk(s', j) {
      assert ChainOk(s, j);
    }
  }

  lemma PartitionRises(s: State)
    requires Partition(s)
    ensures Rising(s.queue)
  {
  }

  predicate Returns(s: State) {
    s.pc.Easy? || s.pc.Store? || (s.pc.Cas? && s.last == NextOf(s.pc.curr))
  }

  lemma CasAtTheEnd(s: State)
    requires Partition(s) && Chain(s) && PcOk(s) && s.pc.Cas? && s.last == NextOf(s.pc.curr)
    ensures s.pc.at == |s.queue| - 1 && Read(s, s.pc.prev) == None
  {
    hide Partition;
    PartitionRises(s);
    BeforeInjective(s.queue, s.pc.at + 1, |s.queue|);
    assert ChainOk(s, s.pc.at);
  }

  lemma ReturnEffect(s: State, s': State)
    requires Partition(s) && Chain(s) && PcOk(s) && Returns(s) && ConsumerStep(s) == Some(s')
    ensures SameLabels(s, s') && s'.pc == Idle
    ensures !s.pc.Idle? && !s.pc.Start? && |s'.queue| == |s.queue| - 1
    ensures s'.queue == Without(s.queue, s.pc.at) && s'.popped == s.popped + [s.pc.curr]
    ensures s'.last == if s.pc.at == |s.queue| - 1 then s.pc.prev else s.last
    ensures forall l :: Read(s', l) ==
              if l != s.pc.prev then Read(s, l)
              else if s.pc.at + 1 < |s.queue| then Some(s.queue[s.pc.at + 1]) else None
  {
    hide Partition;
    QueueInRange(s, s.pc.at);
    if s.pc.Cas? {
      CasAtTheEnd(s);
    } else {
      WriteEffect(s, s.pc.prev, Some(s.pc.second));
    }
  }

  /** Taking out one proxy joins its neighbours. */
  lemma WithoutBefore(queue: seq<nat>, at: nat, j: nat)
    requires at < |queue| && j < |queue|
    ensures |Without(queue, at)| == |queue| - 1
    ensures j < |queue| - 1 ==> Without(queue, at)[j] == queue[if j < at then j else j + 1]
    ensures Before(Without(queue, at), j) == if j <= at then Before(queue, j) else Before(queue, j + 1)
  {
  }

  /** No other proxy of the queue hangs on the location in front of `curr`. */
  lemma OnlyCurr(s: State, j: nat)
    requires Partition(s) && PcOk(s) && !s.pc.Idle? && !s.pc.Start? && j <= |s.queue| && j != s.pc.at
    ensures Before(s.queue, j) != s.pc.prev
  {
    if Before(s.queue, j) == Before(s.queue, s.pc.at) { BeforeInjective(s.queue, j, s.pc.at); }
  }

  lemma ReturnKeepsChainAt(s: State, s': State, j: nat)
    requires Partition(s) && Chain(s) && PcOk(s) && Returns(s) && ConsumerStep(s) == Some(s') && j < |s'.queue|
    ensures ChainOk(s', j)
  {
    hide ConsumerStep, Partition, Read, Rising, Without, Returns;
    ReturnEffect(s, s');
    var at := s.pc.at;
    var i := if j < at then j else j + 1;
    WithoutBefore(s.queue, at, j);
    assert ChainOk(s, i);
    if j != at {
      OnlyCurr(s, i);
    } else if at + 1 < |s.queue| {
      assert s'.queue[j] == s.queue[at + 1] && Read(s', s.pc.prev) == Some(s.queue[at + 1]);
      SecondIsLinked(s);
    }
  }

  lemma SecondIsLinked(s: State)
    requires Partition(s) && Chain(s) && PcOk(s) && Returns(s) && s.pc.at + 1 < |s.queue|
    ensures At(s, s.queue[s.pc.at + 1]).linked
  {
    if s.pc.Cas? { CasAtTheEnd(s); }
  }

  lemma ReturnKeepsChain(s: State, s': State)
    requires Partition(s) && Chain(s) && PcOk(s) && Returns(s) && ConsumerStep(s) == Some(s')
    ensures Chain(s')
  {
    hide ConsumerStep, Partition, Read, Rising, Without, Returns, ChainOk;
    ReturnEffect(s, s');
    forall j | 0 <= j < |s'.queue| ensures ChainOk(s', j) {
      ReturnKeepsChainAt(s, s', j);
    }
    WithoutBefore(s.queue, s.pc.at, |s.queue| - 1);
    OnlyCurr(s, |s.queue|);
  }

  lemma WithoutMembers(queue: seq<nat>, at: nat)
    requires Rising(queue) && at < |queue|
    ensures Rising(Without(queue, at))
    ensures forall x :: x in Without(queue, at) <==> x in queue && x != queue[at]
  {
    var rest := Without(queue, at);
    assert forall j | 0 <= j < |rest| :: rest[j] == queue[if j < at then j else j + 1];
    forall x | x in queue && x != queue[at] ensures x in rest {
      var i :| 0 <= i < |queue| && queue[i] == x;
      assert rest[if i < at then i else i - 1] == x;
    }
  }

  lemma ReturnKeepsPartition(s: State, s': State)
    requires Partition(s) && PcOk(s) && SameLabels(s, s')
    requires s.pc != Idle && !s.pc.Start?
    requires s'.queue == Without(s.queue, s.pc.at) && s'.popped == s.popped + [s.pc.curr]
    ensures Partition(s')
  {
    WithoutMembers(s.queue, s.pc.at);
    hide Without, Rising;
    assert s.pc.curr in s.queue;
    assert forall id :: id in s'.popped <==> id in s.popped || id == s.pc.curr;
  }

  lemma ReturnKeepsOrder(s: State, s': State)
    requires Partition(s) && Order(s) && PcOk(s) && SameLabels(s, s')
    requires s.pc != Idle && !s.pc.Start? && !s.pc.Test?
    requires s'.queue == Without(s.queue, s.pc.at) && s'.popped == s.popped + [s.pc.curr]
    ensures Order(s')
  {
    var at, curr := s.pc.at, s.pc.curr;
    assert curr in s.queue;
    forall p, x | p in s'.popped && x in s'.queue ensures Later(s', p, x) {
      var i :| 0 <= i < |s.queue| && i != at && s.queue[i] == x;
      assert p in s.popped ==> Later(s, p, s.queue[i]);
      assert i < at ==> !Matches(s, s.pc.isolation, s.queue[i]);
      assert p !in s.popped ==> p == curr;
    }
    forall i, j | 0 <= i < j < |s'.popped| ensures Later(s', s'.popped[i], s'.popped[j]) {
      assert s.popped[i] in s.popped;
      assert j < |s.popped| ==> Later(s, s.popped[i], s.popped[j]);
      assert Later(s, s.popped[i], curr);
    }
  }

  // ---------------------------------------------------------------- every run

  lemma ConsumerKeepsInv(s: State, s': State)
    requires Inv(s) && ConsumerStep(s) == Some(s')
    ensures Inv(s')
  {
    hide ConsumerStep, Partition, Chain, Order;
    if Quiet(s) {
      QuietKeepsChain(s, s');
      QuietKeepsPc(s, s');
      QuietKeepsOrder(s, s');
    } else if s.pc.Clear? {
      ClearKeepsInv(s, s');
    } else {
      NotIdle(s, s');
      ReturnEffect(s, s');
      ReturnKeepsChain(s, s');
      ReturnKeepsPartition(s, s');
      ReturnKeepsOrder(s, s');
    }
  }

  lemma NotIdle(s: State, s': State)
    requires ConsumerStep(s) == Some(s') && !Quiet(s) && !s.pc.Clear?
    ensures Returns(s)
  {
  }

  lemma StepKeepsInv(s: State, e: Event, s': State)
    requires Inv(s) && Step(s, e) == Some(s')
    ensures Inv(s')
  {
    match e
    case Push(tag) =>
      PushKeepsPartition(s, tag, s');
      PushKeepsChain(s, tag, s');
      PushEffect(s, tag, s');
      PushersKeepPc(s, s');
      PushersKeepOrder(s, s');
    case Link(id) =>
      LinkKeepsPartition(s, id, s');
      LinkKeepsChain(s, id, s');
      LinkEffect(s, id, s');
      PushersKeepPc(s, s');
      PushersKeepOrder(s, s');
    case Pop(_) => PopKeepsInv(s, e, s');
    case Consume => ConsumerKeepsInv(s, s');
  }

  lemma PopKeepsInv(s: State, e: Event, s': State)
    requires Inv(s) && e.Pop? && Step(s, e) == Some(s')
    ensures Inv(s')
  {
    ClearKeepsOrder(s, s');
    forall j | 0 <= j < |s'.queue| ensures ChainOk(s', j) {
      assert ChainOk(s, j);
    }
  }

  lemma RunKeepsInv(run: seq<State>, k: nat)
    requires IsRun(Init, Next, run) && k < |run|
    ensures Inv(run[k])
  {
    forall s, s' | Inv(s) && Next(s, s') ensures Inv(s') {
      var e :| Step(s, e) == Some(s');
      StepKeepsInv(s, e, s');
    }
    InvariantInRun(Init, Next, Inv, run, k);
  }

  // ---------------------------------------------------------------- theorems

  /** In every state of every run: what has been pushed is either still queued or popped, once; and of
      two popped proxies with the same isolation the one pushed first was popped first. */
  lemma PoppedOnceInOrder(run: seq<State>, k: nat, i: nat, j: nat)
    requires IsRun(Init, Next, run) && k < |run| && i < j < |run[k].popped|
    ensures run[k].popped[i] != run[k].popped[j]
    ensures At(run[k], run[k].popped[i]).tag == At(run[k], run[k].popped[j]).tag ==> run[k].popped[i] < run[k].popped[j]
  {
    RunKeepsInv(run, k);
    assert Later(run[k], run[k].popped[i], run[k].popped[j]);
  }

  lemma NothingLost(run: seq<State>, k: nat, id: nat)
    requires IsRun(Init, Next, run) && k < |run| && id < |run[k].proxies|
    ensures (id in run[k].queue) != (id in run[k].popped)
  {
    RunKeepsInv(run, k);
  }

  /** When pop has returned a proxy, nothing in the mailbox refers to its link any more: no pusher owes
      a store to it, and neither `my_last` nor a link leads to it. Freeing it is safe. */
  lemma PoppedIsUnreferenced(run: seq<State>, k: nat, id: nat, other: nat)
    requires IsRun(Init, Next, run) && k < |run| && id in run[k].popped && other < |run[k].proxies|
    ensures run[k].last != NextOf(id)
    ensures !At(run[k], other).linked ==> At(run[k], other).link != NextOf(id)
    ensures other in run[k].queue ==> At(run[k], other).next != Some(id)
    ensures run[k].first != Some(id)
  {
    RunKeepsInv(run, k);
    hide Init, Next, IsRun;
    Unreferenced(run[k], id, other);
  }

  lemma Unreferenced(s: State, id: nat, other: nat)
    requires Inv(s) && id in s.popped && other < |s.proxies|
    ensures s.last != NextOf(id) && s.first != Some(id)
    ensures !At(s, other).linked ==> At(s, other).link != NextOf(id)
    ensures other in s.queue ==> At(s, other).next != Some(id)
  {
    NeverBefore(s, id, |s.queue|);
    if other in s.queue {
      var j :| 0 <= j < |s.queue| && s.queue[j] == other;
      assert ChainOk(s, j);
      NeverBefore(s, id, j);
      if j + 1 < |s.queue| { assert ChainOk(s, j + 1); NeverBefore(s, id, j + 1); }
    }
    if |s.queue| > 0 { assert ChainOk(s, 0); NeverBefore(s, id, 0); }
  }

  lemma NeverBefore(s: State, id: nat, j: nat)
    requires Partition(s) && id in s.popped && j <= |s.queue|
    ensures Before(s.queue, j) != NextOf(id)
    ensures j < |s.queue| ==> s.queue[j] != id
  {
    assert 0 < j ==> s.queue[j - 1] in s.queue;
    assert j < |s.queue| ==> s.queue[j] in s.queue;
  }

  /** pop takes the first queued proxy that matches. */
  lemma TakesFirstMatch(run: seq<State>, k: nat, s': State)
    requires IsRun(Init, Next, run) && k < |run| && ConsumerStep(run[k]) == Some(s') && Returns(run[k])
    ensures var s := run[k];
            && s'.popped == s.popped + [s.pc.curr] && s.pc.at < |s.queue| && s.queue[s.pc.at] == s.pc.curr
            && Matches(s, s.pc.isolation, s.pc.curr)
            && (forall j | 0 <= j < s.pc.at :: !Matches(s, s.pc.isolation, s.queue[j]))
            && s'.queue == Without(s.queue, s.pc.at)
  {
    RunKeepsInv(run, k);
    ReturnEffect(run[k], s');
  }

  /** pop gives up only in front of a push that is still in progress, or when nothing queued matches. */
  lemma GivesUpOnlyIfNothingReady(run: seq<State>, k: nat, s': State, i: nat)
    requires IsRun(Init, Next, run) && k < |run| && ConsumerStep(run[k]) == Some(s') && s'.pc == Idle && Quiet(run[k])
    requires i < |run[k].queue| && Matches(run[k], run[k].pc.isolation, run[k].queue[i])
    ensures exists j :: 0 <= j <= i && !At(run[k], run[k].queue[j]).linked
  {
    RunKeepsInv(run, k);
    hide Init, Next, IsRun, Partition;
    var s := run[k];
    if s.pc.Start? {
      assert ChainOk(s, 0);
    } else {
      assert s.pc.at < i;
      assert ChainOk(s, s.pc.at + 1);
    }
  }

  /** The busy wait ends: a consumer that finds no successor waits for a pusher that has swung `my_last` and
      still owes its link, that store can be made, and after it the consumer moves on. */
  lemma SpinWaitsForPusher(run: seq<State>, k: nat)
    requires IsRun(Init, Next, run) && k < |run| && run[k].pc.Spin? && ConsumerStep(run[k]) == None
    ensures var s := run[k];
            && s.pc.at + 1 < |s.queue|
            && var pusher := s.queue[s.pc.at + 1];
               && !At(s, pusher).linked && At(s, pusher).link == NextOf(s.pc.curr)
               && Step(s, Link(pusher)).Some?
               && ConsumerStep(Step(s, Link(pusher)).value).Some?
  {
    RunKeepsInv(run, k);
    hide Init, Next, IsRun;
    var s := run[k];
    QueueInRange(s, s.pc.at);
    QueueInRange(s, s.pc.at + 1);
    assert ChainOk(s, s.pc.at + 1);
    LinkEffect(s, s.queue[s.pc.at + 1], Step(s, Link(s.queue[s.pc.at + 1])).value);
  }

  // ---------------------------------------------------------------- a whole call of pop

  /** The call of pop that began with step `j`, with isolation `i`, is not over in state `k`. */
  ghost predicate Popping(run: seq<State>, j: nat, k: nat, i: nat) {
    && j < k < |run| && Step(run[j], Pop(i)) == Some(run[j + 1])
    && forall m | j < m <= k :: run[m].pc != Idle
  }

  lemma PcKeepsIsolation(s: State, e: Event, s': State)
    requires Step(s, e) == Some(s') && s.pc != Idle && s'.pc != Idle
    ensures s'.pc.isolation == s.pc.isolation
  {
  }

  lemma {:induction false} IsolationIsKept(run: seq<State>, j: nat, k: nat, i: nat)
    requires IsRun(Init, Next, run) && Popping(run, j, k, i)
    ensures run[k].pc.isolation == i
    decreases k
  {
    hide Init, Step;
    if k == j + 1 {
      PopStarts(run[j], i, run[k]);
    } else {
      assert Popping(run, j, k - 1, i);
      IsolationIsKept(run, j, k - 1, i);
      assert Next(run[k - 1], run[k - 1 + 1]);
      var e :| Step(run[k - 1], e) == Some(run[k]);
      PcKeepsIsolation(run[k - 1], e, run[k]);
    }
  }

  lemma PopStarts(s: State, i: nat, s': State)
    requires Step(s, Pop(i)) == Some(s')
    ensures s'.pc == Start(i)
  {
  }

  /** How a call of pop with isolation `i` ends: it takes the first queued proxy that it may take, any one without
      isolation and otherwise one of its isolation; or it returns nothing, and then whatever it may take stands
      behind a push that is still in progress. */
  lemma HowPopsEnd(run: seq<State>, j: nat, k: nat, i: nat)
    requires IsRun(Init, Next, run) && Popping(run, j, k, i) && k + 1 < |run| && run[k + 1].pc == Idle
    ensures var s, s' := run[k], run[k + 1];
            if s'.popped == s.popped then
              forall q | 0 <= q < |s.queue| && (i == NO_ISOLATION || At(s, s.queue[q]).tag == i) ::
                exists p :: 0 <= p <= q && !At(s, s.queue[p]).linked
            else
              && s.pc != Idle && !s.pc.Start? && s.pc.at < |s.queue|
              && var x := s.queue[s.pc.at];
                 && s'.popped == s.popped + [x] && s'.queue == Without(s.queue, s.pc.at)
                 && (i == NO_ISOLATION || At(s, x).tag == i)
                 && forall p | 0 <= p < s.pc.at :: i != NO_ISOLATION && At(s, s.queue[p]).tag != i
  {
    hide Init, Without, Partition, Chain, Order;
    IsolationIsKept(run, j, k, i);
    RunKeepsInv(run, k);
    var s, s' := run[k], run[k + 1];
    assert Next(s, s');
    var e :| Step(s, e) == Some(s');
    OnlyConsumerEnds(s, e, s');
    if Returns(s) {
      TakesFirstMatch(run, k, s');
    } else {
      assert Quiet(s);
      QuietEffect(s, s');
      forall q | 0 <= q < |s.queue| && (i == NO_ISOLATION || At(s, s.queue[q]).tag == i)
        ensures exists p :: 0 <= p <= q && !At(s, s.queue[p]).linked
      {
        assert Matches(s, s.pc.isolation, s.queue[q]);
        GivesUpOnlyIfNothingReady(run, k, s', q);
      }
    }
  }

  lemma OnlyConsumerEnds(s: State, e: Event, s': State)
    requires Step(s, e) == Some(s') && s.pc != Idle && s'.pc == Idle
    ensures e == Consume && !s.pc.Clear?
    ensures Quiet(s) || Returns(s)
  {
  }

  /** What the consumer has left to do, if nothing is pushed. */
  function Work(s: State): int {
    match s.pc
    case Idle => 0
    case Start(_) => 6 + |s.queue|
    case Test(_, _, _, at) => 5 + |s.queue| - at
    case Clear(_, _, _, _) => 4
    case Cas(_, _, _, _) => 3
    case Spin(_, _, _, _) => 2
    case Easy(_, _, _, _, _) => 1
    case Store(_, _, _, _, _) => 1
  }

  /** Nobody waits for nothing: a pusher can always store its link, an idle consumer can start, and one inside pop
      can go on unless it spins, as SpinWaitsForPusher describes; each of its steps brings it nearer to the end. */
  lemma NobodyStuck(run: seq<State>, k: nat, id: nat, isolation: nat)
    requires IsRun(Init, Next, run) && k < |run|
    ensures id < |run[k].proxies| && !run[k].proxies[id].linked ==> Step(run[k], Link(id)).Some?
    ensures if run[k].pc == Idle then Step(run[k], Pop(isolation)).Some?
            else ConsumerStep(run[k]).Some? || (run[k].pc.Spin? && At(run[k], run[k].pc.curr).next == None)
    ensures ConsumerStep(run[k]).Some? ==> 0 <= Work(ConsumerStep(run[k]).value) < Work(run[k])
  {
    hide Init, Next, IsRun, Inv, Work;
    RunKeepsInv(run, k);
    PopEnds(run[k]);
  }

  lemma PopEnds(s: State)
    requires Inv(s)
    ensures ConsumerStep(s).Some? ==> 0 <= Work(ConsumerStep(s).value) < Work(s)
  {
    hide Without, Partition, Chain, Order;
    assert PcOk(s);
  }
}

/**
 * Proxied tasks in an arena: task pools, mailboxes and the tagged words of the proxies run together. The
 * sender mails the proxy and spawns it into its own pool; whoever gets it from the pool or from the
 * mailbox then races for the task. That each place gives a proxy away at most once is proved here, so the
 * race is always the one of module TaskProxy.
 */
module ProxiedTasks {
  import opened Behaviors
  import opened TaskPool
  import D = TaskDeque
  import DequeRuns
  import M = Mailbox
  import X = TaskProxy

  /** `extracting`: the owner has found a proxy and is inside extract_task. */
  datatype Slot = Slot(deque: D.State, extracting: bool)

  /** Sent from `slot` to `box`, where it is number `mail`; `spawned`: spawning into the pool has begun. */
  datatype Proxy = Proxy(slot: nat, box: nat, mail: nat, tag: nat, spawned: bool, race: X.State)

  /** `mail[b][i]` is the proxy that was pushed as number `i` into mailbox `b`. */
  datatype State = State(slots: seq<Slot>, boxes: seq<M.State>, mail: seq<seq<nat>>, proxies: seq<Proxy>)

  datatype Event =
    | Send(sender: nat, addressee: nat, tag: nat, task: nat)
    | SpawnProxy(p: nat)
    | Deque(slot: nat, move: D.Event)
    | Box(box: nat, action: M.Event)
    | Extract(p: nat, side: X.Side)

  predicate Init(s: State) {
    && |s.mail| == |s.boxes| && s.proxies == []
    && (forall q | 0 <= q < |s.slots| :: D.Init(s.slots[q].deque) && !s.slots[q].extracting)
    && (forall b | 0 <= b < |s.boxes| :: M.Init(s.boxes[b]) && s.mail[b] == [])
  }

  /** The proxy as an entry of a task pool. */
  function TaskOf(s: State, p: nat): Task
    requires p < |s.proxies|
  {
    Task(p, s.proxies[p].tag, true)
  }

  /** The entry the owner is about to examine, if it is one it may take. */
  function Examined(d: D.State): Option<Task> {
    if d.owner.Examine? && 0 <= d.owner.t < |d.cells| && d.cells[d.owner.t].Item?
       && D.Matches(d.owner.pop.isolation, d.cells[d.owner.t].task)
    then Some(d.cells[d.owner.t].task) else None
  }

  /** The entry that the next step of the thief takes. */
  function Stolen(d: D.State, hit: bool): Option<Task> {
    if d.thief.Some? && d.thief.value.pc == D.Look && 0 <= d.thief.value.h - 1 < |d.cells|
       && d.cells[d.thief.value.h - 1].Item?
       && D.Matches(d.thief.value.isolation, d.cells[d.thief.value.h - 1].task)
       && (!d.cells[d.thief.value.h - 1].task.proxy || hit)
    then Some(d.cells[d.thief.value.h - 1].task) else None
  }

  /** The entry a thief reads, and the one the owner reads, whether or not they may take it. */
  function ReadByThief(d: D.State): Option<Task> {
    if d.thief.Some? && d.thief.value.pc == D.Look && 0 <= d.thief.value.h - 1 < |d.cells|
       && d.cells[d.thief.value.h - 1].Item?
    then Some(d.cells[d.thief.value.h - 1].task) else None
  }

  function ReadByOwner(d: D.State): Option<Task> {
    if d.owner.Examine? && 0 <= d.owner.t < |d.cells| && d.cells[d.owner.t].Item?
    then Some(d.cells[d.owner.t].task) else None
  }

  predicate IsProxy(t: Option<Task>) {
    t.Some? && t.value.proxy
  }

  function Race(s: State, p: nat): X.State {
    if p < |s.proxies| then s.proxies[p].race else X.State(0, 0, X.Away, X.Away, 0)
  }

  function WithRace(s: State, p: nat, race: X.State): State {
    if p < |s.proxies| then s.(proxies := s.proxies[p := s.proxies[p].(race := race)]) else s
  }

  /** A taker gets the proxy from this place and enters extract_task. */
  function Give(s: State, p: nat, side: X.Side): State {
    WithRace(s, p, X.Put(Race(s, p), side, X.Load))
  }

  function WithDeque(s: State, q: nat, move: D.Event): Option<State>
    requires q < |s.slots|
  {
    match D.Step(s.slots[q].deque, move)
    case None => None
    case Some(d) => Some(s.(slots := s.slots[q := Slot(d, false)]))
  }

  /** The owner at a proxy: it enters extract_task, and leaves it with the task or with an empty proxy. */
  function OwnerAtProxy(s: State, q: nat, p: nat): Option<State>
    requires q < |s.slots|
  {
    if !s.slots[q].extracting then Some(Give(s, p, X.Pool).(slots := s.slots[q := s.slots[q].(extracting := true)]))
    else if Race(s, p).pool.Got? then WithDeque(s, q, D.OwnerMove(true))
    else if Race(s, p).pool.Freed? then WithDeque(s, q, D.OwnerMove(false))
    else None
  }

  function DequeStep(s: State, q: nat, move: D.Event): Option<State> {
    if q >= |s.slots| || (move.Spawn? && move.task.proxy) then None else
    var d := s.slots[q].deque;
    if move.OwnerMove? && IsProxy(Examined(d)) then OwnerAtProxy(s, q, Examined(d).value.id) else
    match D.Step(d, move)
    case None => None
    case Some(d') =>
      var s' := s.(slots := s.slots[q := s.slots[q].(deque := d')]);
      if move.ThiefMove? && IsProxy(Stolen(d, move.hit)) then Some(Give(s', Stolen(d, move.hit).value.id, X.Pool))
      else Some(s')
  }

  function BoxStep(s: State, b: nat, action: M.Event): Option<State> {
    if b >= |s.boxes| || b >= |s.mail| || action.Push? then None else
    match M.Step(s.boxes[b], action)
    case None => None
    case Some(box') =>
      var s' := s.(boxes := s.boxes[b := box']);
      if |box'.popped| > |s.boxes[b].popped| && box'.popped[|box'.popped| - 1] < |s.mail[b]|
      then Some(Give(s', s.mail[b][box'.popped[|box'.popped| - 1]], X.Mailbox))
      else Some(s')
  }

  function SendStep(s: State, e: Event): Option<State>
    requires e.Send?
  {
    if e.sender >= |s.slots| || e.addressee >= |s.boxes| || e.addressee >= |s.mail| || !X.IsAddress(e.task) then None else
    match M.Step(s.boxes[e.addressee], M.Push(e.tag))
    case None => None
    case Some(box') =>
      var race := X.State(e.task, e.task + X.LOCATION_MASK, X.Away, X.Away, 0);
      var proxy := Proxy(e.sender, e.addressee, |s.boxes[e.addressee].proxies|, e.tag, false, race);
      Some(State(s.slots, s.boxes[e.addressee := box'], s.mail[e.addressee := s.mail[e.addressee] + [|s.proxies|]],
                 s.proxies + [proxy]))
  }

  function SpawnStep(s: State, p: nat): Option<State> {
    if p >= |s.proxies| || s.proxies[p].spawned || s.proxies[p].slot >= |s.slots| then None else
    match WithDeque(s, s.proxies[p].slot, D.Spawn(TaskOf(s, p)))
    case None => None
    case Some(s') => Some(s'.(proxies := s.proxies[p := s.proxies[p].(spawned := true)]))
  }

  function Step(s: State, e: Event): Option<State> {
    match e
    case Send(_, _, _, _) => SendStep(s, e)
    case SpawnProxy(p) => SpawnStep(s, p)
    case Deque(q, move) => DequeStep(s, q, move)
    case Box(b, action) => BoxStep(s, b, action)
    case Extract(p, side) =>
      if p < |s.proxies| && X.At(s.proxies[p].race, side) != X.Away then
        match X.Step(s.proxies[p].race, side)
        case None => None
        case Some(race) => Some(WithRace(s, p, race))
      else None
  }

  ghost predicate Next(s: State, s': State) {
    exists e :: Step(s, e) == Some(s')
  }

  // ---------------------------------------------------------------- one task pool

  function Pending(d: D.State): Option<Task> {
    if d.owner.WriteCell? || d.owner.CommitTail? then Some(d.owner.task) else None
  }

  function One(t: Option<Task>, u: Task): nat {
    if t == Some(u) then 1 else 0
  }

  /** How often a task has been spawned, counting the spawn in progress. */
  function Started(d: D.State, t: Task): nat {
    d.spawned[t] + One(Pending(d), t)
  }

  /** How often a task has left the pool. */
  function Gone(d: D.State, t: Task): nat {
    d.returned[t] + d.freed[t]
  }

  function Leaves(d: D.State, move: D.Event): Option<Task> {
    match move
    case OwnerMove(_) => Examined(d)
    case ThiefMove(hit) => Stolen(d, hit)
    case _ => None
  }

  /** A task goes to the taker or, an empty proxy, is freed. */
  predicate Outputs(d: D.State, d': D.State, t: Option<Task>) {
    if t.None? then d'.returned == d.returned && d'.freed == d.freed
    else
      || (d'.returned == d.returned + multiset{t.value} && d'.freed == d.freed)
      || (d'.returned == d.returned && d'.freed == d.freed + multiset{t.value})
  }

  predicate Inputs(d: D.State, d': D.State, t: Option<Task>) {
    if t.Some? then d'.spawned == d.spawned && Pending(d).None? && Pending(d') == t
    else
      || (d'.spawned == d.spawned && Pending(d') == Pending(d))
      || (Pending(d).Some? && d'.spawned == d.spawned + multiset{Pending(d).value} && Pending(d').None?)
  }

  lemma FlowCounts(d: D.State, d': D.State, input: Option<Task>, output: Option<Task>, u: Task)
    requires Inputs(d, d', input) && Outputs(d, d', output)
    ensures Started(d', u) == Started(d, u) + One(input, u) && Gone(d', u) == Gone(d, u) + One(output, u)
  {
  }

  lemma OwnerFlow(d: D.State, hit: bool, d': D.State)
    requires D.OwnerStep(d, hit) == Some(d')
    ensures Inputs(d, d', None) && Outputs(d, d', Examined(d))
  {
    if d.owner.Examine? {
      hide D.OwnerStep, Outputs;
      ExamineFlow(d, hit, d');
    } else {
      hide D.ExamineStep, D.ArbitrateStep;
      if d.owner.Arbitrate? { ArbitrateFlow(d); }
    }
  }

  lemma ArbitrateFlow(d: D.State)
    requires d.owner.Arbitrate?
    ensures var d' := D.ArbitrateStep(d, d.owner.pop, d.owner.t);
            Pending(d').None? && d' == d.(owner := d'.owner, word := d'.word, head := d'.head, tail := d'.tail)
  {
  }

  lemma ExamineFlow(d: D.State, hit: bool, d': D.State)
    requires D.OwnerStep(d, hit) == Some(d') && d.owner.Examine?
    ensures d'.spawned == d.spawned && Pending(d').None? && Outputs(d, d', Examined(d))
  {
    hide D.NothingAt, D.Found;
    var o := d.owner;
    if 0 <= o.t < |d.cells| {
      NothingFlow(d, o.pop, o.t, o.emptied, o.h0);
      NothingFlow(d, o.pop.(omitted := true), o.t, o.emptied, o.h0);
      if d.cells[o.t].Item? {
        var task := d.cells[o.t].task;
        FoundFlow(d, o.pop, o.t, o.emptied, o.h0, task);
        NothingFlow(d.(freed := d.freed + multiset{task}, cells := if o.pop.omitted then d.cells[o.t := Hole] else d.cells),
                    o.pop, o.t, o.emptied, o.h0);
      }
    }
  }

  lemma NothingFlow(d: D.State, pop: D.Pop, t: int, emptied: bool, h0: int)
    requires 0 <= t < |d.cells|
    ensures var d' := D.NothingAt(d, pop, t, emptied, h0);
            d'.spawned == d.spawned && d'.returned == d.returned && d'.freed == d.freed && Pending(d').None?
  {
  }

  lemma FoundFlow(d: D.State, pop: D.Pop, t: int, emptied: bool, h0: int, task: Task)
    requires 0 <= t < |d.cells|
    ensures var d' := D.Found(d, pop, t, emptied, h0, task);
            && d'.spawned == d.spawned && d'.returned == d.returned + multiset{task} && d'.freed == d.freed
            && Pending(d').None?
  {
  }

  lemma ThiefFlow(d: D.State, hit: bool, d': D.State)
    requires d.thief.Some? && D.ThiefStep(d, d.thief.value, hit) == Some(d')
    ensures d'.owner == d.owner && d'.spawned == d.spawned && Outputs(d, d', Stolen(d, hit))
  {
    if d.thief.value.pc == D.Look {
      LookFlow(d, hit, d');
    } else {
      hide D.LookStep;
    }
  }

  lemma LookFlow(d: D.State, hit: bool, d': D.State)
    requires d.thief.Some? && d.thief.value.pc == D.Look && D.LookStep(d, d.thief.value, hit) == Some(d')
    ensures d'.owner == d.owner && d'.spawned == d.spawned && Outputs(d, d', Stolen(d, hit))
  {
  }

  function Enters(move: D.Event): Option<Task> {
    if move.Spawn? then Some(move.task) else None
  }

  /** What a step of a pool adds to what was spawned and to what has left. */
  lemma DequeFlow(d: D.State, move: D.Event, d': D.State)
    requires D.Step(d, move) == Some(d')
    ensures Inputs(d, d', Enters(move)) && Outputs(d, d', Leaves(d, move))
  {
    hide D.OwnerStep, D.ThiefStep, Examined, Stolen;
    match move
    case OwnerMove(hit) => OwnerFlow(d, hit, d');
    case ThiefMove(hit) => ThiefFlow(d, hit, d');
    case Spawn(_) =>
    case GetTask(_) =>
    case StealTask(_, _) =>
  }

  /** While the owner examines an entry, nobody else changes it. */
  lemma ExaminedStays(d: D.State, move: D.Event, d': D.State)
    requires D.ControlInv(d) && D.Step(d, move) == Some(d') && !move.OwnerMove? && Examined(d).Some?
    ensures Examined(d') == Examined(d)
  {
    assert D.LockInv(d) && D.ThiefInv(d) && D.OwnerInv(d);
  }

  /** An entry that can be examined or stolen is there once more than it has left. */
  lemma InsideNotGone(d: D.State, i: int)
    requires D.Inv(d) && 0 <= D.LowerBound(d) <= i < D.UpperBound(d) <= |d.cells| && D.View(d)[i].Item?
    ensures Gone(d, D.View(d)[i].task) < d.spawned[D.View(d)[i].task]
  {
    hide D.Tasks, D.ControlInv, D.View, D.LowerBound, D.UpperBound;
    D.TasksErase(D.View(d), D.LowerBound(d), D.UpperBound(d), i, Hole);
  }

  lemma TwiceInside(d: D.State, i: int, j: int)
    requires D.Inv(d) && 0 <= D.LowerBound(d) <= i < D.UpperBound(d) <= |d.cells|
    requires D.LowerBound(d) <= j < D.UpperBound(d) && i != j
    requires D.View(d)[i].Item? && D.View(d)[j] == D.View(d)[i]
    ensures d.spawned[D.View(d)[i].task] >= 2
  {
    hide D.Tasks, D.ControlInv, D.View, D.LowerBound, D.UpperBound;
    var v, lo, hi := D.View(d), D.LowerBound(d), D.UpperBound(d);
    D.TasksErase(v, lo, hi, i, Hole);
    D.TasksErase(v[i := Hole], lo, hi, j, Hole);
  }

  lemma OwnersEntryNotGone(d: D.State)
    requires D.Inv(d) && ReadByOwner(d).Some?
    ensures Gone(d, ReadByOwner(d).value) < d.spawned[ReadByOwner(d).value]
  {
    hide D.Conserved, D.ControlInv, D.View, D.LowerBound, D.UpperBound;
    DequeRuns.ExaminedIsInside(d);
    InsideNotGone(d, d.owner.t);
  }

  lemma ThiefsEntryNotGone(d: D.State)
    requires D.Inv(d) && ReadByThief(d).Some?
    ensures Gone(d, ReadByThief(d).value) < d.spawned[ReadByThief(d).value]
  {
    hide D.Conserved, D.ControlInv, D.View, D.LowerBound, D.UpperBound;
    DequeRuns.LookIsInside(d);
    InsideNotGone(d, d.thief.value.h - 1);
  }

  /** Owner and thief never look at the same entry. */
  lemma LookElsewhere(d: D.State)
    requires D.ControlInv(d) && d.owner.Examine? && d.thief.Some? && d.thief.value.pc == D.Look
    ensures d.thief.value.h - 1 != d.owner.t
  {
  }

  lemma ReadTwice(d: D.State)
    requires D.Inv(d) && ReadByOwner(d).Some? && ReadByThief(d) == ReadByOwner(d)
    ensures d.spawned[ReadByOwner(d).value] >= 2
  {
    hide D.Conserved, D.ControlInv, D.View, D.LowerBound, D.UpperBound;
    DequeRuns.LookIsInside(d);
    DequeRuns.ExaminedIsInside(d);
    LookElsewhere(d);
    TwiceInside(d, d.owner.t, d.thief.value.h - 1);
  }

  // ---------------------------------------------------------------- invariant

  predicate SlotOk(x: Slot) {
    D.Inv(x.deque) && (x.extracting ==> IsProxy(Examined(x.deque)))
  }

  predicate SpawnedFrom(s: State, q: nat, t: Task) {
    t.id < |s.proxies| && t == TaskOf(s, t.id) && s.proxies[t.id].slot == q && s.proxies[t.id].spawned
  }

  /** Exactly the proxies sent from a slot are spawned there, once each. */
  predicate StartedOk(s: State, q: nat, t: Task)
    requires q < |s.slots|
  {
    Started(s.slots[q].deque, t) == if SpawnedFrom(s, q, t) then 1 else 0
  }

  predicate Extracting(x: Slot, t: Task) {
    x.extracting && Examined(x.deque) == Some(t)
  }

  /** How often the pool has given an entry away. */
  function GivenBy(x: Slot, t: Task): nat {
    Gone(x.deque, t) + if Extracting(x, t) then 1 else 0
  }

  function Given(s: State, p: nat): nat
    requires p < |s.proxies| && s.proxies[p].slot < |s.slots|
  {
    GivenBy(s.slots[s.proxies[p].slot], TaskOf(s, p))
  }

  predicate PoolOk(s: State, p: nat)
    requires p < |s.proxies|
  {
    s.proxies[p].slot < |s.slots| && Given(s, p) == if s.proxies[p].race.pool == X.Away then 0 else 1
  }

  predicate MailOk(s: State, p: nat)
    requires p < |s.proxies|
  {
    var x := s.proxies[p];
    && x.box < |s.boxes| && x.box < |s.mail| && x.mail < |s.mail[x.box]| && s.mail[x.box][x.mail] == p
    && (x.race.mailbox == X.Away <==> x.mail !in s.boxes[x.box].popped)
  }

  predicate BoxOk(s: State, b: nat)
    requires b < |s.boxes| && b < |s.mail|
  {
    && M.Inv(s.boxes[b]) && |s.mail[b]| == |s.boxes[b].proxies|
    && forall i | 0 <= i < |s.mail[b]| :: MailedTo(s, s.mail[b][i], b, i)
  }

  predicate MailedTo(s: State, p: nat, b: nat, i: nat) {
    p < |s.proxies| && s.proxies[p].box == b && s.proxies[p].mail == i
  }

  ghost predicate Slots(s: State) {
    && (forall q | 0 <= q < |s.slots| :: SlotOk(s.slots[q]))
    && (forall q, t: Task | 0 <= q < |s.slots| && t.proxy :: StartedOk(s, q, t))
  }

  predicate Boxes(s: State) {
    |s.mail| == |s.boxes| && forall b | 0 <= b < |s.boxes| :: BoxOk(s, b)
  }

  predicate Pools(s: State) {
    forall p | 0 <= p < |s.proxies| :: PoolOk(s, p)
  }

  predicate Mails(s: State) {
    forall p | 0 <= p < |s.proxies| :: MailOk(s, p)
  }

  predicate Races(s: State) {
    forall p | 0 <= p < |s.proxies| :: X.Inv(s.proxies[p].race)
  }

  ghost predicate Inv(s: State) {
    Slots(s) && Boxes(s) && Pools(s) && Mails(s) && Races(s)
  }

  /** A proxy found in a pool is one that was sent from there, and it was spawned once. */
  lemma Registered(s: State, q: nat, t: Task)
    requires Slots(s) && q < |s.slots| && t.proxy && s.slots[q].deque.spawned[t] > 0
    ensures t.id < |s.proxies| && t == TaskOf(s, t.id) && s.proxies[t.id].slot == q && s.slots[q].deque.spawned[t] == 1
  {
    assert StartedOk(s, q, t);
  }

  // ---------------------------------------------------------------- steps of a pool

  /** Steps that leave everything but one slot and one race alone. */
  predicate OnlySlot(s: State, s': State, q: nat) {
    && q < |s.slots| == |s'.slots| && s'.boxes == s.boxes && s'.mail == s.mail && |s'.proxies| == |s.proxies|
    && (forall r | 0 <= r < |s.slots| && r != q :: s'.slots[r] == s.slots[r])
    && (forall p | 0 <= p < |s.proxies| ::
          && s'.proxies[p] == s.proxies[p].(race := s'.proxies[p].race)
          && s'.proxies[p].race.mailbox == s.proxies[p].race.mailbox)
  }

  lemma OnlySlotKeepsMail(s: State, s': State, q: nat)
    requires Boxes(s) && Mails(s) && OnlySlot(s, s', q)
    ensures Boxes(s') && Mails(s')
  {
    hide M.Inv;
    forall b | 0 <= b < |s'.boxes| ensures BoxOk(s', b) {
      assert BoxOk(s, b);
      forall i | 0 <= i < |s'.mail[b]| ensures MailedTo(s', s'.mail[b][i], b, i) {
        assert MailedTo(s, s.mail[b][i], b, i);
      }
    }
    forall p | 0 <= p < |s'.proxies| ensures MailOk(s', p) {
      assert MailOk(s, p);
    }
  }

  /** The owner enters extract_task, or a thief carries a proxy off: the pool had not given it away. */
  lemma GivenForTheFirstTime(s: State, q: nat, t: Task)
    requires Slots(s) && Pools(s) && q < |s.slots| && t.proxy
    requires Gone(s.slots[q].deque, t) < s.slots[q].deque.spawned[t] && !Extracting(s.slots[q], t)
    ensures t.id < |s.proxies| && t == TaskOf(s, t.id) && s.proxies[t.id].slot == q
    ensures s.proxies[t.id].race.pool == X.Away
  {
    hide Gone, Examined;
    Registered(s, q, t);
    assert PoolOk(s, t.id);
  }

  ghost predicate RaceMoves(s: State, s': State, p: nat)
    requires p < |s.proxies|
  {
    p < |s'.proxies| && (s'.proxies[p].race == s.proxies[p].race || X.Next(s.proxies[p].race, s'.proxies[p].race))
  }

  lemma FirstLoad(race: X.State, side: X.Side)
    requires X.Inv(race) && X.At(race, side) == X.Away
    ensures X.Step(race, side) == Some(X.Put(race, side, X.Load)) && X.Inv(X.Put(race, side, X.Load))
    ensures X.At(X.Put(race, side, X.Load), X.Other(side)) == X.At(race, X.Other(side))
    ensures X.Next(race, X.Put(race, side, X.Load))
  {
    X.StepKeepsInv(race, side, X.Put(race, side, X.Load));
  }

  /** The slot goes from `x` to `x'` and gives away `given`. */
  ghost predicate SlotMoves(x: Slot, x': Slot, given: Option<Task>) {
    && SlotOk(x')
    && (forall t: Task | t.proxy :: Started(x'.deque, t) == Started(x.deque, t))
    && (forall t: Task | t.proxy :: GivenBy(x', t) == GivenBy(x, t) + One(given, t))
  }

  /** What becomes of the races when a slot gives a proxy away, or none. */
  predicate GivesAway(s: State, s': State, q: nat, given: Option<Task>) {
    if given.None? || !given.value.proxy then s'.proxies == s.proxies
    else
      var t := given.value;
      && t.id < |s.proxies| && t == TaskOf(s, t.id) && s.proxies[t.id].slot == q
      && s.proxies[t.id].race.pool == X.Away && s'.proxies == Give(s, t.id, X.Pool).proxies
  }

  lemma SlotKeepsInv(s: State, s': State, q: nat, given: Option<Task>)
    requires Inv(s) && q < |s.slots| && |s'.slots| == |s.slots| && SlotMoves(s.slots[q], s'.slots[q], given)
    requires s'.slots == s.slots[q := s'.slots[q]] && s'.boxes == s.boxes && s'.mail == s.mail
    requires GivesAway(s, s', q, given)
    ensures Inv(s')
    ensures forall p | 0 <= p < |s.proxies| :: RaceMoves(s, s', p)
  {
    hide SlotOk, GivenBy, Started, X.Inv, X.Next;
    if given.Some? && given.value.proxy { FirstLoad(s.proxies[given.value.id].race, X.Pool); }
    assert OnlySlot(s, s', q);
    OnlySlotKeepsMail(s, s', q);
    forall r, t: Task | 0 <= r < |s'.slots| && t.proxy ensures StartedOk(s', r, t) {
      assert StartedOk(s, r, t);
    }
    forall r | 0 <= r < |s'.slots| ensures SlotOk(s'.slots[r]) {
      assert SlotOk(s.slots[r]);
    }
    forall p | 0 <= p < |s'.proxies| ensures PoolOk(s', p) && X.Inv(s'.proxies[p].race) {
      assert PoolOk(s, p) && X.Inv(s.proxies[p].race);
    }
  }

  lemma BeginKeepsInv(s: State, q: nat, s': State)
    requires Inv(s) && q < |s.slots| && IsProxy(Examined(s.slots[q].deque)) && !s.slots[q].extracting
    requires s' == Give(s, Examined(s.slots[q].deque).value.id, X.Pool).(slots := s.slots[q := s.slots[q].(extracting := true)])
    ensures Inv(s')
    ensures forall p | 0 <= p < |s.proxies| :: RaceMoves(s, s', p)
  {
    var x := s.slots[q];
    assert SlotOk(x);
    OwnersEntryIsAway(s, q);
    hide D.Inv, Examined, Gone, Started;
    assert SlotMoves(x, s'.slots[q], Examined(x.deque));
    hide SlotMoves, Inv;
    SlotKeepsInv(s, s', q, Examined(x.deque));
  }

  lemma DequeKeepsItsInv(d: D.State, move: D.Event, d': D.State)
    requires D.Inv(d) && D.Step(d, move) == Some(d')
    ensures D.Inv(d')
  {
    hide D.Inv, D.Step;
    assert D.Next(d, d');
    DequeRuns.StepKeepsInv(d, d');
  }

  /** The owner leaves extract_task and takes the entry out of the pool. */
  lemma EndMoves(x: Slot, hit: bool, d': D.State)
    requires SlotOk(x) && x.extracting && D.Step(x.deque, D.OwnerMove(hit)) == Some(d')
    ensures SlotMoves(x, Slot(d', false), None)
  {
    hide D.Step, D.Inv, Examined, Gone, Started, Inputs, Outputs;
    DequeFlow(x.deque, D.OwnerMove(hit), d');
    DequeKeepsItsInv(x.deque, D.OwnerMove(hit), d');
    forall t: Task
      ensures Started(d', t) == Started(x.deque, t)
      ensures GivenBy(Slot(d', false), t) == GivenBy(x, t)
    {
      FlowCounts(x.deque, d', None, Examined(x.deque), t);
    }
  }

  lemma EndKeepsInv(s: State, q: nat, hit: bool, s': State)
    requires Inv(s) && q < |s.slots| && s.slots[q].extracting && WithDeque(s, q, D.OwnerMove(hit)) == Some(s')
    ensures Inv(s')
    ensures forall p | 0 <= p < |s.proxies| :: RaceMoves(s, s', p)
  {
    assert SlotOk(s.slots[q]);
    hide D.Step, SlotOk, SlotMoves, Inv;
    EndMoves(s.slots[q], hit, s'.slots[q].deque);
    SlotKeepsInv(s, s', q, None);
  }

  /** A step of a pool that is not the owner's at a proxy. */
  lemma DequeMoves(x: Slot, move: D.Event, d': D.State)
    requires SlotOk(x) && D.Step(x.deque, move) == Some(d') && !(move.OwnerMove? && IsProxy(Examined(x.deque)))
    ensures SlotOk(Slot(d', x.extracting))
    ensures forall t: Task :: Started(d', t) == Started(x.deque, t) + One(Enters(move), t)
    ensures forall t: Task :: GivenBy(Slot(d', x.extracting), t) == GivenBy(x, t) + One(Leaves(x.deque, move), t)
  {
    hide D.Step, D.ControlInv, Examined, Stolen, Gone, Started, Inputs, Outputs;
    DequeFlow(x.deque, move, d');
    DequeKeepsItsInv(x.deque, move, d');
    if x.extracting { ExaminedStays(x.deque, move, d'); }
    forall t: Task
      ensures Started(d', t) == Started(x.deque, t) + One(Enters(move), t)
      ensures GivenBy(Slot(d', x.extracting), t) == GivenBy(x, t) + One(Leaves(x.deque, move), t)
    {
      FlowCounts(x.deque, d', Enters(move), Leaves(x.deque, move), t);
    }
  }

  lemma StealMoves(x: Slot, hit: bool, d': D.State)
    requires SlotOk(x) && D.Step(x.deque, D.ThiefMove(hit)) == Some(d')
    ensures SlotMoves(x, Slot(d', x.extracting), Stolen(x.deque, hit))
  {
    hide D.Step, Stolen, Started, SlotOk, GivenBy;
    DequeMoves(x, D.ThiefMove(hit), d');
  }

  lemma StealKeepsInv(s: State, q: nat, hit: bool, s': State)
    requires Inv(s) && q < |s.slots| && IsProxy(Stolen(s.slots[q].deque, hit))
    requires DequeStep(s, q, D.ThiefMove(hit)) == Some(s')
    ensures Inv(s')
    ensures forall p | 0 <= p < |s.proxies| :: RaceMoves(s, s', p)
  {
    assert SlotOk(s.slots[q]);
    ThiefsEntryIsAway(s, q);
    hide D.Step, Stolen, SlotOk, SlotMoves, Inv, RaceMoves;
    StealMoves(s.slots[q], hit, s'.slots[q].deque);
    SlotKeepsInv(s, s', q, Stolen(s.slots[q].deque, hit));
  }

  lemma QuietMoves(x: Slot, move: D.Event, d': D.State)
    requires SlotOk(x) && D.Step(x.deque, move) == Some(d') && !(move.Spawn? && move.task.proxy)
    requires !IsProxy(Leaves(x.deque, move))
    ensures SlotMoves(x, Slot(d', x.extracting), None)
  {
    hide D.Step, Examined, Stolen, Started, SlotOk, GivenBy;
    DequeMoves(x, move, d');
  }

  lemma QuietKeepsInv(s: State, q: nat, move: D.Event, s': State)
    requires Inv(s) && q < |s.slots| && !(move.Spawn? && move.task.proxy)
    requires !IsProxy(Leaves(s.slots[q].deque, move)) && DequeStep(s, q, move) == Some(s')
    ensures Inv(s')
    ensures forall p | 0 <= p < |s.proxies| :: RaceMoves(s, s', p)
  {
    assert SlotOk(s.slots[q]);
    hide D.Step, Examined, Stolen, SlotOk, SlotMoves, Inv, RaceMoves, Give;
    QuietMoves(s.slots[q], move, s'.slots[q].deque);
    SlotKeepsInv(s, s', q, None);
  }

  lemma DequeKeepsInv(s: State, q: nat, move: D.Event, s': State)
    requires Inv(s) && DequeStep(s, q, move) == Some(s')
    ensures Inv(s')
    ensures forall p | 0 <= p < |s.proxies| :: RaceMoves(s, s', p)
  {
    hide Inv, D.Step, Examined, Stolen;
    if !IsProxy(Leaves(s.slots[q].deque, move)) {
      QuietKeepsInv(s, q, move, s');
    } else if move.ThiefMove? {
      StealKeepsInv(s, q, move.hit, s');
    } else if !s.slots[q].extracting {
      BeginKeepsInv(s, q, s');
    } else {
      EndKeepsInv(s, q, Race(s, Examined(s.slots[q].deque).value.id).pool.Got?, s');
    }
  }

  // ---------------------------------------------------------------- spawning and mailing

  lemma SpawnMoves(x: Slot, t: Task, d': D.State)
    requires SlotOk(x) && D.Step(x.deque, D.Spawn(t)) == Some(d')
    ensures !x.extracting && SlotOk(Slot(d', false))
    ensures forall u: Task :: Started(d', u) == Started(x.deque, u) + One(Some(t), u)
    ensures forall u: Task :: GivenBy(Slot(d', false), u) == GivenBy(x, u)
  {
    assert x.deque.owner.Idle?;
    hide D.Step, D.Inv, Started, GivenBy;
    DequeMoves(x, D.Spawn(t), d');
  }

  lemma SpawnKeepsSlots(s: State, p: nat, s': State)
    requires Slots(s) && SpawnStep(s, p) == Some(s')
    ensures Slots(s')
  {
    var q := s.proxies[p].slot;
    assert SlotOk(s.slots[q]);
    hide D.Step, SlotOk, Started, GivenBy;
    SpawnMoves(s.slots[q], TaskOf(s, p), s'.slots[q].deque);
    forall r, t: Task | 0 <= r < |s'.slots| && t.proxy ensures StartedOk(s', r, t) {
      SpawnKeepsStarted(s, p, s', r, t);
    }
    forall r | 0 <= r < |s'.slots| ensures SlotOk(s'.slots[r]) {
      assert SlotOk(s.slots[r]);
    }
  }

  lemma SpawnKeepsStarted(s: State, p: nat, s': State, r: nat, t: Task)
    requires Slots(s) && SpawnStep(s, p) == Some(s') && r < |s.slots| && t.proxy
    ensures StartedOk(s', r, t)
  {
    hide D.Step, Slots, SlotOk, Started, GivenBy, SpawnedFrom, TaskOf, SpawnStep;
    OneMoreSpawned(s, p, s', r, t);
    SlotsAt(s, s.proxies[p].slot, r, t);
    SpawnMoves(s.slots[s.proxies[p].slot], TaskOf(s, p), s'.slots[s.proxies[p].slot].deque);
  }

  lemma SlotsAt(s: State, q: nat, r: nat, t: Task)
    requires Slots(s) && q < |s.slots| && r < |s.slots| && t.proxy
    ensures SlotOk(s.slots[q]) && StartedOk(s, r, t)
  {
  }

  lemma OneMoreSpawned(s: State, p: nat, s': State, r: nat, t: Task)
    requires SpawnStep(s, p) == Some(s')
    ensures p < |s.proxies| && s.proxies[p].slot < |s.slots|
    ensures SpawnedFrom(s', r, t) <==> SpawnedFrom(s, r, t) || (t == TaskOf(s, p) && r == s.proxies[p].slot)
    ensures !SpawnedFrom(s, r, TaskOf(s, p))
    ensures |s'.slots| == |s.slots| && (r < |s.slots| && r != s.proxies[p].slot ==> s'.slots[r] == s.slots[r])
    ensures D.Step(s.slots[s.proxies[p].slot].deque, D.Spawn(TaskOf(s, p))) == Some(s'.slots[s.proxies[p].slot].deque)
  {
    hide D.Step;
  }

  lemma SpawnKeepsPools(s: State, p: nat, s': State)
    requires Slots(s) && Pools(s) && SpawnStep(s, p) == Some(s')
    ensures Pools(s')
  {
    var q := s.proxies[p].slot;
    assert SlotOk(s.slots[q]);
    hide D.Step, SlotOk, Started, GivenBy, Slots;
    SpawnMoves(s.slots[q], TaskOf(s, p), s'.slots[q].deque);
    forall r | 0 <= r < |s'.proxies| ensures PoolOk(s', r) {
      assert PoolOk(s, r);
    }
  }

  lemma SpawnKeepsInv(s: State, p: nat, s': State)
    requires Inv(s) && SpawnStep(s, p) == Some(s')
    ensures Inv(s')
    ensures forall r | 0 <= r < |s.proxies| :: RaceMoves(s, s', r)
  {
    hide D.Step, Slots, Pools, Boxes, Mails, Races, X.Next;
    SpawnKeepsSlots(s, p, s');
    SpawnKeepsPools(s, p, s');
    SpawnKeepsMail(s, p, s');
  }

  lemma SpawnKeepsMail(s: State, p: nat, s': State)
    requires Boxes(s) && Mails(s) && Races(s) && SpawnStep(s, p) == Some(s')
    ensures Boxes(s') && Mails(s') && Races(s')
  {
    hide M.Inv, D.Step;
    forall b | 0 <= b < |s'.boxes| ensures BoxOk(s', b) {
      assert BoxOk(s, b);
      forall i | 0 <= i < |s'.mail[b]| ensures MailedTo(s', s'.mail[b][i], b, i) {
        assert MailedTo(s, s.mail[b][i], b, i);
      }
    }
    forall r | 0 <= r < |s'.proxies| ensures MailOk(s', r) && X.Inv(s'.proxies[r].race) {
      assert MailOk(s, r) && X.Inv(s.proxies[r].race);
    }
  }

  lemma SendKeepsPools(s: State, e: Event, s': State)
    requires Slots(s) && Pools(s) && e.Send? && SendStep(s, e) == Some(s')
    ensures Slots(s') && Pools(s')
  {
    hide M.Step, D.ControlInv, D.Tasks, D.View, D.LowerBound, D.UpperBound;
    var n := |s.proxies|;
    assert StartedOk(s, e.sender, TaskOf(s', n));
    forall q, t: Task | 0 <= q < |s'.slots| && t.proxy ensures StartedOk(s', q, t) {
      assert StartedOk(s, q, t);
    }
    forall p | 0 <= p < |s'.proxies| ensures PoolOk(s', p) {
      if p < n {
        assert PoolOk(s, p);
      } else {
        var x := s.slots[e.sender];
        assert SlotOk(x);
        if Extracting(x, TaskOf(s', n)) { OwnersEntryNotGone(x.deque); }
      }
    }
  }

  /** What a step of a mailbox does to the list of popped proxies. */
  lemma BoxFlow(b: M.State, action: M.Event, b': M.State)
    requires M.Inv(b) && M.Step(b, action) == Some(b')
    ensures M.Inv(b') && b.popped <= b'.popped
    ensures |b'.proxies| == |b.proxies| + if action.Push? then 1 else 0
    ensures action.Push? ==> b'.popped == b.popped && |b.proxies| !in b.popped
    ensures b'.popped == b.popped ||
            (|b'.popped| == |b.popped| + 1 && b'.popped[|b.popped|] < |b.proxies| && b'.popped[|b.popped|] !in b.popped)
  {
    M.StepKeepsInv(b, action, b');
    PoppedGrows(b, action, b');
    if b'.popped != b.popped {
      assert b'.popped[|b.popped|] in b'.popped;
    }
  }

  lemma PoppedGrows(b: M.State, action: M.Event, b': M.State)
    requires M.Step(b, action) == Some(b')
    ensures b'.popped == b.popped || exists id :: b'.popped == b.popped + [id]
    ensures |b'.proxies| == |b.proxies| + if action.Push? then 1 else 0
    ensures action.Push? ==> b'.popped == b.popped
  {
  }

  lemma SendKeepsMail(s: State, e: Event, s': State)
    requires Boxes(s) && Mails(s) && Races(s) && e.Send? && SendStep(s, e) == Some(s')
    ensures Boxes(s') && Mails(s') && Races(s')
  {
    var a := e.addressee;
    assert BoxOk(s, a);
    BoxFlow(s.boxes[a], M.Push(e.tag), s'.boxes[a]);
    hide M.Inv, M.Step;
    forall b | 0 <= b < |s'.boxes| ensures BoxOk(s', b) {
      assert BoxOk(s, b);
      forall i | 0 <= i < |s'.mail[b]| ensures MailedTo(s', s'.mail[b][i], b, i) {
        assert i < |s.mail[b]| ==> MailedTo(s, s.mail[b][i], b, i);
      }
    }
    forall p | 0 <= p < |s'.proxies| ensures MailOk(s', p) && X.Inv(s'.proxies[p].race) {
      assert p < |s.proxies| ==> MailOk(s, p) && X.Inv(s.proxies[p].race);
    }
  }

  // ---------------------------------------------------------------- steps of a mailbox and of takers

  /** Only one race moves, and not on the pool side. */
  lemma PoolsUntouched(s: State, s': State)
    requires Slots(s) && Pools(s) && s'.slots == s.slots && |s'.proxies| == |s.proxies|
    requires forall p | 0 <= p < |s.proxies| ::
               && s'.proxies[p] == s.proxies[p].(race := s'.proxies[p].race)
               && (s'.proxies[p].race.pool == X.Away <==> s.proxies[p].race.pool == X.Away)
    ensures Slots(s') && Pools(s')
  {
    hide SlotOk, Gone, Started, Examined;
    forall q, t: Task | 0 <= q < |s'.slots| && t.proxy ensures StartedOk(s', q, t) {
      assert StartedOk(s, q, t);
    }
    forall p | 0 <= p < |s'.proxies| ensures PoolOk(s', p) {
      assert PoolOk(s, p);
    }
  }

  /** A step of mailbox `b` that pops nothing, or one proxy, which goes to a taker. */
  predicate Pops(s: State, b: nat, s': State) {
    && b < |s.boxes| == |s'.boxes| && b < |s.mail| && s'.mail == s.mail && s'.slots == s.slots
    && s'.boxes == s.boxes[b := s'.boxes[b]]
    && var popped, popped' := s.boxes[b].popped, s'.boxes[b].popped;
       if popped' == popped then s'.proxies == s.proxies
       else
         |popped'| > 0 &&
         var i := popped'[|popped'| - 1];
         && popped' == popped + [i] && i < |s.mail[b]| && MailedTo(s, s.mail[b][i], b, i)
         && X.At(s.proxies[s.mail[b][i]].race, X.Mailbox) == X.Away
         && s'.proxies == Give(s, s.mail[b][i], X.Mailbox).proxies
  }

  lemma BoxPops(s: State, b: nat, action: M.Event, s': State)
    requires Boxes(s) && Mails(s) && BoxStep(s, b, action) == Some(s')
    ensures Pops(s, b, s') && M.Inv(s'.boxes[b]) && |s'.boxes[b].proxies| == |s.boxes[b].proxies|
  {
    var box, box' := s.boxes[b], s'.boxes[b];
    assert BoxOk(s, b);
    BoxFlow(box, action, box');
    hide M.Inv, M.Step;
    if box'.popped != box.popped {
      var i := box'.popped[|box.popped|];
      assert box'.popped == box.popped + [i];
      assert MailedTo(s, s.mail[b][i], b, i) && MailOk(s, s.mail[b][i]);
    }
  }

  lemma PopKeepsRaces(s: State, b: nat, s': State)
    requires Races(s) && Pops(s, b, s')
    ensures Races(s') && forall p | 0 <= p < |s.proxies| :: RaceMoves(s, s', p)
  {
    hide X.Inv, X.Next;
    var popped, popped' := s.boxes[b].popped, s'.boxes[b].popped;
    if popped' != popped {
      var p := s.mail[b][popped'[|popped'| - 1]];
      FirstLoad(s.proxies[p].race, X.Mailbox);
    }
  }

  lemma PopKeepsMail(s: State, b: nat, s': State)
    requires Boxes(s) && Mails(s) && Pops(s, b, s')
    requires M.Inv(s'.boxes[b]) && |s'.boxes[b].proxies| == |s.boxes[b].proxies|
    ensures Boxes(s') && Mails(s')
  {
    hide M.Inv;
    forall r | 0 <= r < |s'.boxes| ensures BoxOk(s', r) {
      assert BoxOk(s, r);
      forall i | 0 <= i < |s'.mail[r]| ensures MailedTo(s', s'.mail[r][i], r, i) {
        assert MailedTo(s, s.mail[r][i], r, i);
      }
    }
    forall p | 0 <= p < |s'.proxies| ensures MailOk(s', p) {
      assert MailOk(s, p);
    }
  }

  lemma BoxKeepsInv(s: State, b: nat, action: M.Event, s': State)
    requires Inv(s) && BoxStep(s, b, action) == Some(s')
    ensures Inv(s')
    ensures forall p | 0 <= p < |s.proxies| :: RaceMoves(s, s', p)
  {
    hide BoxStep, M.Inv, Slots, Pools, Boxes, Mails, Races, RaceMoves;
    BoxPops(s, b, action, s');
    PopKeepsRaces(s, b, s');
    PopKeepsMail(s, b, s');
    PoolsUntouched(s, s');
  }

  lemma ExtractKeepsInv(s: State, p: nat, side: X.Side, s': State)
    requires Inv(s) && Step(s, Extract(p, side)) == Some(s')
    ensures Inv(s')
    ensures forall r | 0 <= r < |s.proxies| :: RaceMoves(s, s', r)
  {
    hide Slots, Pools, Boxes, Mails;
    var race, race' := s.proxies[p].race, s'.proxies[p].race;
    X.StepKeepsInv(race, side, race');
    assert X.Next(race, race');
    StaysAway(race, side, race');
    PoolsUntouched(s, s');
    ExtractKeepsMail(s, s');
  }

  lemma StaysAway(race: X.State, side: X.Side, race': X.State)
    requires X.Step(race, side) == Some(race') && X.At(race, side) != X.Away
    ensures (race'.pool == X.Away <==> race.pool == X.Away) && (race'.mailbox == X.Away <==> race.mailbox == X.Away)
  {
  }

  lemma ExtractKeepsMail(s: State, s': State)
    requires Boxes(s) && Mails(s) && s'.boxes == s.boxes && s'.mail == s.mail && |s'.proxies| == |s.proxies|
    requires forall p | 0 <= p < |s.proxies| ::
               && s'.proxies[p] == s.proxies[p].(race := s'.proxies[p].race)
               && (s'.proxies[p].race.mailbox == X.Away <==> s.proxies[p].race.mailbox == X.Away)
    ensures Boxes(s') && Mails(s')
  {
    hide M.Inv;
    forall b | 0 <= b < |s'.boxes| ensures BoxOk(s', b) {
      assert BoxOk(s, b);
      forall i | 0 <= i < |s'.mail[b]| ensures MailedTo(s', s'.mail[b][i], b, i) {
        assert MailedTo(s, s.mail[b][i], b, i);
      }
    }
    forall p | 0 <= p < |s'.proxies| ensures MailOk(s', p) {
      assert MailOk(s, p);
    }
  }

  // ---------------------------------------------------------------- every run

  lemma StepKeepsInv(s: State, e: Event, s': State)
    requires Inv(s) && Step(s, e) == Some(s')
    ensures Inv(s')
    ensures forall p | 0 <= p < |s.proxies| :: RaceMoves(s, s', p)
  {
    match e
    case Send(_, _, _, _) =>
      hide Slots, Pools, Boxes, Mails;
      SendKeepsPools(s, e, s');
      SendKeepsMail(s, e, s');
    case SpawnProxy(p) =>
      hide Inv, SpawnStep;
      SpawnKeepsInv(s, p, s');
    case Deque(q, move) =>
      hide Inv, DequeStep;
      DequeKeepsInv(s, q, move, s');
    case Box(b, action) =>
      hide Inv, BoxStep;
      BoxKeepsInv(s, b, action, s');
    case Extract(p, side) =>
      hide Inv;
      ExtractKeepsInv(s, p, side, s');
  }

  lemma InitInv(s: State)
    requires Init(s)
    ensures Inv(s)
  {
    forall q | 0 <= q < |s.slots| ensures SlotOk(s.slots[q]) {
      assert D.Init(s.slots[q].deque);
    }
    forall q, t: Task | 0 <= q < |s.slots| && t.proxy ensures StartedOk(s, q, t) {
      assert D.Init(s.slots[q].deque);
    }
    forall b | 0 <= b < |s.boxes| ensures BoxOk(s, b) {
      assert M.Init(s.boxes[b]) && s.mail[b] == [];
    }
  }

  lemma RunKeepsInv(run: seq<State>, k: nat)
    requires IsRun(Init, Next, run) && k < |run|
    ensures Inv(run[k])
  {
    hide Inv, Init, Step;
    forall s | Init(s) ensures Inv(s) {
      InitInv(s);
    }
    forall s, s' | Inv(s) && Next(s, s') ensures Inv(s') {
      var e :| Step(s, e) == Some(s');
      StepKeepsInv(s, e, s');
    }
    InvariantInRun(Init, Next, Inv, run, k);
  }

  // ---------------------------------------------------------------- theorems

  /** In every step of every run each proxy's word and takers stand still or make a step of TaskProxy: the
      places never give a proxy to a second taker. */
  lemma RacesAreRuns(run: seq<State>, k: nat, p: nat)
    requires IsRun(Init, Next, run) && k + 1 < |run| && p < |run[k].proxies|
    ensures RaceMoves(run[k], run[k + 1], p)
  {
    hide Init, Inv, Step;
    RunKeepsInv(run, k);
    assert Next(run[k], run[k + 1]);
    var e :| Step(run[k], e) == Some(run[k + 1]);
    StepKeepsInv(run[k], e, run[k + 1]);
  }

  /** In every state of every run: a pool and a mailbox have each given a proxy away at most once, exactly
      when a taker has it from there; never do two takers hold the task; the proxy is freed at most once;
      and when neither taker can go on, exactly one has got the task and the other one has freed the proxy. */
  lemma HandedOutOnce(run: seq<State>, k: nat, p: nat)
    requires IsRun(Init, Next, run) && k < |run| && p < |run[k].proxies|
    ensures var s, x := run[k], run[k].proxies[p];
            && x.slot < |s.slots| && x.box < |s.boxes|
            && Given(s, p) <= 1 && (Given(s, p) == 1 <==> x.race.pool != X.Away)
            && (x.mail in s.boxes[x.box].popped <==> x.race.mailbox != X.Away)
            && !(x.race.pool.Got? && x.race.mailbox.Got?) && x.race.frees <= 1
    ensures var race := run[k].proxies[p].race;
            X.Step(race, X.Pool) == None && X.Step(race, X.Mailbox) == None ==>
              && race.frees == 1
              && ((race.pool == X.Got(race.task) && race.mailbox == X.Freed)
                  || (race.mailbox == X.Got(race.task) && race.pool == X.Freed))
  {
    RunKeepsInv(run, k);
    hide Init, Next, IsRun, Slots, Boxes, GivenBy;
    assert PoolOk(run[k], p) && MailOk(run[k], p) && X.Inv(run[k].proxies[p].race);
  }

  /** Whoever reads a proxy in a pool or in a mailbox finds one that has not been freed: a thief and an owner,
      also when they only compare its isolation and leave it; but for the owner that is extracting from it; the
      consumer of the mailbox; and a pusher about to fill in the link behind it. */
  lemma NotFreedInPlace(run: seq<State>, k: nat, p: nat)
    requires IsRun(Init, Next, run) && k < |run| && p < |run[k].proxies|
    requires run[k].proxies[p].race.frees > 0
    ensures var s := run[k];
            forall q | 0 <= q < |s.slots| ::
              && ReadByThief(s.slots[q].deque) != Some(TaskOf(s, p))
              && (ReadByOwner(s.slots[q].deque) == Some(TaskOf(s, p)) ==> Extracting(s.slots[q], TaskOf(s, p)))
    ensures var s, x := run[k], run[k].proxies[p];
            && x.box < |s.boxes| && x.mail !in s.boxes[x.box].queue && s.boxes[x.box].last != M.NextOf(x.mail)
            && forall i | 0 <= i < |s.boxes[x.box].proxies| && !s.boxes[x.box].proxies[i].linked ::
                 s.boxes[x.box].proxies[i].link != M.NextOf(x.mail)
  {
    hide Init, Next, IsRun, Slots, Pools, ReadByThief, ReadByOwner, M.Inv, D.Inv;
    RunKeepsInv(run, k);
    var s := run[k];
    FreedIsTaken(s, p);
    forall q | 0 <= q < |s.slots|
      ensures ReadByThief(s.slots[q].deque) != Some(TaskOf(s, p))
      ensures ReadByOwner(s.slots[q].deque) == Some(TaskOf(s, p)) ==> Extracting(s.slots[q], TaskOf(s, p))
    {
      if ReadByThief(s.slots[q].deque) == Some(TaskOf(s, p)) { ThiefsEntryIsAway(s, q); }
      if ReadByOwner(s.slots[q].deque) == Some(TaskOf(s, p)) && !Extracting(s.slots[q], TaskOf(s, p)) {
        OwnersEntryIsAway(s, q);
      }
    }
    UnreferencedInBox(s, p);
  }

  lemma FreedIsTaken(s: State, p: nat)
    requires Races(s) && p < |s.proxies| && s.proxies[p].race.frees > 0
    ensures s.proxies[p].race.pool != X.Away && s.proxies[p].race.mailbox != X.Away
  {
    assert X.Inv(s.proxies[p].race);
  }

  lemma UnreferencedInBox(s: State, p: nat)
    requires Boxes(s) && Mails(s) && p < |s.proxies| && s.proxies[p].race.mailbox != X.Away
    ensures var x := s.proxies[p];
            && x.box < |s.boxes| && x.mail !in s.boxes[x.box].queue && s.boxes[x.box].last != M.NextOf(x.mail)
            && forall i | 0 <= i < |s.boxes[x.box].proxies| && !s.boxes[x.box].proxies[i].linked ::
                 s.boxes[x.box].proxies[i].link != M.NextOf(x.mail)
  {
    var x := s.proxies[p];
    assert MailOk(s, p) && BoxOk(s, x.box);
    var box := s.boxes[x.box];
    assert x.mail in box.popped && x.mail < |box.proxies|;
    M.Unreferenced(box, x.mail, x.mail);
    forall i | 0 <= i < |box.proxies| && !box.proxies[i].linked ensures box.proxies[i].link != M.NextOf(x.mail) {
      M.Unreferenced(box, x.mail, i);
      assert M.At(box, i) == box.proxies[i];
    }
  }

  lemma ThiefsEntryIsAway(s: State, q: nat)
    requires Slots(s) && Pools(s) && q < |s.slots| && IsProxy(ReadByThief(s.slots[q].deque))
    ensures var t := ReadByThief(s.slots[q].deque).value;
            t.id < |s.proxies| && t == TaskOf(s, t.id) && s.proxies[t.id].slot == q && s.proxies[t.id].race.pool == X.Away
  {
    hide D.Inv, Pools, Gone;
    var x := s.slots[q];
    var t := ReadByThief(x.deque).value;
    assert SlotOk(x);
    ThiefsEntryNotGone(x.deque);
    if Extracting(x, t) {
      ReadTwice(x.deque);
      Registered(s, q, t);
    }
    GivenForTheFirstTime(s, q, t);
  }

  lemma OwnersEntryIsAway(s: State, q: nat)
    requires Slots(s) && Pools(s) && q < |s.slots| && IsProxy(ReadByOwner(s.slots[q].deque))
    requires !Extracting(s.slots[q], ReadByOwner(s.slots[q].deque).value)
    ensures var t := ReadByOwner(s.slots[q].deque).value;
            t.id < |s.proxies| && t == TaskOf(s, t.id) && s.proxies[t.id].slot == q && s.proxies[t.id].race.pool == X.Away
  {
    hide D.Inv, Pools, Gone;
    assert SlotOk(s.slots[q]);
    OwnersEntryNotGone(s.slots[q].deque);
    GivenForTheFirstTime(s, q, ReadByOwner(s.slots[q].deque).value);
  }

  /** Nobody waits for nothing: a thief can go on; an owner can, unless it waits for the lock word and so for a thief;
      inside extract_task it can take the next step there, or has come to its end. */
  lemma NobodyStuck(run: seq<State>, k: nat, q: nat, hit: bool) returns (e: Event)
    requires IsRun(Init, Next, run) && k < |run| && q < |run[k].slots|
    ensures run[k].slots[q].deque.thief.Some? ==> Step(run[k], Deque(q, D.ThiefMove(hit))).Some?
    ensures !run[k].slots[q].deque.owner.Idle? ==>
              || (Step(run[k], e).Some? && ((e.Deque? && e.slot == q && e.move.OwnerMove?) || (e.Extract? && e.side == X.Pool)))
              || (run[k].slots[q].deque.owner.Acquire? && run[k].slots[q].deque.thief.Some?)
  {
    hide Init, Next, IsRun, D.Step, D.Inv, Examined, Stolen, Slots, Pools, Boxes, Mails, Races;
    RunKeepsInv(run, k);
    var s := run[k];
    var x := s.slots[q];
    SlotIsOk(s, q);
    if x.deque.thief.Some? { DequeRuns.ThiefCanMove(x.deque, hit); }
    e := Deque(q, D.OwnerMove(hit));
    if !x.deque.owner.Idle? {
      DequeRuns.OwnerCanMove(x.deque, hit);
      if IsProxy(Examined(x.deque)) && x.extracting {
        e := ExtractionGoesOn(s, q);
      }
    }
  }

  lemma SlotIsOk(s: State, q: nat)
    requires Slots(s) && q < |s.slots|
    ensures SlotOk(s.slots[q])
  {
  }

  lemma ExtractionGoesOn(s: State, q: nat) returns (e: Event)
    requires Slots(s) && Pools(s) && q < |s.slots| && s.slots[q].extracting
    ensures Step(s, e).Some? && ((e.Deque? && e.slot == q && e.move.OwnerMove?) || (e.Extract? && e.side == X.Pool))
  {
    hide D.Inv;
    var x := s.slots[q];
    assert SlotOk(x);
    var t := Examined(x.deque).value;
    OwnersEntryNotGone(x.deque);
    Registered(s, q, t);
    assert PoolOk(s, t.id);
    var race := s.proxies[t.id].race;
    if race.pool.Got? || race.pool.Freed? {
      e := Deque(q, D.OwnerMove(race.pool.Got?));
      DequeRuns.OwnerCanMove(x.deque, race.pool.Got?);
    } else {
      e := Extract(t.id, X.Pool);
    }
  }

  /** The composition holds nobody up: a send to a mailbox that exists always begins, a proxy is spawned whenever
      its sender's pool takes a task, and a mailbox moves whenever it would by itself. */
  lemma PlacesAreOpen(run: seq<State>, k: nat, e: Event)
    requires IsRun(Init, Next, run) && k < |run|
    ensures e.Send? && e.sender < |run[k].slots| && e.addressee < |run[k].boxes| && X.IsAddress(e.task) ==> Step(run[k], e).Some?
    ensures e.SpawnProxy? && e.p < |run[k].proxies| && !run[k].proxies[e.p].spawned ==>
              && run[k].proxies[e.p].slot < |run[k].slots|
              && (Step(run[k], e).Some? <==> D.Step(run[k].slots[run[k].proxies[e.p].slot].deque, D.Spawn(TaskOf(run[k], e.p))).Some?)
    ensures e.Box? && e.box < |run[k].boxes| && !e.action.Push? ==>
              (Step(run[k], e).Some? <==> M.Step(run[k].boxes[e.box], e.action).Some?)
  {
    hide Init, Next, IsRun, D.Step, D.Inv, Slots, Mails, Races;
    RunKeepsInv(run, k);
    assert e.SpawnProxy? && e.p < |run[k].proxies| ==> PoolOk(run[k], e.p);
  }

  // ---------------------------------------------------------------- empty proxies

  /** The owner of a pool has thrown this proxy away, and rightly so. */
  predicate ThrownOk(s: State, t: Task) {
    t.id < |s.proxies| && t == TaskOf(s, t.id) && s.proxies[t.id].race.pool == X.Freed
  }

  ghost predicate Thrown(s: State) {
    forall q, t: Task | 0 <= q < |s.slots| && t.proxy && t in s.slots[q].deque.freed :: ThrownOk(s, t)
  }

  lemma OwnerFrees(d: D.State, hit: bool, d': D.State, t: Task)
    requires D.OwnerStep(d, hit) == Some(d') && t.proxy && t in d'.freed && t !in d.freed
    ensures !hit && Examined(d) == Some(t)
  {
    if d.owner.Examine? {
      hide D.NothingAt, D.Found;
      var o := d.owner;
      NothingFlow(d, o.pop, o.t, o.emptied, o.h0);
      NothingFlow(d, o.pop.(omitted := true), o.t, o.emptied, o.h0);
      if d.cells[o.t].Item? {
        var task := d.cells[o.t].task;
        FoundFlow(d, o.pop, o.t, o.emptied, o.h0, task);
        NothingFlow(d.(freed := d.freed + multiset{task}, cells := if o.pop.omitted then d.cells[o.t := Hole] else d.cells),
                    o.pop, o.t, o.emptied, o.h0);
      }
    } else {
      hide D.ExamineStep, D.ArbitrateStep;
      if d.owner.Arbitrate? { ArbitrateFlow(d); }
    }
  }

  /** Only an owner that examines an entry in vain throws it away. */
  lemma PoolFrees(d: D.State, move: D.Event, d': D.State, t: Task)
    requires D.Step(d, move) == Some(d') && t.proxy && t in d'.freed && t !in d.freed
    ensures move == D.OwnerMove(false) && Examined(d) == Some(t)
  {
    hide D.OwnerStep, Examined;
    if move.OwnerMove? { OwnerFrees(d, move.hit, d', t); }
  }

  lemma DequeFrees(s: State, q: nat, move: D.Event, s': State, r: nat, t: Task)
    requires Inv(s) && DequeStep(s, q, move) == Some(s') && r < |s'.slots| == |s.slots|
    requires t.proxy && t in s'.slots[r].deque.freed && t !in s.slots[r].deque.freed
    ensures ThrownOk(s, t)
  {
    hide D.Step, D.Inv, Examined, Stolen, Boxes, Mails, Races, Pools;
    assert r == q;
    var x := s.slots[q];
    SlotIsOk(s, q);
    var m := if move.OwnerMove? && IsProxy(Examined(x.deque))
             then D.OwnerMove(Race(s, Examined(x.deque).value.id).pool.Got?) else move;
    PoolFrees(x.deque, m, s'.slots[q].deque, t);
    ExaminedIsRead(x.deque);
    OwnersEntryNotGone(x.deque);
    Registered(s, q, t);
  }

  lemma ExaminedIsRead(d: D.State)
    requires Examined(d).Some?
    ensures ReadByOwner(d) == Examined(d)
  {
  }

  lemma SlotsKept(s: State, e: Event, s': State)
    requires Step(s, e) == Some(s')
    ensures |s'.slots| == |s.slots| && |s'.proxies| >= |s.proxies|
    ensures forall p | 0 <= p < |s.proxies| :: TaskOf(s', p) == TaskOf(s, p)
    ensures e.Send? || e.Box? || e.Extract? ==> s'.slots == s.slots
  {
    hide D.Step, M.Step, X.Step, Examined, Stolen;
  }

  lemma StepFrees(s: State, e: Event, s': State, r: nat, t: Task)
    requires Inv(s) && Step(s, e) == Some(s') && r < |s'.slots| && t.proxy && t in s'.slots[r].deque.freed
    ensures r < |s.slots| && (t in s.slots[r].deque.freed || ThrownOk(s, t))
  {
    hide Inv, DequeStep, D.Step;
    SlotsKept(s, e, s');
    if t !in s.slots[r].deque.freed {
      match e
      case Deque(q, move) => DequeFrees(s, q, move, s', r, t);
      case SpawnProxy(p) => PoolFrees(s.slots[r].deque, D.Spawn(TaskOf(s, p)), s'.slots[r].deque, t);
      case _ =>
    }
  }

  lemma FreedStays(s: State, s': State, p: nat)
    requires p < |s.proxies| && RaceMoves(s, s', p) && s.proxies[p].race.pool == X.Freed
    ensures s'.proxies[p].race.pool == X.Freed
  {
  }

  lemma StepKeepsThrown(s: State, e: Event, s': State)
    requires Inv(s) && Thrown(s) && Step(s, e) == Some(s')
    ensures Thrown(s')
  {
    hide Inv, Step, RaceMoves;
    StepKeepsInv(s, e, s');
    SlotsKept(s, e, s');
    forall q, t: Task | 0 <= q < |s'.slots| && t.proxy && t in s'.slots[q].deque.freed ensures ThrownOk(s', t) {
      StepFrees(s, e, s', q, t);
      assert ThrownOk(s, t);
      FreedStays(s, s', t.id);
    }
  }

  /** The owner of a pool throws a proxy away only when it is empty: it has then freed it, and the taker from the
      mailbox has the task. */
  lemma ThrownAwayEmpty(run: seq<State>, k: nat, q: nat, p: nat)
    requires IsRun(Init, Next, run) && k < |run| && q < |run[k].slots| && p < |run[k].proxies|
    requires TaskOf(run[k], p) in run[k].slots[q].deque.freed
    ensures run[k].proxies[p].race.pool == X.Freed && run[k].proxies[p].race.mailbox == X.Got(run[k].proxies[p].race.task)
  {
    hide Inv, Init, Step;
    forall s | Init(s) ensures Inv(s) && Thrown(s) {
      InitInv(s);
      NothingThrown(s);
    }
    forall s, s' | (Inv(s) && Thrown(s)) && Next(s, s') ensures Inv(s') && Thrown(s') {
      var e :| Step(s, e) == Some(s');
      StepKeepsInv(s, e, s');
      StepKeepsThrown(s, e, s');
    }
    InvariantInRun(Init, Next, s => Inv(s) && Thrown(s), run, k);
    assert ThrownOk(run[k], TaskOf(run[k], p));
    LoserMeansWinner(run[k], p);
  }

  lemma NothingThrown(s: State)
    requires Init(s)
    ensures Thrown(s)
  {
    forall q | 0 <= q < |s.slots| ensures s.slots[q].deque.freed == multiset{} {
      assert D.Init(s.slots[q].deque);
    }
  }

  lemma LoserMeansWinner(s: State, p: nat)
    requires Inv(s) && p < |s.proxies| && s.proxies[p].race.pool == X.Freed
    ensures s.proxies[p].race.mailbox == X.Got(s.proxies[p].race.task)
  {
    assert X.Inv(s.proxies[p].race);
  }
}

/**
 * The work-stealing deque of an arena slot: one owner that spawns and pops at `tail`, any number of
 * thieves that advance `head` under the lock word `task_pool`, every atomic access a step of its own.
 *
 * Stores that no other thread can read before a later store of the lock word are merged with it.
 * A single place for a thief is enough: only the thread that took the lock word touches the deque,
 * and the invariant shows that the word can be taken only while the place is free.
 */
module TaskDeque {
  import opened Behaviors
  import opened TaskPool

  const NO_ISOLATION: nat := 0

  /** `EmptyTaskPool`, the array pointer, or `LockedTaskPool`. */
  datatype PoolWord = Empty | Published | Locked

  /** Locals of `get_task`: its isolation, the bound T0 to restore, and whether a task was skipped. */
  datatype Pop = Pop(isolation: nat, t0: int, omitted: bool)

  /** What the owner does next. */
  datatype Owner =
    | Idle
    | WriteCell(task: Task, at: int)          // spawn: task_pool_ptr[T] = &t
    | CommitTail(task: Task, at: int)         // spawn: tail.store(T + 1)
    | PublishPool                             // spawn: publish unless published
    | Decrement(pop: Pop)                     // get_task: T = --tail
    | ReadHead(pop: Pop, t: int)              // head > T ?
    | Acquire(pop: Pop, t: int)               // waits for the lock word
    | Arbitrate(pop: Pop, t: int)             // holds the lock word, compares H0 with T
    | Examine(pop: Pop, t: int, emptied: bool, h0: int)   // get_task_impl(T)
    | MakeHole(t: int, t0: int)               // task_pool_ptr[T] = nullptr
    | RestoreTail(t0: int)                    // tail.store(T0)
    | Republish(h0: int, t0: int)             // restores both bounds of a pool that was left

  datatype ThiefPc = Advance | ReadTail | Look | Blank | RollBack | Unlock

  /** Locals of `steal_task` once the lock word is taken. */
  datatype Thief = Thief(id: nat, pc: ThiefPc, isolation: nat, h: int, h0: int, omitted: bool)

  datatype State = State(
    word: PoolWord, head: int, tail: int, cells: seq<Cell>,
    owner: Owner, thief: Option<Thief>,
    spawned: multiset<Task>, returned: multiset<Task>, freed: multiset<Task>)

  /** Start of a call by the owner or a thief, or one more step of the call in progress.
      `hit` settles what the deque does not decide: does a proxy found by the owner still hold its
      task, and is a proxy found by a thief taken rather than left to its addressee. */
  datatype Event =
    | Spawn(task: Task)
    | GetTask(isolation: nat)
    | OwnerMove(hit: bool)
    | StealTask(id: nat, thiefIsolation: nat)
    | ThiefMove(hit: bool)

  predicate Matches(isolation: nat, task: Task) {
    isolation == NO_ISOLATION || isolation == task.isolation
  }

  predicate Init(s: State) {
    s == State(Empty, 0, 0, [], Idle, None, multiset{}, multiset{}, multiset{})
  }

  // ---------------------------------------------------------------- steps of the owner

  /** `prepare_task_pool(1)` as one step: it runs under the lock whenever thieves could look. */
  function StartSpawn(s: State, task: Task): Option<State> {
    if s.tail + 1 <= |s.cells| then
      Some(s.(owner := WriteCell(task, s.tail)))
    else if |s.cells| == 0 then
      Some(s.(cells := seq(RoundedCapacity(MIN_TASK_POOL_SIZE), _ => Junk), owner := WriteCell(task, 0)))
    else if s.word == Locked || |s.cells| < MIN_TASK_POOL_SIZE || !(0 <= s.head <= s.tail <= |s.cells|) then
      None
    else
      var moved := Present(s.cells[s.head..s.tail]);
      var capacity := GrownCapacity(|s.cells|, |moved|, 1);
      Some(s.(cells := moved + seq(capacity - |moved|, _ => Junk), head := 0, tail := |moved|,
              owner := WriteCell(task, |moved|)))
  }

  /** The end of `get_task` after the pool was left: what was skipped is published again. */
  function LeaveOrRepublish(s: State, h0: int, pop: Pop): State {
    if pop.omitted && h0 < pop.t0 then s.(owner := Republish(h0, pop.t0)) else s.(owner := Idle)
  }

  function Reset(s: State): State {
    s.(word := Empty, head := 0, tail := 0)
  }

  /** Under the lock: has a thief taken position `t`, is it the last one, or is there more below? */
  function ArbitrateStep(s: State, pop: Pop, t: int): State {
    var h0 := s.head;
    if h0 > t then
      LeaveOrRepublish(Reset(s), h0, pop)
    else if h0 == t then
      Reset(s).(owner := Examine(pop, t, true, h0))
    else
      s.(word := Published, owner := Examine(pop, t, false, 0))
  }

  /** No task at `t` for this caller. Until a task is skipped, T0 follows T and the cell is dead. */
  function NothingAt(s: State, pop: Pop, t: int, emptied: bool, h0: int): State
    requires 0 <= t < |s.cells|
  {
    var s1 := if pop.omitted then s else s.(cells := s.cells[t := Junk]);
    var pop1 := if pop.omitted then pop else pop.(t0 := t);
    if emptied then LeaveOrRepublish(s1, h0, pop1) else s1.(owner := Decrement(pop1))
  }

  /** The task at `t` is the result of `get_task`. */
  function Found(s: State, pop: Pop, t: int, emptied: bool, h0: int, task: Task): State
    requires 0 <= t < |s.cells|
  {
    var s1 := s.(returned := s.returned + multiset{task});
    if !pop.omitted then s1.(cells := s.cells[t := Junk], owner := Idle)
    else if emptied then LeaveOrRepublish(s1.(cells := s.cells[t := Junk]), h0 + 1, pop)
    else s1.(owner := MakeHole(t, pop.t0))
  }

  function ExamineStep(s: State, pop: Pop, t: int, emptied: bool, h0: int, hit: bool): Option<State> {
    if !(0 <= t < |s.cells|) then None else
    match s.cells[t]
    case Junk => None
    case Hole => Some(NothingAt(s, pop, t, emptied, h0))
    case Item(task) =>
      if !Matches(pop.isolation, task) then
        Some(NothingAt(s, pop.(omitted := true), t, emptied, h0))
      else if !task.proxy || hit then
        Some(Found(s, pop, t, emptied, h0, task))
      else
        var s1 := s.(freed := s.freed + multiset{task},
                     cells := if pop.omitted then s.cells[t := Hole] else s.cells);
        Some(NothingAt(s1, pop, t, emptied, h0))
  }

  function OwnerStep(s: State, hit: bool): Option<State> {
    match s.owner
    case Idle => None
    case WriteCell(task, at) =>
      if 0 <= at < |s.cells| then Some(s.(cells := s.cells[at := Item(task)], owner := CommitTail(task, at)))
      else None
    case CommitTail(task, at) =>
      Some(s.(tail := at + 1, owner := PublishPool, spawned := s.spawned + multiset{task}))
    case PublishPool =>
      Some(s.(word := if s.word == Empty then Published else s.word, owner := Idle))
    case Decrement(pop) => Some(s.(tail := s.tail - 1, owner := ReadHead(pop, s.tail - 1)))
    case ReadHead(pop, t) =>
      Some(s.(owner := if s.head > t then Acquire(pop, t) else Examine(pop, t, false, 0)))
    case Acquire(pop, t) =>
      if s.word == Published then Some(s.(word := Locked, owner := Arbitrate(pop, t))) else None
    case Arbitrate(pop, t) => Some(ArbitrateStep(s, pop, t))
    case Examine(pop, t, emptied, h0) => ExamineStep(s, pop, t, emptied, h0, hit)
    case MakeHole(t, t0) =>
      if 0 <= t < |s.cells| then Some(s.(cells := s.cells[t := Hole], owner := RestoreTail(t0))) else None
    case RestoreTail(t0) => Some(s.(tail := t0, owner := Idle))
    case Republish(h0, t0) => Some(s.(head := h0, tail := t0, word := Published, owner := Idle))
  }

  // ---------------------------------------------------------------- steps of a thief

  function LookStep(s: State, th: Thief, hit: bool): Option<State> {
    if !(0 <= th.h - 1 < |s.cells|) then None else
    match s.cells[th.h - 1]
    case Junk => None
    case Hole =>
      if th.omitted then Some(s.(thief := Some(th.(pc := Advance))))
      else Some(s.(cells := s.cells[th.h - 1 := Junk], thief := Some(th.(pc := Advance, h0 := th.h))))
    case Item(task) =>
      if Matches(th.isolation, task) && (!task.proxy || hit) then
        var s1 := s.(returned := s.returned + multiset{task});
        if th.omitted then Some(s1.(thief := Some(th.(pc := Blank))))
        else Some(s1.(cells := s.cells[th.h - 1 := Junk], thief := Some(th.(pc := Unlock))))
      else
        Some(s.(thief := Some(th.(pc := Advance, omitted := true))))
  }

  function ThiefStep(s: State, th: Thief, hit: bool): Option<State> {
    match th.pc
    case Advance => Some(s.(head := s.head + 1, thief := Some(th.(pc := ReadTail, h := s.head + 1))))
    case ReadTail => Some(s.(thief := Some(th.(pc := if th.h > s.tail then RollBack else Look))))
    case Look => LookStep(s, th, hit)
    case Blank =>
      if 0 <= th.h - 1 < |s.cells|
      then Some(s.(cells := s.cells[th.h - 1 := Hole], thief := Some(th.(pc := RollBack))))
      else None
    case RollBack => Some(s.(head := th.h0, thief := Some(th.(pc := Unlock))))
    case Unlock => Some(s.(word := Published, thief := None))
  }

  function Step(s: State, e: Event): Option<State> {
    match e
    case Spawn(task) => if s.owner.Idle? then StartSpawn(s, task) else None
    case GetTask(isolation) =>
      if s.owner.Idle? && s.word != Empty
      then Some(s.(owner := Decrement(Pop(isolation, s.tail, false)))) else None
    case OwnerMove(hit) => OwnerStep(s, hit)
    case StealTask(id, isolation) =>
      if s.word == Published
      then Some(s.(word := Locked, thief := Some(Thief(id, Advance, isolation, s.head, s.head, false))))
      else None
    case ThiefMove(hit) =>
      match s.thief case None => None case Some(th) => ThiefStep(s, th, hit)
  }

  ghost predicate Next(s: State, s': State) {
    exists e :: Step(s, e) == Some(s')
  }

  // ---------------------------------------------------------------- logical contents

  predicate Emptied(o: Owner) {
    o.Republish? || (o.Examine? && o.emptied)
  }

  /** The lower bound that holds after the calls in progress undo what they may undo. */
  function LowerBound(s: State): int {
    if Emptied(s.owner) then s.owner.h0
    else if s.thief.Some? && s.thief.value.pc != Unlock then s.thief.value.h0
    else s.head
  }

  /** The upper bound likewise: T0 of the pop in progress, otherwise `tail`. */
  function UpperBound(s: State): int {
    match s.owner
    case Decrement(pop) => pop.t0
    case ReadHead(pop, _) => pop.t0
    case Acquire(pop, _) => pop.t0
    case Arbitrate(pop, _) => pop.t0
    case Examine(pop, _, _, _) => pop.t0
    case MakeHole(_, t0) => t0
    case RestoreTail(t0) => t0
    case Republish(_, t0) => t0
    case _ => s.tail
  }

  predicate ClaimedByThief(s: State) {
    s.thief.Some? && s.thief.value.pc == Blank && 0 <= s.thief.value.h - 1 < |s.cells|
  }

  predicate ClaimedByOwner(s: State) {
    s.owner.MakeHole? && 0 <= s.owner.t < |s.cells|
  }

  /** The array with the entries already handed out, but not yet overwritten, counted as holes. */
  function View(s: State): (v: seq<Cell>)
    ensures |v| == |s.cells|
  {
    var v := if ClaimedByThief(s) then s.cells[s.thief.value.h - 1 := Hole] else s.cells;
    if ClaimedByOwner(s) then v[s.owner.t := Hole] else v
  }

  function Tasks(cells: seq<Cell>, lo: int, hi: int): multiset<Task>
    requires 0 <= lo && hi <= |cells|
    decreases hi - lo
  {
    if lo >= hi then multiset{}
    else Tasks(cells, lo, hi - 1) + (if cells[hi - 1].Item? then multiset{cells[hi - 1].task} else multiset{})
  }

  // ---------------------------------------------------------------- invariant

  predicate Contending(o: Owner) {
    o.ReadHead? || o.Acquire? || o.Arbitrate?
  }

  /** How far `head` may be above `tail`: one while the owner has lowered `tail` and not settled yet. */
  function Overlap(s: State): int {
    if Contending(s.owner) then 1 else 0
  }

  predicate LockInv(s: State) {
    && (s.thief.Some? ==> s.word == Locked && !s.owner.Arbitrate?)
    && (s.owner.Arbitrate? ==> s.word == Locked)
    && (s.word == Locked ==> s.thief.Some? || s.owner.Arbitrate?)
    && (s.word == Empty ==> s.head == 0 && (s.tail == 0 || s.owner.PublishPool?))
    && (Emptied(s.owner) ==> s.word == Empty)
    && (s.owner.Decrement? || Contending(s.owner) || s.owner.MakeHole? || s.owner.RestoreTail? ==> s.word != Empty)
    && (s.owner.Examine? && !s.owner.emptied ==> s.word != Empty)
  }

  predicate ThiefInv(s: State) {
    s.thief.Some? ==>
      var th := s.thief.value;
      && 0 <= th.h0 <= th.h
      && (th.pc != Unlock ==> s.head == th.h)
      && (th.pc == Advance ==> th.h <= s.tail + Overlap(s) && (!th.omitted ==> th.h0 == th.h))
      && (th.pc == ReadTail ==> th.h0 < th.h <= s.tail + Overlap(s) + 1 && (!th.omitted ==> th.h0 == th.h - 1))
      && (th.pc == Look ==> th.h0 < th.h <= s.tail + Overlap(s) && (!th.omitted ==> th.h0 == th.h - 1))
      && (th.pc == Blank ==> th.omitted && th.h0 < th.h <= s.tail + Overlap(s))
      && (th.pc == RollBack ==> th.h0 <= s.tail + Overlap(s))
      && (th.pc == Unlock ==> 0 <= s.head <= s.tail + Overlap(s))
  }

  /** T0 is one above T until a task is skipped, and further above afterwards. */
  predicate PopInv(pop: Pop, t: int) {
    if pop.omitted then t + 1 < pop.t0 else t + 1 == pop.t0
  }

  predicate OwnerInv(s: State) {
    match s.owner
    case Idle => true
    case WriteCell(_, at) => 0 <= at == s.tail < |s.cells|
    case CommitTail(task, at) => 0 <= at == s.tail < |s.cells| && s.cells[at] == Item(task)
    case PublishPool => s.head < s.tail || s.word != Empty
    case Decrement(pop) => PopInv(pop, s.tail - 1)
    case ReadHead(pop, t) => t == s.tail && PopInv(pop, t)
    case Acquire(pop, t) => t == s.tail && PopInv(pop, t)
    case Arbitrate(pop, t) => t == s.tail && PopInv(pop, t)
    case Examine(pop, t, emptied, h0) => PopInv(pop, t) && (if emptied then h0 == t else t == s.tail)
    case MakeHole(t, t0) => t == s.tail && t + 1 < t0
    case RestoreTail(t0) => s.tail < t0
    case Republish(h0, t0) => h0 < t0
  }

  predicate BoundsInv(s: State) {
    && 0 <= s.head
    && -1 <= s.tail
    && (s.tail == -1 ==> Contending(s.owner))
    && s.tail <= UpperBound(s) <= |s.cells|
    && 0 <= LowerBound(s) <= UpperBound(s)
    && (s.thief.None? ==> s.head <= s.tail + Overlap(s))
    && (|s.cells| == 0 || |s.cells| >= MIN_TASK_POOL_SIZE)
  }

  /** Who holds the lock word, where everybody is, and how the bounds compare. */
  predicate ControlInv(s: State) {
    && LockInv(s)
    && ThiefInv(s)
    && OwnerInv(s)
    && BoundsInv(s)
  }

  /** Nothing between the bounds is a dead cell. */
  predicate Readable(v: seq<Cell>, lo: int, hi: int) {
    forall i | 0 <= i < |v| && lo <= i < hi :: v[i] != Junk
  }

  /** Every spawned task was handed out once, was an empty proxy freed once, or is still there. */
  predicate Conserved(s: State)
    requires 0 <= LowerBound(s) && UpperBound(s) <= |s.cells|
  {
    s.spawned == s.returned + s.freed + Tasks(View(s), LowerBound(s), UpperBound(s))
  }

  predicate Inv(s: State) {
    && ControlInv(s)
    && Readable(View(s), LowerBound(s), UpperBound(s))
    && Conserved(s)
  }

  // ---------------------------------------------------------------- bags of tasks in an array

  function Bag(c: Cell): multiset<Task> {
    if c.Item? then multiset{c.task} else multiset{}
  }

  lemma {:induction false} TasksAgree(a: seq<Cell>, b: seq<Cell>, lo: int, hi: int)
    requires 0 <= lo && hi <= |a| && hi <= |b|
    requires forall i | lo <= i < hi :: a[i] == b[i]
    ensures Tasks(a, lo, hi) == Tasks(b, lo, hi)
    decreases hi - lo
  {
    if lo < hi {
      TasksAgree(a, b, lo, hi - 1);
    }
  }

  lemma {:induction false} TasksFirst(a: seq<Cell>, lo: int, hi: int)
    requires 0 <= lo < hi <= |a|
    ensures Tasks(a, lo, hi) == Bag(a[lo]) + Tasks(a, lo + 1, hi)
    decreases hi - lo
  {
    if lo + 1 < hi {
      TasksFirst(a, lo, hi - 1);
    }
  }

  /** Overwriting an entry inside the bounds by something that is no task removes exactly its task. */
  lemma {:induction false} TasksErase(a: seq<Cell>, lo: int, hi: int, i: int, c: Cell)
    requires 0 <= lo <= i < hi <= |a| && !c.Item?
    ensures Tasks(a, lo, hi) == Bag(a[i]) + Tasks(a[i := c], lo, hi)
    decreases hi - lo
  {
    if i == hi - 1 {
      TasksAgree(a, a[i := c], lo, hi - 1);
    } else {
      TasksErase(a, lo, hi - 1, i, c);
    }
  }

  lemma ContentsGrow(v: seq<Cell>, lo: int, hi: int)
    requires 0 <= lo <= hi < |v| && v[hi].Item? && Readable(v, lo, hi)
    ensures Tasks(v, lo, hi + 1) == Tasks(v, lo, hi) + Bag(v[hi]) && Readable(v, lo, hi + 1)
  {
  }

  lemma ContentsLoseFirst(v: seq<Cell>, v': seq<Cell>, lo: int, hi: int)
    requires 0 <= lo < hi <= |v| == |v'| && Readable(v, lo, hi)
    requires forall i | lo < i < hi :: v[i] == v'[i]
    ensures Tasks(v, lo, hi) == Bag(v[lo]) + Tasks(v', lo + 1, hi) && Readable(v', lo + 1, hi)
  {
    TasksFirst(v, lo, hi);
    TasksAgree(v, v', lo + 1, hi);
  }

  lemma ContentsLoseInside(v: seq<Cell>, lo: int, hi: int, i: int)
    requires 0 <= lo <= i < hi <= |v| && Readable(v, lo, hi)
    ensures Tasks(v, lo, hi) == Bag(v[i]) + Tasks(v[i := Hole], lo, hi) && Readable(v[i := Hole], lo, hi)
  {
    TasksErase(v, lo, hi, i, Hole);
  }

  lemma ContentsLoseLast(v: seq<Cell>, v': seq<Cell>, lo: int, hi: int)
    requires 0 <= lo < hi <= |v| == |v'| && Readable(v, lo, hi)
    requires forall i | lo <= i < hi - 1 :: v[i] == v'[i]
    ensures Tasks(v, lo, hi) == Bag(v[hi - 1]) + Tasks(v', lo, hi - 1) && Readable(v', lo, hi - 1)
  {
    TasksAgree(v, v', lo, hi - 1);
  }

  /** Compaction keeps the bag of tasks. */
  lemma {:induction false} TasksOfPresent(a: seq<Cell>)
    ensures Tasks(Present(a), 0, |Present(a)|) == Tasks(a, 0, |a|)
  {
    if a != [] {
      var front := a[..|a| - 1];
      TasksOfPresent(front);
      TasksAgree(front, a, 0, |front|);
      TasksAgree(Present(front), Present(a), 0, |Present(front)|);
    }
  }

  lemma {:induction false} TasksShift(a: seq<Cell>, lo: int, b: seq<Cell>, n: int)
    requires 0 <= lo && 0 <= n && lo + n <= |a| && n <= |b|
    requires forall i | 0 <= i < n :: b[i] == a[lo + i]
    ensures Tasks(b, 0, n) == Tasks(a, lo, lo + n)
    decreases n
  {
    if n > 0 {
      TasksShift(a, lo, b, n - 1);
      assert b[n - 1] == a[lo + (n - 1)];
    }
  }

  lemma TasksOfSlice(a: seq<Cell>, lo: int, hi: int)
    requires 0 <= lo <= hi <= |a|
    ensures Tasks(a[lo..hi], 0, hi - lo) == Tasks(a, lo, hi)
  {
    hide Tasks;
    TasksShift(a, lo, a[lo..hi], hi - lo);
  }

  // ---------------------------------------------------------------- control part of the steps

  lemma StartKeepsControl(s: State, e: Event, s': State)
    requires ControlInv(s) && Step(s, e) == Some(s') && (e.GetTask? || e.StealTask?)
    ensures ControlInv(s')
  {
    hide StartSpawn, OwnerStep, ThiefStep;
  }

  /** What the start of spawn does to the bounds: nothing, or it compacts the array, which is then its own. */
  lemma SpawnStartShape(s: State, e: Event, s': State)
    requires ControlInv(s) && Step(s, e) == Some(s') && e.Spawn?
    ensures s.owner.Idle? && s'.owner.WriteCell? && s'.owner.at == s'.tail < |s'.cells|
    ensures s'.word == s.word && s'.thief == s.thief
    ensures if s.tail + 1 <= |s.cells| || |s.cells| == 0 then s'.head == s.head && s'.tail == s.tail
            else s.thief.None? && s'.head == 0 && 0 <= s'.tail <= s.tail
    ensures |s'.cells| >= MIN_TASK_POOL_SIZE
  {
    hide OwnerStep, ThiefStep, Present;
  }

  lemma SpawnStartKeepsControl(s: State, e: Event, s': State)
    requires ControlInv(s) && Step(s, e) == Some(s') && e.Spawn?
    ensures ControlInv(s')
  {
    SpawnStartShape(s, e, s');
    hide Step;
  }

  lemma SpawnKeepsControl(s: State, hit: bool, s': State)
    requires ControlInv(s) && OwnerStep(s, hit) == Some(s')
    requires s.owner.WriteCell? || s.owner.CommitTail? || s.owner.PublishPool?
    ensures ControlInv(s')
  {
  }

  lemma PopKeepsControl(s: State, hit: bool, s': State)
    requires ControlInv(s) && OwnerStep(s, hit) == Some(s')
    requires s.owner.Decrement? || s.owner.ReadHead? || s.owner.Acquire?
    ensures ControlInv(s')
  {
  }

  lemma ArbitrateKeepsControl(s: State, hit: bool, s': State)
    requires ControlInv(s) && OwnerStep(s, hit) == Some(s') && s.owner.Arbitrate?
    ensures ControlInv(s')
  {
  }

  lemma NothingKeepsControl(s: State, s1: State, pop: Pop)
    requires ControlInv(s) && s.owner.Examine? && 0 <= s.owner.t < |s.cells|
    requires |s1.cells| == |s.cells| && s1.(cells := s.cells, freed := s.freed) == s
    requires pop == s.owner.pop || pop == s.owner.pop.(omitted := true)
    ensures ControlInv(NothingAt(s1, pop, s.owner.t, s.owner.emptied, s.owner.h0))
  {
  }

  lemma FoundShape(s: State, task: Task, s': State)
    requires s.owner.Examine? && 0 <= s.owner.t < |s.cells|
    requires s' == Found(s, s.owner.pop, s.owner.t, s.owner.emptied, s.owner.h0, task)
    ensures s' == s.(cells := s'.cells, returned := s'.returned, owner := s'.owner) && |s'.cells| == |s.cells|
    ensures var pop, h0 := s.owner.pop, s.owner.h0;
            if !pop.omitted || (s.owner.emptied && h0 + 1 >= pop.t0) then s'.owner == Idle
            else if s.owner.emptied then s'.owner == Republish(h0 + 1, pop.t0)
            else s'.owner == MakeHole(s.owner.t, pop.t0)
  {
  }

  lemma FoundKeepsControl(s: State, task: Task)
    requires ControlInv(s) && s.owner.Examine? && 0 <= s.owner.t < |s.cells|
    ensures ControlInv(Found(s, s.owner.pop, s.owner.t, s.owner.emptied, s.owner.h0, task))
  {
    hide Found;
    FoundShape(s, task, Found(s, s.owner.pop, s.owner.t, s.owner.emptied, s.owner.h0, task));
  }

  lemma ExamineKeepsControl(s: State, hit: bool, s': State)
    requires ControlInv(s) && OwnerStep(s, hit) == Some(s') && s.owner.Examine?
    ensures ControlInv(s')
  {
    hide ControlInv;
    var Examine(pop, t, emptied, h0) := s.owner;
    match s.cells[t]
    case Junk =>
    case Hole => NothingKeepsControl(s, s, pop);
    case Item(task) =>
      if !Matches(pop.isolation, task) {
        NothingKeepsControl(s, s, pop.(omitted := true));
      } else if !task.proxy || hit {
        FoundKeepsControl(s, task);
      } else {
        var s1 := s.(freed := s.freed + multiset{task},
                     cells := if pop.omitted then s.cells[t := Hole] else s.cells);
        NothingKeepsControl(s, s1, pop);
      }
  }

  lemma RestoreKeepsControl(s: State, hit: bool, s': State)
    requires ControlInv(s) && OwnerStep(s, hit) == Some(s')
    requires s.owner.MakeHole? || s.owner.RestoreTail? || s.owner.Republish?
    ensures ControlInv(s')
  {
  }

  /** What a look leaves alone, and where the thief goes next. */
  lemma LookShape(s: State, hit: bool, s': State)
    requires s.thief.Some? && LookStep(s, s.thief.value, hit) == Some(s')
    ensures s' == s.(cells := s'.cells, returned := s'.returned, thief := s'.thief) && |s'.cells| == |s.cells|
    ensures forall i | 0 <= i < |s.cells| && i != s.thief.value.h - 1 :: s'.cells[i] == s.cells[i]
    ensures s'.thief.Some?
    ensures var th, th' := s.thief.value, s'.thief.value;
            && th' == th.(pc := th'.pc, h0 := th'.h0, omitted := th'.omitted)
            && (th'.pc == Advance || th'.pc == Blank || th'.pc == Unlock)
            && (th'.pc == Advance && !th'.omitted ==> th'.h0 == th.h)
            && (th'.pc == Advance && th'.omitted ==> th'.h0 == th.h0)
            && (th'.pc == Blank ==> th'.omitted && th'.h0 == th.h0)
            && (th'.pc == Unlock ==> !th.omitted && th'.h0 == th.h0)
  {
  }

  lemma LookKeepsControl(s: State, hit: bool, s': State)
    requires ControlInv(s) && s.thief.Some? && LookStep(s, s.thief.value, hit) == Some(s')
    requires s.thief.value.pc == Look
    ensures ControlInv(s')
  {
    hide LookStep;
    LookShape(s, hit, s');
  }

  lemma ThiefMovesControl(s: State, hit: bool, s': State)
    requires ControlInv(s) && s.thief.Some? && ThiefStep(s, s.thief.value, hit) == Some(s')
    requires s.thief.value.pc == Advance || s.thief.value.pc == ReadTail
    ensures ControlInv(s')
  {
    hide LookStep;
  }

  lemma ThiefLeavesControl(s: State, hit: bool, s': State)
    requires ControlInv(s) && s.thief.Some? && ThiefStep(s, s.thief.value, hit) == Some(s')
    requires s.thief.value.pc == Blank || s.thief.value.pc == RollBack || s.thief.value.pc == Unlock
    ensures ControlInv(s')
  {
    hide LookStep;
  }

  lemma ThiefKeepsControl(s: State, hit: bool, s': State)
    requires ControlInv(s) && s.thief.Some? && ThiefStep(s, s.thief.value, hit) == Some(s')
    requires s.thief.value.pc != Look
    ensures ControlInv(s')
  {
    hide ControlInv, ThiefStep;
    if s.thief.value.pc == Advance || s.thief.value.pc == ReadTail {
      ThiefMovesControl(s, hit, s');
    } else {
      ThiefLeavesControl(s, hit, s');
    }
  }
}

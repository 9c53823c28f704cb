/**
 * What every run of the deque keeps: each step moves tasks between the deque and the threads without losing
 * or duplicating one.
 */
module DequeRuns {
  import opened Behaviors
  import opened TaskPool
  import opened TaskDeque

  /** Same bounds and same entries between them: nothing happened to the contents. */
  lemma ContentsUntouched(s: State, s': State)
    requires Inv(s) && ControlInv(s')
    requires LowerBound(s) == LowerBound(s') && UpperBound(s) == UpperBound(s')
    requires |s'.cells| >= UpperBound(s)
    requires forall i | LowerBound(s) <= i < UpperBound(s) :: View(s)[i] == View(s')[i]
    requires s.spawned == s'.spawned && s.returned == s'.returned && s.freed == s'.freed
    ensures Inv(s')
  {
    TasksAgree(View(s), View(s'), LowerBound(s), UpperBound(s));
  }

  lemma StartKeepsInv(s: State, e: Event, s': State)
    requires Inv(s) && Step(s, e) == Some(s') && (e.GetTask? || e.StealTask?)
    ensures Inv(s')
  {
    StartKeepsControl(s, e, s');
    ContentsUntouched(s, s');
  }

  lemma SpawnStartKeepsInv(s: State, e: Event, s': State)
    requires Inv(s) && Step(s, e) == Some(s') && e.Spawn?
    ensures Inv(s')
  {
    SpawnStartKeepsControl(s, e, s');
    if s.tail + 1 <= |s.cells| {
      ContentsUntouched(s, s');
    } else if |s.cells| == 0 {
      assert s.tail == 0;
      ContentsUntouched(s, s');
    } else {
      RelocationKeepsInv(s, e, s');
    }
  }

  lemma CompactedContents(a: seq<Cell>, lo: int, hi: int, b: seq<Cell>)
    requires 0 <= lo <= hi <= |a| && Readable(a, lo, hi)
    requires Present(a[lo..hi]) <= b
    ensures Tasks(b, 0, |Present(a[lo..hi])|) == Tasks(a, lo, hi)
    ensures Readable(b, 0, |Present(a[lo..hi])|)
  {
    var live := a[lo..hi];
    var moved := Present(live);
    TasksOfSlice(a, lo, hi);
    TasksOfPresent(live);
    TasksAgree(moved, b, 0, |moved|);
    forall i | 0 <= i < |moved|
      ensures b[i] != Junk
    {
      assert moved[i] in live;
    }
  }

  lemma RelocationKeepsInv(s: State, e: Event, s': State)
    requires Inv(s) && ControlInv(s') && Step(s, e) == Some(s') && e.Spawn?
    requires s.tail + 1 > |s.cells| > 0
    ensures Inv(s')
  {
    assert s.thief.None? && View(s) == s.cells && View(s') == s'.cells;
    CompactedContents(s.cells, s.head, s.tail, s'.cells);
  }

  lemma CommitBounds(s: State, s': State)
    requires ControlInv(s) && ControlInv(s') && OwnerStep(s, false) == Some(s') && s.owner.CommitTail?
    ensures LowerBound(s') == LowerBound(s) <= UpperBound(s) == s.tail
    ensures UpperBound(s') == s.tail + 1
    ensures 0 <= s.tail < |View(s)| && View(s') == View(s) && View(s)[s.tail] == Item(s.owner.task)
  {
  }

  lemma CommitKeepsInv(s: State, s': State)
    requires Inv(s) && ControlInv(s') && OwnerStep(s, false) == Some(s') && s.owner.CommitTail?
    ensures Inv(s')
  {
    CommitBounds(s, s');
    assert s'.spawned == s.spawned + multiset{s.owner.task};
    ContentsGrow(View(s), LowerBound(s), s.tail);
    hide ControlInv, View, LowerBound, UpperBound, Tasks, Readable, OwnerStep;
  }

  lemma SpawnKeepsInv(s: State, hit: bool, s': State)
    requires Inv(s) && OwnerStep(s, hit) == Some(s')
    requires s.owner.WriteCell? || s.owner.CommitTail? || s.owner.PublishPool?
    ensures Inv(s')
  {
    SpawnKeepsControl(s, hit, s');
    if s.owner.CommitTail? {
      CommitKeepsInv(s, s');
    } else {
      ContentsUntouched(s, s');
    }
  }

  lemma PopKeepsInv(s: State, hit: bool, s': State)
    requires Inv(s) && OwnerStep(s, hit) == Some(s')
    requires s.owner.Decrement? || s.owner.ReadHead? || s.owner.Acquire?
    ensures Inv(s')
  {
    PopKeepsControl(s, hit, s');
    ContentsUntouched(s, s');
  }

  /** The arbitration assertion: a thief that has not backed off is exactly one position ahead. */
  lemma ArbitrateKeepsInv(s: State, hit: bool, s': State)
    requires Inv(s) && OwnerStep(s, hit) == Some(s') && s.owner.Arbitrate?
    ensures Inv(s')
    ensures s.head > s.owner.t ==> s.head == s.owner.t + 1
  {
    ArbitrateKeepsControl(s, hit, s');
    TasksAgree(View(s), View(s'), LowerBound(s), UpperBound(s));
  }

  lemma RestoreKeepsInv(s: State, hit: bool, s': State)
    requires Inv(s) && OwnerStep(s, hit) == Some(s')
    requires s.owner.MakeHole? || s.owner.RestoreTail? || s.owner.Republish?
    ensures Inv(s')
  {
    RestoreKeepsControl(s, hit, s');
    ContentsUntouched(s, s');
  }

  lemma ThiefKeepsInv(s: State, hit: bool, s': State)
    requires Inv(s) && s.thief.Some? && ThiefStep(s, s.thief.value, hit) == Some(s')
    requires s.thief.value.pc != Look
    ensures Inv(s')
  {
    ThiefKeepsControl(s, hit, s');
    ContentsUntouched(s, s');
  }

  /** The position a thief looks at is inside the contents, and out of the owner's reach. */
  lemma LookIsInside(s: State)
    requires ControlInv(s) && s.thief.Some? && s.thief.value.pc == Look
    ensures var th := s.thief.value;
            && 0 <= LowerBound(s) == th.h0 < th.h <= UpperBound(s) <= |s.cells|
            && s.head == th.h && (!th.omitted ==> th.h0 + 1 == th.h)
            && !Emptied(s.owner) && View(s)[th.h - 1] == s.cells[th.h - 1]
            && (ClaimedByOwner(s) ==> s.owner.t >= th.h)
  {
  }

  /** The thief goes on, or has skipped the entry: the contents stay. */
  lemma LookSkips(s: State, s': State)
    requires ControlInv(s) && s.thief.Some? && s.thief.value.pc == Look && s'.thief.Some?
    requires s' == s.(thief := s'.thief) && s'.thief.value == s.thief.value.(pc := Advance, omitted := true)
    requires 0 <= LowerBound(s) <= s.thief.value.h - 1 < UpperBound(s) <= |s.cells|
    ensures Shrinks(s, s', s.thief.value.h - 1, Kept)
  {
    hide LockInv, ThiefInv, OwnerInv, BoundsInv;
    LookIsInside(s);
  }

  /** A first entry that is a hole, or is taken: the contents lose it. */
  lemma LookDrops(s: State, s': State)
    requires ControlInv(s) && s.thief.Some? && s.thief.value.pc == Look && !s.thief.value.omitted && s'.thief.Some?
    requires 0 <= LowerBound(s) <= s.thief.value.h - 1 < UpperBound(s) <= |s.cells|
    requires s' == s.(cells := s.cells[s.thief.value.h - 1 := Junk], returned := s'.returned, thief := s'.thief)
    requires s'.thief.value == s.thief.value.(pc := Unlock)
             || s'.thief.value == s.thief.value.(pc := Advance, h0 := s.thief.value.h)
    ensures Shrinks(s, s', s.thief.value.h - 1, LostFirst)
  {
    hide LockInv, ThiefInv, OwnerInv, BoundsInv;
    LookIsInside(s);
  }

  /** An entry taken behind a skipped one becomes a hole. */
  lemma LookClaims(s: State, s': State)
    requires ControlInv(s) && s.thief.Some? && s.thief.value.pc == Look && s'.thief.Some?
    requires s' == s.(returned := s'.returned, thief := s'.thief) && s'.thief.value == s.thief.value.(pc := Blank)
    requires 0 <= LowerBound(s) <= s.thief.value.h - 1 < UpperBound(s) <= |s.cells|
    ensures Shrinks(s, s', s.thief.value.h - 1, LostInside)
  {
    hide LockInv, ThiefInv, OwnerInv, BoundsInv;
    LookIsInside(s);
  }

  /** How a look at an entry moves the bounds and the view, and what it hands out. */
  lemma LookEffect(s: State, hit: bool, s': State) returns (o: Outcome)
    requires ControlInv(s) && s.thief.Some? && LookStep(s, s.thief.value, hit) == Some(s')
    requires s.thief.value.pc == Look
    requires 0 <= LowerBound(s) <= s.thief.value.h - 1 < UpperBound(s) <= |s.cells|
    ensures Shrinks(s, s', s.thief.value.h - 1, o)
    ensures s'.spawned == s.spawned && s'.freed == s.freed
    ensures s'.returned == s.returned + (if o.Kept? then multiset{} else Bag(View(s)[s.thief.value.h - 1]))
  {
    hide ControlInv, LowerBound, UpperBound, View, Shrinks;
    LookIsInside(s);
    if s'.thief.value.pc == Blank {
      o := LostInside;
      LookClaims(s, s');
    } else if s.thief.value.omitted || s'.thief.value.omitted {
      o := Kept;
      LookSkips(s, s');
    } else {
      o := LostFirst;
      LookDrops(s, s');
    }
  }

  /** What the owner's look at position `t` does to the contents. */
  datatype Outcome = LostFirst | LostInside | LostLast | LostOnly | Kept

  ghost predicate Shrinks(s: State, s': State, t: int, o: Outcome)
    requires 0 <= LowerBound(s) <= t < UpperBound(s) <= |s.cells|
  {
    var lo, hi, v := LowerBound(s), UpperBound(s), View(s);
    match o
    case LostFirst => lo == t && LowerBound(s') == lo + 1 && UpperBound(s') == hi && View(s') == v[t := Junk]
    case LostInside => LowerBound(s') == lo && UpperBound(s') == hi && View(s') == v[t := Hole]
    case LostLast => hi == t + 1 && LowerBound(s') == lo && UpperBound(s') == t && View(s') == v[t := Junk]
    case LostOnly => lo == t && hi == t + 1 && LowerBound(s') == UpperBound(s') == 0
    case Kept => LowerBound(s') == lo && UpperBound(s') == hi && View(s') == v
  }

  lemma ShrinkKeepsInv(s: State, s': State, t: int, o: Outcome)
    requires Inv(s) && ControlInv(s')
    requires 0 <= LowerBound(s) <= t < UpperBound(s) <= |s.cells| && Shrinks(s, s', t, o)
    requires s'.spawned == s.spawned
    requires s'.returned + s'.freed == s.returned + s.freed + (if o.Kept? then multiset{} else Bag(View(s)[t]))
    ensures Inv(s')
  {
    hide ControlInv, View, LowerBound, UpperBound, Tasks, Readable, Bag;
    var lo, hi, v := LowerBound(s), UpperBound(s), View(s);
    match o
    case LostFirst => ContentsLoseFirst(v, View(s'), lo, hi);
    case LostInside => ContentsLoseInside(v, lo, hi, t);
    case LostLast => ContentsLoseLast(v, View(s'), lo, hi);
    case LostOnly =>
      ContentsLoseLast(v, v, lo, hi);
      NoContents(v, lo, t);
      NoContents(View(s'), 0, 0);
    case Kept =>
  }

  lemma NoContents(v: seq<Cell>, lo: int, hi: int)
    requires 0 <= lo && hi <= |v| && hi <= lo
    ensures Tasks(v, lo, hi) == multiset{} && Readable(v, lo, hi)
  {
  }

  lemma LookKeepsInv(s: State, hit: bool, s': State)
    requires Inv(s) && s.thief.Some? && LookStep(s, s.thief.value, hit) == Some(s')
    requires s.thief.value.pc == Look
    ensures Inv(s')
  {
    hide ControlInv, Conserved, Shrinks, View, LowerBound, UpperBound, LookStep, Tasks, Readable, Bag;
    LookIsInside(s);
    LookKeepsControl(s, hit, s');
    var o := LookEffect(s, hit, s');
    ShrinkKeepsInv(s, s', s.thief.value.h - 1, o);
  }

  lemma ExaminedIsInside(s: State)
    requires ControlInv(s) && s.owner.Examine?
    ensures 0 <= LowerBound(s) <= s.owner.t < UpperBound(s) <= |s.cells| && s.owner.t < |s.cells|
    ensures View(s)[s.owner.t] == s.cells[s.owner.t]
  {
  }

  lemma NothingEffect(s: State, s1: State, pop: Pop) returns (o: Outcome)
    requires ControlInv(s) && s.owner.Examine? && 0 <= LowerBound(s) <= s.owner.t < UpperBound(s) <= |s.cells|
    requires s1.(cells := s.cells, freed := s.freed) == s
    requires s1.cells == s.cells || (pop.omitted && s1.cells == s.cells[s.owner.t := Hole])
    requires pop == s.owner.pop || (pop == s.owner.pop.(omitted := true) && s1 == s)
    ensures var s' := NothingAt(s1, pop, s.owner.t, s.owner.emptied, s.owner.h0);
            Shrinks(s, s', s.owner.t, o) && s'.returned == s.returned && s'.freed == s1.freed && s'.spawned == s.spawned
    ensures o.Kept? <==> pop.omitted && s1.cells == s.cells
  {
    o := if !pop.omitted then if s.owner.emptied then LostOnly else LostLast
         else if s1.cells == s.cells then Kept else LostInside;
  }

  lemma FoundEffect(s: State, task: Task) returns (o: Outcome)
    requires ControlInv(s) && s.owner.Examine? && 0 <= LowerBound(s) <= s.owner.t < UpperBound(s) <= |s.cells|
    ensures var s' := Found(s, s.owner.pop, s.owner.t, s.owner.emptied, s.owner.h0, task);
            && Shrinks(s, s', s.owner.t, o) && s'.freed == s.freed && s'.spawned == s.spawned
            && s'.returned == s.returned + multiset{task}
    ensures !o.Kept?
  {
    var pop, emptied := s.owner.pop, s.owner.emptied;
    o := if !pop.omitted then if emptied then LostOnly else LostLast
         else if emptied then LostFirst else LostInside;
  }

  lemma ExamineKeepsInv(s: State, hit: bool, s': State)
    requires Inv(s) && OwnerStep(s, hit) == Some(s') && s.owner.Examine?
    ensures Inv(s')
  {
    hide ControlInv, Conserved, Shrinks, View, LowerBound, UpperBound, Tasks, Readable, NothingAt, Found;
    ExaminedIsInside(s);
    ExamineKeepsControl(s, hit, s');
    var Examine(pop, t, emptied, h0) := s.owner;
    match s.cells[t]
    case Junk =>
    case Hole =>
      var o := NothingEffect(s, s, pop);
      ShrinkKeepsInv(s, s', t, o);
    case Item(task) =>
      if !Matches(pop.isolation, task) {
        var o := NothingEffect(s, s, pop.(omitted := true));
        ShrinkKeepsInv(s, s', t, o);
      } else if !task.proxy || hit {
        var o := FoundEffect(s, task);
        ShrinkKeepsInv(s, s', t, o);
      } else {
        var s1 := s.(freed := s.freed + multiset{task},
                     cells := if pop.omitted then s.cells[t := Hole] else s.cells);
        var o := NothingEffect(s, s1, pop);
        ShrinkKeepsInv(s, s', t, o);
      }
  }

  // ---------------------------------------------------------------- every run

  lemma OwnerKeepsInv(s: State, hit: bool, s': State)
    requires Inv(s) && OwnerStep(s, hit) == Some(s')
    ensures Inv(s')
  {
    hide Inv;
    match s.owner
    case Idle =>
    case WriteCell(_, _) => SpawnKeepsInv(s, hit, s');
    case CommitTail(_, _) => SpawnKeepsInv(s, hit, s');
    case PublishPool => SpawnKeepsInv(s, hit, s');
    case Decrement(_) => PopKeepsInv(s, hit, s');
    case ReadHead(_, _) => PopKeepsInv(s, hit, s');
    case Acquire(_, _) => PopKeepsInv(s, hit, s');
    case Arbitrate(_, _) => ArbitrateKeepsInv(s, hit, s');
    case Examine(_, _, _, _) => ExamineKeepsInv(s, hit, s');
    case MakeHole(_, _) => RestoreKeepsInv(s, hit, s');
    case RestoreTail(_) => RestoreKeepsInv(s, hit, s');
    case Republish(_, _) => RestoreKeepsInv(s, hit, s');
  }

  lemma StepKeepsInv(s: State, s': State)
    requires Inv(s) && Next(s, s')
    ensures Inv(s')
  {
    hide Inv;
    var e :| Step(s, e) == Some(s');
    match e
    case Spawn(_) => SpawnStartKeepsInv(s, e, s');
    case GetTask(_) => StartKeepsInv(s, e, s');
    case StealTask(_, _) => StartKeepsInv(s, e, s');
    case OwnerMove(hit) => OwnerKeepsInv(s, hit, s');
    case ThiefMove(hit) =>
      if s.thief.value.pc == Look {
        LookKeepsInv(s, hit, s');
      } else {
        ThiefKeepsInv(s, hit, s');
      }
  }

  /** The invariant holds in every state of every run. */
  lemma RunKeepsInv(run: seq<State>, k: nat)
    requires IsRun(Init, Next, run) && k < |run|
    ensures Inv(run[k])
  {
    forall s | Init(s)
      ensures Inv(s)
    {
    }
    forall s, s' | Inv(s) && Next(s, s')
      ensures Inv(s')
    {
      StepKeepsInv(s, s');
    }
    InvariantInRun(Init, Next, Inv, run, k);
  }

  /** Exactly once: in every state of every interleaving the tasks handed out, the empty proxies freed
      and the tasks between the logical bounds are together the tasks spawned, as bags. */
  lemma EveryTaskExactlyOnce(run: seq<State>, k: nat)
    requires IsRun(Init, Next, run) && k < |run|
    ensures var s := run[k];
            && 0 <= LowerBound(s) <= UpperBound(s) <= |s.cells|
            && s.spawned == s.returned + s.freed + Tasks(View(s), LowerBound(s), UpperBound(s))
    ensures var s := run[k];
            forall t | s.spawned[t] <= 1 :: s.returned[t] + s.freed[t] <= 1
    ensures var s := run[k];
            s.owner.Idle? && s.word == Empty ==> s.spawned == s.returned + s.freed
  {
    RunKeepsInv(run, k);
  }

  /** The assertions of `get_task` and `steal_task` about H0, T and T0. */
  predicate ArbitrationAssertions(s: State) {
    && (s.owner.Arbitrate? && s.head > s.owner.t ==> s.head == s.owner.t + 1 <= s.owner.pop.t0 && s.owner.t == s.tail)
    && (s.owner.Examine? && !s.owner.pop.omitted ==> s.owner.pop.t0 == s.owner.t + 1)
    && (s.owner.Examine? && s.owner.emptied ==> s.owner.h0 == s.owner.t < s.owner.pop.t0 && s.head == s.tail == 0)
    && (s.owner.Republish? ==> s.owner.h0 < s.owner.t0 && s.word == Empty)
    && (s.owner.Idle? ==> 0 <= s.head && 0 <= s.tail)
    && (s.thief.Some? && s.thief.value.pc == Look && !s.thief.value.omitted ==> s.thief.value.h0 == s.thief.value.h - 1)
  }

  lemma ControlGivesAssertions(s: State)
    requires ControlInv(s)
    ensures ArbitrationAssertions(s)
  {
  }

  lemma ThiefCanMove(s: State, hit: bool)
    requires Inv(s) && s.thief.Some?
    ensures Step(s, ThiefMove(hit)).Some?
  {
    hide ControlInv, Conserved;
    var th := s.thief.value;
    if th.pc == Look {
      LookIsInside(s);
    } else if th.pc == Blank {
      BlankIsInside(s);
    }
  }

  lemma BlankIsInside(s: State)
    requires ControlInv(s) && s.thief.Some? && s.thief.value.pc == Blank
    ensures 0 <= s.thief.value.h - 1 < |s.cells|
  {
  }

  lemma OwnerCanMove(s: State, hit: bool)
    requires Inv(s) && !s.owner.Idle?
    ensures Step(s, OwnerMove(hit)).Some? || (s.owner.Acquire? && s.thief.Some?)
  {
    hide Conserved;
    if s.owner.Examine? {
      ExaminedIsInside(s);
    }
  }

  lemma SpawnCanStart(s: State, task: Task)
    requires ControlInv(s) && s.owner.Idle?
    ensures Step(s, Spawn(task)).Some? || s.thief.Some?
  {
  }

  /** The source's assertions hold in every reachable state; no thread reads a dead cell or outside the
      array; whoever waits for the lock word waits for a thief that can move. */
  lemma AssertionsAndProgress(run: seq<State>, k: nat, hit: bool, task: Task)
    requires IsRun(Init, Next, run) && k < |run|
    ensures ArbitrationAssertions(run[k])
    ensures run[k].thief.Some? ==> Step(run[k], ThiefMove(hit)).Some?
    ensures !run[k].owner.Idle? ==> Step(run[k], OwnerMove(hit)).Some? || (run[k].owner.Acquire? && run[k].thief.Some?)
    ensures run[k].owner.Idle? ==> Step(run[k], Spawn(task)).Some? || run[k].thief.Some?
    ensures run[k].owner.Idle? && run[k].word != Empty ==> Step(run[k], GetTask(task.isolation)).Some?
    ensures run[k].word == Published ==> Step(run[k], StealTask(task.id, task.isolation)).Some?
  {
    hide ControlInv, Conserved, Readable, StartSpawn, OwnerStep, ThiefStep;
    RunKeepsInv(run, k);
    var s := run[k];
    ControlGivesAssertions(s);
    if s.thief.Some? {
      ThiefCanMove(s, hit);
    }
    if !s.owner.Idle? {
      OwnerCanMove(s, hit);
    } else {
      SpawnCanStart(s, task);
    }
  }

  /** Inside get_task. */
  predicate Popping(o: Owner) {
    o.Decrement? || Contending(o) || o.Examine? || o.MakeHole? || o.RestoreTail? || o.Republish?
  }

  /** `tasks_omitted`: bounds are restored only after a task was skipped. */
  predicate Omitted(o: Owner) {
    o.MakeHole? || o.RestoreTail? || o.Republish?
    || ((o.Decrement? || Contending(o) || o.Examine?) && o.pop.omitted)
  }

  lemma ReturnEffect(s: State, hit: bool, s': State)
    requires ControlInv(s) && Popping(s.owner) && OwnerStep(s, hit) == Some(s') && s'.owner.Idle?
    ensures (exists task :: s'.returned == s.returned + multiset{task}) || Omitted(s.owner)
            || (s'.word == Empty && s'.head == 0 && s'.tail == 0)
  {
  }

  /** The closing assertions of `get_task`, and what they are for: when it returns, `tail` is not negative; and
      if it has found no task and skipped none, the pool is reset and everything ever spawned has left it. */
  lemma GetTaskReturns(run: seq<State>, k: nat, hit: bool, s': State)
    requires IsRun(Init, Next, run) && k < |run|
    requires Popping(run[k].owner) && OwnerStep(run[k], hit) == Some(s') && s'.owner.Idle?
    ensures s'.tail >= 0
    ensures || (exists task :: s'.returned == run[k].returned + multiset{task})
            || Omitted(run[k].owner)
            || (s'.word == Empty && s'.head == 0 && s'.tail == 0 && s'.spawned == s'.returned + s'.freed)
  {
    hide OwnerStep, Init, Next, Popping, Omitted;
    RunKeepsInv(run, k);
    ReturnEffect(run[k], hit, s');
    OwnerKeepsInv(run[k], hit, s');
  }
}

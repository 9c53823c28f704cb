/**
 * The tokens of a pipeline: `input_tokens` limits how many items are live, and hands the right to read
 * input from task to task. Every atomic access of a stage task is a step; how a task runs through the
 * later filters, parked or not, does not touch the tokens and is one state here.
 */
module PipelineTokens {
  import opened Behaviors
  import opened Sums

  datatype Pc =
    | Start         // at the first filter, before the input is read (serial) or the end is checked (parallel)
    | HasItem       // serial: the filter has returned an item
    | AtEnd         // serial: the filter has returned nothing
    | Ready         // parallel: input has not ended; about to take a token
    | Spawning      // took a token and saw another one: creates the next reader
    | Reading       // parallel: runs the filter
    | Dry           // parallel: the filter has returned nothing
    | Flow          // carries an item through the later filters
    | Recheck       // returned the token and saw none: may recycle itself as the reader
    | Gone

  /** `single`: the first filter is the only one. `lost`: tokens taken by tasks that then read nothing. */
  datatype State = State(
    serial: bool, single: bool, max: nat, available: int, ended: bool, tasks: seq<Pc>, lost: nat)

  /** Move of task `i`; what the filter returns, and whether it declares the end itself, is arbitrary. */
  datatype Event = Move(i: nat, item: bool, declaresEnd: bool)

  predicate Init(s: State) {
    s.max > 0 && s == State(s.serial, s.single, s.max, s.max, false, [Start], 0)
  }

  function Put(s: State, i: nat, pc: Pc): State
    requires i < |s.tasks|
  {
    s.(tasks := s.tasks[i := pc])
  }

  function Step(s: State, e: Event): Option<State> {
    if e.i >= |s.tasks| then None else
    match s.tasks[e.i]
    case Start =>
      if s.serial then Some(Put(s, e.i, if e.item then HasItem else AtEnd).(ended := s.ended || e.declaresEnd))
      else Some(Put(s, e.i, if s.ended then Gone else Ready))
    case HasItem =>
      if s.single then Some(Put(s, e.i, Start))
      else Some(Put(s, e.i, if s.available > 1 then Spawning else Flow).(available := s.available - 1))
    case AtEnd => Some(Put(s, e.i, Gone).(ended := true))
    case Ready => Some(Put(s, e.i, if s.available > 1 then Spawning else Reading).(available := s.available - 1))
    case Spawning =>
      var s' := Put(s, e.i, if s.serial then Flow else Reading);
      Some(s'.(tasks := s'.tasks + [Start]))
    case Reading => Some(Put(s, e.i, if e.item then Flow else Dry))
    case Dry => Some(Put(s, e.i, Gone).(ended := true, lost := s.lost + 1))
    case Flow => Some(Put(s, e.i, if s.available > 0 then Gone else Recheck).(available := s.available + 1))
    case Recheck => Some(Put(s, e.i, if s.ended then Gone else Start))
    case Gone => None
  }

  ghost predicate Next(s: State, s': State) {
    exists e :: Step(s, e) == Some(s')
  }

  // ---------------------------------------------------------------- accounts

  /** Reads the input, will, or is about to create the task that will. */
  function Reader(pc: Pc): int {
    if pc == Start || pc == HasItem || pc == AtEnd || pc == Ready || pc == Spawning || pc == Recheck then 1 else 0
  }

  function Token(pc: Pc): int {
    if pc == Spawning || pc == Reading || pc == Dry || pc == Flow then 1 else 0
  }

  /** Holds an item. */
  function Item(pc: Pc): int {
    if pc == HasItem || pc == Spawning || pc == Flow then 1 else 0
  }

  function Share(pc: Pc): int {
    Token(pc) + Reader(pc)
  }

  ghost predicate Inv(s: State) {
    && s.max > 0
    && s.available + Sum(s.tasks, Token) + s.lost == s.max
    && 0 <= Sum(s.tasks, Reader) <= 1
    && s.available >= Sum(s.tasks, Reader)
    && (s.available > 0 && Sum(s.tasks, Reader) == 0 ==> s.ended)
    && (s.lost > 0 ==> s.ended)
  }

  lemma StepShape(s: State, e: Event, s': State)
    requires Step(s, e) == Some(s')
    ensures e.i < |s.tasks| <= |s'.tasks|
    ensures s'.tasks == s.tasks[e.i := s'.tasks[e.i]] + if s.tasks[e.i] == Spawning then [Start] else []
  {
  }

  /** How a step changes the accounts. */
  lemma Balance(s: State, e: Event, s': State, weight: Pc -> int)
    requires Step(s, e) == Some(s')
    ensures e.i < |s.tasks| <= |s'.tasks|
    ensures Sum(s'.tasks, weight) ==
            Sum(s.tasks, weight) - weight(s.tasks[e.i]) + weight(s'.tasks[e.i]) +
            (if s.tasks[e.i] == Spawning then weight(Start) else 0)
  {
    hide Sum, Step;
    StepShape(s, e, s');
    var moved := s.tasks[e.i := s'.tasks[e.i]];
    SumUpdate(s.tasks, e.i, s'.tasks[e.i], weight);
    SumAppend(moved, Start, weight);
    assert moved + [] == moved;
  }

  lemma StepKeepsInv(s: State, e: Event, s': State)
    requires Inv(s) && Step(s, e) == Some(s')
    ensures Inv(s')
  {
    hide Sum;
    Balance(s, e, s', Token);
    Balance(s, e, s', Reader);
    SumBounds(s.tasks, e.i, Reader);
    SumNonNegative(s'.tasks, Reader);
  }

  lemma RunKeepsInv(run: seq<State>, k: nat)
    requires IsRun(Init, Next, run) && k < |run|
    ensures Inv(run[k])
  {
    forall s | Init(s) ensures Inv(s) {
      assert s.tasks[..0] == [];
      assert Sum(s.tasks, Token) == 0 && Sum(s.tasks, Reader) == 1;
    }
    forall s, s' | Inv(s) && Next(s, s') ensures Inv(s') {
      var e :| Step(s, e) == Some(s');
      StepKeepsInv(s, e, s');
    }
    InvariantInRun(Init, Next, Inv, run, k);
  }

  // ---------------------------------------------------------------- theorems

  /** In every state of every run the number of items in flight is at most `max`, and the counter of
      tokens, which is never negative, accounts for every one of them. */
  lemma LiveItemBound(run: seq<State>, k: nat)
    requires IsRun(Init, Next, run) && k < |run|
    ensures Sum(run[k].tasks, Item) <= run[k].max
    ensures 0 <= run[k].available <= run[k].max
    ensures !run[k].ended ==> run[k].available + Sum(run[k].tasks, Token) == run[k].max
  {
    RunKeepsInv(run, k);
    var tasks := run[k].tasks;
    SumCompare(tasks, Item, Share);
    ShareSplits(tasks);
    SumNonNegative(tasks, Token);
  }

  lemma {:induction false} ShareSplits(tasks: seq<Pc>)
    ensures Sum(tasks, Share) <= Sum(tasks, Token) + Sum(tasks, Reader)
  {
    if tasks != [] {
      ShareSplits(tasks[..|tasks| - 1]);
    }
  }

  /** At most one task is waiting to read input, and a task that takes a token finds one. */
  lemma OneReader(run: seq<State>, k: nat, i: nat, j: nat)
    requires IsRun(Init, Next, run) && k < |run| && i < |run[k].tasks| && j < |run[k].tasks|
    requires Reader(run[k].tasks[i]) == 1 && Reader(run[k].tasks[j]) == 1
    ensures i == j && run[k].available >= 1
  {
    RunKeepsInv(run, k);
    ReadersAreOne(run[k], i, j);
  }

  lemma ReadersAreOne(s: State, i: nat, j: nat)
    requires Inv(s) && i < |s.tasks| && j < |s.tasks| && Reader(s.tasks[i]) == 1 && Reader(s.tasks[j]) == 1
    ensures i == j && s.available >= 1
  {
    SumBounds(s.tasks, i, Reader);
    if i < j {
      SumPair(s.tasks, i, j, Reader);
    } else if j < i {
      SumPair(s.tasks, j, i, Reader);
    }
  }

  /** As long as tokens remain and the input has not ended, somebody is in charge of reading it. */
  lemma SomebodyReads(run: seq<State>, k: nat) returns (i: nat)
    requires IsRun(Init, Next, run) && k < |run| && run[k].available > 0 && !run[k].ended
    ensures i < |run[k].tasks| && Reader(run[k].tasks[i]) == 1
  {
    RunKeepsInv(run, k);
    i := SumWitness(run[k].tasks, Reader);
  }

  /** The pipeline never stalls: while input has not ended, some task is not finished; and when all are
      finished, every token that was not used up by a task that read nothing has come back. */
  lemma NeverStalls(run: seq<State>, k: nat)
    requires IsRun(Init, Next, run) && k < |run|
    requires forall i | 0 <= i < |run[k].tasks| :: run[k].tasks[i] == Gone
    ensures run[k].ended && run[k].available + run[k].lost == run[k].max
  {
    RunKeepsInv(run, k);
    AllGone(run[k]);
  }

  lemma AllGone(s: State)
    requires Inv(s) && forall i | 0 <= i < |s.tasks| :: s.tasks[i] == Gone
    ensures s.ended && s.available + s.lost == s.max
  {
    SumConstant(s.tasks, Token, 0);
    SumConstant(s.tasks, Reader, 0);
  }

  // ---------------------------------------------------------------- the end of the input

  /** The filter tells the task that the input is over: it returns nothing, or declares the end. */
  predicate Reports(s: State, e: Event) {
    && e.i < |s.tasks|
    && ((s.tasks[e.i] == Start && s.serial && (e.declaresEnd || !e.item)) || (s.tasks[e.i] == Reading && !e.item))
  }

  ghost predicate ReportedAt(run: seq<State>, m: nat) {
    m + 1 < |run| && exists e :: Step(run[m], e) == Some(run[m + 1]) && Reports(run[m], e)
  }

  ghost predicate Reported(run: seq<State>, k: nat) {
    exists m :: 0 <= m < k && ReportedAt(run, m)
  }

  predicate KnowsTheEnd(s: State) {
    s.ended || AtEnd in s.tasks || Dry in s.tasks
  }

  lemma EndIsReported(s: State, e: Event, s': State)
    requires Step(s, e) == Some(s')
    ensures KnowsTheEnd(s') <==> KnowsTheEnd(s) || Reports(s, e)
  {
    StepShape(s, e, s');
    assert s'.tasks[e.i] in s'.tasks;
    forall i | 0 <= i < |s.tasks| && i != e.i ensures s.tasks[i] in s'.tasks {
      assert s'.tasks[i] == s.tasks[i];
    }
  }

  /** The input is known to be over if and only if the first filter has returned nothing or has declared the end. */
  lemma {:induction false} EndsForAReason(run: seq<State>, k: nat)
    requires IsRun(Init, Next, run) && k < |run|
    ensures KnowsTheEnd(run[k]) <==> Reported(run, k)
    decreases k
  {
    hide Step, Reports, KnowsTheEnd;
    if k == 0 {
      NotOverAtFirst(run[0]);
    } else {
      EndsForAReason(run, k - 1);
      assert Next(run[k - 1], run[k - 1 + 1]);
      var e :| Step(run[k - 1], e) == Some(run[k]);
      EndIsReported(run[k - 1], e, run[k]);
      if Reports(run[k - 1], e) { assert ReportedAt(run, k - 1); }
      if ReportedAt(run, k - 1) {
        var f :| Step(run[k - 1], f) == Some(run[k]) && Reports(run[k - 1], f);
        EndIsReported(run[k - 1], f, run[k]);
      }
    }
  }

  lemma NotOverAtFirst(s: State)
    requires Init(s)
    ensures !KnowsTheEnd(s)
  {
  }

  /** How many steps of the task, and of those it creates, are left once the input has ended. */
  function Left(pc: Pc): int {
    match pc
    case Start => 3
    case HasItem => 8
    case AtEnd => 1
    case Ready => 8
    case Spawning => 7
    case Reading => 3
    case Dry => 1
    case Flow => 2
    case Recheck => 1
    case Gone => 0
  }

  /** A serial first filter returns one more item. */
  ghost predicate SerialRead(s: State, s': State) {
    exists i :: 0 <= i < |s.tasks| <= |s'.tasks| && s.tasks[i] == Start && s'.tasks[i] == HasItem
  }

  lemma StepDrains(s: State, e: Event, s': State)
    requires Step(s, e) == Some(s') && s.ended && !SerialRead(s, s')
    ensures s'.ended && Sum(s'.tasks, Left) < Sum(s.tasks, Left)
  {
    hide Sum;
    Balance(s, e, s', Left);
  }

  lemma TasksMove(s: State)
    ensures forall e: Event | e.i < |s.tasks| && s.tasks[e.i] != Gone :: Step(s, e).Some?
  {
  }

  /** Once the input has ended and the filter keeps its word, the pipeline drains: no task begins to read again,
      a task that is not gone can move, and after a number of steps known in advance none is left. */
  lemma {:induction false} DrainsAfterTheEnd(run: seq<State>, j: nat, k: nat)
    requires IsRun(Init, Next, run) && j <= k < |run| && run[j].ended
    requires forall m | j <= m < |run| - 1 :: m < k ==> !SerialRead(run[m], run[m + 1])
    ensures run[k].ended && k - j <= Sum(run[j].tasks, Left) - Sum(run[k].tasks, Left)
    ensures k - j <= Sum(run[j].tasks, Left)
    ensures forall e: Event | e.i < |run[k].tasks| && run[k].tasks[e.i] != Gone :: Step(run[k], e).Some?
    decreases k
  {
    hide Step, SerialRead, Sum;
    SumNonNegative(run[k].tasks, Left);
    TasksMove(run[k]);
    if j < k {
      DrainsAfterTheEnd(run, j, k - 1);
      assert Next(run[k - 1], run[k - 1 + 1]) && !SerialRead(run[k - 1], run[k - 1 + 1]);
      var e :| Step(run[k - 1], e) == Some(run[k]);
      StepDrains(run[k - 1], e, run[k]);
    }
  }
}

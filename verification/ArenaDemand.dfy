/**
 * How an arena asks for workers: `advertise_new_work` and `out_of_work` move two flags, and a caller that
 * moves a flag out of or into the unset state issues a change of demand, which reaches the arena's
 * counters later and in any order.
 */
module ArenaDemand {
  import opened Behaviors
  import opened Sums
  import opened AtomicFlag

  function Distance(x: int, y: int): nat {
    if x < y then y - x else x - y
  }

  /** The point of the interval that is nearest to `x`. */
  function Clamp(x: int, lo: int, hi: int): (r: int)
    requires lo <= hi
    ensures lo <= r <= hi && forall y | lo <= y <= hi :: Distance(x, r) <= Distance(x, y)
  {
    if x < lo then lo else if x > hi then hi else x
  }

  /** `arena::update_request`: the bounds an arena asks the permit manager for. */
  function MinRequest(mandatory: int): (m: int)
    ensures 0 <= m <= 1 && (m == 1 <==> mandatory > 0)
  {
    if mandatory > 0 then 1 else 0
  }

  function MaxRequest(mandatory: int, total: int, maxWorkers: nat): (m: int)
    ensures var most := if maxWorkers == 0 then MinRequest(mandatory) else maxWorkers;
            0 <= m <= most && forall y | 0 <= y <= most :: Distance(total, m) <= Distance(total, y)
  {
    Clamp(total, 0, if MinRequest(mandatory) > 0 && maxWorkers == 0 then 1 else maxWorkers)
  }

  datatype Phase =
    | MandatorySet(setPc: SetPc)
    | PoolSet(setPc: SetPc, needed: bool)
    | MandatoryClear(clearPc: ClearPc)
    | PoolClear(clearPc: ClearPc, disabled: bool)
    | Request(mandatory: int, workers: int)
    | Returned

  datatype Call = Call(token: nat, phase: Phase)

  datatype State = State(
    maxWorkers: nat, mandatoryFlag: Word, poolFlag: Word, calls: seq<Call>,
    mandatoryRequests: int, totalRequested: int)

  /** `enqueued`: the work was enqueued and the arena has slots for workers. */
  datatype Event =
    | Advertise(token: nat, enqueued: bool)
    | OutOfWork(token: nat)
    | Move(call: nat, busy: bool, last: bool)

  predicate Init(s: State) {
    s == State(s.maxWorkers, Unset, Unset, [], 0, 0)
  }

  /** The request of advertise_new_work, or no request at all. */
  function AfterSet(mandatory: bool, workers: bool, maxWorkers: nat): Phase {
    if !mandatory && !workers then Returned
    else Request(if mandatory then 1 else 0,
                 if mandatory && maxWorkers == 0 then 1 else if workers then maxWorkers else 0)
  }

  /** The request of out_of_work, or no request at all. */
  function AfterClear(mandatory: bool, workers: bool, maxWorkers: nat): Phase {
    if !mandatory && !workers then Returned
    else Request(if mandatory then -1 else 0,
                 if mandatory && maxWorkers == 0 then -1 else if workers then 0 - maxWorkers else 0)
  }

  function MoveStep(s: State, c: nat, busy: bool, last: bool): Option<State> {
    if c >= |s.calls| then None else
    var k := s.calls[c];
    match k.phase
    case MandatorySet(pc) =>
      var (word, pc') := SetStep(s.mandatoryFlag, pc);
      var phase := if pc'.Finished? then PoolSet(Load, pc'.result) else MandatorySet(pc');
      Some(s.(mandatoryFlag := word, calls := s.calls[c := k.(phase := phase)]))
    case PoolSet(pc, needed) =>
      var (word, pc') := SetStep(s.poolFlag, pc);
      var phase := if pc'.Finished? then AfterSet(needed, pc'.result, s.maxWorkers) else PoolSet(pc', needed);
      Some(s.(poolFlag := word, calls := s.calls[c := k.(phase := phase)]))
    case MandatoryClear(pc) =>
      var (word, pc') := ClearStep(s.mandatoryFlag, k.token, pc, busy, last);
      var phase := if pc'.Over? then PoolClear(Peek, pc'.result) else MandatoryClear(pc');
      Some(s.(mandatoryFlag := word, calls := s.calls[c := k.(phase := phase)]))
    case PoolClear(pc, disabled) =>
      var (word, pc') := ClearStep(s.poolFlag, k.token, pc, busy, last);
      var phase := if pc'.Over? then AfterClear(disabled, pc'.result, s.maxWorkers) else PoolClear(pc', disabled);
      Some(s.(poolFlag := word, calls := s.calls[c := k.(phase := phase)]))
    case Request(mandatory, workers) =>
      Some(s.(mandatoryRequests := s.mandatoryRequests + mandatory, totalRequested := s.totalRequested + workers,
              calls := s.calls[c := k.(phase := Returned)]))
    case Returned => None
  }

  function Step(s: State, e: Event): Option<State> {
    match e
    case Advertise(token, enqueued) =>
      Some(s.(calls := s.calls + [Call(token, if enqueued then MandatorySet(Load) else PoolSet(Load, false))]))
    case OutOfWork(token) => Some(s.(calls := s.calls + [Call(token, MandatoryClear(Peek))]))
    case Move(c, busy, last) => MoveStep(s, c, busy, last)
  }

  ghost predicate Next(s: State, s': State) {
    exists e :: Step(s, e) == Some(s')
  }

  // ---------------------------------------------------------------- demand and flags

  /** Mandatory demand a call has caused by moving the flag and not delivered yet. */
  function PendingMandatory(c: Call): int {
    match c.phase
    case PoolSet(_, needed) => if needed then 1 else 0
    case PoolClear(_, disabled) => if disabled then -1 else 0
    case Request(mandatory, _) => mandatory
    case _ => 0
  }

  /** Worker demand likewise; in an arena without workers it follows the mandatory flag. */
  function PendingWorkers(c: Call, maxWorkers: nat): int {
    match c.phase
    case PoolSet(_, needed) => if needed && maxWorkers == 0 then 1 else 0
    case PoolClear(_, disabled) => if disabled && maxWorkers == 0 then -1 else 0
    case Request(_, workers) => workers
    case _ => 0
  }

  function WorkerDemand(maxWorkers: nat): Call -> int {
    (c: Call) => PendingWorkers(c, maxWorkers)
  }

  function Raised(word: Word): int { if word == Unset then 0 else 1 }

  function FlaggedWorkers(s: State): int {
    if s.maxWorkers == 0 then Raised(s.mandatoryFlag) else if s.poolFlag == Unset then 0 else s.maxWorkers
  }

  /** The flag operation of a phase is not over: its end is the next phase. */
  predicate Proceeding(p: Phase) {
    match p
    case MandatorySet(pc) => !pc.Finished?
    case PoolSet(pc, _) => !pc.Finished?
    case MandatoryClear(pc) => !pc.Over?
    case PoolClear(pc, _) => !pc.Over?
    case _ => true
  }

  ghost predicate Inv(s: State) {
    && s.mandatoryRequests + Sum(s.calls, PendingMandatory) == Raised(s.mandatoryFlag)
    && s.totalRequested + Sum(s.calls, WorkerDemand(s.maxWorkers)) == FlaggedWorkers(s)
    && forall c | 0 <= c < |s.calls| :: Proceeding(s.calls[c].phase)
  }

  /** test_and_set returns true exactly when it moves the flag out of unset. */
  lemma SetMovesFlag(word: Word, pc: SetPc)
    requires !pc.Finished?
    ensures var (word', pc') := SetStep(word, pc);
            Raised(word') - Raised(word) == if pc' == Finished(true) then 1 else 0
  {
  }

  /** try_clear_if returns true exactly when it moves the flag into unset. */
  lemma ClearMovesFlag(word: Word, token: nat, pc: ClearPc, busy: bool, last: bool)
    requires !pc.Over?
    ensures var (word', pc') := ClearStep(word, token, pc, busy, last);
            Raised(word') - Raised(word) == if pc' == Over(true) then -1 else 0
  {
  }

  /** A step changes what is counted, what is pending and what the flags say by the same amount. */
  lemma MoveIsBalanced(s: State, c: nat, busy: bool, last: bool, s': State)
    requires c < |s.calls| && Proceeding(s.calls[c].phase) && MoveStep(s, c, busy, last) == Some(s')
    ensures s'.maxWorkers == s.maxWorkers && |s'.calls| == |s.calls|
    ensures s'.calls == s.calls[c := s'.calls[c]] && Proceeding(s'.calls[c].phase)
    ensures s'.mandatoryRequests - s.mandatoryRequests + PendingMandatory(s'.calls[c]) - PendingMandatory(s.calls[c])
            == Raised(s'.mandatoryFlag) - Raised(s.mandatoryFlag)
    ensures s'.totalRequested - s.totalRequested
            + PendingWorkers(s'.calls[c], s.maxWorkers) - PendingWorkers(s.calls[c], s.maxWorkers)
            == FlaggedWorkers(s') - FlaggedWorkers(s)
  {
    hide SetStep, ClearStep;
    match s.calls[c].phase
    case MandatorySet(pc) => SetMovesFlag(s.mandatoryFlag, pc);
    case PoolSet(pc, _) => SetMovesFlag(s.poolFlag, pc);
    case MandatoryClear(pc) => ClearMovesFlag(s.mandatoryFlag, s.calls[c].token, pc, busy, last);
    case PoolClear(pc, _) => ClearMovesFlag(s.poolFlag, s.calls[c].token, pc, busy, last);
    case _ =>
  }

  lemma MoveKeepsInv(s: State, c: nat, busy: bool, last: bool, s': State)
    requires Inv(s) && c < |s.calls| && MoveStep(s, c, busy, last) == Some(s')
    ensures Inv(s')
  {
    hide MoveStep, PendingMandatory, PendingWorkers, FlaggedWorkers, Raised, Proceeding;
    MoveIsBalanced(s, c, busy, last, s');
    SumUpdate(s.calls, c, s'.calls[c], PendingMandatory);
    SumUpdate(s.calls, c, s'.calls[c], WorkerDemand(s.maxWorkers));
  }

  lemma StartKeepsInv(s: State, e: Event, s': State)
    requires Inv(s) && !e.Move? && Step(s, e) == Some(s')
    ensures Inv(s')
  {
    hide Sum, MoveStep;
    SumAppend(s.calls, s'.calls[|s.calls|], PendingMandatory);
    SumAppend(s.calls, s'.calls[|s.calls|], WorkerDemand(s.maxWorkers));
  }

  lemma StepKeepsInv(s: State, s': State)
    requires Inv(s) && Next(s, s')
    ensures Inv(s')
  {
    hide Inv, MoveStep;
    var e :| Step(s, e) == Some(s');
    if e.Move? {
      MoveInRange(s, e.call, e.busy, e.last, s');
      MoveKeepsInv(s, e.call, e.busy, e.last, s');
    } else {
      StartKeepsInv(s, e, s');
    }
  }

  lemma MoveInRange(s: State, c: nat, busy: bool, last: bool, s': State)
    requires MoveStep(s, c, busy, last) == Some(s')
    ensures c < |s.calls|
  {
  }

  lemma RunKeepsInv(run: seq<State>, k: nat)
    requires IsRun(Init, Next, run) && k < |run|
    ensures Inv(run[k])
  {
    forall s | Init(s)
      ensures Inv(s)
    {
    }
    forall s, s' | Inv(s) && Next(s, s')
      ensures Inv(s')
    {
      StepKeepsInv(s, s');
    }
    InvariantInRun(Init, Next, Inv, run, k);
  }

  /** Demand follows the flags: what has reached the counters and what is still under way add up to one
      mandatory request while the mandatory flag is raised, and to the arena's workers while the pool flag
      is raised (one worker while the mandatory flag is raised, for an arena without workers). */
  lemma DemandFollowsFlags(run: seq<State>, k: nat)
    requires IsRun(Init, Next, run) && k < |run|
    ensures run[k].mandatoryRequests + Sum(run[k].calls, PendingMandatory) == Raised(run[k].mandatoryFlag)
    ensures run[k].totalRequested + Sum(run[k].calls, WorkerDemand(run[k].maxWorkers))
            == FlaggedWorkers(run[k])
  {
    RunKeepsInv(run, k);
  }

  /** When no call is under way the counters are the flags, and the request is exactly them: the clamp
      that absorbs changes arriving late or early has nothing left to do. */
  lemma SettledDemand(run: seq<State>, k: nat)
    requires IsRun(Init, Next, run) && k < |run|
    requires forall c | 0 <= c < |run[k].calls| :: run[k].calls[c].phase.Returned?
    ensures run[k].mandatoryRequests == MinRequest(run[k].mandatoryRequests) == Raised(run[k].mandatoryFlag)
    ensures run[k].totalRequested == FlaggedWorkers(run[k])
    ensures MaxRequest(run[k].mandatoryRequests, run[k].totalRequested, run[k].maxWorkers) == run[k].totalRequested
  {
    RunKeepsInv(run, k);
    SumConstant(run[k].calls, PendingMandatory, 0);
    SumConstant(run[k].calls, WorkerDemand(run[k].maxWorkers), 0);
  }

  // ---------------------------------------------------------------- when the flags fall apart

  /** The arena asks for a mandatory worker and for no workers: the state out_of_work means to avoid. */
  predicate Broken(s: State) {
    s.mandatoryFlag != Unset && s.poolFlag == Unset
  }

  /** Neither flag enters or leaves the unset state. */
  predicate SameFlags(s: State, s': State) {
    Raised(s'.mandatoryFlag) == Raised(s.mandatoryFlag) && Raised(s'.poolFlag) == Raised(s.poolFlag)
  }

  /** Call `c` is about to clear the pool flag, its transaction not interrupted, and the mandatory flag is
      raised. */
  predicate ClearsUnderMandatory(s: State, c: nat) {
    && c < |s.calls| && s.calls[c].phase.PoolClear? && s.calls[c].phase.clearPc == Commit
    && s.poolFlag == Busy(s.calls[c].token) && s.mandatoryFlag != Unset
  }

  /** A step in which such a call commits. */
  ghost predicate Breaks(s: State, s': State) {
    exists c, busy, last :: ClearsUnderMandatory(s, c) && Step(s, Move(c, busy, last)) == Some(s')
  }

  /** Step `j` was such a commit, and no flag has entered or left the unset state since. */
  ghost predicate BrokeAt(run: seq<State>, j: nat, k: nat)
    requires j < k < |run|
  {
    var after := run[j + 1];
    Breaks(run[j], after) && forall i | j < i <= k :: SameFlags(after, run[i])
  }

  /** The last time a flag entered or left the unset state before `k` was such a commit. */
  ghost predicate BrokenLast(run: seq<State>, k: nat)
    requires k < |run|
  {
    exists j :: 0 <= j < k && BrokeAt(run, j, k)
  }

  /** Call `c` has raised the mandatory flag over an unset pool flag and is about to raise that too. */
  predicate Repairs(s: State, c: nat) {
    && c < |s.calls| && s.calls[c].phase.PoolSet? && s.calls[c].phase.needed
    && (s.calls[c].phase.setPc == Load || s.calls[c].phase.setPc == Claim)
  }

  /** The commit leaves the flags broken at once. */
  lemma BreakIsBroken(s: State, s': State)
    requires Breaks(s, s')
    ensures Broken(s') && !Broken(s)
  {
  }

  /** The only other way in is to raise the mandatory flag over an unset pool flag. */
  lemma EntersBroken(s: State, c: nat, busy: bool, last: bool, s': State)
    requires MoveStep(s, c, busy, last) == Some(s') && Broken(s') && !SameFlags(s, s')
    requires c < |s.calls| && Proceeding(s.calls[c].phase)
    ensures Breaks(s, s') || Repairs(s', c)
  {
    if s.calls[c].phase.PoolClear? {
      assert ClearsUnderMandatory(s, c);
      assert Step(s, Move(c, busy, last)) == Some(s');
    }
  }

  /** A call that repairs goes on repairing until it has raised the pool flag. */
  lemma RepairGoesOn(s: State, e: Event, s': State, c: nat)
    requires Step(s, e) == Some(s') && Repairs(s, c) && s.poolFlag == Unset && SameFlags(s, s')
    ensures Repairs(s', c)
  {
  }

  lemma {:induction false} BrokenIsExplained(run: seq<State>, k: nat)
    requires IsRun(Init, Next, run) && k < |run| && Broken(run[k])
    ensures BrokenLast(run, k) || exists c :: Repairs(run[k], c)
  {
    hide Init, Step, MoveStep;
    if k == 0 {
      InitIsWhole(run[0]);
    } else {
      var s, s' := run[k - 1], run[k];
      assert Next(run[k - 1], run[k - 1 + 1]);
      var e :| Step(s, e) == Some(s');
      if SameFlags(s, s') {
        BrokenIsExplained(run, k - 1);
        if BrokenLast(run, k - 1) {
          BreakStays(run, k);
        } else {
          var c :| Repairs(s, c);
          RepairGoesOn(s, e, s', c);
        }
      } else {
        OnlyMovesChangeFlags(s, e, s');
        RunKeepsInv(run, k - 1);
        EntersBroken(s, e.call, e.busy, e.last, s');
        if Breaks(s, s') { assert BrokeAt(run, k - 1, k); }
      }
    }
  }

  lemma InitIsWhole(s: State)
    requires Init(s)
    ensures !Broken(s)
  {
  }

  lemma OnlyMovesChangeFlags(s: State, e: Event, s': State)
    requires Step(s, e) == Some(s') && !SameFlags(s, s')
    ensures e.Move? && e.call < |s.calls| && MoveStep(s, e.call, e.busy, e.last) == Some(s')
  {
  }

  lemma BreakStays(run: seq<State>, k: nat)
    requires 0 < k < |run| && BrokenLast(run, k - 1) && SameFlags(run[k - 1], run[k])
    ensures BrokenLast(run, k)
  {
    hide Breaks;
    var j :| 0 <= j < k - 1 && BrokeAt(run, j, k - 1);
    assert SameFlags(run[j + 1], run[k - 1]);
    assert BrokeAt(run, j, k);
  }

  /** Exactly when the flags are broken. In every state of every run, a mandatory request without a pool
      request means that the last flag to change was a pool flag cleared under a raised mandatory flag,
      or that the caller which raised the mandatory flag is still about to raise the pool flag. Once all
      calls have returned, the former alone is left, in both directions. */
  lemma BrokenExactly(run: seq<State>, k: nat)
    requires IsRun(Init, Next, run) && k < |run|
    ensures BrokenLast(run, k) ==> Broken(run[k])
    ensures Broken(run[k]) ==> BrokenLast(run, k) || exists c :: Repairs(run[k], c)
    ensures (forall c | 0 <= c < |run[k].calls| :: run[k].calls[c].phase.Returned?) ==>
              (Broken(run[k]) <==> BrokenLast(run, k))
  {
    hide Init, Next, Breaks;
    if BrokenLast(run, k) {
      var j :| 0 <= j < k && BrokeAt(run, j, k);
      BreakIsBroken(run[j], run[j + 1]);
      assert SameFlags(run[j + 1], run[k]);
    }
    if Broken(run[k]) { BrokenIsExplained(run, k); }
  }

  /** What the permit manager is told then: an arena with workers that has settled asks for a minimum of 1
      and a maximum of 0 exactly when its flags are broken. */
  lemma BrokenRequest(run: seq<State>, k: nat)
    requires IsRun(Init, Next, run) && k < |run| && run[k].maxWorkers > 0
    requires forall c | 0 <= c < |run[k].calls| :: run[k].calls[c].phase.Returned?
    ensures var s := run[k];
            (MinRequest(s.mandatoryRequests) == 1 && MaxRequest(s.mandatoryRequests, s.totalRequested, s.maxWorkers) == 0)
            <==> BrokenLast(run, k)
  {
    SettledDemand(run, k);
    BrokenExactly(run, k);
    hide Init, Next, BrokenLast, IsRun;
  }

  /** One more state of a run. */
  lemma Extend(run: seq<State>, e: Event) returns (longer: seq<State>)
    requires IsRun(Init, Next, run) && Step(run[|run| - 1], e).Some?
    ensures IsRun(Init, Next, longer) && |longer| == |run| + 1
    ensures longer[|longer| - 1] == Step(run[|run| - 1], e).value
  {
    longer := run + [Step(run[|run| - 1], e).value];
    assert Next(run[|run| - 1], longer[|run|]);
  }

  /** An arena can end up with a mandatory request and no worker request: an enqueue between the two
      halves of out_of_work raises the mandatory flag and finds the pool flag still set, and when its task
      is gone by the time the second half looks, only the pool flag is cleared. */
  lemma MandatoryWithoutWorkers(maxWorkers: nat) returns (run: seq<State>)
    requires maxWorkers > 0
    ensures IsRun(Init, Next, run)
    ensures var s := run[|run| - 1];
            && s.maxWorkers == maxWorkers && s.mandatoryFlag == Set && s.poolFlag == Unset
            && (forall c | 0 <= c < |s.calls| :: s.calls[c].phase.Returned?)
            && MinRequest(s.mandatoryRequests) == 1
            && MaxRequest(s.mandatoryRequests, s.totalRequested, s.maxWorkers) == 0
  {
    run := [State(maxWorkers, Unset, Unset, [], 0, 0)];
    run := Extend(run, Advertise(0, false));
    run := Extend(run, Move(0, false, false));
    run := Extend(run, Move(0, false, false));
    run := Extend(run, Move(0, false, false));
    assert run[|run| - 1] == State(maxWorkers, Unset, Set, [Call(0, Returned)], 0, maxWorkers);
    run := Extend(run, OutOfWork(1));
    run := Extend(run, Move(1, false, false));
    run := Extend(run, Move(1, false, false));
    assert run[|run| - 1]
        == State(maxWorkers, Unset, Set, [Call(0, Returned), Call(1, PoolClear(Begin, false))], 0, maxWorkers);
    run := Extend(run, Advertise(2, true));
    run := Extend(run, Move(2, false, false));
    run := Extend(run, Move(2, false, false));
    run := Extend(run, Move(2, false, false));
    run := Extend(run, Move(2, false, false));
    assert run[|run| - 1]
        == State(maxWorkers, Set, Set,
                 [Call(0, Returned), Call(1, PoolClear(Begin, false)), Call(2, Returned)], 1, maxWorkers);
    run := Extend(run, Move(1, false, false));
    run := Extend(run, Move(1, false, true));
    run := Extend(run, Move(1, false, false));
    run := Extend(run, Move(1, false, false));
    assert run[|run| - 1]
        == State(maxWorkers, Set, Unset, [Call(0, Returned), Call(1, Returned), Call(2, Returned)], 1, 0);
  }

  // ---------------------------------------------------------------- what a call has done when it returns

  datatype Flag = Mandatory | Pool

  function WordOf(s: State, flag: Flag): Word {
    if flag == Mandatory then s.mandatoryFlag else s.poolFlag
  }

  /** Where a call stands with test_and_set, or with try_clear_if, of this flag. */
  function SettingOf(p: Phase, flag: Flag): Option<SetPc> {
    match p
    case MandatorySet(pc) => if flag == Mandatory then Some(pc) else None
    case PoolSet(pc, _) => if flag == Pool then Some(pc) else None
    case _ => None
  }

  function ClearingOf(p: Phase, flag: Flag): Option<ClearPc> {
    match p
    case MandatoryClear(pc) => if flag == Mandatory then Some(pc) else None
    case PoolClear(pc, _) => if flag == Pool then Some(pc) else None
    case _ => None
  }

  /** In this step call `c` sees the flag raised, or raises it. */
  ghost predicate RaisedAt(run: seq<State>, m: nat, c: nat, flag: Flag) {
    && m + 1 < |run| && c < |run[m].calls| && SettingOf(run[m].calls[c].phase, flag).Some?
    && (WordOf(run[m], flag) != Unset || WordOf(run[m + 1], flag) != Unset)
  }

  /** In this step call `c` comes to a decision about the flag: it finds it not set, finds work, finds that its
      transaction has been interrupted, or clears the flag. */
  ghost predicate DecidedAt(run: seq<State>, m: nat, c: nat, flag: Flag) {
    && m + 1 < |run| && c < |run[m].calls| && c < |run[m + 1].calls|
    && ClearingOf(run[m].calls[c].phase, flag).Some?
    && var pc, word := ClearingOf(run[m].calls[c].phase, flag).value, WordOf(run[m], flag);
       || ((pc == Peek || pc == Begin) && word != Set)
       || (pc.Scan? && ClearingOf(run[m + 1].calls[c].phase, flag) == Some(Abort))
       || (pc == Commit && (word != Busy(run[m].calls[c].token) || WordOf(run[m + 1], flag) == Unset))
  }

  ghost predicate HasRaised(run: seq<State>, j: nat, k: nat, c: nat, flag: Flag) {
    exists m :: j <= m < k && RaisedAt(run, m, c, flag)
  }

  ghost predicate HasDecided(run: seq<State>, j: nat, k: nat, c: nat, flag: Flag) {
    exists m :: j <= m < k && DecidedAt(run, m, c, flag)
  }

  lemma DoneLater(run: seq<State>, j: nat, k: nat, c: nat, flag: Flag)
    ensures HasRaised(run, j, k, c, flag) ==> HasRaised(run, j, k + 1, c, flag)
    ensures HasDecided(run, j, k, c, flag) ==> HasDecided(run, j, k + 1, c, flag)
    ensures j <= k && RaisedAt(run, k, c, flag) ==> HasRaised(run, j, k + 1, c, flag)
    ensures j <= k && DecidedAt(run, k, c, flag) ==> HasDecided(run, j, k + 1, c, flag)
  {
    hide RaisedAt, DecidedAt;
  }

  ghost predicate AdvertiseProgress(run: seq<State>, j: nat, k: nat, c: nat, enqueued: bool)
    requires k < |run|
  {
    && c < |run[k].calls|
    && match run[k].calls[c].phase
       case MandatorySet(_) => enqueued
       case PoolSet(_, _) => enqueued ==> HasRaised(run, j, k, c, Mandatory)
       case MandatoryClear(_) => false
       case PoolClear(_, _) => false
       case _ => HasRaised(run, j, k, c, Pool) && (enqueued ==> HasRaised(run, j, k, c, Mandatory))
  }

  ghost predicate OutOfWorkProgress(run: seq<State>, j: nat, k: nat, c: nat)
    requires k < |run|
  {
    && c < |run[k].calls|
    && match run[k].calls[c].phase
       case MandatoryClear(pc) => pc == Abort ==> HasDecided(run, j, k, c, Mandatory)
       case PoolClear(pc, _) =>
         HasDecided(run, j, k, c, Mandatory) && (pc == Abort ==> HasDecided(run, j, k, c, Pool))
       case MandatorySet(_) => false
       case PoolSet(_, _) => false
       case _ => HasDecided(run, j, k, c, Mandatory) && HasDecided(run, j, k, c, Pool)
  }

  lemma OthersLeaveCall(s: State, e: Event, s': State, c: nat)
    requires Step(s, e) == Some(s') && c < |s.calls|
    ensures c < |s'.calls| && ((e.Move? && e.call == c) || s'.calls[c] == s.calls[c])
  {
  }

  lemma AdvertiseGoesOn(run: seq<State>, j: nat, k: nat, c: nat, enqueued: bool, e: Event)
    requires j <= k && k + 1 < |run| && AdvertiseProgress(run, j, k, c, enqueued) && Step(run[k], e) == Some(run[k + 1])
    requires Proceeding(run[k].calls[c].phase)
    ensures AdvertiseProgress(run, j, k + 1, c, enqueued)
  {
    hide HasRaised, HasDecided;
    OthersLeaveCall(run[k], e, run[k + 1], c);
    DoneLater(run, j, k, c, Mandatory);
    DoneLater(run, j, k, c, Pool);
    if e.Move? && e.call == c { SettingRaises(run, k, c, e.busy, e.last); }
  }

  /** A test_and_set that is over has seen the flag raised. */
  lemma SettingRaises(run: seq<State>, k: nat, c: nat, busy: bool, last: bool)
    requires k + 1 < |run| && MoveStep(run[k], c, busy, last) == Some(run[k + 1]) && Proceeding(run[k].calls[c].phase)
    ensures run[k].calls[c].phase.MandatorySet? && !run[k + 1].calls[c].phase.MandatorySet? ==> RaisedAt(run, k, c, Mandatory)
    ensures run[k].calls[c].phase.PoolSet? && !run[k + 1].calls[c].phase.PoolSet? ==> RaisedAt(run, k, c, Pool)
  {
  }

  lemma OutOfWorkGoesOn(run: seq<State>, j: nat, k: nat, c: nat, e: Event)
    requires j <= k && k + 1 < |run| && OutOfWorkProgress(run, j, k, c) && Step(run[k], e) == Some(run[k + 1])
    requires Proceeding(run[k].calls[c].phase)
    ensures OutOfWorkProgress(run, j, k + 1, c)
  {
    hide HasRaised, HasDecided;
    OthersLeaveCall(run[k], e, run[k + 1], c);
    DoneLater(run, j, k, c, Mandatory);
    DoneLater(run, j, k, c, Pool);
    if e.Move? && e.call == c { ClearingDecides(run, k, c, e.busy, e.last); }
  }

  lemma ClearingDecides(run: seq<State>, k: nat, c: nat, busy: bool, last: bool)
    requires k + 1 < |run| && MoveStep(run[k], c, busy, last) == Some(run[k + 1]) && Proceeding(run[k].calls[c].phase)
    ensures var p, p' := run[k].calls[c].phase, run[k + 1].calls[c].phase;
            && (p.MandatoryClear? && p.clearPc != Abort && (!p'.MandatoryClear? || p'.clearPc == Abort) ==>
                  DecidedAt(run, k, c, Mandatory))
            && (p.PoolClear? && p.clearPc != Abort && (!p'.PoolClear? || p'.clearPc == Abort) ==> DecidedAt(run, k, c, Pool))
  {
  }

  /** A call of advertise_new_work that has returned has seen the pool flag raised, or raised it; and the mandatory
      flag as well, if the work was enqueued. */
  lemma {:induction false} AdvertiseRaises(run: seq<State>, j: nat, k: nat, c: nat, token: nat, enqueued: bool)
    requires IsRun(Init, Next, run) && j < k < |run| && Step(run[j], Advertise(token, enqueued)) == Some(run[j + 1])
    requires c == |run[j].calls|
    ensures AdvertiseProgress(run, j, k, c, enqueued)
    ensures run[k].calls[c].phase.Returned? ==>
              HasRaised(run, j, k, c, Pool) && (enqueued ==> HasRaised(run, j, k, c, Mandatory))
    decreases k
  {
    hide Init, MoveStep, HasRaised;
    if k > j + 1 {
      AdvertiseRaises(run, j, k - 1, c, token, enqueued);
      assert Next(run[k - 1], run[k - 1 + 1]);
      var e :| Step(run[k - 1], e) == Some(run[k]);
      RunKeepsInv(run, k - 1);
      AdvertiseGoesOn(run, j, k - 1, c, enqueued, e);
    }
  }

  /** A call of out_of_work that has returned has come to a decision about the mandatory flag and about the pool flag. */
  lemma {:induction false} OutOfWorkDecides(run: seq<State>, j: nat, k: nat, c: nat, token: nat)
    requires IsRun(Init, Next, run) && j < k < |run| && Step(run[j], OutOfWork(token)) == Some(run[j + 1])
    requires c == |run[j].calls|
    ensures OutOfWorkProgress(run, j, k, c)
    ensures run[k].calls[c].phase.Returned? ==> HasDecided(run, j, k, c, Mandatory) && HasDecided(run, j, k, c, Pool)
    decreases k
  {
    hide Init, MoveStep, HasDecided;
    if k > j + 1 {
      OutOfWorkDecides(run, j, k - 1, c, token);
      assert Next(run[k - 1], run[k - 1 + 1]);
      var e :| Step(run[k - 1], e) == Some(run[k]);
      RunKeepsInv(run, k - 1);
      OutOfWorkGoesOn(run, j, k - 1, c, e);
    }
  }
}

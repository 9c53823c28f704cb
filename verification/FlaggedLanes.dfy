/**
 * What the flag of an arena is there for: work that a thread has put somewhere and then announced by
 * test_and_set is never left behind a cleared flag, although try_clear_if looks for work lane by lane
 * while producers and takers go on.
 */
module FlaggedLanes {
  import opened Behaviors
  import opened AtomicFlag

  /** A producer puts work into a lane and then calls test_and_set; a clearer calls try_clear_if.
      `at` is when the work was put (and test_and_set invoked), `begun` when the transaction began. */
  datatype Call =
    | Produce(lane: nat, at: nat, setPc: SetPc)
    | Clear(token: nat, begun: nat, clearPc: ClearPc)

  datatype State = State(
    word: Word, lanes: seq<nat>, calls: seq<Call>, clock: nat, sets: nat, clears: nat)

  datatype Event =
    | Put(lane: nat, amount: nat)
    | Take(lane: nat)
    | StartClear(token: nat)
    | Move(call: nat)

  predicate Init(s: State) {
    && s.word == Unset && s.calls == [] && s.sets == 0 && s.clears == 0
    && forall k | 0 <= k < |s.lanes| :: s.lanes[k] == 0
  }

  predicate ActiveClear(c: Call) {
    c.Clear? && !c.clearPc.Over?
  }

  function MoveStep(s: State, c: nat): Option<State> {
    if c >= |s.calls| then None else
    match s.calls[c]
    case Produce(lane, at, pc) =>
      if pc.Finished? then None else
      var (word, pc') := SetStep(s.word, pc);
      Some(s.(word := word, calls := s.calls[c := Produce(lane, at, pc')],
              sets := s.sets + if pc' == Finished(true) then 1 else 0))
    case Clear(token, begun, pc) =>
      if pc.Over? then None else
      var (word, pc') := ClearStep(s.word, token, pc,
                                   pc.Scan? && pc.i < |s.lanes| && s.lanes[pc.i] > 0, pc.Scan? && pc.i >= |s.lanes|);
      Some(s.(word := word,
              calls := s.calls[c := Clear(token, if pc.Begin? then s.clock else begun, pc')],
              clears := s.clears + if pc' == Over(true) then 1 else 0))
  }

  /** Every step advances the clock. */
  function Step(s: State, e: Event): Option<State> {
    var s1 := s.(clock := s.clock + 1);
    match e
    case Put(lane, amount) =>
      if lane < |s.lanes|
      then Some(s1.(lanes := s.lanes[lane := s.lanes[lane] + amount],
                    calls := s.calls + [Produce(lane, s.clock, Load)])) else None
    case Take(lane) =>
      if lane < |s.lanes| && s.lanes[lane] > 0
      then Some(s1.(lanes := s.lanes[lane := s.lanes[lane] - 1])) else None
    case StartClear(token) =>
      if forall c | 0 <= c < |s.calls| && ActiveClear(s.calls[c]) :: s.calls[c].token != token
      then Some(s1.(calls := s.calls + [Clear(token, 0, Peek)])) else None
    case Move(c) =>
      match MoveStep(s, c) case None => None case Some(s2) => Some(s2.(clock := s.clock + 1))
  }

  ghost predicate Next(s: State, s': State) {
    exists e :: Step(s, e) == Some(s')
  }

  // ---------------------------------------------------------------- invariant

  /** Call `c` is the clear transaction that owns the flag: its compare-and-swap would succeed. */
  predicate Owns(s: State, c: int) {
    && 0 <= c < |s.calls|
    && s.calls[c].Clear?
    && InTransaction(s.calls[c].clearPc)
    && s.word == Busy(s.calls[c].token)
  }

  predicate InFlight(c: Call) {
    c.Produce? && !c.setPc.Finished?
  }

  /** Some producer has put work into `lane` after time `since` and is still announcing it. */
  ghost predicate Announcing(s: State, lane: int, since: int) {
    exists p :: 0 <= p < |s.calls| && InFlight(s.calls[p]) && s.calls[p].lane == lane && s.calls[p].at >= since
  }

  predicate TokensDistinct(s: State) {
    forall c, d | 0 <= c < d < |s.calls| && ActiveClear(s.calls[c]) && ActiveClear(s.calls[d]) ::
      s.calls[c].token != s.calls[d].token
  }

  predicate TimesInv(s: State) {
    forall c | 0 <= c < |s.calls| ::
      (s.calls[c].Produce? ==> s.calls[c].at < s.clock) && (s.calls[c].Clear? ==> s.calls[c].begun <= s.clock)
  }

  /** The owner of the flag began after every announcement that is over, or can no longer interrupt it. */
  predicate Later(word: Word, begun: nat, p: Call)
    requires p.Produce?
  {
    match p.setPc
    case Load => true
    case Interrupt(seen) => word == Busy(seen) || p.at < begun
    case Claim => p.at < begun
    case Finished(_) => p.at < begun
  }

  ghost predicate OwnerIsLater(s: State) {
    forall c, p | Owns(s, c) && 0 <= p < |s.calls| && s.calls[p].Produce? ::
      Later(s.word, s.calls[c].begun, s.calls[p])
  }

  /** Lane `k` has been found empty by the transaction of call `c`. */
  predicate HasScanned(s: State, c: int, k: int) {
    Owns(s, c) && (s.calls[c].clearPc.Commit? || (s.calls[c].clearPc.Scan? && k < s.calls[c].clearPc.i))
  }

  /** Work in a lane the owner has found empty was put afterwards, and is being announced. */
  ghost predicate ScannedLanes(s: State) {
    forall c, k | HasScanned(s, c, k) && 0 <= k < |s.lanes| && s.lanes[k] > 0 ::
      Announcing(s, k, s.calls[c].begun)
  }

  ghost predicate NothingForgotten(s: State) {
    s.word == Unset ==> forall k | 0 <= k < |s.lanes| && s.lanes[k] > 0 :: Announcing(s, k, 0)
  }

  ghost predicate Inv(s: State) {
    && (s.word.Busy? ==> exists c :: Owns(s, c))
    && TokensDistinct(s)
    && TimesInv(s)
    && OwnerIsLater(s)
    && ScannedLanes(s)
    && NothingForgotten(s)
    && s.sets == s.clears + (if s.word == Unset then 0 else 1)
  }

  // ---------------------------------------------------------------- every step keeps the invariant

  /** An announcement goes on as long as its producer does. */
  lemma AnnouncementStays(s: State, s': State, lane: int, since: int)
    requires |s.calls| <= |s'.calls|
    requires forall p | 0 <= p < |s.calls| && InFlight(s.calls[p]) && s.calls[p].at >= since ::
               InFlight(s'.calls[p]) && s'.calls[p].lane == s.calls[p].lane && s'.calls[p].at == s.calls[p].at
    ensures Announcing(s, lane, since) ==> Announcing(s', lane, since)
  {
    if Announcing(s, lane, since) {
      var p :| 0 <= p < |s.calls| && InFlight(s.calls[p]) && s.calls[p].lane == lane && s.calls[p].at >= since;
      assert InFlight(s'.calls[p]);
    }
  }

  /** Steps that start a call, or take work: the flag and the calls in progress are left alone. */
  lemma QuietEffect(s: State, e: Event, s': State)
    requires (e.Put? || e.Take? || e.StartClear?) && Step(s, e) == Some(s')
    ensures s.calls <= s'.calls && |s'.calls| <= |s.calls| + 1 && |s'.lanes| == |s.lanes|
    ensures s'.word == s.word && s'.sets == s.sets && s'.clears == s.clears && s'.clock == s.clock + 1
    ensures |s'.calls| > |s.calls| && e.StartClear? ==> s'.calls[|s.calls|] == Clear(e.token, 0, Peek)
    ensures e.Put? ==> |s'.calls| > |s.calls| && s'.calls[|s.calls|] == Produce(e.lane, s.clock, Load)
    ensures |s'.calls| > |s.calls| ==> e.Put? || e.StartClear?
    ensures forall k | 0 <= k < |s.lanes| && s'.lanes[k] > 0 :: s.lanes[k] > 0 || (e.Put? && k == e.lane)
    ensures forall c :: Owns(s', c) <==> Owns(s, c)
  {
  }

  lemma QuietAnnounces(s: State, e: Event, s': State, k: nat, since: nat)
    requires TimesInv(s) && (e.Put? || e.Take? || e.StartClear?) && Step(s, e) == Some(s')
    requires k < |s'.lanes| && s'.lanes[k] > 0 && since <= s.clock && (s.lanes[k] > 0 ==> Announcing(s, k, since))
    ensures Announcing(s', k, since)
  {
    QuietEffect(s, e, s');
    hide Step;
    if s.lanes[k] > 0 {
      AnnouncementStays(s, s', k, since);
    } else {
      assert InFlight(s'.calls[|s.calls|]);
    }
  }

  lemma QuietKeepsLanes(s: State, e: Event, s': State)
    requires Inv(s) && (e.Put? || e.Take? || e.StartClear?) && Step(s, e) == Some(s')
    ensures ScannedLanes(s') && NothingForgotten(s')
  {
    QuietEffect(s, e, s');
    hide Step, TokensDistinct, OwnerIsLater, Announcing;
    forall o, k | HasScanned(s', o, k) && 0 <= k < |s'.lanes| && s'.lanes[k] > 0
      ensures Announcing(s', k, s'.calls[o].begun)
    {
      assert HasScanned(s, o, k);
      QuietAnnounces(s, e, s', k, s.calls[o].begun);
    }
    forall k | s'.word == Unset && 0 <= k < |s'.lanes| && s'.lanes[k] > 0
      ensures Announcing(s', k, 0)
    {
      QuietAnnounces(s, e, s', k, 0);
    }
  }

  lemma QuietKeepsTokens(s: State, e: Event, s': State)
    requires TokensDistinct(s) && (e.Put? || e.Take? || e.StartClear?) && Step(s, e) == Some(s')
    ensures TokensDistinct(s')
  {
  }

  lemma QuietKeepsInv(s: State, e: Event, s': State)
    requires Inv(s) && (e.Put? || e.Take? || e.StartClear?) && Step(s, e) == Some(s')
    ensures Inv(s')
  {
    hide TokensDistinct, ScannedLanes, NothingForgotten, Step;
    QuietEffect(s, e, s');
    QuietKeepsLanes(s, e, s');
    QuietKeepsTokens(s, e, s');
    forall c, p | Owns(s', c) && 0 <= p < |s'.calls| && s'.calls[p].Produce?
      ensures Later(s'.word, s'.calls[c].begun, s'.calls[p])
    {
      if p < |s.calls| { assert Owns(s, c) && Later(s.word, s.calls[c].begun, s.calls[p]); }
    }
    if s.word.Busy? {
      var c :| Owns(s, c);
      assert Owns(s', c);
    }
  }

  /** A step of an announcing producer. The flag stays with its owner or is set. */
  lemma ProduceEffect(s: State, c: nat, s': State)
    requires Step(s, Move(c)) == Some(s') && s.calls[c].Produce?
    ensures c < |s.calls| == |s'.calls| && s'.lanes == s.lanes && s'.clears == s.clears && s'.clock == s.clock + 1
    ensures forall d | 0 <= d < |s.calls| && d != c :: s'.calls[d] == s.calls[d]
    ensures s'.calls[c] == s.calls[c].(setPc := s'.calls[c].setPc)
    ensures SetStep(s.word, s.calls[c].setPc) == (s'.word, s'.calls[c].setPc)
    ensures s'.sets == s.sets + if s'.calls[c].setPc == Finished(true) then 1 else 0
    ensures s'.word == s.word || s'.word == Set
    ensures forall o | Owns(s', o) :: Owns(s, o) && s'.word == s.word && s'.calls[o] == s.calls[o]
    ensures InFlight(s.calls[c])
  {
  }

  /** A finished announcement was noticed: a transaction that still owns the flag began later. */
  lemma ProduceAnnounces(s: State, c: nat, s': State, k: nat, since: nat)
    requires Step(s, Move(c)) == Some(s') && s.calls[c].Produce? && Announcing(s, k, since)
    requires InFlight(s'.calls[c]) || s.calls[c].at < since
    ensures Announcing(s', k, since)
  {
    ProduceEffect(s, c, s');
    hide Step;
    AnnouncementStays(s, s', k, since);
  }

  lemma ProduceKeepsLater(s: State, c: nat, s': State)
    requires OwnerIsLater(s) && Step(s, Move(c)) == Some(s') && s.calls[c].Produce?
    ensures OwnerIsLater(s')
  {
    ProduceEffect(s, c, s');
    hide Step;
    forall o, p | Owns(s', o) && 0 <= p < |s'.calls| && s'.calls[p].Produce?
      ensures Later(s'.word, s'.calls[o].begun, s'.calls[p])
    {
      assert Owns(s, o) && Later(s.word, s.calls[o].begun, s.calls[p]);
    }
  }

  lemma ProduceKeepsLanes(s: State, c: nat, s': State)
    requires Inv(s) && Step(s, Move(c)) == Some(s') && s.calls[c].Produce?
    ensures ScannedLanes(s') && NothingForgotten(s')
  {
    ProduceEffect(s, c, s');
    ProduceKeepsLater(s, c, s');
    hide Step, TokensDistinct, TimesInv, Announcing;
    forall o, k | HasScanned(s', o, k) && 0 <= k < |s'.lanes| && s'.lanes[k] > 0
      ensures Announcing(s', k, s'.calls[o].begun)
    {
      assert HasScanned(s, o, k) && Later(s'.word, s'.calls[o].begun, s'.calls[c]);
      ProduceAnnounces(s, c, s', k, s.calls[o].begun);
    }
    forall k | s'.word == Unset && 0 <= k < |s'.lanes| && s'.lanes[k] > 0
      ensures Announcing(s', k, 0)
    {
      ProduceAnnounces(s, c, s', k, 0);
    }
  }

  lemma ProduceKeepsInv(s: State, c: nat, s': State)
    requires Inv(s) && Step(s, Move(c)) == Some(s') && s.calls[c].Produce?
    ensures Inv(s')
  {
    hide Step, ScannedLanes, NothingForgotten, OwnerIsLater;
    ProduceEffect(s, c, s');
    ProduceKeepsLanes(s, c, s');
    ProduceKeepsLater(s, c, s');
    if s'.word.Busy? {
      var o :| Owns(s, o);
      assert Owns(s', o);
    }
  }

  lemma ClearKeepsOwner(s: State, c: nat, s': State)
    requires Inv(s) && Step(s, Move(c)) == Some(s') && s.calls[c].Clear?
    ensures TokensDistinct(s') && TimesInv(s') && (s'.word.Busy? ==> exists o :: Owns(s', o))
    ensures forall o | Owns(s', o) && o != c :: Owns(s, o)
    ensures Owns(s', c) ==> Owns(s, c) || (s.calls[c].clearPc.Begin? && s'.calls[c].clearPc == Scan(0))
  {
    assert forall d | 0 <= d < |s.calls| && d != c :: s'.calls[d] == s.calls[d];
    if s'.word.Busy? {
      if s'.word == s.word {
        var o :| Owns(s, o);
        assert Owns(s', o) || Owns(s', c);
      } else {
        assert Owns(s', c);
      }
    }
  }

  lemma ClearKeepsAnnouncements(s: State, c: nat, s': State, k: nat, since: nat)
    requires Step(s, Move(c)) == Some(s') && s.calls[c].Clear? && Announcing(s, k, since)
    ensures Announcing(s', k, since)
  {
    assert forall d | 0 <= d < |s.calls| && d != c :: s'.calls[d] == s.calls[d];
    AnnouncementStays(s, s', k, since);
  }

  /** A lane that holds work was not found empty by this step. */
  lemma ClearScansHonestly(s: State, c: nat, s': State, o: int, k: nat)
    requires Inv(s) && Step(s, Move(c)) == Some(s') && s.calls[c].Clear?
    requires k < |s.lanes| && s.lanes[k] > 0 && HasScanned(s', o, k)
    ensures HasScanned(s, o, k) && s'.calls[o].begun == s.calls[o].begun
  {
    ClearKeepsOwner(s, c, s');
    hide Inv;
    assert forall d | 0 <= d < |s.calls| && d != c :: s'.calls[d] == s.calls[d];
  }

  lemma ClearKeepsScanned(s: State, c: nat, s': State)
    requires Inv(s) && Step(s, Move(c)) == Some(s') && s.calls[c].Clear?
    ensures ScannedLanes(s')
  {
    hide TokensDistinct, TimesInv, OwnerIsLater, NothingForgotten, Announcing;
    forall o, k | HasScanned(s', o, k) && 0 <= k < |s'.lanes| && s'.lanes[k] > 0
      ensures Announcing(s', k, s'.calls[o].begun)
    {
      ClearScansHonestly(s, c, s', o, k);
      ClearKeepsAnnouncements(s, c, s', k, s.calls[o].begun);
    }
  }

  lemma ClearForgetsNothing(s: State, c: nat, s': State)
    requires Inv(s) && Step(s, Move(c)) == Some(s') && s.calls[c].Clear?
    ensures NothingForgotten(s')
  {
    hide TokensDistinct, TimesInv, OwnerIsLater;
    if s'.word == Unset {
      assert s.word != Unset ==> Owns(s, c);
      forall k | 0 <= k < |s.lanes| && s.lanes[k] > 0
        ensures Announcing(s', k, 0)
      {
        var since := if s.word == Unset then 0 else s.calls[c].begun;
        assert Announcing(s, k, since);
        ClearKeepsAnnouncements(s, c, s', k, since);
      }
    }
  }

  lemma ClearKeepsLanes(s: State, c: nat, s': State)
    requires Inv(s) && Step(s, Move(c)) == Some(s') && s.calls[c].Clear?
    ensures ScannedLanes(s') && NothingForgotten(s')
  {
    hide *;
    ClearKeepsScanned(s, c, s');
    ClearForgetsNothing(s, c, s');
  }

  lemma ClearKeepsInv(s: State, c: nat, s': State)
    requires Inv(s) && Step(s, Move(c)) == Some(s') && s.calls[c].Clear?
    ensures Inv(s')
  {
    ClearKeepsLanes(s, c, s');
    hide ScannedLanes, NothingForgotten;
    ClearKeepsOwner(s, c, s');
    assert forall d | 0 <= d < |s.calls| && d != c :: s'.calls[d] == s.calls[d];
  }

  lemma StepKeepsInv(s: State, s': State)
    requires Inv(s) && Next(s, s')
    ensures Inv(s')
  {
    hide Inv;
    var e :| Step(s, e) == Some(s');
    match e
    case Put(_, _) => QuietKeepsInv(s, e, s');
    case Take(_) => QuietKeepsInv(s, e, s');
    case StartClear(_) => QuietKeepsInv(s, e, s');
    case Move(c) => if s.calls[c].Produce? { ProduceKeepsInv(s, c, s'); } else { ClearKeepsInv(s, c, s'); }
  }

  lemma RunKeepsInv(run: seq<State>, k: nat)
    requires IsRun(Init, Next, run) && k < |run|
    ensures Inv(run[k])
  {
    forall s | Init(s)
      ensures Inv(s)
    {
    }
    forall s, s' | Inv(s) && Next(s, s')
      ensures Inv(s')
    {
      StepKeepsInv(s, s');
    }
    InvariantInRun(Init, Next, Inv, run, k);
  }

  // ---------------------------------------------------------------- what the flag promises

  /** Successful sets and clears alternate: in every state of every run there is one set more than clears
      while the flag is not unset, and equally many while it is. */
  lemma SetsAndClearsAlternate(run: seq<State>, k: nat)
    requires IsRun(Init, Next, run) && k < |run|
    ensures run[k].sets == run[k].clears + (if run[k].word == Unset then 0 else 1)
    ensures k + 1 < |run| ==>
              && run[k].sets <= run[k + 1].sets <= run[k].sets + 1
              && run[k].clears <= run[k + 1].clears <= run[k].clears + 1
  {
    RunKeepsInv(run, k);
    if k + 1 < |run| {
      assert Next(run[k], run[k + 1]);
    }
  }

  /** A clear that is about to succeed began, and so evaluated its predicate, after the invocation of
      every test_and_set that has returned; and a flag that is busy belongs to a call that will settle it. */
  lemma ClearIsLaterThanEverySet(run: seq<State>, k: nat, c: nat, p: nat)
    requires IsRun(Init, Next, run) && k < |run| && c < |run[k].calls| && p < |run[k].calls|
    requires run[k].calls[c].Clear? && run[k].calls[c].clearPc == Commit
    requires run[k].word == Busy(run[k].calls[c].token)
    requires run[k].calls[p].Produce? && run[k].calls[p].setPc.Finished?
    ensures run[k].calls[p].at < run[k].calls[c].begun
  {
    RunKeepsInv(run, k);
    assert Owns(run[k], c);
    assert Later(run[k].word, run[k].calls[c].begun, run[k].calls[p]);
  }

  /** No lost work: while the flag is unset, work in a lane is being announced by a producer that put
      work there. Once all producers have returned, an unset flag means that every lane is empty. */
  lemma NoLostWork(run: seq<State>, k: nat)
    requires IsRun(Init, Next, run) && k < |run| && run[k].word == Unset
    ensures forall lane | 0 <= lane < |run[k].lanes| && run[k].lanes[lane] > 0 :: Announcing(run[k], lane, 0)
    ensures (forall p | 0 <= p < |run[k].calls| :: !InFlight(run[k].calls[p])) ==>
              forall lane | 0 <= lane < |run[k].lanes| :: run[k].lanes[lane] == 0
  {
    RunKeepsInv(run, k);
  }

  /** The flag is busy only on behalf of a clear that will settle it. */
  lemma BusyFlagHasOwner(run: seq<State>, k: nat)
    requires IsRun(Init, Next, run) && k < |run| && run[k].word.Busy?
    ensures exists c :: Owns(run[k], c) && MoveStep(run[k], c).Some?
  {
    RunKeepsInv(run, k);
    var c :| Owns(run[k], c);
    assert MoveStep(run[k], c).Some?;
  }

  // ---------------------------------------------------------------- when a clear succeeds

  predicate IsClear(s: State, c: nat) {
    c < |s.calls| && s.calls[c].Clear?
  }

  /** Call `c` makes a step. */
  ghost predicate StepsAt(run: seq<State>, m: nat, c: nat) {
    m + 1 < |run| && IsClear(run[m], c) && IsClear(run[m + 1], c) && run[m + 1].calls[c].clearPc != run[m].calls[c].clearPc
  }

  /** It looks at the flag before its transaction and does not find it set. */
  ghost predicate FoundNotSetAt(run: seq<State>, m: nat, c: nat) {
    StepsAt(run, m, c) && (run[m].calls[c].clearPc == Peek || run[m].calls[c].clearPc == Begin) && run[m].word != Set
  }

  ghost predicate FoundNotSet(run: seq<State>, j: nat, k: nat, c: nat) {
    exists m :: j <= m < k && FoundNotSetAt(run, m, c)
  }

  /** It looks at lane `l` in this step. */
  ghost predicate LooksAt(run: seq<State>, m: nat, c: nat, l: nat) {
    StepsAt(run, m, c) && run[m].calls[c].clearPc == Scan(l) && l < |run[m].lanes|
  }

  ghost predicate FoundEmpty(run: seq<State>, j: nat, k: nat, c: nat, l: nat) {
    exists m :: j <= m < k && LooksAt(run, m, c, l) && run[m].lanes[l] == 0
  }

  /** It has found the first `n` lanes empty, each when it looked. */
  ghost predicate AllFoundEmpty(run: seq<State>, j: nat, k: nat, c: nat, n: nat) {
    forall l: nat | l < n :: FoundEmpty(run, j, k, c, l)
  }

  ghost predicate FoundWork(run: seq<State>, j: nat, k: nat, c: nat) {
    exists m, l: nat :: j <= m < k && LooksAt(run, m, c, l) && run[m].lanes[l] > 0
  }

  /** Somebody else takes the flag away from the transaction. */
  ghost predicate InterruptedAt(run: seq<State>, m: nat, c: nat) {
    && m + 1 < |run| && IsClear(run[m], c) && InTransaction(run[m].calls[c].clearPc) && !StepsAt(run, m, c)
    && run[m].word == Busy(run[m].calls[c].token) != run[m + 1].word
  }

  ghost predicate Interrupted(run: seq<State>, j: nat, k: nat, c: nat) {
    exists m :: j <= m < k && InterruptedAt(run, m, c)
  }

  /** What call `c`, begun at state `j`, has found by state `k`. */
  ghost predicate ClearProgress(run: seq<State>, j: nat, k: nat, c: nat)
    requires k < |run|
  {
    && IsClear(run[k], c)
    && (InTransaction(run[k].calls[c].clearPc) && run[k].word != Busy(run[k].calls[c].token) ==> Interrupted(run, j, k, c))
    && match run[k].calls[c].clearPc
       case Scan(i) => i <= |run[k].lanes| && AllFoundEmpty(run, j, k, c, i)
       case Commit => AllFoundEmpty(run, j, k, c, |run[k].lanes|)
       case Abort => FoundWork(run, j, k, c)
       case Over(result) =>
         if result then AllFoundEmpty(run, j, k, c, |run[k].lanes|)
         else FoundNotSet(run, j, k, c) || FoundWork(run, j, k, c) || Interrupted(run, j, k, c)
       case _ => true
  }

  lemma FoundLater(run: seq<State>, j: nat, k: nat, c: nat)
    ensures FoundNotSet(run, j, k, c) ==> FoundNotSet(run, j, k + 1, c)
    ensures FoundWork(run, j, k, c) ==> FoundWork(run, j, k + 1, c)
    ensures Interrupted(run, j, k, c) ==> Interrupted(run, j, k + 1, c)
    ensures j <= k && FoundNotSetAt(run, k, c) ==> FoundNotSet(run, j, k + 1, c)
    ensures j <= k && InterruptedAt(run, k, c) ==> Interrupted(run, j, k + 1, c)
    ensures forall l: nat | j <= k && LooksAt(run, k, c, l) && run[k].lanes[l] > 0 :: FoundWork(run, j, k + 1, c)
  {
    hide FoundNotSetAt, InterruptedAt, LooksAt;
  }

  lemma EmptyLater(run: seq<State>, j: nat, k: nat, c: nat, n: nat)
    requires AllFoundEmpty(run, j, k, c, n)
    ensures AllFoundEmpty(run, j, k + 1, c, n)
    ensures j <= k && LooksAt(run, k, c, n) && run[k].lanes[n] == 0 ==> AllFoundEmpty(run, j, k + 1, c, n + 1)
  {
    var k' := k + 1;
    forall l: nat | l < n ensures FoundEmpty(run, j, k', c, l) {
      assert FoundEmpty(run, j, k, c, l);
      var m :| j <= m < k && LooksAt(run, m, c, l) && run[m].lanes[l] == 0;
    }
    if j <= k && LooksAt(run, k, c, n) && run[k].lanes[n] == 0 {
      assert FoundEmpty(run, j, k + 1, c, n);
    }
  }

  /** Nobody but call `c` changes its place, and nobody but call `c` makes the flag busy with its token. */
  lemma OthersAndClear(s: State, e: Event, s': State, c: nat)
    requires TokensDistinct(s) && Step(s, e) == Some(s') && IsClear(s, c)
    ensures IsClear(s', c) && s'.calls[c].token == s.calls[c].token && |s'.lanes| == |s.lanes|
    ensures e != Move(c) ==> s'.calls[c] == s.calls[c]
    ensures e != Move(c) && InTransaction(s.calls[c].clearPc) && s'.word == Busy(s.calls[c].token) ==> s'.word == s.word
    ensures e == Move(c) ==> s'.lanes == s.lanes && s'.calls[c].clearPc != s.calls[c].clearPc
    ensures e == Move(c) ==>
              var pc := s.calls[c].clearPc;
              ClearStep(s.word, s.calls[c].token, pc, pc.Scan? && pc.i < |s.lanes| && s.lanes[pc.i] > 0,
                        pc.Scan? && pc.i >= |s.lanes|) == (s'.word, s'.calls[c].clearPc)
  {
    if e.Move? && e.call != c {
      assert e.call < |s.calls|;
    }
  }

  lemma NothingScanned(run: seq<State>, j: nat, k: nat, c: nat)
    ensures AllFoundEmpty(run, j, k, c, 0)
  {
  }

  lemma ClearGoesOn(run: seq<State>, j: nat, k: nat, c: nat, e: Event)
    requires j <= k && k + 1 < |run| && ClearProgress(run, j, k, c) && TokensDistinct(run[k])
    requires Step(run[k], e) == Some(run[k + 1])
    ensures ClearProgress(run, j, k + 1, c)
  {
    hide Step, TokensDistinct, FoundNotSet, FoundWork, AllFoundEmpty, Interrupted;
    OthersAndClear(run[k], e, run[k + 1], c);
    FoundLater(run, j, k, c);
    var s, s' := run[k], run[k + 1];
    if e != Move(c) && InTransaction(s.calls[c].clearPc) && s.word == Busy(s.calls[c].token) != s'.word {
      assert InterruptedAt(run, k, c);
    }
    if e == Move(c) && (s.calls[c].clearPc == Peek || s.calls[c].clearPc == Begin) && s.word != Set {
      assert FoundNotSetAt(run, k, c);
    }
    match s.calls[c].clearPc
    case Begin => NothingScanned(run, j, k + 1, c);
    case Scan(i) =>
      assert e == Move(c) && i < |s.lanes| ==> LooksAt(run, k, c, i);
      EmptyLater(run, j, k, c, i);
    case Commit => EmptyLater(run, j, k, c, |s.lanes|);
    case Over(result) => if result { EmptyLater(run, j, k, c, |s.lanes|); }
    case _ =>
  }

  lemma {:induction false} ClearIsHonest(run: seq<State>, j: nat, k: nat, c: nat)
    requires IsRun(Init, Next, run) && j <= k < |run| && IsClear(run[j], c) && run[j].calls[c].clearPc == Peek
    ensures ClearProgress(run, j, k, c)
    decreases k
  {
    hide Init, Step, ClearProgress, Inv;
    if j == k {
      ClearStarts(run, j, c);
    } else {
      ClearIsHonest(run, j, k - 1, c);
      RunKeepsInv(run, k - 1);
      RunTokens(run[k - 1]);
      assert Next(run[k - 1], run[k - 1 + 1]);
      var e :| Step(run[k - 1], e) == Some(run[k]);
      ClearGoesOn(run, j, k - 1, c, e);
    }
  }

  lemma ClearStarts(run: seq<State>, j: nat, c: nat)
    requires j < |run| && IsClear(run[j], c) && run[j].calls[c].clearPc == Peek
    ensures ClearProgress(run, j, j, c)
  {
  }

  lemma RunTokens(s: State)
    requires Inv(s)
    ensures TokensDistinct(s)
  {
  }

  /** How try_clear_if ends. It has cleared the flag after it found every lane empty, each when it looked; or it has
      found the flag not set, or work in a lane, or somebody has interrupted its transaction. So a call that finds
      the flag set and every lane empty, and is not interrupted, clears the flag. */
  lemma HowClearsEnd(run: seq<State>, j: nat, k: nat, c: nat)
    requires IsRun(Init, Next, run) && j <= k < |run| && IsClear(run[j], c) && run[j].calls[c].clearPc == Peek
    requires IsClear(run[k], c) && run[k].calls[c].clearPc.Over?
    ensures if run[k].calls[c].clearPc.result then AllFoundEmpty(run, j, k, c, |run[k].lanes|)
            else FoundNotSet(run, j, k, c) || FoundWork(run, j, k, c) || Interrupted(run, j, k, c)
  {
    hide Init, Next, IsRun;
    ClearIsHonest(run, j, k, c);
  }

  /** Nobody waits: every call can go on until it is over, and each of its steps brings it nearer to that. */
  lemma CallsGoOn(run: seq<State>, k: nat, c: nat)
    requires IsRun(Init, Next, run) && k < |run| && c < |run[k].calls| && (InFlight(run[k].calls[c]) || ActiveClear(run[k].calls[c]))
    ensures Step(run[k], Move(c)).Some?
    ensures var s' := Step(run[k], Move(c)).value;
            c < |s'.calls| && Remaining(s'.calls[c], |s'.lanes|) < Remaining(run[k].calls[c], |run[k].lanes|)
  {
  }

  /** Work comes and goes as it is put and taken: what is put into a lane is there, and being announced by a call of its
      own; one unit can be taken as long as there is one; and a thread that has no clear under way can begin one. */
  lemma WorkComesAndGoes(run: seq<State>, k: nat, lane: nat, amount: nat, token: nat)
    requires IsRun(Init, Next, run) && k < |run| && lane < |run[k].lanes|
    ensures var next := Step(run[k], Put(lane, amount));
            && next.Some? && next.value.lanes == run[k].lanes[lane := run[k].lanes[lane] + amount]
            && Announcing(next.value, lane, run[k].clock)
    ensures var next := Step(run[k], Take(lane));
            if run[k].lanes[lane] == 0 then next == None
            else next.Some? && next.value.lanes == run[k].lanes[lane := run[k].lanes[lane] - 1] && next.value.calls == run[k].calls
    ensures (forall c | 0 <= c < |run[k].calls| && ActiveClear(run[k].calls[c]) :: run[k].calls[c].token != token) ==>
              var next := Step(run[k], StartClear(token));
              && next.Some? && IsClear(next.value, |run[k].calls|) && next.value.calls[|run[k].calls|].clearPc == Peek
  {
    var c := |run[k].calls|;
    var s' := Step(run[k], Put(lane, amount)).value;
    assert InFlight(s'.calls[c]) && s'.calls[c].lane == lane;
  }

  function Remaining(c: Call, lanes: nat): nat {
    match c
    case Produce(_, _, pc) => (match pc case Load => 3 case Interrupt(_) => 2 case Claim => 1 case Finished(_) => 0)
    case Clear(_, _, pc) =>
      match pc
      case Peek => lanes + 6
      case Begin => lanes + 5
      case Scan(i) => if i < lanes then lanes - i + 3 else 2
      case Commit => 1
      case Abort => 1
      case Over(_) => 0
  }
}

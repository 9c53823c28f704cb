/**
 * What one call of `get_task` or `steal_task` does over all the steps it takes, while other threads go on:
 * which entries it may take, which it has to leave, and when it may come back with nothing.
 */
module DequeCalls {
  import opened Behaviors
  import opened TaskPool
  import opened TaskDeque
  import opened DequeRuns

  /** Calls of the owner and calls of thieves. */
  datatype Side = Popper | Stealer

  /** A call with this isolation may take the task. */
  predicate Allowed(isolation: nat, t: Task) {
    isolation == NO_ISOLATION || isolation == t.isolation
  }

  predicate Active(side: Side, s: State) {
    match side
    case Popper => Popping(s.owner)
    case Stealer => s.thief.Some?
  }

  /** The call of this side that began with step `j`, with isolation `i`, is not over in state `k`. */
  ghost predicate Calling(side: Side, run: seq<State>, j: nat, k: nat, i: nat) {
    && j < k < |run| && Begins(side, run, j, i)
    && forall m | j < m <= k :: Active(side, run[m])
  }

  ghost predicate Begins(side: Side, run: seq<State>, j: nat, i: nat) {
    && j + 1 < |run|
    && match side
       case Popper => Step(run[j], GetTask(i)) == Some(run[j + 1])
       case Stealer => exists id :: Step(run[j], StealTask(id, i)) == Some(run[j + 1])
  }

  /** The call looks at position `p` in this step. */
  predicate LooksAt(side: Side, s: State, s': State, p: int) {
    match side
    case Popper => s.owner.Examine? && s.owner.t == p && s'.owner != s.owner
    case Stealer => s.thief.Some? && s.thief.value.pc == Look && s.thief.value.h - 1 == p && s'.thief != s.thief
  }

  /** It finds a hole, a task of another isolation, or a proxy: an empty one, which the owner frees, or one
      that a thief leaves to its addressee. */
  predicate Refuses(side: Side, s: State, s': State, i: nat, p: int) {
    && LooksAt(side, s, s', p) && 0 <= p < |s.cells| && s.cells[p] != Junk && s'.returned == s.returned
    && if s.cells[p].Item? && Allowed(i, s.cells[p].task)
       then s.cells[p].task.proxy && (side == Popper ==> s'.freed == s.freed + multiset{s.cells[p].task})
       else s'.freed == s.freed
  }

  predicate Takes(side: Side, s: State, s': State, i: nat, p: int, t: Task) {
    && LooksAt(side, s, s', p) && 0 <= p < |s.cells| && s.cells[p] == Item(t) && Allowed(i, t)
    && s'.returned == s.returned + multiset{t} && s'.freed == s.freed
  }

  ghost predicate RefusesAt(side: Side, run: seq<State>, m: nat, i: nat, p: int) {
    m + 1 < |run| && Refuses(side, run[m], run[m + 1], i, p)
  }

  ghost predicate TakesAt(side: Side, run: seq<State>, m: nat, i: nat, p: int, t: Task) {
    m + 1 < |run| && Takes(side, run[m], run[m + 1], i, p, t)
  }

  ghost predicate Refused(side: Side, run: seq<State>, j: nat, k: nat, i: nat, p: int) {
    exists m :: j < m < k && RefusesAt(side, run, m, i, p)
  }

  /** Between states `j` and `k` the call has looked at every position from `lo` on and below `hi` and has
      refused what it found there. */
  ghost predicate AllRefused(side: Side, run: seq<State>, j: nat, k: nat, i: nat, lo: int, hi: int) {
    forall p :: lo <= p < hi ==> Refused(side, run, j, k, i, p)
  }

  /** The positions that come before `p` for a call that finds the pool as in `s`: the owner starts at the
      tail, a thief at the head. */
  function First(side: Side, s: State, p: int): int {
    if side == Popper then p + 1 else s.head
  }

  function Bound(side: Side, s: State, p: int): int {
    if side == Popper then s.tail else p
  }

  ghost predicate TookAt(side: Side, run: seq<State>, j: nat, m: nat, i: nat, p: int, t: Task) {
    && j < |run| && TakesAt(side, run, m, i, p, t)
    && AllRefused(side, run, j, m, i, First(side, run[j], p), Bound(side, run[j], p))
  }

  /** The call has taken task `t` from position `p`, the first position where it found one it may take. */
  ghost predicate Took(side: Side, run: seq<State>, j: nat, k: nat, i: nat, p: int, t: Task) {
    exists m :: j < m < k && TookAt(side, run, j, m, i, p, t)
  }

  ghost predicate SomethingTaken(side: Side, run: seq<State>, j: nat, k: nat, i: nat) {
    exists p, t :: Took(side, run, j, k, i, p, t)
  }

  /** The owner has the lock word and reads `head`; a thief has advanced past the `tail` it reads. */
  ghost predicate SeesTheEnd(side: Side, run: seq<State>, m: nat) {
    && m + 1 < |run|
    && match side
       case Popper => run[m].owner.Arbitrate? && run[m].word == Locked && run[m + 1].owner != run[m].owner
       case Stealer =>
         && run[m].thief.Some? && run[m].thief.value.pc == ReadTail && run[m + 1].thief != run[m].thief
         && run[m].tail < run[m].thief.value.h
  }

  ghost predicate GaveUpAt(side: Side, run: seq<State>, j: nat, m: nat, k: nat, i: nat) {
    && j < |run| && SeesTheEnd(side, run, m)
    && match side
       case Popper => AllRefused(side, run, j, k, i, run[m].head, run[j].tail)
       case Stealer => AllRefused(side, run, j, k, i, run[j].head, run[m].tail)
  }

  /** The call has refused everything between the bound it started from and the other one as it read it. */
  ghost predicate GaveUp(side: Side, run: seq<State>, j: nat, k: nat, i: nat) {
    exists m :: j < m < k && GaveUpAt(side, run, j, m, k, i)
  }

  // ---------------------------------------------------------------- later states

  lemma RefusedLater(side: Side, run: seq<State>, j: nat, k: nat, k': nat, i: nat, lo: int, hi: int)
    requires AllRefused(side, run, j, k, i, lo, hi) && k <= k'
    ensures AllRefused(side, run, j, k', i, lo, hi)
  {
    forall p | lo <= p < hi ensures Refused(side, run, j, k', i, p) {
      assert Refused(side, run, j, k, i, p);
      var m :| j < m < k && RefusesAt(side, run, m, i, p);
    }
  }

  lemma RefusedBelow(side: Side, run: seq<State>, j: nat, k: nat, i: nat, lo: int, hi: int)
    requires AllRefused(side, run, j, k, i, lo + 1, hi) && j < k && RefusesAt(side, run, k, i, lo)
    ensures AllRefused(side, run, j, k + 1, i, lo, hi)
  {
    hide RefusesAt;
    RefusedLater(side, run, j, k, k + 1, i, lo + 1, hi);
    assert Refused(side, run, j, k + 1, i, lo);
  }

  lemma RefusedAbove(side: Side, run: seq<State>, j: nat, k: nat, i: nat, lo: int, hi: int)
    requires AllRefused(side, run, j, k, i, lo, hi) && j < k && RefusesAt(side, run, k, i, hi)
    ensures AllRefused(side, run, j, k + 1, i, lo, hi + 1)
  {
    hide RefusesAt;
    RefusedLater(side, run, j, k, k + 1, i, lo, hi);
    assert Refused(side, run, j, k + 1, i, hi);
  }

  ghost predicate Over(side: Side, run: seq<State>, j: nat, k: nat, i: nat) {
    SomethingTaken(side, run, j, k, i) || GaveUp(side, run, j, k, i)
  }

  lemma OverLater(side: Side, run: seq<State>, j: nat, k: nat, i: nat)
    requires Over(side, run, j, k, i)
    ensures Over(side, run, j, k + 1, i)
  {
    hide TookAt;
    if SomethingTaken(side, run, j, k, i) {
      var p, t :| Took(side, run, j, k, i, p, t);
      var m :| j < m < k && TookAt(side, run, j, m, i, p, t);
      assert Took(side, run, j, k + 1, i, p, t);
    } else {
      var m :| j < m < k && GaveUpAt(side, run, j, m, k, i);
      if side == Popper {
        RefusedLater(side, run, j, k, k + 1, i, run[m].head, run[j].tail);
      } else {
        RefusedLater(side, run, j, k, k + 1, i, run[j].head, run[m].tail);
      }
      assert GaveUpAt(side, run, j, m, k + 1, i);
    }
  }

  lemma JustTaken(side: Side, run: seq<State>, j: nat, k: nat, i: nat, p: int, t: Task)
    requires j < k && TookAt(side, run, j, k, i, p, t)
    ensures Over(side, run, j, k + 1, i)
  {
    assert Took(side, run, j, k + 1, i, p, t);
  }

  lemma JustGivenUp(side: Side, run: seq<State>, j: nat, m: nat, k: nat, i: nat)
    requires j < m < k && GaveUpAt(side, run, j, m, k, i)
    ensures Over(side, run, j, k, i)
  {
  }

  // ---------------------------------------------------------------- calls of the owner

  /** Under the lock the owner found `head` at `h`. */
  ghost predicate FoundHead(run: seq<State>, j: nat, k: nat, h: int) {
    exists m :: j < m < k && SeesTheEnd(Popper, run, m) && run[m].head == h
  }

  /** What the owner has done by state `k` of a call with isolation `i`. */
  ghost predicate PopProgress(run: seq<State>, j: nat, k: nat, i: nat)
    requires j < k < |run|
  {
    var top := run[j].tail;
    match run[k].owner
    case Decrement(pop) => pop.isolation == i && AllRefused(Popper, run, j, k, i, run[k].tail, top)
    case ReadHead(pop, t) => pop.isolation == i && AllRefused(Popper, run, j, k, i, t + 1, top)
    case Acquire(pop, t) => pop.isolation == i && AllRefused(Popper, run, j, k, i, t + 1, top)
    case Arbitrate(pop, t) => pop.isolation == i && AllRefused(Popper, run, j, k, i, t + 1, top)
    case Examine(pop, t, emptied, h0) =>
      pop.isolation == i && AllRefused(Popper, run, j, k, i, t + 1, top) && (emptied ==> FoundHead(run, j, k, t))
    case _ => Over(Popper, run, j, k, i)
  }

  /** Steps of others change neither the owner's place nor `tail`. */
  lemma OthersLeaveOwner(s: State, e: Event, s': State)
    requires Step(s, e) == Some(s') && (e.StealTask? || e.ThiefMove?)
    ensures s'.owner == s.owner && s'.tail == s.tail
  {
  }

  lemma PopIdles(run: seq<State>, j: nat, k: nat, i: nat)
    requires j < k && k + 1 < |run| && PopProgress(run, j, k, i) && Popping(run[k].owner)
    requires run[k + 1].owner == run[k].owner && run[k + 1].tail == run[k].tail
    ensures PopProgress(run, j, k + 1, i)
  {
    hide AllRefused, Over, FoundHead;
    var top := run[j].tail;
    match run[k].owner
    case Decrement(_) => RefusedLater(Popper, run, j, k, k + 1, i, run[k].tail, top);
    case ReadHead(_, t) => RefusedLater(Popper, run, j, k, k + 1, i, t + 1, top);
    case Acquire(_, t) => RefusedLater(Popper, run, j, k, k + 1, i, t + 1, top);
    case Arbitrate(_, t) => RefusedLater(Popper, run, j, k, k + 1, i, t + 1, top);
    case Examine(_, t, emptied, _) =>
      RefusedLater(Popper, run, j, k, k + 1, i, t + 1, top);
      if emptied { FoundHeadLater(run, j, k, t); }
    case _ => OverLater(Popper, run, j, k, i);
  }

  lemma FoundHeadLater(run: seq<State>, j: nat, k: nat, h: int)
    requires FoundHead(run, j, k, h)
    ensures FoundHead(run, j, k + 1, h)
  {
    hide SeesTheEnd;
  }

  lemma NothingGoesOn(s: State, pop: Pop, t: int, emptied: bool, h0: int)
    requires 0 <= t < |s.cells|
    ensures var s' := NothingAt(s, pop, t, emptied, h0);
            && s'.returned == s.returned && s'.freed == s.freed && s'.tail == s.tail
            && if emptied then s'.owner.Idle? || s'.owner.Republish?
               else s'.owner.Decrement? && s'.owner.pop.isolation == pop.isolation
  {
  }

  lemma FoundStops(s: State, pop: Pop, t: int, emptied: bool, h0: int, task: Task)
    requires 0 <= t < |s.cells|
    ensures var s' := Found(s, pop, t, emptied, h0, task);
            s'.returned == s.returned + multiset{task} && s'.freed == s.freed && !ContinuesPop(s'.owner)
  {
  }

  /** The owner's look at an entry: it takes it and stops, or refuses it and goes on below. */
  lemma ExamineDecides(s: State, hit: bool, s': State)
    requires ControlInv(s) && s.owner.Examine? && OwnerStep(s, hit) == Some(s')
    ensures var o := s.owner;
            || (exists t :: Takes(Popper, s, s', o.pop.isolation, o.t, t) && !ContinuesPop(s'.owner))
            || (&& Refuses(Popper, s, s', o.pop.isolation, o.t)
                && if o.emptied then s'.owner.Idle? || s'.owner.Republish?
                   else s'.owner.Decrement? && s'.owner.pop.isolation == o.pop.isolation && s'.tail == o.t)
  {
    hide NothingAt, Found;
    var o := s.owner;
    assert OwnerInv(s);
    NothingGoesOn(s, o.pop, o.t, o.emptied, o.h0);
    NothingGoesOn(s, o.pop.(omitted := true), o.t, o.emptied, o.h0);
    if s.cells[o.t].Item? {
      var task := s.cells[o.t].task;
      FoundStops(s, o.pop, o.t, o.emptied, o.h0, task);
      NothingGoesOn(s.(freed := s.freed + multiset{task}, cells := if o.pop.omitted then s.cells[o.t := Hole] else s.cells),
                    o.pop, o.t, o.emptied, o.h0);
      assert Takes(Popper, s, s', o.pop.isolation, o.t, task) || Refuses(Popper, s, s', o.pop.isolation, o.t);
    }
  }

  predicate ContinuesPop(o: Owner) {
    o.Decrement? || Contending(o) || o.Examine?
  }

  lemma ExamineProgress(run: seq<State>, j: nat, k: nat, i: nat, hit: bool)
    requires j < k && k + 1 < |run| && PopProgress(run, j, k, i) && run[k].owner.Examine?
    requires ControlInv(run[k]) && OwnerStep(run[k], hit) == Some(run[k + 1])
    ensures if ContinuesPop(run[k + 1].owner) then PopProgress(run, j, k + 1, i) else Over(Popper, run, j, k + 1, i)
  {
    hide ControlInv, OwnerStep, AllRefused, Over, Takes, Refuses;
    var s, s', o := run[k], run[k + 1], run[k].owner;
    ExamineDecides(s, hit, s');
    if t :| Takes(Popper, s, s', i, o.t, t) && !ContinuesPop(s'.owner) {
      assert TookAt(Popper, run, j, k, i, o.t, t);
      JustTaken(Popper, run, j, k, i, o.t, t);
    } else {
      assert RefusesAt(Popper, run, k, i, o.t);
      RefusedBelow(Popper, run, j, k, i, o.t, run[j].tail);
      if o.emptied {
        assert FoundHead(run, j, k, o.t);
        var m :| j < m < k && SeesTheEnd(Popper, run, m) && run[m].head == o.t;
        assert GaveUpAt(Popper, run, j, m, k + 1, i);
        JustGivenUp(Popper, run, j, m, k + 1, i);
      }
    }
  }

  lemma ArbitrateProgress(run: seq<State>, j: nat, k: nat, i: nat, hit: bool)
    requires j < k && k + 1 < |run| && PopProgress(run, j, k, i) && run[k].owner.Arbitrate?
    requires ControlInv(run[k]) && OwnerStep(run[k], hit) == Some(run[k + 1])
    ensures if ContinuesPop(run[k + 1].owner) then PopProgress(run, j, k + 1, i) else Over(Popper, run, j, k + 1, i)
  {
    hide AllRefused, Over;
    var s, t := run[k], run[k].owner.t;
    assert LockInv(s) && s.word == Locked;
    RefusedLater(Popper, run, j, k, k + 1, i, t + 1, run[j].tail);
    assert SeesTheEnd(Popper, run, k);
    if s.head > t {
      EarlierTail(s);
      assert GaveUpAt(Popper, run, j, k, k + 1, i);
      JustGivenUp(Popper, run, j, k, k + 1, i);
    } else if s.head == t {
      assert FoundHead(run, j, k + 1, t);
    }
  }

  /** A thief that has not backed off is exactly one ahead. */
  lemma EarlierTail(s: State)
    requires ControlInv(s) && s.owner.Arbitrate? && s.head > s.owner.t
    ensures s.head == s.owner.t + 1
  {
  }

  lemma PopMoves(run: seq<State>, j: nat, k: nat, i: nat, hit: bool)
    requires j < k && k + 1 < |run| && PopProgress(run, j, k, i) && Popping(run[k].owner)
    requires ControlInv(run[k]) && OwnerStep(run[k], hit) == Some(run[k + 1])
    ensures if ContinuesPop(run[k + 1].owner) then PopProgress(run, j, k + 1, i) else Over(Popper, run, j, k + 1, i)
  {
    hide ControlInv, AllRefused, Over, ExamineStep, ArbitrateStep;
    var top := run[j].tail;
    match run[k].owner
    case Decrement(_) => RefusedLater(Popper, run, j, k, k + 1, i, run[k].tail, top);
    case ReadHead(_, t) => RefusedLater(Popper, run, j, k, k + 1, i, t + 1, top);
    case Acquire(_, t) => RefusedLater(Popper, run, j, k, k + 1, i, t + 1, top);
    case Arbitrate(_, _) => ArbitrateProgress(run, j, k, i, hit);
    case Examine(_, _, _, _) => ExamineProgress(run, j, k, i, hit);
    case _ => OverLater(Popper, run, j, k, i);
  }

  // ---------------------------------------------------------------- calls of a thief

  /** What the thief has done by state `k` of a call with isolation `i`. */
  ghost predicate StealProgress(run: seq<State>, j: nat, k: nat, i: nat)
    requires j < k < |run|
  {
    run[k].thief.Some? ==>
      var th, low := run[k].thief.value, run[j].head;
      th.isolation == i &&
      match th.pc
      case Advance => run[k].head == th.h && AllRefused(Stealer, run, j, k, i, low, th.h)
      case ReadTail => AllRefused(Stealer, run, j, k, i, low, th.h - 1)
      case Look => AllRefused(Stealer, run, j, k, i, low, th.h - 1)
      case _ => Over(Stealer, run, j, k, i)
  }

  lemma OthersLeaveThief(s: State, e: Event, s': State)
    requires LockInv(s) && s.thief.Some? && Step(s, e) == Some(s') && !e.ThiefMove?
    ensures s'.thief == s.thief
  {
  }

  lemma StealIdles(run: seq<State>, j: nat, k: nat, i: nat)
    requires j < k && k + 1 < |run| && StealProgress(run, j, k, i) && ThiefInv(run[k + 1])
    requires run[k].thief.Some? && run[k + 1].thief == run[k].thief
    ensures StealProgress(run, j, k + 1, i)
  {
    hide AllRefused, Over;
    var th, low := run[k].thief.value, run[j].head;
    match th.pc
    case Advance => RefusedLater(Stealer, run, j, k, k + 1, i, low, th.h);
    case ReadTail => RefusedLater(Stealer, run, j, k, k + 1, i, low, th.h - 1);
    case Look => RefusedLater(Stealer, run, j, k, k + 1, i, low, th.h - 1);
    case _ => OverLater(Stealer, run, j, k, i);
  }

  /** The thief's look at an entry: it takes it and stops, or refuses it and goes on above. */
  lemma LookDecides(s: State, hit: bool, s': State)
    requires s.thief.Some? && s.thief.value.pc == Look && ThiefStep(s, s.thief.value, hit) == Some(s')
    ensures var th, p := s.thief.value, s.thief.value.h - 1;
            && s'.thief.Some? && s'.thief.value.isolation == th.isolation && s'.thief.value.h == th.h && s'.head == s.head
            && if s'.thief.value.pc == Advance then Refuses(Stealer, s, s', th.isolation, p)
               else
                 && (exists t :: Takes(Stealer, s, s', th.isolation, p, t))
                 && (s'.thief.value.pc == Blank || s'.thief.value.pc == Unlock)
  {
    var th := s.thief.value;
    if s.cells[th.h - 1].Item? {
      var task := s.cells[th.h - 1].task;
      assert Takes(Stealer, s, s', th.isolation, th.h - 1, task) || Refuses(Stealer, s, s', th.isolation, th.h - 1);
    }
  }

  lemma LookProgress(run: seq<State>, j: nat, k: nat, i: nat, hit: bool)
    requires j < k && k + 1 < |run| && StealProgress(run, j, k, i) && ThiefInv(run[k])
    requires run[k].thief.Some? && run[k].thief.value.pc == Look
    requires ThiefStep(run[k], run[k].thief.value, hit) == Some(run[k + 1])
    ensures StealProgress(run, j, k + 1, i) && run[k + 1].thief.Some?
  {
    hide ThiefStep, AllRefused, Over, Takes, Refuses;
    var s, s', th := run[k], run[k + 1], run[k].thief.value;
    LookDecides(s, hit, s');
    if s'.thief.value.pc == Advance {
      assert RefusesAt(Stealer, run, k, i, th.h - 1);
      RefusedAbove(Stealer, run, j, k, i, run[j].head, th.h - 1);
    } else {
      var t :| Takes(Stealer, s, s', i, th.h - 1, t);
      assert TookAt(Stealer, run, j, k, i, th.h - 1, t);
      JustTaken(Stealer, run, j, k, i, th.h - 1, t);
    }
  }

  lemma StealMoves(run: seq<State>, j: nat, k: nat, i: nat, hit: bool)
    requires j < k && k + 1 < |run| && StealProgress(run, j, k, i) && ThiefInv(run[k])
    requires run[k].thief.Some? && ThiefStep(run[k], run[k].thief.value, hit) == Some(run[k + 1])
    ensures StealProgress(run, j, k + 1, i)
    ensures run[k + 1].thief.None? ==> Over(Stealer, run, j, k + 1, i)
  {
    hide AllRefused, Over, LookStep;
    var th, low := run[k].thief.value, run[j].head;
    match th.pc
    case Advance => RefusedLater(Stealer, run, j, k, k + 1, i, low, th.h);
    case ReadTail =>
      RefusedLater(Stealer, run, j, k, k + 1, i, low, th.h - 1);
      if th.h > run[k].tail {
        NarrowedRefusal(Stealer, run, j, k + 1, i, low, th.h - 1, run[k].tail);
        assert GaveUpAt(Stealer, run, j, k, k + 1, i);
        JustGivenUp(Stealer, run, j, k, k + 1, i);
      }
    case Look => LookProgress(run, j, k, i, hit);
    case _ => OverLater(Stealer, run, j, k, i);
  }

  lemma NarrowedRefusal(side: Side, run: seq<State>, j: nat, k: nat, i: nat, lo: int, hi: int, hi': int)
    requires AllRefused(side, run, j, k, i, lo, hi) && hi' <= hi
    ensures AllRefused(side, run, j, k, i, lo, hi')
  {
  }

  // ---------------------------------------------------------------- every call of every run

  lemma CallBegins(side: Side, run: seq<State>, j: nat, i: nat)
    requires Begins(side, run, j, i)
    ensures if side == Popper then PopProgress(run, j, j + 1, i) else StealProgress(run, j, j + 1, i)
  {
  }

  /** One more state of the run, with the call under way before. */
  lemma CallGoesOn(side: Side, run: seq<State>, j: nat, k: nat, i: nat)
    requires IsRun(Init, Next, run) && j < k && k + 1 < |run| && Active(side, run[k])
    requires if side == Popper then PopProgress(run, j, k, i) else StealProgress(run, j, k, i)
    ensures Active(side, run[k + 1]) ==>
              if side == Popper then PopProgress(run, j, k + 1, i) else StealProgress(run, j, k + 1, i)
    ensures !Active(side, run[k + 1]) ==> Over(side, run, j, k + 1, i)
  {
    hide Init, Step, Conserved, PopProgress, StealProgress, Over, Readable, ControlInv;
    RunKeepsInv(run, k);
    RunKeepsInv(run, k + 1);
    assert Next(run[k], run[k + 1]);
    var e :| Step(run[k], e) == Some(run[k + 1]);
    if side == Popper {
      PopGoesOn(run, j, k, i, e);
    } else {
      StealGoesOn(run, j, k, i, e);
    }
  }

  lemma PopGoesOn(run: seq<State>, j: nat, k: nat, i: nat, e: Event)
    requires j < k && k + 1 < |run| && Popping(run[k].owner) && PopProgress(run, j, k, i)
    requires ControlInv(run[k]) && Step(run[k], e) == Some(run[k + 1])
    ensures if Popping(run[k + 1].owner) then PopProgress(run, j, k + 1, i) else Over(Popper, run, j, k + 1, i)
  {
    hide ControlInv, AllRefused, Over, OwnerStep, ThiefStep, FoundHead;
    if e.OwnerMove? {
      PopMoves(run, j, k, i, e.hit);
    } else {
      OthersLeaveOwner(run[k], e, run[k + 1]);
      PopIdles(run, j, k, i);
    }
  }

  lemma StealGoesOn(run: seq<State>, j: nat, k: nat, i: nat, e: Event)
    requires j < k && k + 1 < |run| && run[k].thief.Some? && StealProgress(run, j, k, i)
    requires ControlInv(run[k]) && ControlInv(run[k + 1]) && Step(run[k], e) == Some(run[k + 1])
    ensures if run[k + 1].thief.Some? then StealProgress(run, j, k + 1, i) else Over(Stealer, run, j, k + 1, i)
  {
    hide LockInv, ThiefInv, OwnerInv, BoundsInv, AllRefused, Over, OwnerStep, ThiefStep;
    if e.ThiefMove? {
      StealMoves(run, j, k, i, e.hit);
    } else {
      OthersLeaveThief(run[k], e, run[k + 1]);
      StealIdles(run, j, k, i);
    }
  }

  lemma {:induction false} CallProgress(side: Side, run: seq<State>, j: nat, k: nat, i: nat)
    requires IsRun(Init, Next, run) && Calling(side, run, j, k, i)
    ensures if side == Popper then PopProgress(run, j, k, i) else StealProgress(run, j, k, i)
    decreases k
  {
    hide Init, Next, PopProgress, StealProgress, Begins;
    if k == j + 1 {
      CallBegins(side, run, j, i);
    } else {
      assert Calling(side, run, j, k - 1, i);
      CallProgress(side, run, j, k - 1, i);
      CallGoesOn(side, run, j, k - 1, i);
    }
  }

  /** A call that is under way has begun. */
  lemma {:induction false} SomebodyCalled(side: Side, run: seq<State>, k: nat) returns (j: nat, i: nat)
    requires IsRun(Init, Next, run) && k < |run| && Active(side, run[k])
    ensures Calling(side, run, j, k, i)
  {
    hide Begins, Step;
    assert k > 0;
    assert Next(run[k - 1], run[k - 1 + 1]);
    var e :| Step(run[k - 1], e) == Some(run[k]);
    if Active(side, run[k - 1]) {
      j, i := SomebodyCalled(side, run, k - 1);
    } else {
      j := k - 1;
      i := CallStarts(side, run, j, e);
    }
  }

  lemma CallStarts(side: Side, run: seq<State>, j: nat, e: Event) returns (i: nat)
    requires j + 1 < |run| && !Active(side, run[j]) && Active(side, run[j + 1]) && Step(run[j], e) == Some(run[j + 1])
    ensures Begins(side, run, j, i)
  {
    hide StartSpawn, ExamineStep, LookStep, ArbitrateStep;
    if e.Spawn? { SpawnCallsNobody(run[j], e.task, run[j + 1]); }
    if e.StealTask? || e.ThiefMove? { OthersLeaveOwner(run[j], e, run[j + 1]); }
    if side == Popper {
      assert e.GetTask?;
      i := e.isolation;
    } else {
      OnlyStealTaskStarts(run[j], e, run[j + 1]);
      i := e.thiefIsolation;
    }
  }

  lemma SpawnCallsNobody(s: State, task: Task, s': State)
    requires StartSpawn(s, task) == Some(s')
    ensures s'.owner.WriteCell? && s'.thief == s.thief
  {
  }

  lemma OnlyStealTaskStarts(s: State, e: Event, s': State)
    requires Step(s, e) == Some(s') && s.thief.None? && s'.thief.Some?
    ensures e.StealTask?
  {
  }

  // ---------------------------------------------------------------- theorems

  /** Whenever a call of `get_task` or `steal_task` is over, whatever the other threads did in the meantime: it has
      taken a task of its isolation, having found nothing to take at the positions before, from the tail
      downwards or from the head upwards; or it has found nothing to take up to the other bound, the owner up
      to the `head` it read under the lock, a thief up to the `tail` it read. */
  lemma HowCallsEnd(side: Side, run: seq<State>, j: nat, k: nat, i: nat)
    requires IsRun(Init, Next, run) && Calling(side, run, j, k, i) && k + 1 < |run| && !Active(side, run[k + 1])
    ensures SomethingTaken(side, run, j, k + 1, i) || GaveUp(side, run, j, k + 1, i)
  {
    hide Init, Next, PopProgress, StealProgress, GaveUp, SomethingTaken, Begins;
    CallProgress(side, run, j, k, i);
    CallGoesOn(side, run, j, k, i);
  }

  /** Isolation: a task is handed out only to a call with no isolation or with the isolation of the task. */
  lemma HandedOutInIsolation(run: seq<State>, k: nat, t: Task) returns (side: Side, j: nat, i: nat)
    requires IsRun(Init, Next, run) && k + 1 < |run| && run[k + 1].returned == run[k].returned + multiset{t}
    ensures Calling(side, run, j, k, i) && (i == NO_ISOLATION || i == t.isolation)
    ensures exists p :: TakesAt(side, run, k, i, p, t)
  {
    hide Init, Step, ControlInv, Conserved, Readable;
    RunKeepsInv(run, k);
    assert Next(run[k], run[k + 1]);
    var e :| Step(run[k], e) == Some(run[k + 1]);
    var p;
    side, p := HandOutStep(run[k], e, run[k + 1], t);
    j, i := SomebodyCalled(side, run, k);
    CallProgress(side, run, j, k, i);
    assert TakesAt(side, run, k, i, p, t);
  }

  lemma MoreIsNotSame(a: multiset<Task>, t: Task)
    ensures a + multiset{t} != a
  {
    assert (a + multiset{t})[t] == a[t] + 1;
  }

  lemma SameTask(a: multiset<Task>, t: Task, u: Task)
    requires a + multiset{t} == a + multiset{u}
    ensures t == u
  {
    assert (a + multiset{t})[t] == a[t] + 1;
  }

  lemma HandOutStep(s: State, e: Event, s': State, t: Task) returns (side: Side, p: int)
    requires ControlInv(s) && Step(s, e) == Some(s') && s'.returned == s.returned + multiset{t}
    ensures side == (if e.OwnerMove? then Popper else Stealer) && Active(side, s)
    ensures side == Popper ==> s.owner.Examine? && Takes(side, s, s', s.owner.pop.isolation, p, t)
    ensures side == Stealer ==> s.thief.value.pc == Look && Takes(side, s, s', s.thief.value.isolation, p, t)
  {
    hide ControlInv, ExamineStep, LookStep, Takes, Refuses;
    MoreIsNotSame(s.returned, t);
    side := if e.OwnerMove? then Popper else Stealer;
    p := 0;
    if e.OwnerMove? {
      QuietOwner(s, e.hit, s');
      p := s.owner.t;
      ExamineDecides(s, e.hit, s');
      TakesOrNot(side, s, s', s.owner.pop.isolation, p, t);
    } else {
      assert e.ThiefMove? && s.thief.value.pc == Look;
      p := s.thief.value.h - 1;
      LookDecides(s, e.hit, s');
      TakesOrNot(side, s, s', s.thief.value.isolation, p, t);
    }
  }

  lemma TakesOrNot(side: Side, s: State, s': State, i: nat, p: int, t: Task)
    requires s'.returned == s.returned + multiset{t}
    requires Refuses(side, s, s', i, p) || exists u :: Takes(side, s, s', i, p, u)
    ensures Takes(side, s, s', i, p, t)
  {
    MoreIsNotSame(s.returned, t);
    var u :| Takes(side, s, s', i, p, u);
    SameTask(s.returned, t, u);
  }

  lemma QuietOwner(s: State, hit: bool, s': State)
    requires OwnerStep(s, hit) == Some(s')
    ensures s'.returned == s.returned || s.owner.Examine?
  {
    hide ExamineStep;
  }

  // ---------------------------------------------------------------- a call without interference

  ghost predicate MovesAlone(side: Side, run: seq<State>, m: nat) {
    && m + 1 < |run|
    && exists hit: bool :: Step(run[m], if side == Popper then OwnerMove(hit) else ThiefMove(hit)) == Some(run[m + 1])
  }

  /** The rest of the pool is as the call found it. */
  predicate Untouched(side: Side, s0: State, s: State) {
    match side
    case Popper =>
      && s.thief.None? && |s.cells| == |s0.cells|
      && (s.owner.Decrement? ==> s.tail <= s0.tail && s.head == s0.head && SameBelow(s0, s, s.tail))
      && (Contending(s.owner) ==> s.owner.t < s0.tail && s.head == s0.head && SameBelow(s0, s, s.owner.t + 1))
      && (s.owner.Examine? ==>
            s.owner.t < s0.tail && (!s.owner.emptied ==> s.head == s0.head) && SameBelow(s0, s, s.owner.t + 1))
    case Stealer =>
      && s.thief.Some? ==>
           var th := s.thief.value;
           && s.tail == s0.tail && |s.cells| == |s0.cells|
           && (th.pc == Advance ==> s0.head <= s.head == th.h && SameFrom(s0, s, th.h))
           && (th.pc == ReadTail || th.pc == Look ==> s0.head < s.head == th.h && SameFrom(s0, s, th.h - 1))
  }

  predicate SameBelow(s0: State, s: State, n: int) {
    |s.cells| == |s0.cells| && forall p | 0 <= p < n && p < |s.cells| :: s.cells[p] == s0.cells[p]
  }

  predicate SameFrom(s0: State, s: State, n: int) {
    |s.cells| == |s0.cells| && forall p | 0 <= p < |s.cells| && n <= p :: s.cells[p] == s0.cells[p]
  }

  lemma ThiefLeavesRest(s0: State, s: State, hit: bool, s': State)
    requires Untouched(Stealer, s0, s) && s.thief.Some? && ThiefStep(s, s.thief.value, hit) == Some(s')
    ensures Untouched(Stealer, s0, s')
  {
    if s.thief.value.pc == Look {
      LookLeavesRest(s, hit, s');
      hide ThiefStep;
    } else {
      hide LookStep;
    }
  }

  lemma LookLeavesRest(s: State, hit: bool, s': State)
    requires s.thief.Some? && s.thief.value.pc == Look && LookStep(s, s.thief.value, hit) == Some(s')
    ensures s'.head == s.head && s'.tail == s.tail && |s'.cells| == |s.cells|
    ensures s'.thief.Some? && s'.thief.value.h == s.thief.value.h
    ensures s'.thief.value.pc != Look && s'.thief.value.pc != ReadTail
    ensures forall p | 0 <= p < |s.cells| && s.thief.value.h <= p :: s'.cells[p] == s.cells[p]
  {
  }

  lemma OwnerLeavesRest(s0: State, s: State, hit: bool, s': State)
    requires ControlInv(s) && Untouched(Popper, s0, s) && ContinuesPop(s.owner) && OwnerStep(s, hit) == Some(s')
    ensures Untouched(Popper, s0, s')
  {
    if s.owner.Examine? {
      ExamineLeavesRest(s, hit, s');
    } else {
      hide ExamineStep, ControlInv;
    }
  }

  lemma ExamineLeavesRest(s: State, hit: bool, s': State)
    requires ControlInv(s) && s.owner.Examine? && OwnerStep(s, hit) == Some(s')
    ensures s'.thief == s.thief && s'.head == s.head && !Contending(s'.owner) && !s'.owner.Examine?
    ensures |s'.cells| == |s.cells| && forall p | 0 <= p < |s.cells| && p != s.owner.t :: s'.cells[p] == s.cells[p]
    ensures s'.owner.Decrement? ==> s'.tail == s.tail == s.owner.t && !s.owner.emptied
  {
    hide NothingAt, Found;
    var o := s.owner;
    assert OwnerInv(s);
    NothingLeavesRest(s, o.pop, o.t, o.emptied, o.h0);
    NothingLeavesRest(s, o.pop.(omitted := true), o.t, o.emptied, o.h0);
    if s.cells[o.t].Item? {
      var task := s.cells[o.t].task;
      FoundLeavesRest(s, o.pop, o.t, o.emptied, o.h0, task);
      NothingLeavesRest(s.(freed := s.freed + multiset{task}, cells := if o.pop.omitted then s.cells[o.t := Hole] else s.cells),
                        o.pop, o.t, o.emptied, o.h0);
    }
  }

  lemma NothingLeavesRest(s: State, pop: Pop, t: int, emptied: bool, h0: int)
    requires 0 <= t < |s.cells|
    ensures var s' := NothingAt(s, pop, t, emptied, h0);
            && s'.thief == s.thief && s'.head == s.head && s'.tail == s.tail && |s'.cells| == |s.cells|
            && (forall p | 0 <= p < |s.cells| && p != t :: s'.cells[p] == s.cells[p])
            && !Contending(s'.owner) && !s'.owner.Examine? && (s'.owner.Decrement? ==> !emptied)
  {
  }

  lemma FoundLeavesRest(s: State, pop: Pop, t: int, emptied: bool, h0: int, task: Task)
    requires 0 <= t < |s.cells|
    ensures var s' := Found(s, pop, t, emptied, h0, task);
            && s'.thief == s.thief && s'.head == s.head && |s'.cells| == |s.cells|
            && (forall p | 0 <= p < |s.cells| && p != t :: s'.cells[p] == s.cells[p])
            && !ContinuesPop(s'.owner)
  {
  }

  /** The owner after it has settled does not look at entries any more. */
  lemma SettledLeavesRest(s0: State, s: State, hit: bool, s': State)
    requires Untouched(Popper, s0, s) && Popping(s.owner) && !ContinuesPop(s.owner) && OwnerStep(s, hit) == Some(s')
    ensures Untouched(Popper, s0, s')
  {
  }

  lemma BeginsUntouched(side: Side, run: seq<State>, j: nat, i: nat)
    requires Begins(side, run, j, i) && (side == Popper ==> run[j].thief.None?)
    ensures Untouched(side, run[j], run[j + 1])
  {
  }

  lemma {:induction false} AloneUntouched(side: Side, run: seq<State>, j: nat, k: nat, i: nat)
    requires IsRun(Init, Next, run) && Calling(side, run, j, k, i) && (side == Popper ==> run[j].thief.None?)
    requires forall m | j < m < k :: MovesAlone(side, run, m)
    ensures Untouched(side, run[j], run[k])
    decreases k
  {
    hide Init, Next, Begins, Untouched, MovesAlone, Active, ControlInv, Conserved, View, LowerBound, UpperBound, Readable;
    if k == j + 1 {
      BeginsUntouched(side, run, j, i);
    } else {
      assert Calling(side, run, j, k - 1, i);
      AloneUntouched(side, run, j, k - 1, i);
      RunKeepsInv(run, k - 1);
      assert MovesAlone(side, run, k - 1);
      StaysUntouched(side, run[j], run, k - 1);
    }
  }

  lemma StaysUntouched(side: Side, s0: State, run: seq<State>, m: nat)
    requires MovesAlone(side, run, m) && ControlInv(run[m]) && Active(side, run[m]) && Untouched(side, s0, run[m])
    ensures Untouched(side, s0, run[m + 1])
  {
    hide Untouched, ControlInv, OwnerStep, ThiefStep;
    var s, s' := run[m], run[m + 1];
    var hit: bool :| Step(s, if side == Popper then OwnerMove(hit) else ThiefMove(hit)) == Some(s');
    if side == Stealer {
      ThiefLeavesRest(s0, s, hit, s');
    } else if ContinuesPop(s.owner) {
      OwnerLeavesRest(s0, s, hit, s');
    } else {
      SettledLeavesRest(s0, s, hit, s');
    }
  }

  /** What the call finds where it looks, and the bound it reads, are as they were when it began. */
  lemma LooksAtOld(side: Side, s0: State, s: State, s': State)
    requires Untouched(side, s0, s)
    ensures forall p | LooksAt(side, s, s', p) && 0 <= p < |s.cells| ::
              |s.cells| == |s0.cells| && s.cells[p] == s0.cells[p] && if side == Popper then p < s0.tail else s0.head <= p
    ensures side == Popper && s.owner.Arbitrate? ==> s.head == s0.head
    ensures side == Stealer && s.thief.Some? ==> s.tail == s0.tail
  {
  }

  /** A task the call may take, and nothing it may take before. */
  predicate Nearest(side: Side, s: State, i: nat, p: int, t: Task) {
    && s.head <= p < s.tail && 0 <= p < |s.cells| && s.cells[p] == Item(t) && Allowed(i, t) && !t.proxy
    && forall q | First(side, s, p) <= q < Bound(side, s, p) && 0 <= q < |s.cells| && s.cells[q].Item? ::
         !Allowed(i, s.cells[q].task)
  }

  /** If no other thread makes a step during the call and there is a task it may take, it takes the youngest
      such task, if it is the owner's, or the oldest, if it is a thief's. */
  lemma TakesTheNearest(side: Side, run: seq<State>, j: nat, k: nat, i: nat, p: int, t: Task)
    requires IsRun(Init, Next, run) && Calling(side, run, j, k, i) && k + 1 < |run| && !Active(side, run[k + 1])
    requires (side == Popper ==> run[j].thief.None?) && forall m | j < m <= k :: MovesAlone(side, run, m)
    requires Nearest(side, run[j], i, p, t)
    ensures Took(side, run, j, k + 1, i, p, t)
  {
    hide Init, Next, Begins, Untouched, MovesAlone, Took, GaveUp, LooksAt;
    HowCallsEnd(side, run, j, k, i);
    forall m | j < m <= k ensures Untouched(side, run[j], run[m]) {
      assert Calling(side, run, j, m, i);
      AloneUntouched(side, run, j, m, i);
    }
    if SomethingTaken(side, run, j, k + 1, i) {
      var q, u :| Took(side, run, j, k + 1, i, q, u);
      TookNearest(side, run, j, k + 1, i, p, t, q, u);
    } else {
      NoGivingUp(side, run, j, k + 1, i, p, t);
    }
  }

  lemma NotRefused(side: Side, run: seq<State>, j: nat, k: nat, i: nat, p: int, t: Task)
    requires j < k < |run| && Nearest(side, run[j], i, p, t)
    requires forall m | j < m < k :: Untouched(side, run[j], run[m])
    ensures !Refused(side, run, j, k, i, p)
  {
    hide Untouched, LooksAt;
    forall m | j < m < k ensures !RefusesAt(side, run, m, i, p) {
      LooksAtOld(side, run[j], run[m], run[m + 1]);
    }
  }

  lemma TookNearest(side: Side, run: seq<State>, j: nat, k: nat, i: nat, p: int, t: Task, q: int, u: Task)
    requires j < k < |run| && Nearest(side, run[j], i, p, t) && Took(side, run, j, k, i, q, u)
    requires forall m | j < m < k :: Untouched(side, run[j], run[m])
    ensures q == p && u == t
  {
    hide Untouched, LooksAt, Refused;
    var m :| j < m < k && TookAt(side, run, j, m, i, q, u);
    LooksAtOld(side, run[j], run[m], run[m + 1]);
    NotRefused(side, run, j, m, i, p, t);
  }

  lemma NoGivingUp(side: Side, run: seq<State>, j: nat, k: nat, i: nat, p: int, t: Task)
    requires j < k < |run| && Nearest(side, run[j], i, p, t)
    requires forall m | j < m < k :: Untouched(side, run[j], run[m])
    ensures !GaveUp(side, run, j, k, i)
  {
    hide Untouched, Refused;
    NotRefused(side, run, j, k, i, p, t);
    forall m | j < m < k ensures !GaveUpAt(side, run, j, m, k, i) {
      LooksAtOld(side, run[j], run[m], run[m + 1]);
    }
  }

  /** What is left to do of a call that is not interfered with. */
  function Work(side: Side, s: State): nat {
    match side
    case Popper =>
      (match s.owner
       case Decrement(_) => 6 * Positive(s.tail + 1) + 5
       case ReadHead(_, t) => 6 * Positive(t + 2) + 4
       case Acquire(_, t) => 6 * Positive(t + 2) + 3
       case Arbitrate(_, t) => 6 * Positive(t + 2) + 2
       case Examine(_, t, _, _) => 6 * Positive(t + 2) + 1
       case MakeHole(_, _) => 2
       case RestoreTail(_) => 1
       case Republish(_, _) => 1
       case _ => 0)
    case Stealer =>
      if s.thief.None? then 0 else
      var h := s.thief.value.h;
      match s.thief.value.pc
      case Advance => 4 * Positive(s.tail + 1 - h) + 6
      case ReadTail => 4 * Positive(s.tail + 2 - h) + 5
      case Look => 4 * Positive(s.tail + 2 - h) + 4
      case Blank => 3
      case RollBack => 2
      case Unlock => 1
  }

  function Positive(x: int): nat {
    if x < 0 then 0 else x
  }

  /** Every step of a call brings it nearer to its end, as long as `tail` stays. */
  lemma CallsEnd(run: seq<State>, k: nat, side: Side, hit: bool, s': State)
    requires IsRun(Init, Next, run) && k < |run| && Active(side, run[k])
    requires Step(run[k], if side == Popper then OwnerMove(hit) else ThiefMove(hit)) == Some(s')
    ensures Work(side, s') < Work(side, run[k])
  {
    hide Init, Next, ControlInv, Conserved, Readable, OwnerStep, ThiefStep, Work;
    RunKeepsInv(run, k);
    if side == Popper {
      PopEnds(run[k], hit, s');
    } else {
      StealEnds(run[k], hit, s');
    }
  }

  lemma StealEnds(s: State, hit: bool, s': State)
    requires ControlInv(s) && s.thief.Some? && ThiefStep(s, s.thief.value, hit) == Some(s')
    ensures Work(Stealer, s') < Work(Stealer, s)
  {
    assert ThiefInv(s);
  }

  lemma PopEnds(s: State, hit: bool, s': State)
    requires ControlInv(s) && Popping(s.owner) && OwnerStep(s, hit) == Some(s')
    ensures Work(Popper, s') < Work(Popper, s)
  {
    if s.owner.Examine? {
      ExamineLeavesRest(s, hit, s');
      ExamineDecides(s, hit, s');
      hide OwnerStep;
    } else {
      hide ExamineStep;
    }
  }

  // ---------------------------------------------------------------- the lock word

  predicate NeedsLock(o: Owner) {
    o.Acquire? || o.Arbitrate?
  }

  lemma LockIsWanted(s: State, e: Event, s': State)
    requires Step(s, e) == Some(s') && Popping(s.owner) && ControlInv(s) && !NeedsLock(s.owner) && NeedsLock(s'.owner)
    ensures s.owner.ReadHead? && s.head > s.tail
  {
    assert OwnerInv(s);
    if s.owner.Examine? && e.OwnerMove? {
      ExamineLeavesRest(s, e.hit, s');
      hide OwnerStep;
    } else {
      hide ExamineStep, ThiefStep;
    }
  }

  /** The owner pops without the lock word as long as no thief has passed its position: a call in which `head`
      is never above the lowered `tail` neither waits for the lock word nor takes it. */
  lemma {:induction false} PopsWithoutLock(run: seq<State>, j: nat, k: nat, i: nat)
    requires IsRun(Init, Next, run) && Calling(Popper, run, j, k, i)
    requires forall m | j < m < k :: run[m].owner.ReadHead? ==> run[m].head <= run[m].tail
    ensures !NeedsLock(run[k].owner)
    decreases k
  {
    hide Init, Step, Inv, ControlInv;
    if j + 1 < k {
      PopsWithoutLock(run, j, k - 1, i);
      assert Next(run[k - 1], run[k - 1 + 1]);
      var e :| Step(run[k - 1], e) == Some(run[k]);
      RunKeepsInv(run, k - 1);
      InvIsControl(run[k - 1]);
      if NeedsLock(run[k].owner) { LockIsWanted(run[k - 1], e, run[k]); }
    } else {
      PopBegins(run[j], i, run[k]);
    }
  }

  lemma InvIsControl(s: State)
    requires Inv(s)
    ensures ControlInv(s)
  {
  }

  lemma PopBegins(s: State, i: nat, s': State)
    requires Step(s, GetTask(i)) == Some(s')
    ensures s'.owner.Decrement?
  {
  }

  lemma ExamineGivesUp(s: State, hit: bool, s': State)
    requires s.owner.Examine? && OwnerStep(s, hit) == Some(s')
    ensures s'.owner.Idle? && s'.returned == s.returned ==>
              s.owner.emptied && s'.word == s.word && s'.head == s.head && s'.tail == s.tail
  {
    if s.cells[s.owner.t].Item? {
      var task := s.cells[s.owner.t].task;
      assert (s.returned + multiset{task})[task] == s.returned[task] + 1;
    }
  }

  /** Under the lock word the owner leaves the pool, so that thieves pass it by, if and only if nothing is left
      below its position; and a call that found nothing, and skipped nothing, has left the pool. */
  lemma LeavesDrainedPool(run: seq<State>, k: nat, hit: bool)
    requires IsRun(Init, Next, run) && k < |run| && Popping(run[k].owner) && OwnerStep(run[k], hit).Some?
    ensures var s, s' := run[k], OwnerStep(run[k], hit).value;
            && (s.owner.Arbitrate? ==>
                  && (s'.word == Empty <==> s.head >= s.tail)
                  && (s'.word == Empty ==> s'.head == s'.tail == 0))
            && (s'.owner.Idle? && s'.returned == s.returned && !s.owner.RestoreTail? && !s.owner.Republish? ==>
                  s'.word == Empty && s'.head == s'.tail == 0)
  {
    hide Init, Next, IsRun, Inv, ExamineStep;
    RunKeepsInv(run, k);
    var s := run[k];
    InvIsControl(s);
    assert LockInv(s) && OwnerInv(s);
    if s.owner.Examine? {
      ExamineGivesUp(s, hit, OwnerStep(s, hit).value);
    }
  }

  // ---------------------------------------------------------------- spawning

  /** What is left of a spawn. */
  function SpawnWork(o: Owner): nat {
    match o
    case WriteCell(_, _) => 3
    case CommitTail(_, _) => 2
    case PublishPool => 1
    case _ => 0
  }

  /** A spawn is never held up: after three steps the owner is idle again, the task is the youngest in the pool, and the
      pool is there for thieves. */
  lemma SpawnPublishes(run: seq<State>, k: nat, hit: bool)
    requires IsRun(Init, Next, run) && k < |run| && SpawnWork(run[k].owner) > 0
    ensures OwnerStep(run[k], hit).Some?
    ensures var s, s' := run[k], OwnerStep(run[k], hit).value;
            && SpawnWork(s'.owner) == SpawnWork(s.owner) - 1
            && (s'.owner.PublishPool? ==>
                  && s'.spawned == s.spawned + multiset{s.owner.task}
                  && 0 < s'.tail <= |s'.cells| && s'.cells[s'.tail - 1] == Item(s.owner.task))
            && (SpawnWork(s'.owner) == 0 ==> s'.owner.Idle? && s'.word != Empty && s'.cells == s.cells && s'.tail == s.tail)
  {
    hide Init, Next, IsRun, Inv, ExamineStep;
    RunKeepsInv(run, k);
    InvIsControl(run[k]);
    assert OwnerInv(run[k]);
  }
}

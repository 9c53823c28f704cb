/**
 * The slack accounting of `private_server`: callers that raise or lower the estimate of useful jobs,
 * the claiming of slack by compare-and-swap, the list of asleep workers under its mutex, and the chain
 * reaction in which every woken worker wakes up to two more. The model covers the time before shutdown.
 *
 * A load followed by a successful compare-and-swap of the loaded value is one step, a failed one none.
 * Before shutdown only the call that popped a worker notifies it, so that notification is one step.
 */
module WorkerSlack {
  import opened Behaviors
  import opened Sums

  datatype Worker =
    | OnList              // asleep, or without a thread yet
    | Popped(popper: nat) // taken from the list by a call that has not notified it yet
    | Propagating         // notified or launched, about to look at the list
    | Waking(call: nat)   // inside wake_some(0)
    | Running
    | Drowsy              // has seen negative slack, about to try the mutex
    | Checking            // holds the mutex inside try_insert_in_asleep_list
    | Inserting           // has given its unit of slack back, about to store the list root

  /** A call of adjust_job_count_estimate or wake_some. */
  datatype Call =
    | Adjust(delta: int)
    | Claim(units: nat)                        // allotted_slack so far
    | Pop(units: nat)                          // waits for the mutex
    | Return(wakees: seq<nat>, unused: nat)    // holds the mutex, root stored
    | Wake(wakees: seq<nat>)
    | Done

  datatype Mutex = Free | ByCall(call: nat) | ByWorker(worker: nat)

  datatype State = State(
    slack: int, list: seq<nat>, mutex: Mutex, workers: seq<Worker>, calls: seq<Call>, requested: int)

  datatype Event = Request(delta: int) | CallMove(call: nat) | WorkerMove(worker: nat)

  predicate Init(s: State) {
    s == State(0, seq(|s.workers|, i => |s.workers| - 1 - i), Free, seq(|s.workers|, _ => OnList), [], 0)
  }

  function Min(a: int, b: int): int { if a < b then a else b }

  function PopWorkers(workers: seq<Worker>, ws: seq<nat>, c: nat): (r: seq<Worker>)
    ensures |r| == |workers|
  {
    seq(|workers|, i requires 0 <= i < |workers| => if i in ws then Popped(c) else workers[i])
  }

  function CallStep(s: State, c: nat): Option<State> {
    if c >= |s.calls| then None else
    match s.calls[c]
    case Adjust(delta) =>
      Some(s.(slack := s.slack + delta, calls := s.calls[c := if delta > 0 then Claim(0) else Done]))
    case Claim(units) =>
      if s.slack > 0 && units < 2 then Some(s.(slack := s.slack - 1, calls := s.calls[c := Claim(units + 1)]))
      else Some(s.(calls := s.calls[c := if units > 0 then Pop(units) else Done]))
    case Pop(units) =>
      if s.mutex != Free then None
      else
        var n := Min(units, |s.list|);
        Some(s.(mutex := ByCall(c), list := s.list[n..], workers := PopWorkers(s.workers, s.list[..n], c),
                calls := s.calls[c := Return(s.list[..n], units - n)]))
    case Return(wakees, unused) =>
      Some(s.(slack := s.slack + unused, mutex := Free, calls := s.calls[c := Wake(wakees)]))
    case Wake(wakees) =>
      if wakees == [] then Some(s.(calls := s.calls[c := Done]))
      else
        var w := wakees[|wakees| - 1];
        if w >= |s.workers| then None
        else Some(s.(workers := s.workers[w := Propagating], calls := s.calls[c := Wake(wakees[..|wakees| - 1])]))
    case Done => None
  }

  function WorkerStep(s: State, w: nat): Option<State> {
    if w >= |s.workers| then None else
    match s.workers[w]
    case OnList => None
    case Popped(_) => None
    case Propagating =>
      if s.list == [] then Some(s.(workers := s.workers[w := Running]))
      else Some(s.(calls := s.calls + [Claim(0)], workers := s.workers[w := Waking(|s.calls|)]))
    case Waking(c) =>
      if c < |s.calls| && s.calls[c].Done? then Some(s.(workers := s.workers[w := Running])) else None
    case Running =>
      Some(s.(workers := s.workers[w := if s.slack < 0 then Drowsy else Running]))
    case Drowsy =>
      if s.mutex == Free then Some(s.(mutex := ByWorker(w), workers := s.workers[w := Checking]))
      else Some(s.(workers := s.workers[w := Running]))
    case Checking =>
      if s.slack < 0 then Some(s.(slack := s.slack + 1, workers := s.workers[w := Inserting]))
      else Some(s.(mutex := Free, workers := s.workers[w := Running]))
    case Inserting =>
      Some(s.(list := [w] + s.list, mutex := Free, workers := s.workers[w := OnList]))
  }

  function Step(s: State, e: Event): Option<State> {
    match e
    case Request(delta) => Some(s.(requested := s.requested + delta, calls := s.calls + [Adjust(delta)]))
    case CallMove(c) => CallStep(s, c)
    case WorkerMove(w) => WorkerStep(s, w)
  }

  ghost predicate Next(s: State, s': State) {
    exists e :: Step(s, e) == Some(s')
  }

  // ---------------------------------------------------------------- accounting

  /** Slack a call still has to add, or holds and has not combined with a worker. */
  function Units(c: Call): int {
    match c
    case Adjust(delta) => delta
    case Claim(units) => units
    case Pop(units) => units
    case Return(_, unused) => unused
    case _ => 0
  }

  /** One for a worker that counts as active: it is neither on the list nor committed to it. */
  function Active(w: Worker): int {
    if w.OnList? || w.Inserting? then 0 else 1
  }

  ghost predicate Balanced(s: State) {
    s.requested == s.slack + Sum(s.calls, Units) + Sum(s.workers, Active)
  }

  // ---------------------------------------------------------------- invariant

  /** The list holds each worker in state OnList once and nobody else. */
  predicate ListInv(s: State) {
    && (forall i | 0 <= i < |s.list| :: s.list[i] < |s.workers| && s.workers[s.list[i]] == OnList)
    && (forall i, j | 0 <= i < j < |s.list| :: s.list[i] != s.list[j])
    && (forall w | 0 <= w < |s.workers| && s.workers[w] == OnList :: w in s.list)
  }

  function Wakees(c: Call): seq<nat> {
    match c
    case Return(wakees, _) => wakees
    case Wake(wakees) => wakees
    case _ => []
  }

  /** The workers a call has to notify are those it popped, each once. */
  predicate WakeesInv(s: State) {
    && (forall c, i | 0 <= c < |s.calls| && 0 <= i < |Wakees(s.calls[c])| ::
          Wakees(s.calls[c])[i] < |s.workers| && s.workers[Wakees(s.calls[c])[i]] == Popped(c))
    && (forall c, i, j | 0 <= c < |s.calls| && 0 <= i < j < |Wakees(s.calls[c])| ::
          Wakees(s.calls[c])[i] != Wakees(s.calls[c])[j])
  }

  predicate MutexInv(s: State) {
    && (forall c | 0 <= c < |s.calls| :: s.calls[c].Return? <==> s.mutex == ByCall(c))
    && (forall w | 0 <= w < |s.workers| :: s.workers[w].Checking? || s.workers[w].Inserting? <==> s.mutex == ByWorker(w))
    && (s.mutex.ByCall? ==> s.mutex.call < |s.calls|)
    && (s.mutex.ByWorker? ==> s.mutex.worker < |s.workers|)
    // Units come back unused only when the list has run empty.
    && (s.mutex.ByCall? && s.mutex.call < |s.calls| && Units(s.calls[s.mutex.call]) > 0 ==> s.list == [])
  }

  /** A call that holds claimed units, or may still claim some. */
  predicate CallPending(c: Call) {
    c.Claim? || c.Pop?
  }

  ghost predicate SomeCallPending(s: State) {
    exists c :: 0 <= c < |s.calls| && CallPending(s.calls[c])
  }

  /** Somebody who has been woken, or is about to be, has not yet looked at the list. */
  ghost predicate SomeWorkerPending(s: State) {
    exists w :: 0 <= w < |s.workers| && (s.workers[w].Popped? || s.workers[w].Propagating?)
  }

  ghost predicate WakeOwed(s: State) {
    SomeCallPending(s) || SomeWorkerPending(s)
  }

  predicate InsertionPending(s: State) {
    s.mutex.ByWorker? && s.mutex.worker < |s.workers| && s.workers[s.mutex.worker].Inserting?
  }

  /** No wake is lost: positive slack next to a sleeping worker is somebody's business. */
  ghost predicate NoLostWake(s: State) {
    && (s.slack > 0 && s.list != [] ==> WakeOwed(s))
    && (s.slack > 0 && InsertionPending(s) ==> SomeCallPending(s))
  }

  predicate Shape(s: State) {
    && ListInv(s)
    && WakeesInv(s)
    && MutexInv(s)
    && (forall c | 0 <= c < |s.calls| && s.calls[c].Pop? :: s.calls[c].units > 0)
  }

  ghost predicate Inv(s: State) {
    && Shape(s)
    && Balanced(s)
    && NoLostWake(s)
  }

  // ---------------------------------------------------------------- steps of a call

  /** A step that touches no list, no mutex and no worker, and a call that holds no wakees. */
  lemma CallsKeepShape(s: State, s': State)
    requires Shape(s) && s'.list == s.list && s'.mutex == s.mutex && s'.workers == s.workers
    requires |s.calls| <= |s'.calls|
    requires forall d | 0 <= d < |s.calls| ::
               s'.calls[d] == s.calls[d]
               || (!s.calls[d].Return? && !s.calls[d].Wake? && !s'.calls[d].Return? && !s'.calls[d].Wake?
                   && (s'.calls[d].Pop? ==> s'.calls[d].units > 0))
    requires forall d | |s.calls| <= d < |s'.calls| :: s'.calls[d].Adjust? || s'.calls[d].Claim?
    ensures Shape(s')
  {
  }

  lemma PendingCallStays(s: State, s': State)
    requires |s.calls| <= |s'.calls|
    requires forall d | 0 <= d < |s.calls| && CallPending(s.calls[d]) :: CallPending(s'.calls[d])
    ensures SomeCallPending(s) ==> SomeCallPending(s')
  {
    if SomeCallPending(s) {
      var d :| 0 <= d < |s.calls| && CallPending(s.calls[d]);
      assert CallPending(s'.calls[d]);
    }
  }

  lemma RequestKeepsInv(s: State, delta: int, s': State)
    requires Inv(s) && Step(s, Request(delta)) == Some(s')
    ensures Inv(s')
  {
    hide Shape, Sum, Balanced, SomeCallPending, SomeWorkerPending;
    CallsKeepShape(s, s');
    PendingCallStays(s, s');
    PendingWorkerStays(s, s');
    RequestBalances(s, delta, s');
  }

  lemma RequestBalances(s: State, delta: int, s': State)
    requires Balanced(s) && Step(s, Request(delta)) == Some(s')
    ensures Balanced(s')
  {
    hide Sum;
    SumAppend(s.calls, Adjust(delta), Units);
  }

  lemma PendingWorkerStays(s: State, s': State)
    requires s'.workers == s.workers
    ensures SomeWorkerPending(s) ==> SomeWorkerPending(s')
  {
  }

  lemma AdjustKeepsInv(s: State, c: nat, s': State)
    requires Inv(s) && CallStep(s, c) == Some(s') && s.calls[c].Adjust?
    ensures Inv(s')
  {
    hide Shape;
    CallsKeepShape(s, s');
    PendingCallStays(s, s');
    SumUpdate(s.calls, c, s'.calls[c], Units);
    assert s.calls[c].delta > 0 ==> CallPending(s'.calls[c]);
  }

  lemma ClaimKeepsInv(s: State, c: nat, s': State)
    requires Inv(s) && CallStep(s, c) == Some(s') && s.calls[c].Claim?
    ensures Inv(s')
  {
    hide Shape;
    CallsKeepShape(s, s');
    SumUpdate(s.calls, c, s'.calls[c], Units);
    assert s'.slack > 0 ==> CallPending(s'.calls[c]);
  }

  /** Popping distinct listed workers makes as many workers active. */
  lemma {:induction false} SumOfPopped(workers: seq<Worker>, ws: seq<nat>, c: nat)
    requires forall i | 0 <= i < |ws| :: ws[i] < |workers| && workers[ws[i]] == OnList
    requires forall i, j | 0 <= i < j < |ws| :: ws[i] != ws[j]
    ensures Sum(PopWorkers(workers, ws, c), Active) == Sum(workers, Active) + |ws|
  {
    if ws == [] {
      assert PopWorkers(workers, ws, c) == workers;
    } else {
      var rest := ws[1..];
      var most := PopWorkers(workers, rest, c);
      assert most[ws[0]] == OnList;
      SumOfPopped(workers, rest, c);
      assert PopWorkers(workers, ws, c) == most[ws[0] := Popped(c)];
      SumUpdate(most, ws[0], Popped(c), Active);
    }
  }

  lemma PopKeepsList(s: State, c: nat, s': State)
    requires Shape(s) && CallStep(s, c) == Some(s') && s.calls[c].Pop?
    ensures ListInv(s')
  {
    hide WakeesInv, MutexInv;
    var n := Min(s.calls[c].units, |s.list|);
    assert forall i | 0 <= i < |s'.list| :: s'.list[i] == s.list[n + i];
    forall w | w in s.list
      ensures w in s.list[..n] || w in s.list[n..]
    {
    }
  }

  lemma PopKeepsWakees(s: State, c: nat, s': State)
    requires Shape(s) && CallStep(s, c) == Some(s') && s.calls[c].Pop?
    ensures WakeesInv(s')
  {
    hide MutexInv;
    assert forall d | 0 <= d < |s.calls| && d != c :: s'.calls[d] == s.calls[d];
    var ws := s'.calls[c].wakees;
    assert Wakees(s'.calls[c]) == ws;
    assert forall i | 0 <= i < |ws| :: ws[i] in ws && ws[i] == s.list[i];
    forall d, i | 0 <= d < |s'.calls| && 0 <= i < |Wakees(s'.calls[d])|
      ensures Wakees(s'.calls[d])[i] < |s'.workers| && s'.workers[Wakees(s'.calls[d])[i]] == Popped(d)
    {
      assert d != c ==> Wakees(s.calls[d])[i] == Wakees(s'.calls[d])[i];
    }
  }

  lemma PopKeepsShape(s: State, c: nat, s': State)
    requires Shape(s) && CallStep(s, c) == Some(s') && s.calls[c].Pop?
    ensures Shape(s')
  {
    PopKeepsList(s, c, s');
    PopKeepsWakees(s, c, s');
    hide ListInv, WakeesInv;
    var n := Min(s.calls[c].units, |s.list|);
    PoppedWorkersAreListed(s, n);
    assert forall w | 0 <= w < |s.workers| && w in s.list[..n] :: s.workers[w] == OnList;
  }

  lemma PoppedWorkersAreListed(s: State, n: nat)
    requires ListInv(s) && n <= |s.list|
    ensures forall i | 0 <= i < n :: s.list[..n][i] < |s.workers| && s.workers[s.list[..n][i]] == OnList
    ensures forall i, j | 0 <= i < j < n :: s.list[..n][i] != s.list[..n][j]
  {
  }

  lemma PopKeepsBalance(s: State, c: nat, s': State)
    requires Shape(s) && Balanced(s) && CallStep(s, c) == Some(s') && s.calls[c].Pop?
    ensures Balanced(s')
  {
    var n := Min(s.calls[c].units, |s.list|);
    PoppedWorkersAreListed(s, n);
    hide Shape, Units, Active;
    SumUpdate(s.calls, c, s'.calls[c], Units);
    SumOfPopped(s.workers, s.list[..n], c);
    UnitsOfPop(s.calls[c], s'.calls[c]);
  }

  /** Either the list has run empty, or somebody was popped and will look at it. */
  lemma PopOwesWake(s: State, c: nat, s': State)
    requires Shape(s) && CallStep(s, c) == Some(s') && s.calls[c].Pop?
    ensures s'.mutex == ByCall(c) && (s'.list == [] || SomeWorkerPending(s'))
  {
    if s'.list != [] {
      var n := Min(s.calls[c].units, |s.list|);
      assert s.list[0] in s.list[..n];
      assert s'.workers[s.list[0]] == Popped(c);
    }
  }

  lemma PopKeepsInv(s: State, c: nat, s': State)
    requires Inv(s) && CallStep(s, c) == Some(s') && s.calls[c].Pop?
    ensures Inv(s')
  {
    hide Shape, Balanced;
    PopKeepsShape(s, c, s');
    PopKeepsBalance(s, c, s');
    PopOwesWake(s, c, s');
  }

  lemma UnitsOfPop(c: Call, c': Call)
    requires c.Pop? && c'.Return? && c.units == |c'.wakees| + c'.unused
    ensures Units(c') == Units(c) - |c'.wakees|
  {
  }

  lemma ReturnKeepsShape(s: State, c: nat, s': State)
    requires Shape(s) && CallStep(s, c) == Some(s') && s.calls[c].Return?
    ensures Shape(s')
  {
    assert forall d | 0 <= d < |s.calls| && d != c :: s'.calls[d] == s.calls[d];
    assert Wakees(s'.calls[c]) == Wakees(s.calls[c]);
    assert forall d | 0 <= d < |s.calls| :: Wakees(s'.calls[d]) == Wakees(s.calls[d]);
  }

  lemma ReturnKeepsInv(s: State, c: nat, s': State)
    requires Inv(s) && CallStep(s, c) == Some(s') && s.calls[c].Return?
    ensures Inv(s')
  {
    ReturnKeepsShape(s, c, s');
    assert s.calls[c].unused > 0 ==> s.list == [];
    hide Shape;
    SumUpdate(s.calls, c, s'.calls[c], Units);
    if SomeCallPending(s) {
      var d :| 0 <= d < |s.calls| && CallPending(s.calls[d]);
      assert CallPending(s'.calls[d]);
    }
  }

  /** One notification, or the end of the call. */
  lemma WakeEffect(s: State, c: nat, s': State)
    requires WakeesInv(s) && CallStep(s, c) == Some(s') && s.calls[c].Wake?
    ensures s'.list == s.list && s'.mutex == s.mutex && |s'.workers| == |s.workers|
    ensures c < |s.calls| == |s'.calls| && s'.calls == s.calls[c := s'.calls[c]]
    ensures var ws := s.calls[c].wakees;
            if ws == [] then s'.workers == s.workers && s'.calls[c] == Done
            else
              && ws[|ws| - 1] < |s.workers| && s.workers[ws[|ws| - 1]] == Popped(c)
              && s'.workers == s.workers[ws[|ws| - 1] := Propagating] && s'.calls[c] == Wake(ws[..|ws| - 1])
  {
    var ws := s.calls[c].wakees;
    assert ws != [] ==> Wakees(s.calls[c])[|ws| - 1] == ws[|ws| - 1];
  }

  lemma WakeKeepsWakees(s: State, c: nat, s': State)
    requires WakeesInv(s) && CallStep(s, c) == Some(s') && s.calls[c].Wake?
    ensures WakeesInv(s')
  {
    hide CallStep;
    WakeEffect(s, c, s');
    var ws := s.calls[c].wakees;
    forall d, i | 0 <= d < |s'.calls| && 0 <= i < |Wakees(s'.calls[d])|
      ensures Wakees(s'.calls[d])[i] < |s'.workers| && s'.workers[Wakees(s'.calls[d])[i]] == Popped(d)
    {
      assert Wakees(s.calls[d])[i] == Wakees(s'.calls[d])[i];
      assert d == c ==> Wakees(s.calls[c])[i] != Wakees(s.calls[c])[|ws| - 1];
    }
    forall d, i, j | 0 <= d < |s'.calls| && 0 <= i < j < |Wakees(s'.calls[d])|
      ensures Wakees(s'.calls[d])[i] != Wakees(s'.calls[d])[j]
    {
      assert Wakees(s.calls[d])[i] != Wakees(s.calls[d])[j];
      assert Wakees(s.calls[d])[i] == Wakees(s'.calls[d])[i] && Wakees(s.calls[d])[j] == Wakees(s'.calls[d])[j];
    }
  }

  lemma WakeKeepsShape(s: State, c: nat, s': State)
    requires Shape(s) && CallStep(s, c) == Some(s') && s.calls[c].Wake?
    ensures Shape(s')
    ensures s.calls[c].wakees != [] ==>
              var w := s.calls[c].wakees[|s.calls[c].wakees| - 1];
              w < |s.workers| && s.workers[w] == Popped(c)
  {
    hide CallStep, WakeesInv;
    WakeEffect(s, c, s');
    WakeKeepsWakees(s, c, s');
  }

  lemma WakeKeepsInv(s: State, c: nat, s': State)
    requires Inv(s) && CallStep(s, c) == Some(s') && s.calls[c].Wake?
    ensures Inv(s')
  {
    WakeKeepsShape(s, c, s');
    hide Shape;
    SumUpdate(s.calls, c, s'.calls[c], Units);
    if SomeCallPending(s) {
      var d :| 0 <= d < |s.calls| && CallPending(s.calls[d]);
      assert CallPending(s'.calls[d]);
    }
    var ws := s.calls[c].wakees;
    if ws != [] {
      var w := ws[|ws| - 1];
      SumUpdate(s.workers, w, Propagating, Active);
      assert s'.workers[w].Propagating?;
    }
  }

  // ---------------------------------------------------------------- steps of a worker

  /** A worker that is neither on the list nor popped nor inside the mutex. */
  predicate Loose(w: Worker) {
    w.Propagating? || w.Waking? || w.Running? || w.Drowsy?
  }

  lemma LooseMoveKeepsShape(s: State, w: nat, s': State)
    requires Shape(s) && w < |s.workers| == |s'.workers| && Loose(s.workers[w]) && Loose(s'.workers[w])
    requires s'.workers == s.workers[w := s'.workers[w]]
    requires s'.list == s.list && s'.mutex == s.mutex
    requires s'.calls == s.calls || s'.calls == s.calls + [Claim(0)]
    ensures Shape(s')
  {
  }

  lemma LooseMoveKeepsInv(s: State, w: nat, s': State)
    requires Inv(s) && w < |s.workers| && WorkerStep(s, w) == Some(s')
    requires Loose(s.workers[w]) && Loose(s'.workers[w])
    ensures Inv(s')
  {
    hide Shape;
    LooseMoveKeepsShape(s, w, s');
    SumUpdate(s.workers, w, s'.workers[w], Active);
    SumAppend(s.calls, Claim(0), Units);
    PendingCallStays(s, s');
    if s'.calls != s.calls {
      assert CallPending(s'.calls[|s.calls|]);
    } else if !s.workers[w].Propagating? && SomeWorkerPending(s) {
      var v :| 0 <= v < |s.workers| && (s.workers[v].Popped? || s.workers[v].Propagating?);
      assert s'.workers[v] == s.workers[v];
    }
  }

  lemma CheckKeepsShape(s: State, w: nat, s': State)
    requires Shape(s) && w < |s.workers| && WorkerStep(s, w) == Some(s')
    requires s.workers[w].Checking? || s'.workers[w].Checking?
    ensures Shape(s') && (s'.mutex == ByWorker(w) || s'.mutex == Free)
  {
    hide WorkerStep, ListInv, WakeesInv;
    CheckEffect(s, w, s');
    CheckKeepsLists(s, w, s');
  }

  /** A worker takes the mutex, or leaves the check with or without it. */
  lemma CheckEffect(s: State, w: nat, s': State)
    requires MutexInv(s) && w < |s.workers| && WorkerStep(s, w) == Some(s')
    requires s.workers[w].Checking? || s'.workers[w].Checking?
    ensures s'.list == s.list && s'.calls == s.calls && |s'.workers| == |s.workers|
    ensures s'.workers == s.workers[w := s'.workers[w]]
    ensures InCheck(s.workers[w]) && InCheck(s'.workers[w])
    ensures s.mutex == if s.workers[w].Checking? then ByWorker(w) else Free
    ensures s'.mutex == if s'.workers[w].Checking? || s'.workers[w].Inserting? then ByWorker(w) else Free
    ensures !s.workers[w].Inserting?
  {
  }

  predicate InCheck(x: Worker) {
    x.Running? || x.Drowsy? || x.Checking? || x.Inserting?
  }

  lemma CheckKeepsLists(s: State, w: nat, s': State)
    requires ListInv(s) && WakeesInv(s) && w < |s.workers| == |s'.workers|
    requires s'.list == s.list && s'.calls == s.calls && s'.workers == s.workers[w := s'.workers[w]]
    requires InCheck(s.workers[w]) && InCheck(s'.workers[w])
    ensures ListInv(s') && WakeesInv(s')
  {
  }

  lemma CheckKeepsInv(s: State, w: nat, s': State)
    requires Inv(s) && w < |s.workers| && WorkerStep(s, w) == Some(s')
    requires s.workers[w].Checking? || s'.workers[w].Checking?
    ensures Inv(s')
  {
    hide Shape;
    CheckKeepsShape(s, w, s');
    SumUpdate(s.workers, w, s'.workers[w], Active);
    PendingCallStays(s, s');
    if SomeWorkerPending(s) {
      var v :| 0 <= v < |s.workers| && (s.workers[v].Popped? || s.workers[v].Propagating?);
      assert s'.workers[v] == s.workers[v];
    }
  }

  lemma InsertKeepsShape(s: State, w: nat, s': State)
    requires Shape(s) && w < |s.workers| && WorkerStep(s, w) == Some(s') && s.workers[w].Inserting?
    ensures Shape(s') && s.mutex == ByWorker(w)
  {
    assert forall v | 0 <= v < |s.workers| && v != w :: s'.workers[v] == s.workers[v];
    assert forall i | 0 < i < |s'.list| :: s'.list[i] == s.list[i - 1];
    assert s'.list[0] == w && forall v | v in s.list :: v in s'.list;
  }

  lemma InsertKeepsInv(s: State, w: nat, s': State)
    requires Inv(s) && w < |s.workers| && WorkerStep(s, w) == Some(s') && s.workers[w].Inserting?
    ensures Inv(s')
  {
    hide Shape;
    InsertKeepsShape(s, w, s');
    SumUpdate(s.workers, w, OnList, Active);
    PendingCallStays(s, s');
    assert InsertionPending(s);
  }

  // ---------------------------------------------------------------- every run

  lemma CallKeepsInv(s: State, c: nat, s': State)
    requires Inv(s) && CallStep(s, c) == Some(s')
    ensures Inv(s')
  {
    hide Inv;
    match s.calls[c]
    case Adjust(_) => AdjustKeepsInv(s, c, s');
    case Claim(_) => ClaimKeepsInv(s, c, s');
    case Pop(_) => PopKeepsInv(s, c, s');
    case Return(_, _) => ReturnKeepsInv(s, c, s');
    case Wake(_) => WakeKeepsInv(s, c, s');
    case Done =>
  }

  lemma WorkerKeepsInv(s: State, w: nat, s': State)
    requires Inv(s) && WorkerStep(s, w) == Some(s')
    ensures Inv(s')
  {
    hide Inv;
    if Loose(s.workers[w]) && Loose(s'.workers[w]) {
      LooseMoveKeepsInv(s, w, s');
    } else if s.workers[w].Inserting? {
      InsertKeepsInv(s, w, s');
    } else {
      CheckKeepsInv(s, w, s');
    }
  }

  lemma StepKeepsInv(s: State, s': State)
    requires Inv(s) && Next(s, s')
    ensures Inv(s')
  {
    hide Inv;
    var e :| Step(s, e) == Some(s');
    match e
    case Request(delta) => RequestKeepsInv(s, delta, s');
    case CallMove(c) => CallKeepsInv(s, c, s');
    case WorkerMove(w) => WorkerKeepsInv(s, w, s');
  }

  lemma InitHasInv(s: State)
    requires Init(s)
    ensures Inv(s)
  {
    var n := |s.workers|;
    SumConstant(s.workers, Active, 0);
    forall w | 0 <= w < n
      ensures w in s.list
    {
      assert s.list[n - 1 - w] == w;
    }
  }

  lemma RunKeepsInv(run: seq<State>, k: nat)
    requires IsRun(Init, Next, run) && k < |run|
    ensures Inv(run[k])
  {
    hide Inv;
    forall s | Init(s)
      ensures Inv(s)
    {
      InitHasInv(s);
    }
    forall s, s' | Inv(s) && Next(s, s')
      ensures Inv(s')
    {
      StepKeepsInv(s, s');
    }
    InvariantInRun(Init, Next, Inv, run, k);
  }

  /** In every reachable state the jobs requested are the slack, the units that calls have to add or
      hold, and the active workers; and slack next to a sleeping worker is owed a wake by somebody. */
  lemma SlackIsConserved(run: seq<State>, k: nat)
    requires IsRun(Init, Next, run) && k < |run|
    ensures run[k].requested == run[k].slack + Sum(run[k].calls, Units) + Sum(run[k].workers, Active)
    ensures run[k].slack > 0 && run[k].list != [] ==> WakeOwed(run[k])
  {
    RunKeepsInv(run, k);
  }

  /** Nobody is inside a call and nobody woken has still to look around. */
  ghost predicate Settled(s: State) {
    && (forall c | 0 <= c < |s.calls| :: s.calls[c].Done?)
    && !SomeWorkerPending(s)
  }

  /** Once the calls and the chain reaction are over, at least as many workers are active as there are
      jobs requested, or all of them are. */
  lemma EnoughWorkersAwake(run: seq<State>, k: nat)
    requires IsRun(Init, Next, run) && k < |run| && Settled(run[k])
    ensures Sum(run[k].workers, Active) >= Min(run[k].requested, |run[k].workers|)
  {
    RunKeepsInv(run, k);
    var s := run[k];
    SumConstant(s.calls, Units, 0);
    if s.slack > 0 {
      assert !SomeCallPending(s);
      assert s.list == [] && !InsertionPending(s);
      forall w | 0 <= w < |s.workers|
        ensures Active(s.workers[w]) == 1
      {
        assert !s.workers[w].OnList?;
      }
      SumConstant(s.workers, Active, 1);
    }
  }

  /** Nobody waits for nothing: a call that is not over can go on, or waits for the mutex, whose holder can; and so
      can a worker that is not asleep, unless it is inside such a call. */
  lemma NobodyStuck(run: seq<State>, k: nat, c: nat, w: nat)
    requires IsRun(Init, Next, run) && k < |run|
    ensures c < |run[k].calls| && !run[k].calls[c].Done? ==>
              || CallStep(run[k], c).Some?
              || (run[k].calls[c].Pop? && match run[k].mutex
                                          case ByCall(d) => CallStep(run[k], d).Some?
                                          case ByWorker(v) => WorkerStep(run[k], v).Some?
                                          case Free => false)
    ensures w < |run[k].workers| ==>
              match run[k].workers[w]
              case OnList => w in run[k].list
              case Popped(d) => d < |run[k].calls| && !run[k].calls[d].Done?
              case Waking(d) => d < |run[k].calls| && (run[k].calls[d].Done? ==> WorkerStep(run[k], w).Some?)
              case _ => WorkerStep(run[k], w).Some?
    ensures w < |run[k].workers| && WorkerStep(run[k], w).Some? && (run[k].workers[w] != Running || run[k].slack < 0) ==>
              WorkerStep(run[k], w).value.workers[w] != run[k].workers[w]
  {
    RunKeepsInv(run, k);
    CallsAreThere(run, k);
    PoppedIsOwed(run, k);
    hide Init, Next, IsRun;
    var s := run[k];
    if c < |s.calls| && s.calls[c].Wake? && s.calls[c].wakees != [] {
      assert Wakees(s.calls[c])[|s.calls[c].wakees| - 1] < |s.workers|;
    }
  }

  /** A call claims at most two units, and has a worker or an unused unit for each. */
  predicate CallOk(c: Call) {
    match c
    case Claim(units) => units <= 2
    case Pop(units) => 0 < units <= 2
    case Return(wakees, unused) => 0 < |wakees| + unused <= 2
    case Wake(wakees) => |wakees| <= 2
    case _ => true
  }

  predicate CallsOk(s: State) {
    forall c | 0 <= c < |s.calls| :: CallOk(s.calls[c])
  }

  /** How many steps a call has left at most. */
  function StepsLeft(c: Call): int {
    match c
    case Adjust(_) => 9
    case Claim(units) => 8 - units
    case Pop(_) => 5
    case Return(wakees, _) => 2 + |wakees|
    case Wake(wakees) => 1 + |wakees|
    case Done => 0
  }

  lemma RunCallsOk(run: seq<State>, k: nat)
    requires IsRun(Init, Next, run) && k < |run|
    ensures CallsOk(run[k])
  {
    forall s, s' | CallsOk(s) && Next(s, s') ensures CallsOk(s') {
      var e :| Step(s, e) == Some(s');
    }
    InvariantInRun(Init, Next, CallsOk, run, k);
  }

  /** A call is over after nine of its own steps. It claims slack only while there is some, stops claiming only
      with two units or without slack, and accounts for every unit: with a worker it pops, or by giving it back. */
  lemma CallsEnd(run: seq<State>, k: nat, c: nat, s': State)
    requires IsRun(Init, Next, run) && k < |run| && CallStep(run[k], c) == Some(s')
    ensures 0 <= StepsLeft(s'.calls[c]) < StepsLeft(run[k].calls[c]) <= 9
    ensures run[k].calls[c].Claim? ==>
              var units := run[k].calls[c].units;
              if s'.calls[c].Claim? then run[k].slack > 0 && s'.slack == run[k].slack - 1 && s'.calls[c].units == units + 1
              else units == 2 || (units < 2 && run[k].slack <= 0)
    ensures run[k].calls[c].Pop? && s'.calls[c].Return? ==>
              var wakees := s'.calls[c].wakees;
              && run[k].list == wakees + s'.list && run[k].calls[c].units == |wakees| + s'.calls[c].unused
              && (s'.calls[c].unused > 0 ==> s'.list == [])
  {
    RunCallsOk(run, k);
    hide Init, Next, IsRun;
    assert CallOk(run[k].calls[c]);
  }

  /** A popped worker is in the list of the call that popped it. */
  predicate PoppedOwed(s: State) {
    forall w | 0 <= w < |s.workers| && s.workers[w].Popped? ::
      s.workers[w].popper < |s.calls| && w in Wakees(s.calls[s.workers[w].popper])
  }

  lemma PoppedIsOwed(run: seq<State>, k: nat)
    requires IsRun(Init, Next, run) && k < |run|
    ensures PoppedOwed(run[k])
  {
    hide Inv;
    forall s | Init(s) ensures Inv(s) && PoppedOwed(s) { InitHasInv(s); }
    forall s, s' | (Inv(s) && PoppedOwed(s)) && Next(s, s') ensures Inv(s') && PoppedOwed(s') {
      StepKeepsInv(s, s');
      var e :| Step(s, e) == Some(s');
      StepKeepsPopped(s, e, s');
    }
    InvariantInRun(Init, Next, s => Inv(s) && PoppedOwed(s), run, k);
  }

  lemma StepKeepsPopped(s: State, e: Event, s': State)
    requires Inv(s) && PoppedOwed(s) && Step(s, e) == Some(s')
    ensures PoppedOwed(s')
  {
    hide Balanced, NoLostWake, ListInv, MutexInv, WakeesInv, CallStep, WorkerStep, PoppedOwed;
    match e
    case Request(_) => SameKeepsPopped(s, s');
    case WorkerMove(w) =>
      WorkerPopsNobody(s, w, s');
      SameKeepsPopped(s, s');
    case CallMove(c) => CallKeepsPopped(s, c, s');
  }

  lemma SameKeepsPopped(s: State, s': State)
    requires PoppedOwed(s) && |s'.workers| == |s.workers| && s.calls <= s'.calls
    requires forall v | 0 <= v < |s'.workers| && s'.workers[v].Popped? :: s'.workers[v] == s.workers[v]
    ensures PoppedOwed(s')
  {
  }

  lemma WorkerPopsNobody(s: State, w: nat, s': State)
    requires WorkerStep(s, w) == Some(s')
    ensures |s'.workers| == |s.workers| && s.calls <= s'.calls
    ensures forall v | 0 <= v < |s'.workers| && s'.workers[v].Popped? :: s'.workers[v] == s.workers[v]
  {
  }

  /** What a step of a call means for the workers it has popped. */
  lemma PoppedEffect(s: State, c: nat, s': State, v: nat)
    requires WakeesInv(s) && CallStep(s, c) == Some(s') && v < |s'.workers| && s'.workers[v].Popped?
    ensures c < |s.calls| == |s'.calls| && v < |s.workers| && s'.calls == s.calls[c := s'.calls[c]]
    ensures (s'.workers[v] == Popped(c) && v in Wakees(s'.calls[c]))
            || (s'.workers[v] == s.workers[v] && (v in Wakees(s.calls[c]) ==> v in Wakees(s'.calls[c])))
  {
    if s.calls[c].Wake? {
      WakeEffect(s, c, s');
      hide CallStep;
      var ws := s.calls[c].wakees;
      assert ws != [] ==> ws == ws[..|ws| - 1] + [ws[|ws| - 1]];
    } else if s.calls[c].Pop? {
      assert s'.calls[c].wakees == s.list[..Min(s.calls[c].units, |s.list|)];
    }
  }

  lemma CallKeepsPopped(s: State, c: nat, s': State)
    requires WakeesInv(s) && PoppedOwed(s) && CallStep(s, c) == Some(s')
    ensures PoppedOwed(s')
  {
    hide CallStep, WakeesInv, Wakees;
    forall v | 0 <= v < |s'.workers| && s'.workers[v].Popped?
      ensures s'.workers[v].popper < |s'.calls| && v in Wakees(s'.calls[s'.workers[v].popper])
    {
      PoppedEffect(s, c, s', v);
    }
  }

  /** No worker has anything to do: its next step changes nothing, or there is none. */
  ghost predicate Quiet(s: State) {
    forall w | 0 <= w < |s.workers| :: WorkerStep(s, w) == None || WorkerStep(s, w) == Some(s)
  }

  function Clamped(x: int, n: nat): nat {
    if x < 0 then 0 else if x > n then n else x
  }

  /** Once nothing moves any more, exactly as many workers are active as there are jobs requested, as far as
      there are workers; and if more workers are dismissed than there are jobs, all of them sleep. */
  lemma ExactlyEnoughAwake(run: seq<State>, k: nat)
    requires IsRun(Init, Next, run) && k < |run| && Settled(run[k]) && Quiet(run[k])
    ensures Sum(run[k].workers, Active) == Clamped(run[k].requested, |run[k].workers|)
    ensures run[k].slack < 0 ==> forall w | 0 <= w < |run[k].workers| :: run[k].workers[w] == OnList
  {
    RunKeepsInv(run, k);
    CallsAreThere(run, k);
    EnoughWorkersAwake(run, k);
    hide Init, Next, IsRun;
    var s := run[k];
    SumConstant(s.calls, Units, 0);
    SumNonNegative(s.workers, Active);
    AtMostAll(s.workers);
    if s.slack < 0 {
      forall w | 0 <= w < |s.workers| ensures s.workers[w] == OnList {
        QuietSleeps(s, w);
      }
      SumConstant(s.workers, Active, 0);
    }
  }

  lemma {:induction false} AtMostAll(workers: seq<Worker>)
    ensures Sum(workers, Active) <= |workers|
  {
    if workers != [] {
      AtMostAll(workers[..|workers| - 1]);
    }
  }

  /** A worker inside wake_some(0) has a call. */
  predicate CallsExist(s: State) {
    forall w | 0 <= w < |s.workers| && s.workers[w].Waking? :: s.workers[w].call < |s.calls|
  }

  lemma CallsAreThere(run: seq<State>, k: nat)
    requires IsRun(Init, Next, run) && k < |run|
    ensures CallsExist(run[k])
  {
    forall s, s' | CallsExist(s) && Next(s, s') ensures CallsExist(s') {
      var e :| Step(s, e) == Some(s');
    }
    InvariantInRun(Init, Next, CallsExist, run, k);
  }

  lemma QuietSleeps(s: State, w: nat)
    requires CallsExist(s) && Inv(s) && Settled(s) && Quiet(s) && s.slack < 0 && w < |s.workers|
    ensures s.workers[w] == OnList
  {
    hide Balanced, NoLostWake;
    var next := WorkerStep(s, w);
    assert next == None || next == Some(s);
    WakingIsOver(s, w);
  }

  /** In a settled state the call of a worker inside wake_some(0) is over. */
  lemma WakingIsOver(s: State, w: nat)
    requires Settled(s) && w < |s.workers|
    ensures !s.workers[w].Popped? && !s.workers[w].Propagating?
    ensures s.workers[w].Waking? && s.workers[w].call < |s.calls| ==> s.calls[s.workers[w].call].Done?
  {
  }

  // ---------------------------------------------------------------- workers go to sleep

  /** Steps of workers only. */
  ghost predicate IsPath(path: seq<State>) {
    |path| > 0 && forall i | 0 <= i < |path| - 1 :: MovesOneWorker(path, i)
  }

  ghost predicate MovesOneWorker(path: seq<State>, i: nat) {
    i + 1 < |path| && exists w :: WorkerStep(path[i], w) == Some(path[i + 1])
  }

  ghost predicate IsPathOf(w: nat, path: seq<State>) {
    |path| > 0 && forall i | 0 <= i < |path| - 1 :: MovesWorker(w, path, i)
  }

  ghost predicate MovesWorker(w: nat, path: seq<State>, i: nat) {
    i + 1 < |path| && WorkerStep(path[i], w) == Some(path[i + 1])
  }

  /** With too many workers, one that is active puts itself on the list by its own steps, if nobody holds the
      mutex, and gives its unit of slack back. */
  lemma SurplusWorkerSleeps(run: seq<State>, k: nat, w: nat) returns (path: seq<State>)
    requires IsRun(Init, Next, run) && k < |run| && Settled(run[k]) && run[k].slack < 0 && run[k].mutex == Free
    requires w < |run[k].workers| && Active(run[k].workers[w]) == 1
    ensures IsPathOf(w, path) && path[0] == run[k]
    ensures path[|path| - 1] ==
            run[k].(slack := run[k].slack + 1, list := [w] + run[k].list, workers := run[k].workers[w := OnList])
  {
    RunKeepsInv(run, k);
    CallsAreThere(run, k);
    hide Init, Next, IsRun;
    var s := run[k];
    assert MutexInv(s);
    WakingIsOver(s, w);
    var s1 := s.(workers := s.workers[w := Drowsy]);
    var s2 := s1.(mutex := ByWorker(w), workers := s1.workers[w := Checking]);
    var s3 := s2.(slack := s2.slack + 1, workers := s2.workers[w := Inserting]);
    var s4 := s3.(list := [w] + s3.list, mutex := Free, workers := s3.workers[w := OnList]);
    path := [s1, s2, s3, s4];
    assert MovesWorker(w, path, 0) && MovesWorker(w, path, 1) && MovesWorker(w, path, 2);
    match s.workers[w]
    case Drowsy => assert s1 == s;
    case Running => path := PathOfFront(w, s, path);
    case Waking(_) =>
      assert s.workers[w := Running][w := Drowsy] == s.workers[w := Drowsy];
      path := PathOfFront(w, s.(workers := s.workers[w := Running]), path);
      path := PathOfFront(w, s, path);
  }

  lemma PathOfFront(w: nat, s: State, rest: seq<State>) returns (path: seq<State>)
    requires IsPathOf(w, rest) && WorkerStep(s, w) == Some(rest[0])
    ensures path == [s] + rest && IsPathOf(w, path)
  {
    hide WorkerStep;
    path := [s] + rest;
    forall i | 0 <= i < |path| - 1 ensures MovesWorker(w, path, i) {
      assert i > 0 ==> MovesWorker(w, rest, i - 1) && path[i + 1] == rest[i - 1 + 1];
    }
  }

  /** How far a worker is from rest, when there are too many of them and when there are not. */
  function Unrest(slack: int): Worker -> int {
    (x: Worker) =>
      match x
      case Waking(_) => 5
      case Running => if slack < 0 then 4 else 2
      case Drowsy => if slack < 0 then 3 else 4
      case Checking => if slack < 0 then 2 else 3
      case Inserting => 1
      case _ => 0
  }

  /** The worker whose turn it is: the one that holds the mutex, or else one that has something to do. */
  lemma NextToMove(s: State) returns (w: nat)
    requires Shape(s) && CallsExist(s) && Settled(s) && !Quiet(s)
    ensures w < |s.workers| && WorkerStep(s, w).Some? && WorkerStep(s, w) != Some(s)
    ensures s.mutex != Free ==> s.mutex == ByWorker(w)
  {
    w :| 0 <= w < |s.workers| && WorkerStep(s, w) != None && WorkerStep(s, w) != Some(s);
    if s.mutex != Free {
      assert MutexInv(s);
      w := s.mutex.worker;
      assert s.workers[w].Checking? || s.workers[w].Inserting?;
      assert WorkerStep(s, w).Some? && WorkerStep(s, w).value.workers[w] != s.workers[w];
    }
  }

  lemma MovesTowardsRest(s: State, w: nat, s': State)
    requires Settled(s) && w < |s.workers| && WorkerStep(s, w) == Some(s') && s' != s
    requires s.mutex != Free ==> s.mutex == ByWorker(w) && (s.workers[w].Checking? || s.workers[w].Inserting?)
    ensures Settled(s') && s'.requested == s.requested && s'.calls == s.calls && |s'.workers| == |s.workers|
    ensures s'.slack == s.slack || s'.slack == s.slack + 1 <= 0
    ensures s'.workers == s.workers[w := s'.workers[w]]
    ensures s'.slack == s.slack ==> Unrest(s.slack)(s'.workers[w]) < Unrest(s.slack)(s.workers[w])
  {
    WakingIsOver(s, w);
    assert s'.workers[w] != s.workers[w];
    forall v | 0 <= v < |s'.workers| ensures !s'.workers[v].Popped? && !s'.workers[v].Propagating? {
      WakingIsOver(s, v);
    }
  }

  /** From every settled state the workers alone can come to rest, and then exactly as many are active as there
      are jobs requested: the surplus sleeps. */
  lemma SurplusSleeps(run: seq<State>, k: nat) returns (path: seq<State>)
    requires IsRun(Init, Next, run) && k < |run| && Settled(run[k])
    ensures IsPath(path) && path[0] == run[k]
    ensures var last := path[|path| - 1];
            && last.requested == run[k].requested && |last.workers| == |run[k].workers|
            && Settled(last) && Quiet(last) && Sum(last.workers, Active) == Clamped(last.requested, |last.workers|)
  {
    hide Settled, Quiet, WorkerStep;
    path := ComeToRest(run, k);
    var whole := run[..k + 1] + path[1..];
    PathExtendsRun(run, k, path);
    ExactlyEnoughAwake(whole, |whole| - 1);
  }

  lemma PathExtendsRun(run: seq<State>, k: nat, path: seq<State>)
    requires IsRun(Init, Next, run) && k < |run| && IsPath(path) && path[0] == run[k]
    ensures var whole := run[..k + 1] + path[1..];
            IsRun(Init, Next, whole) && whole[|whole| - 1] == path[|path| - 1]
  {
    hide WorkerStep, Init;
    var whole := run[..k + 1] + path[1..];
    forall i | 0 <= i < |whole| - 1 ensures Next(whole[i], whole[i + 1]) {
      if i < k {
        assert Next(run[i], run[i + 1]);
      } else {
        assert MovesOneWorker(path, i - k);
        assert whole[i] == path[i - k] && whole[i + 1] == path[i - k + 1];
        var w :| WorkerStep(whole[i], w) == Some(whole[i + 1]);
        assert Step(whole[i], WorkerMove(w)) == Some(whole[i + 1]);
      }
    }
  }

  lemma ComeToRest(run: seq<State>, k: nat) returns (path: seq<State>)
    requires IsRun(Init, Next, run) && k < |run| && Settled(run[k])
    ensures IsPath(path) && path[0] == run[k]
    ensures var last := path[|path| - 1];
            Settled(last) && Quiet(last) && last.requested == run[k].requested && |last.workers| == |run[k].workers|
  {
    hide Init, Next, IsRun, Settled, Quiet;
    RunKeepsInv(run, k);
    CallsAreThere(run, k);
    path := Rest(run[k]);
  }

  lemma UnrestNonNegative(s: State)
    ensures Sum(s.workers, Unrest(s.slack)) >= 0
  {
    SumNonNegative(s.workers, Unrest(s.slack));
  }

  lemma {:induction false} Rest(s: State) returns (path: seq<State>)
    requires Inv(s) && CallsExist(s) && Settled(s)
    ensures IsPath(path) && path[0] == s
    ensures var last := path[|path| - 1];
            Settled(last) && Quiet(last) && last.requested == s.requested && |last.workers| == |s.workers|
    decreases if s.slack < 0 then -s.slack else 0, Sum(s.workers, Unrest(s.slack))
  {
    hide Settled, Quiet, WorkerStep, Sum, CallsExist, Balanced, NoLostWake, ListInv, WakeesInv;
    UnrestNonNegative(s);
    if Quiet(s) {
      path := [s];
    } else {
      var w := NextToMove(s);
      var s' := WorkerStep(s, w).value;
      assert s.mutex != Free ==> s.workers[w].Checking? || s.workers[w].Inserting?;
      MovesTowardsRest(s, w, s');
      WorkerKeepsInv(s, w, s');
      WorkerKeepsCalls(s, w, s');
      SumUpdate(s.workers, w, s'.workers[w], Unrest(s.slack));
      UnrestNonNegative(s');
      var rest := Rest(s');
      path := [s] + rest;
      PathFront(s, w, rest);
    }
  }

  lemma WorkerKeepsCalls(s: State, w: nat, s': State)
    requires CallsExist(s) && WorkerStep(s, w) == Some(s')
    ensures CallsExist(s')
  {
  }

  lemma PathFront(s: State, w: nat, rest: seq<State>)
    requires IsPath(rest) && WorkerStep(s, w) == Some(rest[0])
    ensures IsPath([s] + rest)
  {
    hide WorkerStep;
    var path := [s] + rest;
    forall i | 0 <= i < |path| - 1 ensures MovesOneWorker(path, i) {
      if i > 0 {
        assert MovesOneWorker(rest, i - 1);
        assert path[i] == rest[i - 1] && path[i + 1] == rest[i - 1 + 1];
      } else {
        assert WorkerStep(path[i], w) == Some(path[i + 1]);
      }
    }
  }
}

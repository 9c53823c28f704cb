/**
 * The life of a worker of `private_server`: the init / starting / normal / quit word, the launch of its
 * thread by whoever wakes it, the shutdown of all workers, the thread handles and the reference count
 * that decides who destroys the server.
 *
 * Any number of wake_or_launch calls run at once, several of them possibly on one worker: from outside
 * (until the client drops its own reference) or from a worker's thread.
 */
module WorkerLifecycle {
  import opened Behaviors
  import opened Sums

  datatype Word = StInit | StStarting | StNormal | StQuit

  datatype Thread =
    | NoThread
    | Propagate            // start of run(), or woken: may wake others
    | Calling(call: nat)   // inside wake_or_launch on behalf of the chain reaction
    | Check                // my_state == st_quit ?
    | Work                 // process a job, or join the asleep list
    | Asleep               // thread_monitor::wait: P()
    | Woken                // P() done, my_notified still to be cleared
    | Leaving              // has seen st_quit
    | Gone                 // reference dropped, never touches the server again

  /** The handle of the thread: not there, returned by launch, stored in the worker, released. */
  datatype Handle = NoHandle | Raw | Stored | Freed

  datatype Poster = Waker(call: nat) | Shutdown

  datatype Worker = Worker(
    word: Word, thread: Thread, handle: Handle,
    notified: bool, permit: bool,
    poster: Option<Poster>,     // who has set `notified` and has not posted the semaphore yet
    launcher: Option<nat>,      // the call that moved the word from init to starting
    quitFrom: Option<Word>,     // the word that shutdown replaced by quit
    drops: nat)                 // server references dropped on behalf of this worker

  /** `Notify` is the exchange of my_notified, `Post` the V() that may follow. */
  datatype CallPc = Load | TryStart | Launch | Store | SetNormal | Release | Notify | Post | Done

  datatype Caller = External | ByWorker(worker: nat)

  datatype Call = Call(caller: Caller, target: nat, pc: CallPc)

  /** request_close_connection: start_shutdown of each worker, then its own reference. */
  datatype Closer = Open | Exchange(i: nat) | Act(i: nat) | PostTo(i: nat) | Free(i: nat) | Closed

  datatype State = State(
    workers: seq<Worker>, calls: seq<Call>, closer: Closer, refs: int, destroyed: nat)

  datatype Event =
    | Start(target: nat)                        // an external thread enters wake_or_launch
    | CallMove(call: nat)
    | ThreadMove(worker: nat, wake: Option<nat>, sleep: bool)
    | Close                                     // the client enters request_close_connection
    | CloserMove

  predicate Init(s: State) {
    && s.calls == [] && s.closer == Open && s.refs == |s.workers| + 1 && s.destroyed == 0
    && forall w | 0 <= w < |s.workers| ::
         s.workers[w] == Worker(StInit, NoThread, NoHandle, false, false, None, None, None, 0)
  }

  function DropRef(s: State): State {
    s.(refs := s.refs - 1, destroyed := if s.refs - 1 == 0 then s.destroyed + 1 else s.destroyed)
  }

  /** V() of the worker's semaphore. */
  function Posted(x: Worker): Worker {
    x.(permit := true, poster := None)
  }

  function Put(s: State, w: nat, x: Worker, c: nat, pc: CallPc): State
    requires w < |s.workers| && c < |s.calls|
  {
    s.(workers := s.workers[w := x], calls := s.calls[c := s.calls[c].(pc := pc)])
  }

  function CallStep(s: State, c: nat): Option<State> {
    if c >= |s.calls| || s.calls[c].target >= |s.workers| then None else
    var w := s.calls[c].target;
    var x := s.workers[w];
    match s.calls[c].pc
    case Load =>
      Some(Put(s, w, x, c, match x.word
                           case StInit => TryStart
                           case StQuit => Done
                           case _ => Notify))
    case Notify =>
      if x.notified then Some(Put(s, w, x, c, Done))
      else Some(Put(s, w, x.(notified := true, poster := Some(Waker(c))), c, Post))
    case Post => Some(Put(s, w, Posted(x), c, Done))
    case TryStart =>
      if x.word == StInit then Some(Put(s, w, x.(word := StStarting, launcher := Some(c)), c, Launch))
      else Some(Put(s, w, x, c, Done))
    case Launch => Some(Put(s, w, x.(thread := Propagate, handle := Raw), c, Store))
    case Store => Some(Put(s, w, x.(handle := Stored), c, SetNormal))
    case SetNormal =>
      if x.word == StStarting then Some(Put(s, w, x.(word := StNormal, launcher := None), c, Done))
      else Some(Put(s, w, x, c, Release))
    case Release => Some(Put(s, w, x.(handle := Freed, launcher := None), c, Done))
    case Done => None
  }

  function ThreadStep(s: State, w: nat, wake: Option<nat>, sleep: bool): Option<State> {
    if w >= |s.workers| then None else
    var x := s.workers[w];
    match x.thread
    case Propagate =>
      (match wake
       case None => Some(s.(workers := s.workers[w := x.(thread := Check)]))
       case Some(target) =>
         if target >= |s.workers| then None
         else Some(s.(workers := s.workers[w := x.(thread := Calling(|s.calls|))],
                      calls := s.calls + [Call(ByWorker(w), target, Load)])))
    case Calling(c) =>
      if c < |s.calls| && s.calls[c].pc == Done then Some(s.(workers := s.workers[w := x.(thread := Propagate)]))
      else None
    case Check => Some(s.(workers := s.workers[w := x.(thread := if x.word == StQuit then Leaving else Work)]))
    case Work => Some(s.(workers := s.workers[w := x.(thread := if sleep then Asleep else Check)]))
    case Asleep =>
      if x.permit then Some(s.(workers := s.workers[w := x.(thread := Woken, permit := false)])) else None
    case Woken => Some(s.(workers := s.workers[w := x.(thread := Propagate, notified := false)]))
    case Leaving => Some(DropRef(s.(workers := s.workers[w := x.(thread := Gone, drops := x.drops + 1)])))
    case _ => None
  }

  /** No call from outside is still inside the server. */
  predicate NoExternalCall(s: State) {
    forall c | 0 <= c < |s.calls| :: s.calls[c].caller.External? ==> s.calls[c].pc == Done
  }

  function AfterNotify(x: Worker, i: nat): Closer {
    if x.quitFrom == Some(StNormal) then Free(i) else Exchange(i + 1)
  }

  function CloserStep(s: State): Option<State> {
    match s.closer
    case Exchange(i) =>
      if i >= |s.workers| then
        if NoExternalCall(s) then Some(DropRef(s.(closer := Closed))) else None
      else
        var x := s.workers[i];
        Some(s.(workers := s.workers[i := x.(word := StQuit, quitFrom := Some(x.word))], closer := Act(i)))
    case Act(i) =>
      if i >= |s.workers| then None else
      var x := s.workers[i];
      if x.quitFrom == Some(StInit) then
        Some(DropRef(s.(workers := s.workers[i := x.(drops := x.drops + 1)], closer := Exchange(i + 1))))
      else if x.notified then Some(s.(closer := AfterNotify(x, i)))
      else Some(s.(workers := s.workers[i := x.(notified := true, poster := Some(Shutdown))], closer := PostTo(i)))
    case PostTo(i) =>
      if i >= |s.workers| then None else
      Some(s.(workers := s.workers[i := Posted(s.workers[i])], closer := AfterNotify(s.workers[i], i)))
    case Free(i) =>
      if i >= |s.workers| then None
      else Some(s.(workers := s.workers[i := s.workers[i].(handle := Freed)], closer := Exchange(i + 1)))
    case _ => None
  }

  function Step(s: State, e: Event): Option<State> {
    match e
    case Start(target) =>
      if s.closer != Closed && target < |s.workers|
      then Some(s.(calls := s.calls + [Call(External, target, Load)])) else None
    case CallMove(c) => CallStep(s, c)
    case ThreadMove(w, wake, sleep) => ThreadStep(s, w, wake, sleep)
    case Close => if s.closer == Open then Some(s.(closer := Exchange(0))) else None
    case CloserMove => CloserStep(s)
  }

  ghost predicate Next(s: State, s': State) {
    exists e :: Step(s, e) == Some(s')
  }

  // ---------------------------------------------------------------- invariant

  /** How many workers shutdown has already turned to quit. */
  function Reached(s: State): int {
    match s.closer
    case Open => 0
    case Exchange(i) => i
    case Act(i) => i + 1
    case PostTo(i) => i + 1
    case Free(i) => i + 1
    case Closed => |s.workers|
  }

  predicate Launching(pc: CallPc) {
    pc == Launch || pc == Store || pc == SetNormal || pc == Release
  }

  /** The word, the thread, the handle and the launching call of one worker fit together. */
  predicate WordInv(x: Worker) {
    && (x.word == StQuit <==> x.quitFrom.Some?)
    && (x.quitFrom.Some? ==> x.quitFrom.value != StQuit)
    && (x.word == StStarting ==> x.launcher.Some?)
    && (x.launcher.Some? ==> x.word == StStarting || x.quitFrom == Some(StStarting))
    && (x.word == StInit || x.quitFrom == Some(StInit) ==> x.thread == NoThread && x.handle == NoHandle)
    && (x.word == StNormal ==> x.handle == Stored)
    && (x.quitFrom == Some(StNormal) ==> x.handle == Stored || x.handle == Freed)
    && (x.quitFrom == Some(StStarting) && x.launcher.None? ==> x.handle == Freed)
    && (x.thread == NoThread <==> x.handle == NoHandle)
  }

  predicate LauncherInv(s: State, w: nat)
    requires w < |s.workers|
  {
    var x := s.workers[w];
    x.launcher.Some? ==>
      && x.launcher.value < |s.calls|
      && s.calls[x.launcher.value].target == w
      && (match s.calls[x.launcher.value].pc
          case Launch => x.handle == NoHandle
          case Store => x.handle == Raw
          case SetNormal => x.handle == Stored
          case Release => x.handle == Stored && x.word == StQuit
          case _ => false)
  }

  /** One reference per worker: dropped by its thread, or by shutdown when there never was a thread. */
  predicate DropInv(s: State, w: nat)
    requires w < |s.workers|
  {
    var x := s.workers[w];
    && (x.thread == Gone ==> x.drops == 1 && x.word == StQuit)
    && (x.thread == Leaving ==> x.word == StQuit)
    && (x.thread != Gone && x.thread != NoThread ==> x.drops == 0)
    && (x.thread == NoThread ==>
          x.drops == if x.quitFrom == Some(StInit) && s.closer != Act(w) then 1 else 0)
  }

  /** Where shutdown stands with worker `w`. */
  predicate CloserInv(s: State, w: nat)
    requires w < |s.workers|
  {
    var x := s.workers[w];
    && (x.word == StQuit <==> w < Reached(s))
    && (x.quitFrom == Some(StNormal) ==>
          (x.handle == Freed <==> s.closer != Act(w) && s.closer != PostTo(w) && s.closer != Free(w)))
    && (s.closer == Free(w) ==> x.quitFrom == Some(StNormal))
    && (s.closer == PostTo(w) ==> x.quitFrom != Some(StInit))
  }

  /** `my_notified` stands for exactly one wakeup: owed by somebody, posted, or consumed and not yet
      acknowledged. A thread that can still go to sleep after shutdown has notified it has one coming. */
  predicate NotifyInv(s: State, w: nat)
    requires w < |s.workers|
  {
    var x := s.workers[w];
    && (x.notified <==> x.permit || x.thread == Woken || x.poster.Some?)
    && !(x.permit && x.thread == Woken) && (x.poster.Some? ==> !x.permit && x.thread != Woken)
    && (x.poster == Some(Shutdown) <==> s.closer == PostTo(w))
    && (x.poster.Some? && x.poster.value.Waker? ==>
          var c := x.poster.value.call;
          c < |s.calls| && s.calls[c].pc == Post && s.calls[c].target == w)
    && (x.word == StQuit && s.closer != Act(w) && (x.thread == Asleep || x.thread == Work) ==> x.notified)
  }

  predicate WorkerInv(s: State, w: nat)
    requires w < |s.workers|
  {
    WordInv(s.workers[w]) && LauncherInv(s, w) && DropInv(s, w) && CloserInv(s, w) && NotifyInv(s, w)
  }

  predicate CallInv(s: State, c: nat)
    requires c < |s.calls|
  {
    var k := s.calls[c];
    && k.target < |s.workers|
    && (Launching(k.pc) ==> s.workers[k.target].launcher == Some(c))
    && (k.pc == Post ==> s.workers[k.target].poster == Some(Waker(c)))
    && (k.caller.External? && k.pc != Done ==> s.closer != Closed)
    && (k.caller.ByWorker? ==> k.caller.worker < |s.workers|)
    && (k.caller.ByWorker? && k.pc != Done ==> s.workers[k.caller.worker].thread == Calling(c))
  }

  function Held(x: Worker): int { 1 - x.drops }

  ghost predicate RefInv(s: State) {
    && s.refs == (if s.closer == Closed then 0 else 1) + Sum(s.workers, Held)
    && s.destroyed == (if s.refs == 0 then 1 else 0)
    && (match s.closer
        case Exchange(i) => i <= |s.workers|
        case Act(i) => i < |s.workers|
        case PostTo(i) => i < |s.workers|
        case Free(i) => i < |s.workers|
        case _ => true)
  }

  ghost predicate Inv(s: State) {
    && (forall w | 0 <= w < |s.workers| :: WorkerInv(s, w))
    && (forall c | 0 <= c < |s.calls| :: CallInv(s, c))
    && RefInv(s)
  }

  // ---------------------------------------------------------------- steps of a wake_or_launch call

  lemma WakeKeepsWord(s: State, c: nat, s': State)
    requires c < |s.calls| && CallInv(s, c) && WorkerInv(s, s.calls[c].target) && CallStep(s, c) == Some(s')
    requires !Launching(s.calls[c].pc)
    ensures WordInv(s'.workers[s.calls[c].target]) && LauncherInv(s', s.calls[c].target)
  {
    hide DropInv, CloserInv;
  }

  lemma WakeKeepsDrops(s: State, c: nat, s': State)
    requires c < |s.calls| && CallInv(s, c) && WorkerInv(s, s.calls[c].target) && CallStep(s, c) == Some(s')
    requires !Launching(s.calls[c].pc)
    ensures DropInv(s', s.calls[c].target) && CloserInv(s', s.calls[c].target) && NotifyInv(s', s.calls[c].target)
  {
    hide LauncherInv;
  }

  lemma WakeKeepsTarget(s: State, c: nat, s': State)
    requires c < |s.calls| && CallInv(s, c) && WorkerInv(s, s.calls[c].target) && CallStep(s, c) == Some(s')
    requires !Launching(s.calls[c].pc)
    ensures WorkerInv(s', s.calls[c].target)
  {
    hide CallStep, CallInv, WordInv, LauncherInv, DropInv, CloserInv, NotifyInv;
    WakeKeepsWord(s, c, s');
    WakeKeepsDrops(s, c, s');
  }

  lemma LaunchKeepsTarget(s: State, c: nat, s': State)
    requires c < |s.calls| && CallInv(s, c) && WorkerInv(s, s.calls[c].target) && CallStep(s, c) == Some(s')
    requires Launching(s.calls[c].pc)
    ensures WorkerInv(s', s.calls[c].target)
  {
  }

  lemma CallKeepsTarget(s: State, c: nat, s': State)
    requires c < |s.calls| && CallInv(s, c) && WorkerInv(s, s.calls[c].target) && CallStep(s, c) == Some(s')
    ensures WorkerInv(s', s.calls[c].target)
  {
    hide *;
    if Launching(s.calls[c].pc) { LaunchKeepsTarget(s, c, s'); } else { WakeKeepsTarget(s, c, s'); }
  }

  lemma CallKeepsOther(s: State, c: nat, s': State, v: nat)
    requires c < |s.calls| && CallStep(s, c) == Some(s') && v < |s.workers| && v != s.calls[c].target
    requires WorkerInv(s, v)
    ensures WorkerInv(s', v)
  {
    assert s'.workers[v] == s.workers[v] && Reached(s') == Reached(s);
  }

  /** What a step of a call leaves alone, and what it does to its own marks. */
  lemma CallShape(s: State, c: nat, s': State)
    requires CallStep(s, c) == Some(s')
    ensures c < |s.calls| == |s'.calls| && |s'.workers| == |s.workers| && s.calls[c].target < |s.workers|
    ensures s'.closer == s.closer && s'.refs == s.refs && s'.destroyed == s.destroyed
    ensures s'.calls[c] == s.calls[c].(pc := s'.calls[c].pc) && s.calls[c].pc != Done
    ensures forall d | 0 <= d < |s.calls| && d != c :: s'.calls[d] == s.calls[d]
    ensures forall v | 0 <= v < |s.workers| && v != s.calls[c].target :: s'.workers[v] == s.workers[v]
    ensures var x, x', pc, pc' := s.workers[s.calls[c].target], s'.workers[s.calls[c].target], s.calls[c].pc, s'.calls[c].pc;
            && x'.drops == x.drops && x'.thread == (if pc == Launch then Propagate else x.thread)
            && x'.poster == (if pc' == Post then Some(Waker(c)) else if pc == Post then None else x.poster)
            && x'.launcher == (if pc == TryStart && Launching(pc') then Some(c)
                               else if Launching(pc) && !Launching(pc') then None else x.launcher)
            && (pc' == Post ==> !x.notified) && (pc == TryStart && Launching(pc') ==> x.word == StInit)
            && (Launching(pc') ==> pc == TryStart || Launching(pc))
  {
  }

  lemma CallKeepsCall(s: State, c: nat, s': State, d: nat)
    requires c < |s.calls| && d < |s.calls| && CallInv(s, c) && CallInv(s, d)
    requires WorkerInv(s, s.calls[c].target) && CallStep(s, c) == Some(s')
    ensures CallInv(s', d)
  {
    hide CallStep, DropInv, CloserInv;
    CallShape(s, c, s');
  }

  lemma CallKeepsInv(s: State, c: nat, s': State)
    requires Inv(s) && CallStep(s, c) == Some(s')
    ensures Inv(s')
  {
    hide WorkerInv, CallInv, CallStep;
    CallShape(s, c, s');
    var w := s.calls[c].target;
    assert CallInv(s, c) && WorkerInv(s, w);
    forall v | 0 <= v < |s'.workers|
      ensures WorkerInv(s', v)
    {
      if v == w { CallKeepsTarget(s, c, s'); } else { CallKeepsOther(s, c, s', v); }
    }
    forall d | 0 <= d < |s'.calls|
      ensures CallInv(s', d)
    {
      CallKeepsCall(s, c, s', d);
    }
    SumUpdate(s.workers, w, s'.workers[w], Held);
    assert s'.workers == s.workers[w := s'.workers[w]];
  }

  // ---------------------------------------------------------------- steps of a thread

  /** What a step of a thread does to its own worker and to the calls. */
  lemma ThreadShape(s: State, w: nat, wake: Option<nat>, sleep: bool, s': State)
    requires ThreadStep(s, w, wake, sleep) == Some(s')
    ensures w < |s.workers| == |s'.workers| && s'.closer == s.closer && s.calls <= s'.calls
    ensures var x, x' := s.workers[w], s'.workers[w];
            && x' == x.(thread := x'.thread, permit := x'.permit, notified := x'.notified, drops := x'.drops)
            && x.thread != NoThread && x'.thread != NoThread
  {
  }

  lemma ThreadKeepsWord(s: State, w: nat, wake: Option<nat>, sleep: bool, s': State)
    requires w < |s.workers| && WorkerInv(s, w) && ThreadStep(s, w, wake, sleep) == Some(s')
    ensures WordInv(s'.workers[w]) && LauncherInv(s', w)
  {
    hide DropInv, NotifyInv, CloserInv, ThreadStep;
    ThreadShape(s, w, wake, sleep, s');
  }

  lemma ThreadKeepsDrops(s: State, w: nat, wake: Option<nat>, sleep: bool, s': State)
    requires w < |s.workers| && WorkerInv(s, w) && ThreadStep(s, w, wake, sleep) == Some(s')
    ensures DropInv(s', w) && CloserInv(s', w) && NotifyInv(s', w)
  {
    hide WordInv, LauncherInv;
  }

  lemma ThreadKeepsOwn(s: State, w: nat, wake: Option<nat>, sleep: bool, s': State)
    requires w < |s.workers| && WorkerInv(s, w) && ThreadStep(s, w, wake, sleep) == Some(s')
    ensures WorkerInv(s', w)
  {
    hide WordInv, LauncherInv, DropInv, NotifyInv, CloserInv;
    ThreadKeepsWord(s, w, wake, sleep, s');
    ThreadKeepsDrops(s, w, wake, sleep, s');
  }

  lemma ThreadKeepsOther(s: State, w: nat, wake: Option<nat>, sleep: bool, s': State, v: nat)
    requires w < |s.workers| && v < |s.workers| && v != w && WorkerInv(s, v)
    requires ThreadStep(s, w, wake, sleep) == Some(s')
    ensures WorkerInv(s', v)
  {
    assert s'.workers[v] == s.workers[v] && Reached(s') == Reached(s);
  }

  lemma ThreadKeepsCall(s: State, w: nat, wake: Option<nat>, sleep: bool, s': State, d: nat)
    requires w < |s.workers| && d < |s'.calls| && ThreadStep(s, w, wake, sleep) == Some(s')
    requires d < |s.calls| ==> CallInv(s, d)
    ensures CallInv(s', d)
  {
  }

  /** Only the step that drops the worker's reference touches the count. */
  lemma ThreadAndRefs(s: State, w: nat, wake: Option<nat>, sleep: bool, s': State)
    requires w < |s.workers| && ThreadStep(s, w, wake, sleep) == Some(s')
    ensures |s'.workers| == |s.workers| && s'.workers == s.workers[w := s'.workers[w]] && s'.closer == s.closer
    ensures if s.workers[w].thread == Leaving then
              && s'.workers[w].drops == s.workers[w].drops + 1 && s'.refs == s.refs - 1
              && s'.destroyed == s.destroyed + (if s.refs == 1 then 1 else 0)
            else
              s'.workers[w].drops == s.workers[w].drops && s'.refs == s.refs && s'.destroyed == s.destroyed
  {
  }

  lemma ThreadKeepsRefs(s: State, w: nat, wake: Option<nat>, sleep: bool, s': State)
    requires Inv(s) && w < |s.workers| && ThreadStep(s, w, wake, sleep) == Some(s')
    ensures RefInv(s')
  {
    hide WorkerInv, CallInv, ThreadStep;
    ThreadAndRefs(s, w, wake, sleep, s');
    SumUpdate(s.workers, w, s'.workers[w], Held);
    DropsAtMostOne(s, w);
    if s.workers[w].thread == Leaving {
      HeldBySomeone(s, w);
    }
  }

  lemma DropsAtMostOne(s: State, w: nat)
    requires w < |s.workers| && WorkerInv(s, w)
    ensures s.workers[w].drops <= 1 && (s.workers[w].thread == Leaving ==> s.workers[w].drops == 0)
    ensures s.closer == Act(w) && s.workers[w].quitFrom == Some(StInit) ==> s.workers[w].drops == 0
  {
  }

  lemma ThreadKeepsInv(s: State, w: nat, wake: Option<nat>, sleep: bool, s': State)
    requires Inv(s) && ThreadStep(s, w, wake, sleep) == Some(s')
    ensures Inv(s')
  {
    hide CallInv, WorkerInv, RefInv;
    ThreadKeepsRefs(s, w, wake, sleep, s');
    forall v | 0 <= v < |s'.workers|
      ensures WorkerInv(s', v)
    {
      if v == w { ThreadKeepsOwn(s, w, wake, sleep, s'); } else { ThreadKeepsOther(s, w, wake, sleep, s', v); }
    }
    forall d | 0 <= d < |s'.calls|
      ensures CallInv(s', d)
    {
      ThreadKeepsCall(s, w, wake, sleep, s', d);
    }
  }

  /** No worker drops two references, so a worker that has dropped none keeps the server alive. */
  lemma HeldBySomeone(s: State, w: nat)
    requires Inv(s) && w < |s.workers| && s.workers[w].drops == 0
    ensures s.refs >= 1
  {
    hide WorkerInv, CallInv;
    var others := s.workers[w := s.workers[w].(drops := 1)];
    forall v | 0 <= v < |s.workers|
      ensures others[v].drops <= 1
    {
      DropsAtMostOne(s, v);
    }
    SumUpdate(s.workers, w, s.workers[w].(drops := 1), Held);
    HeldNonNegative(others);
  }

  lemma {:induction false} HeldNonNegative(x: seq<Worker>)
    requires forall v | 0 <= v < |x| :: x[v].drops <= 1
    ensures Sum(x, Held) >= 0
  {
    if x != [] {
      HeldNonNegative(x[..|x| - 1]);
    }
  }

  // ---------------------------------------------------------------- steps of the shutdown

  /** The worker shutdown is busy with, if any. */
  function Current(s: State): int {
    if s.closer.Open? || s.closer.Closed? then -1 else s.closer.i
  }

  predicate BusyWith(s: State, v: nat) {
    s.closer == Act(v) || s.closer == PostTo(v) || s.closer == Free(v)
  }

  /** Shutdown deals with one worker at a time. */
  lemma CloserShape(s: State, s': State, v: nat)
    requires RefInv(s) && v < |s.workers| && CloserStep(s) == Some(s') && v != Current(s)
    ensures |s'.workers| == |s.workers| && s'.workers[v] == s.workers[v] && s'.calls == s.calls
    ensures !BusyWith(s, v) && !BusyWith(s', v) && (v < Reached(s') <==> v < Reached(s))
  {
  }

  lemma CloserKeepsOther(s: State, s': State, v: nat)
    requires RefInv(s) && v < |s.workers| && WorkerInv(s, v) && CloserStep(s) == Some(s') && v != Current(s)
    ensures WorkerInv(s', v)
  {
    hide CloserStep, RefInv, Reached, WordInv;
    CloserShape(s, s', v);
  }

  lemma CloserKeepsWord(s: State, s': State, v: nat)
    requires RefInv(s) && v < |s.workers| && WorkerInv(s, v) && CloserStep(s) == Some(s') && v == Current(s)
    ensures v < |s'.workers| && WordInv(s'.workers[v]) && LauncherInv(s', v)
  {
    hide DropInv, NotifyInv;
  }

  lemma CloserKeepsDrops(s: State, s': State, v: nat)
    requires RefInv(s) && v < |s.workers| && WorkerInv(s, v) && CloserStep(s) == Some(s') && v == Current(s)
    ensures v < |s'.workers| && DropInv(s', v) && CloserInv(s', v)
  {
    hide LauncherInv, NotifyInv;
  }

  lemma CloserKeepsNotify(s: State, s': State, v: nat)
    requires RefInv(s) && v < |s.workers| && WorkerInv(s, v) && CloserStep(s) == Some(s') && v == Current(s)
    ensures v < |s'.workers| && NotifyInv(s', v)
  {
    hide LauncherInv, DropInv;
  }

  lemma CloserKeepsCurrent(s: State, s': State, v: nat)
    requires RefInv(s) && v < |s.workers| && WorkerInv(s, v) && CloserStep(s) == Some(s') && v == Current(s)
    ensures WorkerInv(s', v)
  {
    hide CloserStep, RefInv, WordInv, LauncherInv, DropInv, CloserInv, NotifyInv;
    CloserKeepsWord(s, s', v);
    CloserKeepsDrops(s, s', v);
    CloserKeepsNotify(s, s', v);
  }

  lemma CloserKeepsCall(s: State, s': State, d: nat)
    requires d < |s.calls| && CallInv(s, d) && CloserStep(s) == Some(s')
    requires 0 <= Current(s) < |s.workers| ==> WorkerInv(s, Current(s))
    ensures CallInv(s', d)
  {
    hide DropInv, LauncherInv, WordInv;
  }

  lemma CloserKeepsInv(s: State, s': State)
    requires Inv(s) && CloserStep(s) == Some(s')
    ensures Inv(s')
  {
    hide CallInv, WorkerInv;
    forall v | 0 <= v < |s'.workers|
      ensures WorkerInv(s', v)
    {
      if v == Current(s) { CloserKeepsCurrent(s, s', v); } else { CloserKeepsOther(s, s', v); }
    }
    forall d | 0 <= d < |s'.calls|
      ensures CallInv(s', d)
    {
      CloserKeepsCall(s, s', d);
    }
    CloserKeepsRefs(s, s');
  }

  lemma CloserKeepsRefs(s: State, s': State)
    requires Inv(s) && CloserStep(s) == Some(s')
    ensures RefInv(s')
  {
    hide WorkerInv, CallInv;
    forall v | 0 <= v < |s.workers|
      ensures s.workers[v].drops <= 1
    {
      DropsAtMostOne(s, v);
    }
    HeldNonNegative(s.workers);
    var i := Current(s);
    if 0 <= i < |s.workers| {
      DropsAtMostOne(s, i);
      SumUpdate(s.workers, i, s'.workers[i], Held);
      assert s'.workers == s.workers[i := s'.workers[i]];
      forall v | 0 <= v < |s'.workers|
        ensures s'.workers[v].drops <= 1
      {
        if v != i { assert s'.workers[v] == s.workers[v]; }
      }
      HeldNonNegative(s'.workers);
    }
  }

  // ---------------------------------------------------------------- every run

  lemma StepKeepsInv(s: State, s': State)
    requires Inv(s) && Next(s, s')
    ensures Inv(s')
  {
    var e :| Step(s, e) == Some(s');
    match e
    case Start(target) => StartKeepsInv(s, e, s');
    case Close => StartKeepsInv(s, e, s');
    case CallMove(c) => CallKeepsInv(s, c, s');
    case ThreadMove(w, wake, sleep) => ThreadKeepsInv(s, w, wake, sleep, s');
    case CloserMove => CloserKeepsInv(s, s');
  }

  lemma StartKeepsInv(s: State, e: Event, s': State)
    requires Inv(s) && Step(s, e) == Some(s') && (e.Start? || e.Close?)
    ensures Inv(s')
  {
    forall v | 0 <= v < |s'.workers|
      ensures WorkerInv(s', v)
    {
      assert WorkerInv(s, v);
    }
    forall d | 0 <= d < |s'.calls|
      ensures CallInv(s', d)
    {
      if d < |s.calls| { assert CallInv(s, d); }
    }
  }

  lemma RunKeepsInv(run: seq<State>, k: nat)
    requires IsRun(Init, Next, run) && k < |run|
    ensures Inv(run[k])
  {
    hide Inv;
    forall s | Init(s)
      ensures Inv(s)
    {
      InitHasInv(s);
    }
    forall s, s' | Inv(s) && Next(s, s')
      ensures Inv(s')
    {
      StepKeepsInv(s, s');
    }
    InvariantInRun(Init, Next, Inv, run, k);
  }

  lemma InitHasInv(s: State)
    requires Init(s)
    ensures Inv(s)
  {
    SumConstant(s.workers, Held, 1);
  }

  /** The server is destroyed at most once, by whoever drops the last of one reference per worker and
      one of the client; and each worker accounts for at most one. */
  lemma DestroyedOnceByTheLast(run: seq<State>, k: nat)
    requires IsRun(Init, Next, run) && k < |run|
    ensures var s := run[k];
            && s.refs == (if s.closer == Closed then 0 else 1) + Sum(s.workers, Held)
            && s.destroyed == (if s.refs == 0 then 1 else 0)
            && (forall w | 0 <= w < |s.workers| :: s.workers[w].drops <= 1)
  {
    hide WorkerInv, CallInv;
    RunKeepsInv(run, k);
    forall w | 0 <= w < |run[k].workers|
      ensures run[k].workers[w].drops <= 1
    {
      DropsAtMostOne(run[k], w);
    }
  }

  /** Destruction finds nobody inside: shutdown is over, every call has returned, every thread is gone,
      every worker has dropped its reference and every handle that was ever launched is released. */
  lemma NobodyLeftAtDestruction(run: seq<State>, k: nat)
    requires IsRun(Init, Next, run) && k < |run| && run[k].destroyed > 0
    ensures run[k].closer == Closed
    ensures forall c | 0 <= c < |run[k].calls| :: run[k].calls[c].pc == Done
    ensures forall w | 0 <= w < |run[k].workers| ::
              var x := run[k].workers[w];
              x.word == StQuit && x.drops == 1 && (x.thread == NoThread || x.thread == Gone)
              && (x.handle == NoHandle || x.handle == Freed)
  {
    hide WorkerInv, CallInv;
    RunKeepsInv(run, k);
    var s := run[k];
    forall w | 0 <= w < |s.workers|
      ensures s.workers[w].drops == 1
    {
      DropsAtMostOne(s, w);
      if s.workers[w].drops == 0 {
        HeldBySomeone(s, w);
      }
    }
    SumConstant(s.workers, Held, 0);
    forall c | 0 <= c < |s.calls|
      ensures s.calls[c].pc == Done
    {
      if s.calls[c].pc != Done {
        CallerKeepsServer(s, c);
      }
    }
    forall w | 0 <= w < |s.workers|
      ensures var x := s.workers[w];
              x.word == StQuit && x.drops == 1 && (x.thread == NoThread || x.thread == Gone)
              && (x.handle == NoHandle || x.handle == Freed)
    {
      assert WorkerInv(s, w);
      SettledWorker(s, w);
    }
  }

  lemma CallerKeepsServer(s: State, c: nat)
    requires c < |s.calls| && CallInv(s, c) && s.calls[c].pc != Done
    requires forall w | 0 <= w < |s.workers| :: WorkerInv(s, w)
    ensures s.closer != Closed || exists w :: 0 <= w < |s.workers| && s.workers[w].drops == 0
  {
    if s.calls[c].caller.ByWorker? {
      var w := s.calls[c].caller.worker;
      assert WorkerInv(s, w);
      assert s.workers[w].drops == 0;
    }
  }

  lemma SettledWorker(s: State, w: nat)
    requires w < |s.workers| && WorkerInv(s, w) && s.closer == Closed && s.workers[w].drops == 1
    requires forall c | 0 <= c < |s.calls| :: s.calls[c].pc == Done
    ensures var x := s.workers[w];
            x.word == StQuit && (x.thread == NoThread || x.thread == Gone) && (x.handle == NoHandle || x.handle == Freed)
  {
  }

  /** Every release of a handle finds it stored and not yet released. */
  lemma HandleReleasedOnce(run: seq<State>, k: nat)
    requires IsRun(Init, Next, run) && k < |run|
    ensures forall c | 0 <= c < |run[k].calls| && run[k].calls[c].pc == Release ::
              run[k].calls[c].target < |run[k].workers| && run[k].workers[run[k].calls[c].target].handle == Stored
    ensures run[k].closer.Free? ==>
              run[k].closer.i < |run[k].workers| && run[k].workers[run[k].closer.i].handle == Stored
  {
    RunKeepsInv(run, k);
    var s := run[k];
    forall c | 0 <= c < |s.calls| && s.calls[c].pc == Release
      ensures s.calls[c].target < |s.workers| && s.workers[s.calls[c].target].handle == Stored
    {
      assert CallInv(s, c);
      assert WorkerInv(s, s.calls[c].target);
    }
    if s.closer.Free? {
      assert WorkerInv(s, s.closer.i);
    }
  }

  /** `w` stays in state quit, and no call becomes its launcher. */
  predicate StaysQuit(s: State, s': State, w: nat)
    requires w < |s.workers|
  {
    && w < |s'.workers| && s'.workers[w].word == StQuit && s'.workers[w].quitFrom == s.workers[w].quitFrom
    && (s'.workers[w].launcher.Some? ==> s'.workers[w].launcher == s.workers[w].launcher)
  }

  lemma CallLeavesQuit(s: State, c: nat, s': State, w: nat)
    requires w < |s.workers| && s.workers[w].word == StQuit && CallStep(s, c) == Some(s')
    ensures StaysQuit(s, s', w)
  {
  }

  lemma ThreadLeavesQuit(s: State, v: nat, wake: Option<nat>, sleep: bool, s': State, w: nat)
    requires w < |s.workers| && s.workers[w].word == StQuit && ThreadStep(s, v, wake, sleep) == Some(s')
    ensures StaysQuit(s, s', w)
  {
  }

  lemma CloserLeavesQuit(s: State, s': State, w: nat)
    requires w < |s.workers| && WorkerInv(s, w) && s.workers[w].word == StQuit && CloserStep(s) == Some(s')
    ensures StaysQuit(s, s', w)
  {
  }

  /** Quit is final, and nothing leaves init for a launch afterwards. */
  lemma NothingStartsAfterQuit(run: seq<State>, k: nat, w: nat)
    requires IsRun(Init, Next, run) && k + 1 < |run|
    requires w < |run[k].workers| && run[k].workers[w].word == StQuit
    ensures StaysQuit(run[k], run[k + 1], w)
  {
    hide WorkerInv, CallInv, RefInv;
    RunKeepsInv(run, k);
    var s, s' := run[k], run[k + 1];
    assert Next(s, s');
    var e :| Step(s, e) == Some(s');
    match e
    case Start(_) =>
    case Close =>
    case CallMove(c) => CallLeavesQuit(s, c, s', w);
    case ThreadMove(v, wake, sleep) => ThreadLeavesQuit(s, v, wake, sleep, s', w);
    case CloserMove => CloserLeavesQuit(s, s', w);
  }

  /** A thread is launched after quit exactly for a worker that shutdown found in state starting and
      whose launcher has not got to it: the launch is pending if and only if there is no handle yet. */
  lemma LaunchAfterQuit(run: seq<State>, k: nat, w: nat)
    requires IsRun(Init, Next, run) && k < |run| && w < |run[k].workers| && run[k].workers[w].word == StQuit
    ensures (exists c :: 0 <= c < |run[k].calls| && run[k].calls[c].pc == Launch && run[k].calls[c].target == w)
            <==> run[k].workers[w].quitFrom == Some(StStarting) && run[k].workers[w].handle == NoHandle
  {
    RunKeepsInv(run, k);
    var s := run[k];
    assert WorkerInv(s, w);
    if c :| 0 <= c < |s.calls| && s.calls[c].pc == Launch && s.calls[c].target == w {
      assert CallInv(s, c);
    }
    if s.workers[w].quitFrom == Some(StStarting) && s.workers[w].handle == NoHandle {
      assert s.calls[s.workers[w].launcher.value].pc == Launch;
    }
  }

  /** Such a launch does happen. */
  lemma LaunchAfterQuitHappens() returns (run: seq<State>)
    ensures IsRun(Init, Next, run)
    ensures exists s' :: Next(run[|run| - 1], s') && |s'.workers| == |run[|run| - 1].workers| == 1
              && run[|run| - 1].workers[0].word == StQuit && run[|run| - 1].workers[0].thread == NoThread
              && s'.workers[0].thread == Propagate
  {
    var w0 := Worker(StInit, NoThread, NoHandle, false, false, None, None, None, 0);
    var s0 := State([w0], [], Open, 2, 0);
    var s1 := s0.(calls := s0.calls + [Call(External, 0, Load)]);
    var s2 := Put(s1, 0, w0, 0, TryStart);
    var w3 := w0.(word := StStarting, launcher := Some(0));
    var s3 := Put(s2, 0, w3, 0, Launch);
    var s4 := s3.(closer := Exchange(0));
    var w5 := w3.(word := StQuit, quitFrom := Some(StStarting));
    var s5 := s4.(workers := s4.workers[0 := w5], closer := Act(0));
    var s6 := Put(s5, 0, w5.(thread := Propagate, handle := Raw), 0, Store);
    assert Step(s0, Start(0)) == Some(s1);
    assert Step(s1, CallMove(0)) == Some(s2);
    assert Step(s2, CallMove(0)) == Some(s3);
    assert Step(s3, Close) == Some(s4);
    assert Step(s4, CloserMove) == Some(s5);
    assert Step(s5, CallMove(0)) == Some(s6);
    run := [s0, s1, s2, s3, s4, s5];
    assert Next(run[5], s6);
  }

  predicate PostsWith(next: Option<State>, w: nat) {
    next.Some? && w < |next.value.workers| && next.value.workers[w].permit
  }

  /** Somebody has set `my_notified` of worker `w`, can move, and posts the semaphore when it does. */
  predicate PostOwed(s: State, w: nat) {
    || (exists c :: 0 <= c < |s.calls| && s.calls[c].pc == Post && s.calls[c].target == w && PostsWith(CallStep(s, c), w))
    || (s.closer == PostTo(w) && PostsWith(CloserStep(s), w))
  }

  /** After shutdown has dealt with a worker, its thread does not sleep for good: the permit is there, or
      whoever set `my_notified` first, a waker or shutdown itself, still owes the post and can make it. */
  lemma NobodySleepsThroughShutdown(run: seq<State>, k: nat, w: nat)
    requires IsRun(Init, Next, run) && k < |run| && w < |run[k].workers|
    requires run[k].workers[w].word == StQuit && run[k].closer != Act(w) && run[k].workers[w].thread == Asleep
    ensures ThreadStep(run[k], w, None, false).Some? || PostOwed(run[k], w)
  {
    RunKeepsInv(run, k);
    hide Init, Next, IsRun;
    var s := run[k];
    assert WorkerInv(s, w);
    if s.workers[w].poster.Some? && s.workers[w].poster.value.Waker? {
      var c := s.workers[w].poster.value.call;
      assert s.calls[c].pc == Post && PostsWith(CallStep(s, c), w);
    }
  }

  /** The semaphore is binary: a post never finds a permit, and two posts are never owed at once. */
  lemma PostsAreSingle(run: seq<State>, k: nat, c: nat, d: nat)
    requires IsRun(Init, Next, run) && k < |run| && c < |run[k].calls| && d < |run[k].calls|
    requires run[k].calls[c].pc == Post && run[k].calls[d].pc == Post && run[k].calls[c].target == run[k].calls[d].target
    ensures c == d && run[k].calls[c].target < |run[k].workers|
    ensures !run[k].workers[run[k].calls[c].target].permit && run[k].closer != PostTo(run[k].calls[c].target)
  {
    RunKeepsInv(run, k);
    hide Init, Next, IsRun;
    var s := run[k];
    assert CallInv(s, c) && CallInv(s, d);
    assert WorkerInv(s, s.calls[c].target);
  }

  // ---------------------------------------------------------------- everything comes to an end

  /** A thread inside wake_or_launch has a call. */
  predicate CallsExist(s: State) {
    forall w | 0 <= w < |s.workers| && s.workers[w].thread.Calling? :: s.workers[w].thread.call < |s.calls|
  }

  lemma CallsAreThere(run: seq<State>, k: nat)
    requires IsRun(Init, Next, run) && k < |run|
    ensures CallsExist(run[k])
  {
    hide Step, CallsExist;
    forall s | Init(s) ensures CallsExist(s) { NoCallsYet(s); }
    forall s, s' | CallsExist(s) && Next(s, s') ensures CallsExist(s') {
      var e :| Step(s, e) == Some(s');
      StepKeepsCalls(s, e, s');
    }
    InvariantInRun(Init, Next, CallsExist, run, k);
  }

  lemma NoCallsYet(s: State)
    requires Init(s)
    ensures CallsExist(s)
  {
  }

  lemma StepKeepsCalls(s: State, e: Event, s': State)
    requires CallsExist(s) && Step(s, e) == Some(s')
    ensures CallsExist(s')
  {
    forall w | 0 <= w < |s'.workers| && s'.workers[w].thread.Calling? ensures s'.workers[w].thread.call < |s'.calls| {
      assert w < |s.workers| && (s.workers[w].thread == s'.workers[w].thread || e.ThreadMove?);
    }
  }

  /** Nobody inside the server can make a step. */
  ghost predicate Stuck(s: State) {
    && (forall c | 0 <= c < |s.calls| :: CallStep(s, c) == None)
    && (forall w | 0 <= w < |s.workers| :: ThreadStep(s, w, None, false) == None)
    && CloserStep(s) == None
  }

  /** Once shutdown has begun, nobody waits for ever: when no step can be made any more, the server has been
      destroyed. */
  lemma DestroyedInTheEnd(run: seq<State>, k: nat)
    requires IsRun(Init, Next, run) && k < |run| && run[k].closer != Open && Stuck(run[k])
    ensures run[k].closer == Closed && run[k].refs == 0 && run[k].destroyed == 1
  {
    RunKeepsInv(run, k);
    CallsAreThere(run, k);
    hide Init, Next, IsRun;
    var s := run[k];
    forall c | 0 <= c < |s.calls| ensures s.calls[c].pc == Done {
      assert CallInv(s, c) && CallStep(s, c) == None;
    }
    CloserIsDone(s);
    forall w | 0 <= w < |s.workers| ensures Held(s.workers[w]) == 0 {
      assert WorkerInv(s, w) && ThreadStep(s, w, None, false) == None;
      StuckHasDropped(s, w);
    }
    SumConstant(s.workers, Held, 0);
  }

  lemma CloserIsDone(s: State)
    requires RefInv(s) && s.closer != Open && CloserStep(s) == None
    requires forall c | 0 <= c < |s.calls| :: s.calls[c].pc == Done
    ensures s.closer == Closed
  {
    hide Sum;
  }

  lemma StuckHasDropped(s: State, w: nat)
    requires w < |s.workers| && WorkerInv(s, w) && CallsExist(s) && ThreadStep(s, w, None, false) == None
    requires s.closer == Closed && forall c | 0 <= c < |s.calls| :: s.calls[c].pc == Done
    ensures s.workers[w].drops == 1
  {
    var x := s.workers[w];
    assert CloserInv(s, w) && x.word == StQuit && DropInv(s, w);
    NobodyPosts(s, w);
    if x.thread == NoThread {
      assert WordInv(x) && LauncherInv(s, w);
      assert x.launcher.None?;
    }
  }

  lemma NobodyPosts(s: State, w: nat)
    requires w < |s.workers| && NotifyInv(s, w) && s.closer == Closed && forall c | 0 <= c < |s.calls| :: s.calls[c].pc == Done
    ensures s.workers[w].poster.None?
  {
    PosterIsBusy(s, w);
  }

  lemma PosterIsBusy(s: State, w: nat)
    requires w < |s.workers| && NotifyInv(s, w)
    ensures var p := s.workers[w].poster;
            p.Some? ==> s.closer == PostTo(w) || (p.value.Waker? && p.value.call < |s.calls| && s.calls[p.value.call].pc == Post)
  {
    var p := s.workers[w].poster;
    if p.Some? && !p.value.Waker? {
      assert p == Some(Shutdown);
    }
  }

  // ---------------------------------------------------------------- waking has an effect

  /** A step of call `c` after which its target needs no further waking: the target was told to quit, has a wakeup
      pending, gets a permit, has its thread launched, or is being launched by another call. */
  ghost predicate EffectAt(run: seq<State>, m: nat, c: nat) {
    && m + 1 < |run| && c < |run[m].calls| && c < |run[m + 1].calls| && run[m + 1].calls[c].pc != run[m].calls[c].pc
    && var w, pc := run[m].calls[c].target, run[m].calls[c].pc;
       && w < |run[m].workers| && w < |run[m + 1].workers|
       && var x, x' := run[m].workers[w], run[m + 1].workers[w];
          || (pc == Load && x.word == StQuit) || (pc == Notify && x.notified) || (!x.permit && x'.permit)
          || (x.thread == NoThread && x'.thread == Propagate) || (pc == TryStart && x.word != StInit)
  }

  ghost predicate Effective(run: seq<State>, j: nat, k: nat, c: nat) {
    exists m :: j <= m < k && EffectAt(run, m, c)
  }

  predicate PastEffect(pc: CallPc) {
    pc == Store || pc == SetNormal || pc == Release || pc == Done
  }

  lemma EffectOfStep(s: State, e: Event, s': State, c: nat)
    requires Inv(s) && Step(s, e) == Some(s') && c < |s.calls| && !PastEffect(s.calls[c].pc)
    ensures c < |s'.calls| && PastEffect(s'.calls[c].pc) ==>
              var w, pc := s.calls[c].target, s.calls[c].pc;
              && w < |s.workers| && w < |s'.workers|
              && var x, x' := s.workers[w], s'.workers[w];
                 || (pc == Load && x.word == StQuit) || (pc == Notify && x.notified) || (!x.permit && x'.permit)
                 || (x.thread == NoThread && x'.thread == Propagate) || (pc == TryStart && x.word != StInit)
  {
    hide ThreadStep, CloserStep, RefInv;
    assert CallInv(s, c);
    assert WorkerInv(s, s.calls[c].target);
    if e != CallMove(c) { OthersLeaveCall(s, e, s', c); }
  }

  lemma OthersLeaveCall(s: State, e: Event, s': State, c: nat)
    requires Step(s, e) == Some(s') && c < |s.calls| && e != CallMove(c)
    ensures c < |s'.calls| && s'.calls[c] == s.calls[c]
  {
  }

  /** A call of wake_or_launch that has returned has had an effect. */
  lemma {:induction false} WakingHasEffect(run: seq<State>, j: nat, k: nat, c: nat)
    requires IsRun(Init, Next, run) && j <= k < |run| && c < |run[j].calls| && run[j].calls[c].pc == Load
    ensures c < |run[k].calls| && (PastEffect(run[k].calls[c].pc) ==> Effective(run, j, k, c))
    decreases k
  {
    hide Init, Step, Inv;
    if j < k {
      WakingHasEffect(run, j, k - 1, c);
      RunKeepsInv(run, k - 1);
      assert Next(run[k - 1], run[k - 1 + 1]);
      var e :| Step(run[k - 1], e) == Some(run[k]);
      CallsStay(run[k - 1], e, run[k]);
      if !PastEffect(run[k - 1].calls[c].pc) {
        EffectOfStep(run[k - 1], e, run[k], c);
        assert PastEffect(run[k].calls[c].pc) ==> EffectAt(run, k - 1, c);
      }
    }
  }

  lemma CallsStay(s: State, e: Event, s': State)
    requires Step(s, e) == Some(s')
    ensures |s.calls| <= |s'.calls|
  {
  }
}

/**
 * The eventcount of `concurrent_monitor`: waiters that prepare, look at their condition, and commit or
 * cancel; notifiers that take waiters out of the waitset and post their semaphores. A wakeup that a
 * cancelled wait no longer needs is pumped by the next prepare_wait or by the destructor.
 *
 * Each critical section of the monitor's mutex is one step, and so is every access outside of it.
 */
module EventCount {
  import opened Behaviors

  datatype WaiterPc =
    | Idle
    | Pump            // prepare_wait: P() of a skipped wakeup
    | Mark            // my_is_in_list.store(true)
    | Enter           // under the mutex: epoch copied, node added
    | Look            // the caller evaluates its condition
    | Commit          // compares epochs
    | Wait            // P()
    | Skip            // cancel_wait: my_skipped_wakeup = true
    | Peek            // my_is_in_list ?
    | Leave           // under the mutex: removed unless already removed
    | Destroy         // destructor: P() of a skipped wakeup
    | Gone

  datatype Waiter = Waiter(
    context: nat, pc: WaiterPc, inList: bool, skipped: bool, initialized: bool, epoch: nat, permits: nat,
    session: nat,              // how many times the node has entered the waitset
    holder: Option<nat>)       // the notifier that has removed it and not posted it yet

  /** notify_one, notify_all / abort_all, notify(predicate), notify_one(predicate). */
  datatype Kind = One | All | Matching(wanted: set<nat>) | OneMatching(wanted: set<nat>)

  datatype NotifierPc = Signal | Test | Section | Post | Done

  /** `signals`: contexts whose condition this notifier makes true before it notifies. `seen`: the nodes
      it has to release, with their sessions, as of the start of the notification. */
  datatype Notifier = Notifier(
    kind: Kind, pc: NotifierPc, signals: set<nat>, todo: seq<nat>, seen: set<(nat, nat)>)

  datatype State = State(
    waiters: seq<Waiter>, waitset: seq<nat>, epoch: nat, cond: set<nat>, notifiers: seq<Notifier>)

  datatype Event =
    | Prepare(w: nat)
    | Destruct(w: nat)
    | WaiterMove(w: nat)
    | Notify(kind: Kind, signals: set<nat>)
    | NotifierMove(n: nat)
    | Withdraw(contexts: set<nat>)       // conditions may become false again

  predicate Init(s: State) {
    && s.waitset == [] && s.notifiers == []
    && forall w | 0 <= w < |s.waiters| ::
         s.waiters[w] == Waiter(s.waiters[w].context, Idle, false, false, false, 0, 0, 0, None)
  }

  /** The condition a notifier announces concerns only contexts that its notification releases. */
  predicate Covers(kind: Kind, signals: set<nat>) {
    match kind
    case All => true
    case Matching(wanted) => signals <= wanted
    case _ => signals == {}
  }

  function Keep<T(==)>(ws: seq<T>, chosen: set<T>): seq<T> {
    if ws == [] then []
    else Keep(ws[..|ws| - 1], chosen) + (if ws[|ws| - 1] in chosen then [ws[|ws| - 1]] else [])
  }

  function Drop<T(==)>(ws: seq<T>, chosen: set<T>): seq<T> {
    if ws == [] then []
    else Drop(ws[..|ws| - 1], chosen) + (if ws[|ws| - 1] in chosen then [] else [ws[|ws| - 1]])
  }

  function Reversed<T>(ws: seq<T>): seq<T> {
    if ws == [] then [] else [ws[|ws| - 1]] + Reversed(ws[..|ws| - 1])
  }

  predicate Wants(s: State, wanted: set<nat>, w: nat) {
    w < |s.waiters| && s.waiters[w].context in wanted
  }

  /** The search of notify_one(predicate), from the back. */
  function LastWanted(s: State, ws: seq<nat>, wanted: set<nat>): set<nat> {
    if ws == [] then {}
    else if Wants(s, wanted, ws[|ws| - 1]) then {ws[|ws| - 1]}
    else LastWanted(s, ws[..|ws| - 1], wanted)
  }

  function Chosen(s: State, kind: Kind): set<nat> {
    match kind
    case One => if s.waitset == [] then {} else {s.waitset[0]}
    case All => set w | w in s.waitset
    case Matching(wanted) => set w | w in s.waitset && Wants(s, wanted, w)
    case OneMatching(wanted) => LastWanted(s, s.waitset, wanted)
  }

  /** The private list of a notifier; notify(predicate) collects from the back. */
  function Collected(s: State, kind: Kind): seq<nat> {
    var kept := Keep(s.waitset, Chosen(s, kind));
    if kind.Matching? then Reversed(kept) else kept
  }

  function WithWaiter(s: State, w: nat, x: Waiter): State
    requires w < |s.waiters|
  {
    s.(waiters := s.waiters[w := x])
  }

  function WaiterStep(s: State, w: nat): Option<State> {
    if w >= |s.waiters| then None else
    var x := s.waiters[w];
    match x.pc
    case Idle => None
    case Pump =>
      if x.permits == 0 then None
      else Some(WithWaiter(s, w, x.(permits := x.permits - 1, skipped := false, pc := Mark)))
    case Mark => Some(WithWaiter(s, w, x.(inList := true, pc := Enter)))
    case Enter =>
      Some(WithWaiter(s, w, x.(epoch := s.epoch, session := x.session + 1, pc := Look)).(waitset := s.waitset + [w]))
    case Look => Some(WithWaiter(s, w, x.(pc := if x.context in s.cond then Skip else Commit)))
    case Commit => Some(WithWaiter(s, w, x.(pc := if x.epoch == s.epoch then Wait else Skip)))
    case Wait => if x.permits == 0 then None else Some(WithWaiter(s, w, x.(permits := x.permits - 1, pc := Idle)))
    case Skip => Some(WithWaiter(s, w, x.(skipped := true, pc := Peek)))
    case Peek => Some(WithWaiter(s, w, x.(pc := if x.inList then Leave else Idle)))
    case Leave =>
      if x.inList then
        Some(WithWaiter(s, w, x.(inList := false, skipped := false, pc := Idle)).(waitset := Drop(s.waitset, {w})))
      else Some(WithWaiter(s, w, x.(pc := Idle)))
    case Destroy =>
      if !x.initialized || !x.skipped then Some(WithWaiter(s, w, x.(pc := Gone)))
      else if x.permits == 0 then None
      else Some(WithWaiter(s, w, x.(permits := x.permits - 1, pc := Gone)))
    case Gone => None
  }

  function Removed(x: Waiter, n: nat): Waiter {
    x.(inList := false, holder := Some(n))
  }

  function NotifierStep(s: State, n: nat): Option<State> {
    if n >= |s.notifiers| then None else
    var f := s.notifiers[n];
    match f.pc
    case Signal =>
      Some(s.(cond := s.cond + f.signals, notifiers := s.notifiers[n := f.(pc := Test, seen := MustRelease(s, f.kind))]))
    case Test => Some(s.(notifiers := s.notifiers[n := f.(pc := if s.waitset == [] then Done else Section)]))
    case Section =>
      var chosen := Chosen(s, f.kind);
      Some(s.(epoch := s.epoch + 1, waitset := Drop(s.waitset, chosen),
              waiters := seq(|s.waiters|, i requires 0 <= i < |s.waiters| =>
                               if i in chosen then Removed(s.waiters[i], n) else s.waiters[i]),
              notifiers := s.notifiers[n := f.(pc := Post, todo := Collected(s, f.kind))]))
    case Post =>
      if f.todo == [] then Some(s.(notifiers := s.notifiers[n := f.(pc := Done)]))
      else if f.todo[0] >= |s.waiters| then None
      else
        var x := s.waiters[f.todo[0]];
        Some(WithWaiter(s, f.todo[0], x.(permits := x.permits + 1, holder := None))
             .(notifiers := s.notifiers[n := f.(todo := f.todo[1..])]))
    case Done => None
  }

  /** A notification of this kind releases every waiter of context `c`. */
  predicate Promises(kind: Kind, c: nat) {
    kind.All? || (kind.Matching? && c in kind.wanted)
  }

  /** The nodes in the waitset that a notification of this kind has to release, with their sessions. */
  function MustRelease(s: State, kind: Kind): set<(nat, nat)> {
    set w | w in s.waitset && w < |s.waiters| && Promises(kind, s.waiters[w].context) :: (w, s.waiters[w].session)
  }

  function Step(s: State, e: Event): Option<State> {
    match e
    case Prepare(w) =>
      if w < |s.waiters| && s.waiters[w].pc == Idle then
        var x := s.waiters[w];
        Some(WithWaiter(s, w, x.(initialized := true, pc := if x.initialized && x.skipped then Pump else Mark)))
      else None
    case Destruct(w) =>
      if w < |s.waiters| && s.waiters[w].pc == Idle then Some(WithWaiter(s, w, s.waiters[w].(pc := Destroy))) else None
    case WaiterMove(w) => WaiterStep(s, w)
    case Notify(kind, signals) =>
      if Covers(kind, signals) then Some(s.(notifiers := s.notifiers + [Notifier(kind, Signal, signals, [], {})])) else None
    case NotifierMove(n) => NotifierStep(s, n)
    case Withdraw(contexts) => Some(s.(cond := s.cond - contexts))
  }

  ghost predicate Next(s: State, s': State) {
    exists e :: Step(s, e) == Some(s')
  }

  // ---------------------------------------------------------------- invariant

  predicate Distinct(ws: seq<nat>) {
    forall i, j | 0 <= i < j < |ws| :: ws[i] != ws[j]
  }

  /** Wakeups that are posted or certain to be posted. */
  function Tokens(x: Waiter): nat {
    x.permits + if x.holder.Some? then 1 else 0
  }

  predicate InSession(pc: WaiterPc) {
    pc == Look || pc == Commit || pc == Wait || pc == Skip || pc == Peek || pc == Leave
  }

  /** A node in a session is in the waitset, or exactly one wakeup is on its way: never both, never
      neither. Outside a session the only wakeup there can be is the one the node remembers as skipped. */
  predicate LocalOk(x: Waiter, queued: bool) {
    && (if queued then InSession(x.pc) && x.inList && Tokens(x) == 0
        else if InSession(x.pc) then !x.inList && Tokens(x) == 1
        else if x.pc == Mark || x.pc == Enter || x.pc == Gone then Tokens(x) == 0
        else Tokens(x) == if x.skipped then 1 else 0)
    && (x.pc == Pump ==> x.skipped)
    && (InSession(x.pc) ==> (x.skipped <==> x.pc == Peek || x.pc == Leave))
    && (x.pc == Mark || x.pc == Enter ==> !x.skipped)
    && (x.pc == Enter ==> x.inList)
    && (x.pc == Idle || x.pc == Pump || x.pc == Mark || x.pc == Destroy || x.pc == Gone ==> !x.inList)
    && (x.pc != Idle && x.pc != Destroy && x.pc != Gone ==> x.initialized)
    && (x.skipped ==> x.initialized)
  }

  predicate Locals(s: State) {
    forall w | 0 <= w < |s.waiters| :: LocalOk(s.waiters[w], w in s.waitset)
  }

  predicate Queue(s: State) {
    Distinct(s.waitset) && forall w | w in s.waitset :: w < |s.waiters|
  }

  predicate HolderOk(s: State, w: nat)
    requires w < |s.waiters|
  {
    var h := s.waiters[w].holder;
    h.Some? ==> h.value < |s.notifiers| && w in s.notifiers[h.value].todo
  }

  predicate TodoOk(s: State, n: nat)
    requires n < |s.notifiers|
  {
    var f := s.notifiers[n];
    && Distinct(f.todo)
    && (f.pc != Post ==> f.todo == [])
    && forall w | w in f.todo :: w < |s.waiters| && s.waiters[w].holder == Some(n)
  }

  /** A node is in the private list of a notifier exactly when that notifier still has to post it. */
  predicate Holders(s: State) {
    && (forall w | 0 <= w < |s.waiters| :: HolderOk(s, w))
    && forall n | 0 <= n < |s.notifiers| :: TodoOk(s, n)
  }

  predicate Past(f: Notifier) {
    f.pc == Post || f.pc == Done
  }

  predicate StillWaits(s: State, p: (nat, nat)) {
    p.0 in s.waitset && p.0 < |s.waiters| && s.waiters[p.0].session == p.1
  }

  predicate SeenOk(s: State, f: Notifier, p: (nat, nat)) {
    && p.0 < |s.waiters| && p.1 <= s.waiters[p.0].session
    && Promises(f.kind, s.waiters[p.0].context)
    && (Past(f) ==> !StillWaits(s, p))
  }

  /** No notifier leaves behind, in the same session, a node that it found in the waitset at its start. */
  predicate Released(s: State) {
    forall n | 0 <= n < |s.notifiers| ::
      forall p | p in s.notifiers[n].seen :: SeenOk(s, s.notifiers[n], p)
  }

  /** A notifier that has made the condition of context `c` true and not taken its waiters out yet. */
  predicate Announces(f: Notifier, c: nat) {
    (f.pc == Test || f.pc == Section) && c in f.signals
  }

  predicate Announced(s: State, c: nat) {
    exists n :: 0 <= n < |s.notifiers| && Announces(s.notifiers[n], c)
  }

  /** Found its condition false, and sits in the waitset while it is true. */
  predicate Misses(s: State, w: nat) {
    && w in s.waitset && w < |s.waiters|
    && (s.waiters[w].pc == Commit || s.waiters[w].pc == Wait)
    && s.waiters[w].context in s.cond
  }

  predicate Signals(s: State) {
    && (forall n | 0 <= n < |s.notifiers| :: Covers(s.notifiers[n].kind, s.notifiers[n].signals))
    && forall w | 0 <= w < |s.waiters| && Misses(s, w) :: Announced(s, s.waiters[w].context)
  }

  predicate Inv(s: State) {
    Queue(s) && Locals(s) && Holders(s) && Released(s) && Signals(s)
  }

  // ---------------------------------------------------------------- the lists

  lemma {:induction false} DropMembers(ws: seq<nat>, chosen: set<nat>)
    ensures forall x :: x in Drop(ws, chosen) <==> x in ws && x !in chosen
    ensures Distinct(ws) ==> Distinct(Drop(ws, chosen))
  {
    if ws != [] {
      var front := ws[..|ws| - 1];
      assert ws == front + [ws[|ws| - 1]];
      DropMembers(front, chosen);
    }
  }

  lemma {:induction false} KeepMembers(ws: seq<nat>, chosen: set<nat>)
    ensures forall x :: x in Keep(ws, chosen) <==> x in ws && x in chosen
    ensures Distinct(ws) ==> Distinct(Keep(ws, chosen))
  {
    if ws != [] {
      var front := ws[..|ws| - 1];
      assert ws == front + [ws[|ws| - 1]];
      KeepMembers(front, chosen);
    }
  }

  lemma {:induction false} ReversedMembers(ws: seq<nat>)
    ensures forall x :: x in Reversed(ws) <==> x in ws
    ensures Distinct(ws) ==> Distinct(Reversed(ws))
  {
    if ws != [] {
      var front := ws[..|ws| - 1];
      assert ws == front + [ws[|ws| - 1]];
      ReversedMembers(front);
      assert Distinct(ws) ==> Distinct(front) && ws[|ws| - 1] !in front;
    }
  }

  lemma {:induction false} LastWantedMembers(s: State, ws: seq<nat>, wanted: set<nat>)
    ensures forall x | x in LastWanted(s, ws, wanted) :: x in ws && Wants(s, wanted, x)
  {
    if ws != [] {
      LastWantedMembers(s, ws[..|ws| - 1], wanted);
    }
  }

  /** The critical section of a notifier splits the waitset into what stays and what it takes. */
  lemma Taken(s: State, kind: Kind)
    requires Queue(s)
    ensures forall x | x in Chosen(s, kind) :: x in s.waitset
    ensures forall x :: x in Drop(s.waitset, Chosen(s, kind)) <==> x in s.waitset && x !in Chosen(s, kind)
    ensures forall x :: x in Collected(s, kind) <==> x in Chosen(s, kind)
    ensures Distinct(Drop(s.waitset, Chosen(s, kind))) && Distinct(Collected(s, kind))
  {
    var chosen := Chosen(s, kind);
    if kind.OneMatching? { LastWantedMembers(s, s.waitset, kind.wanted); }
    DropMembers(s.waitset, chosen);
    KeepMembers(s.waitset, chosen);
    ReversedMembers(Keep(s.waitset, chosen));
  }

  // ---------------------------------------------------------------- steps of a waiter

  /** What a step of a waiter leaves alone. */
  lemma WaiterEffect(s: State, w: nat, s': State)
    requires WaiterStep(s, w) == Some(s')
    ensures |s'.waiters| == |s.waiters| && s'.notifiers == s.notifiers && s'.cond == s.cond
    ensures forall v | 0 <= v < |s.waiters| :: v != w ==> s'.waiters[v] == s.waiters[v]
    ensures forall v | 0 <= v < |s.waiters| ::
              && s'.waiters[v].holder == s.waiters[v].holder && s'.waiters[v].context == s.waiters[v].context
              && s'.waiters[v].session >= s.waiters[v].session
    ensures forall v | v in s'.waitset ::
              v in s.waitset || (v == w && s'.waiters[w].session > s.waiters[w].session && s'.waiters[w].pc == Look)
    ensures forall v | v != w :: v in s'.waitset <==> v in s.waitset
    ensures s'.waiters[w].pc == Commit ==> s'.waiters[w].context !in s'.cond
    ensures s'.waiters[w].pc == Wait ==> s.waiters[w].pc == Commit
  {
    hide Drop;
    DropMembers(s.waitset, {w});
  }

  lemma WaiterKeepsQueue(s: State, w: nat, s': State)
    requires Queue(s) && Locals(s) && WaiterStep(s, w) == Some(s')
    ensures Queue(s') && LocalOk(s'.waiters[w], w in s'.waitset)
  {
    hide Drop, Locals;
    assert LocalOk(s.waiters[w], w in s.waitset) by { LocalAt(s, w); }
    DropMembers(s.waitset, {w});
  }

  lemma LocalAt(s: State, w: nat)
    requires Locals(s) && w < |s.waiters|
    ensures LocalOk(s.waiters[w], w in s.waitset)
  {
  }

  lemma WaiterKeepsLocals(s: State, w: nat, s': State)
    requires Queue(s) && Locals(s) && WaiterStep(s, w) == Some(s')
    ensures Queue(s') && Locals(s')
  {
    hide WaiterStep, Queue, LocalOk;
    WaiterEffect(s, w, s');
    WaiterKeepsQueue(s, w, s');
    forall v | 0 <= v < |s'.waiters| ensures LocalOk(s'.waiters[v], v in s'.waitset) {
      assert LocalOk(s.waiters[v], v in s.waitset);
    }
  }

  lemma WaiterKeepsHolders(s: State, w: nat, s': State)
    requires Holders(s) && WaiterStep(s, w) == Some(s')
    ensures Holders(s')
  {
    WaiterEffect(s, w, s');
    hide WaiterStep;
    forall v | 0 <= v < |s'.waiters| ensures HolderOk(s', v) {
      assert HolderOk(s, v);
    }
    forall n | 0 <= n < |s'.notifiers| ensures TodoOk(s', n) {
      assert TodoOk(s, n);
    }
  }

  lemma WaiterKeepsReleased(s: State, w: nat, s': State)
    requires Released(s) && WaiterStep(s, w) == Some(s')
    ensures Released(s')
  {
    WaiterEffect(s, w, s');
    hide WaiterStep;
    forall n, p | 0 <= n < |s'.notifiers| && p in s'.notifiers[n].seen
      ensures SeenOk(s', s'.notifiers[n], p)
    {
      assert SeenOk(s, s.notifiers[n], p);
    }
  }

  lemma WaiterKeepsSignals(s: State, w: nat, s': State)
    requires Signals(s) && WaiterStep(s, w) == Some(s')
    ensures Signals(s')
  {
    WaiterEffect(s, w, s');
    hide WaiterStep;
    forall v | 0 <= v < |s'.waiters| && Misses(s', v) ensures Announced(s', s'.waiters[v].context) {
      assert Misses(s, v);
    }
  }

  // ---------------------------------------------------------------- steps of a notifier

  /** The critical section, as seen from each waiter. */
  lemma SectionEffect(s: State, n: nat, s': State)
    requires Queue(s) && n < |s.notifiers| && s.notifiers[n].pc == Section && NotifierStep(s, n) == Some(s')
    ensures |s'.waiters| == |s.waiters| && |s'.notifiers| == |s.notifiers| && s'.cond == s.cond
    ensures forall m | 0 <= m < |s.notifiers| && m != n :: s'.notifiers[m] == s.notifiers[m]
    ensures s'.notifiers[n] == s.notifiers[n].(pc := Post, todo := s'.notifiers[n].todo)
    ensures Distinct(s'.notifiers[n].todo) && Distinct(s'.waitset)
    ensures forall w :: w in s'.waitset || w in s'.notifiers[n].todo <==> w in s.waitset
    ensures forall w | w in s'.waitset :: w !in s'.notifiers[n].todo
    ensures forall w | w in s.waitset && Promises(s.notifiers[n].kind, s.waiters[w].context) :: w !in s'.waitset
    ensures forall w | 0 <= w < |s.waiters| ::
              s'.waiters[w] == if w in s'.notifiers[n].todo then Removed(s.waiters[w], n) else s.waiters[w]
  {
    hide Drop, Keep, Reversed, LastWanted, Collected;
    Taken(s, s.notifiers[n].kind);
  }

  lemma SectionKeepsLocals(s: State, n: nat, s': State)
    requires Queue(s) && Locals(s)
    requires n < |s.notifiers| && s.notifiers[n].pc == Section && NotifierStep(s, n) == Some(s')
    ensures Queue(s') && Locals(s')
  {
    SectionEffect(s, n, s');
    hide NotifierStep;
    forall w | 0 <= w < |s'.waiters| ensures LocalOk(s'.waiters[w], w in s'.waitset) {
      assert LocalOk(s.waiters[w], w in s.waitset);
    }
  }

  lemma SectionKeepsHolders(s: State, n: nat, s': State)
    requires Queue(s) && Locals(s) && Holders(s)
    requires n < |s.notifiers| && s.notifiers[n].pc == Section && NotifierStep(s, n) == Some(s')
    ensures Holders(s')
  {
    SectionEffect(s, n, s');
    hide NotifierStep;
    assert TodoOk(s, n);
    forall w | 0 <= w < |s'.waiters| ensures HolderOk(s', w) {
      assert HolderOk(s, w) && LocalOk(s.waiters[w], w in s.waitset);
    }
    forall m | 0 <= m < |s'.notifiers| ensures TodoOk(s', m) {
      assert TodoOk(s, m);
      forall w | m != n && w in s'.notifiers[m].todo ensures s'.waiters[w].holder == Some(m) {
        assert LocalOk(s.waiters[w], w in s.waitset);
      }
    }
  }

  lemma SectionKeepsReleased(s: State, n: nat, s': State)
    requires Queue(s) && Released(s)
    requires n < |s.notifiers| && s.notifiers[n].pc == Section && NotifierStep(s, n) == Some(s')
    ensures Released(s')
  {
    SectionEffect(s, n, s');
    hide NotifierStep;
    forall m, p | 0 <= m < |s'.notifiers| && p in s'.notifiers[m].seen
      ensures SeenOk(s', s'.notifiers[m], p)
    {
      assert SeenOk(s, s.notifiers[m], p);
    }
  }

  lemma SectionKeepsSignals(s: State, n: nat, s': State)
    requires Queue(s) && Signals(s)
    requires n < |s.notifiers| && s.notifiers[n].pc == Section && NotifierStep(s, n) == Some(s')
    ensures Signals(s')
  {
    SectionEffect(s, n, s');
    hide NotifierStep;
    forall v | 0 <= v < |s'.waiters| && Misses(s', v) ensures Announced(s', s'.waiters[v].context) {
      assert Misses(s, v);
      var m :| 0 <= m < |s.notifiers| && Announces(s.notifiers[m], s.waiters[v].context);
      assert Covers(s.notifiers[m].kind, s.notifiers[m].signals);
      assert m != n;
      assert Announces(s'.notifiers[m], s'.waiters[v].context);
    }
  }

  lemma SectionKeepsInv(s: State, n: nat, s': State)
    requires Inv(s) && n < |s.notifiers| && s.notifiers[n].pc == Section && NotifierStep(s, n) == Some(s')
    ensures Inv(s')
  {
    hide Queue, Locals, Holders, Released, Signals, NotifierStep;
    SectionKeepsLocals(s, n, s');
    SectionKeepsHolders(s, n, s');
    SectionKeepsReleased(s, n, s');
    SectionKeepsSignals(s, n, s');
  }

  /** One post, as seen from each waiter and each notifier; or the return of the notifier. */
  lemma PostEffect(s: State, n: nat, s': State)
    requires n < |s.notifiers| && s.notifiers[n].pc == Post && NotifierStep(s, n) == Some(s')
    ensures |s'.waiters| == |s.waiters| && |s'.notifiers| == |s.notifiers| && s'.waitset == s.waitset
    ensures forall m | 0 <= m < |s.notifiers| && m != n :: s'.notifiers[m] == s.notifiers[m]
    ensures var todo := s.notifiers[n].todo;
            if todo == [] then s'.waiters == s.waiters && s'.notifiers[n] == s.notifiers[n].(pc := Done)
            else
              && todo[0] < |s.waiters| && s'.notifiers[n] == s.notifiers[n].(todo := todo[1..])
              && forall w | 0 <= w < |s.waiters| ::
                   s'.waiters[w] ==
                   if w != todo[0] then s.waiters[w]
                   else s.waiters[w].(permits := s.waiters[w].permits + 1, holder := None)
  {
  }

  lemma PostKeepsLocals(s: State, n: nat, s': State)
    requires Locals(s) && Holders(s)
    requires n < |s.notifiers| && s.notifiers[n].pc == Post && NotifierStep(s, n) == Some(s')
    ensures Locals(s')
  {
    PostEffect(s, n, s');
    hide NotifierStep, Distinct;
    assert TodoOk(s, n);
    forall w | 0 <= w < |s'.waiters| ensures LocalOk(s'.waiters[w], w in s'.waitset) {
      assert LocalOk(s.waiters[w], w in s.waitset);
    }
  }

  lemma PostKeepsHolders(s: State, n: nat, s': State)
    requires Holders(s)
    requires n < |s.notifiers| && s.notifiers[n].pc == Post && NotifierStep(s, n) == Some(s')
    ensures Holders(s')
  {
    PostEffect(s, n, s');
    hide NotifierStep;
    assert TodoOk(s, n);
    var todo := s.notifiers[n].todo;
    assert todo != [] ==> todo == [todo[0]] + todo[1..] && todo[0] in todo && todo[0] !in todo[1..];
    forall w | 0 <= w < |s'.waiters| ensures HolderOk(s', w) {
      assert HolderOk(s, w);
    }
    forall m | 0 <= m < |s'.notifiers| ensures TodoOk(s', m) {
      assert TodoOk(s, m);
      forall w | w in s'.notifiers[m].todo ensures w < |s'.waiters| && s'.waiters[w].holder == Some(m) {
        assert w in s.notifiers[m].todo;
      }
    }
  }

  /** Steps of a notifier that do not change who is in the waitset. */
  lemma QuietKeepsReleased(s: State, n: nat, s': State)
    requires Released(s) && n < |s.notifiers| && s.notifiers[n].pc != Section && NotifierStep(s, n) == Some(s')
    ensures Released(s')
  {
    forall m, p | 0 <= m < |s'.notifiers| && p in s'.notifiers[m].seen
      ensures SeenOk(s', s'.notifiers[m], p)
    {
      if m != n || s.notifiers[n].pc != Signal {
        assert SeenOk(s, s.notifiers[m], p);
      }
    }
  }

  lemma QuietKeepsSignals(s: State, n: nat, s': State)
    requires Signals(s) && n < |s.notifiers| && s.notifiers[n].pc != Section && NotifierStep(s, n) == Some(s')
    ensures Signals(s')
  {
    var f, f' := s.notifiers[n], s'.notifiers[n];
    forall v | 0 <= v < |s'.waiters| && Misses(s', v) ensures Announced(s', s'.waiters[v].context) {
      var c := s.waiters[v].context;
      if f.pc == Signal && c in f.signals {
        assert Announces(f', c);
      } else {
        assert Misses(s, v);
        var m :| 0 <= m < |s.notifiers| && Announces(s.notifiers[m], c);
        assert Announces(s'.notifiers[m], c);
      }
    }
  }

  lemma QuietKeepsInv(s: State, n: nat, s': State)
    requires Inv(s) && n < |s.notifiers| && s.notifiers[n].pc != Section && NotifierStep(s, n) == Some(s')
    ensures Inv(s')
  {
    hide Released, Signals;
    QuietKeepsReleased(s, n, s');
    QuietKeepsSignals(s, n, s');
    if s.notifiers[n].pc == Post {
      PostKeepsLocals(s, n, s');
      PostKeepsHolders(s, n, s');
    } else {
      forall m | 0 <= m < |s'.notifiers| ensures TodoOk(s', m) {
        assert TodoOk(s, m);
      }
      forall w | 0 <= w < |s'.waiters| ensures HolderOk(s', w) {
        assert HolderOk(s, w);
      }
    }
  }

  // ---------------------------------------------------------------- every run

  lemma StartKeepsInv(s: State, e: Event, s': State)
    requires Inv(s) && (e.Notify? || e.Withdraw?) && Step(s, e) == Some(s')
    ensures Inv(s')
  {
    forall m | 0 <= m < |s'.notifiers| ensures TodoOk(s', m) {
      assert m < |s.notifiers| ==> TodoOk(s, m);
    }
    forall w | 0 <= w < |s'.waiters| ensures HolderOk(s', w) {
      assert HolderOk(s, w);
    }
    forall m, p | 0 <= m < |s'.notifiers| && p in s'.notifiers[m].seen
      ensures SeenOk(s', s'.notifiers[m], p)
    {
      assert SeenOk(s, s.notifiers[m], p);
    }
    forall v | 0 <= v < |s'.waiters| && Misses(s', v) ensures Announced(s', s'.waiters[v].context) {
      assert Misses(s, v);
      var m :| 0 <= m < |s.notifiers| && Announces(s.notifiers[m], s.waiters[v].context);
      assert Announces(s'.notifiers[m], s.waiters[v].context);
    }
  }

  lemma PrepareKeepsQueue(s: State, e: Event, s': State)
    requires Queue(s) && Locals(s) && (e.Prepare? || e.Destruct?) && Step(s, e) == Some(s')
    ensures Queue(s') && Locals(s')
  {
    assert LocalOk(s.waiters[e.w], e.w in s.waitset);
  }

  lemma PrepareKeepsHolders(s: State, e: Event, s': State)
    requires Queue(s) && Locals(s) && Holders(s) && (e.Prepare? || e.Destruct?) && Step(s, e) == Some(s')
    ensures Holders(s')
  {
    assert LocalOk(s.waiters[e.w], e.w in s.waitset);
    forall m | 0 <= m < |s'.notifiers| ensures TodoOk(s', m) {
      assert TodoOk(s, m);
    }
    forall w | 0 <= w < |s'.waiters| ensures HolderOk(s', w) {
      assert HolderOk(s, w);
    }
  }

  lemma PrepareKeepsInv(s: State, e: Event, s': State)
    requires Inv(s) && (e.Prepare? || e.Destruct?) && Step(s, e) == Some(s')
    ensures Inv(s')
  {
    PrepareKeepsQueue(s, e, s');
    PrepareKeepsHolders(s, e, s');
    assert LocalOk(s.waiters[e.w], e.w in s.waitset);
    hide Queue, Locals, Holders;
    forall m, p | 0 <= m < |s'.notifiers| && p in s'.notifiers[m].seen
      ensures SeenOk(s', s'.notifiers[m], p)
    {
      assert SeenOk(s, s.notifiers[m], p);
    }
    forall v | 0 <= v < |s'.waiters| && Misses(s', v) ensures Announced(s', s'.waiters[v].context) {
      assert Misses(s, v);
    }
  }

  lemma StepKeepsInv(s: State, e: Event, s': State)
    requires Inv(s) && Step(s, e) == Some(s')
    ensures Inv(s')
  {
    hide Queue, Locals, Holders, Released, Signals, NotifierStep, WaiterStep;
    match e
    case WaiterMove(w) =>
      WaiterKeepsLocals(s, w, s');
      WaiterKeepsHolders(s, w, s');
      WaiterKeepsReleased(s, w, s');
      WaiterKeepsSignals(s, w, s');
    case NotifierMove(n) =>
      NotifierInRange(s, n, s');
      if s.notifiers[n].pc == Section { SectionKeepsInv(s, n, s'); } else { QuietKeepsInv(s, n, s'); }
    case Notify(_, _) => StartKeepsInv(s, e, s');
    case Withdraw(_) => StartKeepsInv(s, e, s');
    case Prepare(_) => PrepareKeepsInv(s, e, s');
    case Destruct(_) => PrepareKeepsInv(s, e, s');
  }

  lemma NotifierInRange(s: State, n: nat, s': State)
    requires NotifierStep(s, n) == Some(s')
    ensures n < |s.notifiers|
  {
  }

  lemma RunKeepsInv(run: seq<State>, k: nat)
    requires IsRun(Init, Next, run) && k < |run|
    ensures Inv(run[k])
  {
    forall s, s' | Inv(s) && Next(s, s') ensures Inv(s') {
      var e :| Step(s, e) == Some(s');
      StepKeepsInv(s, e, s');
    }
    InvariantInRun(Init, Next, Inv, run, k);
  }

  // ---------------------------------------------------------------- theorems

  /** Blocked in P(). */
  predicate Blocked(s: State, w: nat) {
    w < |s.waiters| && s.waiters[w].pc == Wait && s.waiters[w].permits == 0
  }

  /** The notifier that has to post `w` before it returns. */
  predicate WillPost(s: State, n: nat, w: nat) {
    n < |s.notifiers| && s.notifiers[n].pc == Post && w in s.notifiers[n].todo
  }

  /** No lost wakeup: in every state of every run, a thread that sleeps although its condition is true
      is about to be woken by a notifier that has not returned. */
  lemma NoLostWakeup(run: seq<State>, k: nat, w: nat)
    requires IsRun(Init, Next, run) && k < |run| && Blocked(run[k], w)
    requires run[k].waiters[w].context in run[k].cond
    ensures exists n :: 0 <= n < |run[k].notifiers|
                        && (Announces(run[k].notifiers[n], run[k].waiters[w].context) || WillPost(run[k], n, w))
  {
    RunKeepsInv(run, k);
    var s := run[k];
    assert LocalOk(s.waiters[w], w in s.waitset) && HolderOk(s, w);
    if w in s.waitset {
      assert Misses(s, w);
    } else {
      var n := s.waiters[w].holder.value;
      assert TodoOk(s, n) && WillPost(s, n, w);
    }
  }

  /** From the moment `w` is in the waitset and notifier `n` has not started: as long as the session
      lasts, the node has left the waitset or `n` knows about it. */
  predicate Tracked(s: State, n: nat, w: nat, session: nat) {
    && n < |s.notifiers| && w < |s.waiters|
    && Promises(s.notifiers[n].kind, s.waiters[w].context)
    && s.waiters[w].session >= session
    && (s.waiters[w].session == session ==>
          w !in s.waitset || s.notifiers[n].pc == Signal || (w, session) in s.notifiers[n].seen)
  }

  lemma SectionKeepsTracked(s: State, m: nat, s': State, n: nat, w: nat, session: nat)
    requires Queue(s) && m < |s.notifiers| && s.notifiers[m].pc == Section && NotifierStep(s, m) == Some(s')
    requires Tracked(s, n, w, session)
    ensures Tracked(s', n, w, session)
  {
    SectionEffect(s, m, s');
    hide NotifierStep;
  }

  lemma StepKeepsTracked(s: State, e: Event, s': State, n: nat, w: nat, session: nat)
    requires Queue(s) && Step(s, e) == Some(s') && Tracked(s, n, w, session)
    ensures Tracked(s', n, w, session)
  {
    hide WaiterStep;
    if e.NotifierMove? && e.n < |s.notifiers| && s.notifiers[e.n].pc == Section {
      SectionKeepsTracked(s, e.n, s', n, w, session);
    } else if e.WaiterMove? {
      WaiterEffect(s, e.w, s');
    }
  }

  lemma {:induction false} RunKeepsTracked(run: seq<State>, j: nat, k: nat, n: nat, w: nat, session: nat)
    requires IsRun(Init, Next, run) && j <= k < |run| && Tracked(run[j], n, w, session)
    ensures Tracked(run[k], n, w, session)
  {
    hide Inv, Tracked, Queue, Step, Init;
    if j < k {
      RunKeepsTracked(run, j, k - 1, n, w, session);
      assert Next(run[k - 1], run[k - 1 + 1]);
      var e :| Step(run[k - 1], e) == Some(run[k]);
      InvQueue(run, k - 1);
      StepKeepsTracked(run[k - 1], e, run[k], n, w, session);
    }
  }

  lemma InvQueue(run: seq<State>, k: nat)
    requires IsRun(Init, Next, run) && k < |run|
    ensures Queue(run[k])
  {
    RunKeepsInv(run, k);
  }

  /** A node that is in the waitset before a notification that concerns it begins is not there, in the
      same session, once the notification has returned. If its thread sleeps in P() nevertheless, some
      other notifier has taken the node and is about to post it. */
  lemma ReleasedOnReturn(run: seq<State>, j: nat, k: nat, n: nat, w: nat)
    requires IsRun(Init, Next, run) && j <= k < |run|
    requires n < |run[j].notifiers| && run[j].notifiers[n].pc == Signal && w in run[j].waitset && w < |run[j].waiters|
    requires Promises(run[j].notifiers[n].kind, run[j].waiters[w].context)
    requires n < |run[k].notifiers| && run[k].notifiers[n].pc == Done
    requires w < |run[k].waiters| && run[k].waiters[w].session == run[j].waiters[w].session
    ensures w !in run[k].waitset
    ensures Blocked(run[k], w) ==> exists m :: m != n && WillPost(run[k], m, w)
  {
    var s, session := run[k], run[j].waiters[w].session;
    assert Tracked(run[j], n, w, session);
    RunKeepsTracked(run, j, k, n, w, session);
    RunKeepsInv(run, k);
    assert (w, session) in s.notifiers[n].seen ==> SeenOk(s, s.notifiers[n], (w, session));
    assert LocalOk(s.waiters[w], w in s.waitset) && HolderOk(s, w);
    if Blocked(s, w) {
      var m := s.waiters[w].holder.value;
      assert TodoOk(s, m) && TodoOk(s, n) && WillPost(s, m, w);
    }
  }

  /** A node that a notifier still has to post is out of the waitset, alive, not on its way into the waitset
      again, without a permit, and in the list of that notifier only. So nobody else touches its links. */
  lemma OwedByOneNotifier(run: seq<State>, k: nat, n: nat, w: nat)
    requires IsRun(Init, Next, run) && k < |run| && WillPost(run[k], n, w)
    ensures w < |run[k].waiters| && w !in run[k].waitset
    ensures run[k].waiters[w].permits == 0 && run[k].waiters[w].pc != Gone
    ensures run[k].waiters[w].pc != Mark && run[k].waiters[w].pc != Enter
    ensures forall m | WillPost(run[k], m, w) :: m == n
  {
    RunKeepsInv(run, k);
    var s := run[k];
    assert TodoOk(s, n) && LocalOk(s.waiters[w], w in s.waitset);
    forall m | WillPost(s, m, w) ensures m == n {
      assert TodoOk(s, m);
    }
  }

  // ---------------------------------------------------------------- wakeups over a whole run

  /** What can happen to a node in one step: a notifier takes it out of the waitset; its thread takes it out;
      a notifier posts it and drops it from its private list; its thread passes P(). */
  datatype Act = Take | Cancel | PostIt | Pass

  ghost predicate Posts(s: State, s': State, w: nat) {
    exists n :: 0 <= n < |s.notifiers| && n < |s'.notifiers| && w in s.notifiers[n].todo && w !in s'.notifiers[n].todo
  }

  /** wait(), the pump of prepare_wait and the pump of the destructor each call P() once. */
  predicate Passes(x: Waiter, x': Waiter) {
    || (x.pc == Wait && x'.pc == Idle)
    || (x.pc == Pump && x'.pc == Mark)
    || (x.pc == Destroy && x'.pc == Gone && x.initialized && x.skipped)
  }

  ghost predicate Does(act: Act, s: State, s': State, w: nat) {
    w < |s.waiters| && w < |s'.waiters| &&
    match act
    case Take => w in s.waitset && w !in s'.waitset && s'.waiters[w].pc == s.waiters[w].pc
    case Cancel => w in s.waitset && w !in s'.waitset && s'.waiters[w].pc != s.waiters[w].pc
    case PostIt => Posts(s, s', w)
    case Pass => Passes(s.waiters[w], s'.waiters[w])
  }

  /** How often it has happened in the first `k` steps. */
  ghost function Times(act: Act, run: seq<State>, k: nat, w: nat): nat
    requires k < |run|
  {
    if k == 0 then 0 else Times(act, run, k - 1, w) + Count(Does(act, run[k - 1], run[k], w))
  }

  ghost function Count(b: bool): nat {
    if b then 1 else 0
  }

  function Owed(x: Waiter): nat {
    if x.holder.Some? then 1 else 0
  }

  /** One step balances: removals against posts, posts against P(), and entries against both ways out. */
  ghost predicate Balances(s: State, s': State, w: nat) {
    && w < |s.waiters| == |s'.waiters|
    && var x, x' := s.waiters[w], s'.waiters[w];
       && Count(Does(Take, s, s', w)) + Owed(x) == Count(Does(PostIt, s, s', w)) + Owed(x')
       && x.permits + Count(Does(PostIt, s, s', w)) == x'.permits + Count(Does(Pass, s, s', w))
       && x'.session + Count(w in s.waitset) ==
          x.session + Count(w in s'.waitset) + Count(Does(Take, s, s', w)) + Count(Does(Cancel, s, s', w))
  }

  lemma WaiterBalances(s: State, v: nat, s': State, w: nat)
    requires Locals(s) && WaiterStep(s, v) == Some(s') && w < |s.waiters|
    ensures Balances(s, s', w)
  {
    hide Drop, Locals, LocalOk;
    WaiterEffect(s, v, s');
    DropMembers(s.waitset, {v});
    if v == w {
      LocalAt(s, w);
      MoverBalances(s, w, s');
    }
  }

  lemma MoverBalances(s: State, w: nat, s': State)
    requires w < |s.waiters| && LocalOk(s.waiters[w], w in s.waitset) && WaiterStep(s, w) == Some(s')
    ensures Balances(s, s', w)
  {
    hide Drop;
    DropMembers(s.waitset, {w});
  }

  lemma SectionBalances(s: State, n: nat, s': State, w: nat)
    requires Inv(s) && n < |s.notifiers| && s.notifiers[n].pc == Section && NotifierStep(s, n) == Some(s')
    requires w < |s.waiters|
    ensures Balances(s, s', w)
  {
    hide NotifierStep;
    SectionEffect(s, n, s');
    assert LocalOk(s.waiters[w], w in s.waitset) && TodoOk(s, n);
  }

  lemma PostBalances(s: State, n: nat, s': State, w: nat)
    requires Inv(s) && n < |s.notifiers| && s.notifiers[n].pc == Post && NotifierStep(s, n) == Some(s')
    requires w < |s.waiters|
    ensures Balances(s, s', w)
  {
    hide NotifierStep;
    PostEffect(s, n, s');
    assert TodoOk(s, n);
    var todo := s.notifiers[n].todo;
    assert todo != [] ==> todo == [todo[0]] + todo[1..] && todo[0] in todo && todo[0] !in todo[1..];
  }

  /** Steps that change no list and no semaphore. */
  lemma QuietBalances(s: State, e: Event, s': State, w: nat)
    requires Step(s, e) == Some(s') && !e.WaiterMove? && w < |s.waiters|
    requires e.NotifierMove? ==> e.n < |s.notifiers| && s.notifiers[e.n].pc != Section && s.notifiers[e.n].pc != Post
    ensures Balances(s, s', w)
  {
  }

  lemma StepBalances(s: State, e: Event, s': State, w: nat)
    requires Inv(s) && Step(s, e) == Some(s') && w < |s.waiters|
    ensures Balances(s, s', w)
  {
    hide Queue, Locals, Holders, Released, Signals, NotifierStep, WaiterStep, Balances;
    if e.WaiterMove? {
      WaiterBalances(s, e.w, s', w);
    } else if !e.NotifierMove? {
      QuietBalances(s, e, s', w);
    } else {
      NotifierInRange(s, e.n, s');
      match s.notifiers[e.n].pc
      case Section => SectionBalances(s, e.n, s', w);
      case Post => PostBalances(s, e.n, s', w);
      case _ => QuietBalances(s, e, s', w);
    }
  }

  lemma AtMostOneToken(s: State, w: nat)
    requires Inv(s) && w < |s.waiters|
    ensures Owed(s.waiters[w]) + s.waiters[w].permits <= 1
    ensures s.waiters[w].pc == Gone ==> Owed(s.waiters[w]) == 0 && s.waiters[w].permits == 0
  {
    assert LocalOk(s.waiters[w], w in s.waitset);
  }

  /** In every state of every run: a node has been posted as often as notifiers have taken it out of the
      waitset, but for the one post that its holder still owes; its thread has passed P() as often as it was
      posted, but for the one permit that is there; the semaphore never holds two; and every entry into the
      waitset has ended in one removal or one cancellation, unless the node is still in it. When the node is
      destroyed, removals, posts and passes are equal in number. */
  lemma {:induction false} WakeupsAreExact(run: seq<State>, k: nat, w: nat)
    requires IsRun(Init, Next, run) && k < |run| && w < |run[0].waiters|
    ensures w < |run[k].waiters|
    ensures var x := run[k].waiters[w];
            && Times(Take, run, k, w) == Times(PostIt, run, k, w) + Owed(x)
            && Times(PostIt, run, k, w) == Times(Pass, run, k, w) + x.permits
            && Owed(x) + x.permits <= 1
            && x.session == Times(Take, run, k, w) + Times(Cancel, run, k, w) + Count(w in run[k].waitset)
            && (x.pc == Gone ==> Times(Take, run, k, w) == Times(PostIt, run, k, w) == Times(Pass, run, k, w))
  {
    hide Step, Does, Inv;
    RunKeepsInv(run, k);
    assert k == 0 ==> Init(run[0]);
    if k > 0 {
      WakeupsAreExact(run, k - 1, w);
      RunKeepsInv(run, k - 1);
      assert Next(run[k - 1], run[k - 1 + 1]);
      var e :| Step(run[k - 1], e) == Some(run[k]);
      StepBalances(run[k - 1], e, run[k], w);
    }
    AtMostOneToken(run[k], w);
  }

  // ---------------------------------------------------------------- when a wait blocks

  /** Notifier `n` goes through its critical section. */
  ghost predicate SectionAt(run: seq<State>, m: nat, n: nat) {
    && m + 1 < |run| && n < |run[m].notifiers| && n < |run[m + 1].notifiers|
    && run[m].notifiers[n].pc == Section && run[m + 1].notifiers[n].pc == Post
  }

  ghost predicate SectionBetween(run: seq<State>, j: nat, k: nat) {
    exists m, n :: j <= m < k && SectionAt(run, m, n)
  }

  ghost predicate EntersAt(run: seq<State>, j: nat, w: nat) {
    j + 1 < |run| && w < |run[j + 1].waiters| && w !in run[j].waitset && w in run[j + 1].waitset
  }

  ghost predicate CommitsAt(run: seq<State>, k: nat, w: nat) {
    && k + 1 < |run| && w < |run[k].waiters| && w < |run[k + 1].waiters|
    && run[k].waiters[w].pc == Commit && run[k + 1].waiters[w].pc != Commit
  }

  lemma EpochSteps(s: State, e: Event, s': State)
    requires Step(s, e) == Some(s')
    ensures |s.notifiers| <= |s'.notifiers|
    ensures s'.epoch == s.epoch || s'.epoch == s.epoch + 1
    ensures s'.epoch == s.epoch + 1 <==>
            exists n :: 0 <= n < |s.notifiers| && s.notifiers[n].pc == Section && s'.notifiers[n].pc == Post
  {
    if s'.epoch == s.epoch + 1 {
      assert s.notifiers[e.n].pc == Section && s'.notifiers[e.n].pc == Post;
    }
  }

  /** The epoch changes exactly with the critical sections. */
  lemma {:induction false} EpochCounts(run: seq<State>, j: nat, k: nat)
    requires IsRun(Init, Next, run) && j <= k < |run|
    ensures run[j].epoch <= run[k].epoch
    ensures run[j].epoch == run[k].epoch <==> !SectionBetween(run, j, k)
    decreases k
  {
    hide Init, Step;
    if j < k {
      EpochCounts(run, j, k - 1);
      assert Next(run[k - 1], run[k - 1 + 1]);
      var e :| Step(run[k - 1], e) == Some(run[k]);
      EpochSteps(run[k - 1], e, run[k]);
      if n :| 0 <= n < |run[k - 1].notifiers| && run[k - 1].notifiers[n].pc == Section && run[k].notifiers[n].pc == Post {
        assert SectionAt(run, k - 1, n);
      }
    }
  }

  lemma NodeSteps(s: State, e: Event, s': State, w: nat)
    requires Queue(s) && Step(s, e) == Some(s') && w < |s.waiters|
    ensures |s'.waiters| == |s.waiters| && s'.waiters[w].session >= s.waiters[w].session
    ensures s'.waiters[w].session == s.waiters[w].session ==> s'.waiters[w].epoch == s.waiters[w].epoch
    ensures w in s'.waitset && w !in s.waitset ==>
              s'.waiters[w].session > s.waiters[w].session && s'.waiters[w].epoch == s'.epoch
    ensures s'.waiters[w].pc != s.waiters[w].pc ==> e == WaiterMove(w) || s.waiters[w].pc == Idle
  {
    if e.NotifierMove? && e.n < |s.notifiers| && s.notifiers[e.n].pc == Section {
      SectionEffect(s, e.n, s');
      hide NotifierStep, WaiterStep;
    } else if e.WaiterMove? {
      WaiterEffect(s, e.w, s');
      hide Drop;
    }
  }

  lemma {:induction false} EpochIsKept(run: seq<State>, j: nat, k: nat, w: nat)
    requires IsRun(Init, Next, run) && j <= k < |run| && w < |run[j].waiters|
    ensures |run[k].waiters| == |run[j].waiters| && run[k].waiters[w].session >= run[j].waiters[w].session
    ensures run[k].waiters[w].session == run[j].waiters[w].session ==>
              run[k].waiters[w].epoch == run[j].waiters[w].epoch
    decreases k
  {
    hide Init, Step, Queue;
    if j < k {
      EpochIsKept(run, j, k - 1, w);
      assert Next(run[k - 1], run[k - 1 + 1]);
      var e :| Step(run[k - 1], e) == Some(run[k]);
      InvQueue(run, k - 1);
      NodeSteps(run[k - 1], e, run[k], w);
    }
  }

  /** A node that has entered the waitset and found its condition false goes to sleep at its commit if and only
      if no notifier has been in its critical section since it entered; otherwise the wait is cancelled. */
  lemma BlocksUnlessNotified(run: seq<State>, j: nat, k: nat, w: nat)
    requires IsRun(Init, Next, run) && j < k && EntersAt(run, j, w) && CommitsAt(run, k, w)
    requires run[k].waiters[w].session == run[j + 1].waiters[w].session
    ensures run[k + 1].waiters[w].pc == if SectionBetween(run, j + 1, k) then Skip else Wait
  {
    hide Init, Step, SectionBetween, Queue;
    EpochIsKept(run, j + 1, k, w);
    EpochCounts(run, j + 1, k);
    assert Next(run[j], run[j + 1]) && Next(run[k], run[k + 1]);
    var e :| Step(run[j], e) == Some(run[j + 1]);
    InvQueue(run, j);
    WaitersStay(run[j], e, run[j + 1]);
    NodeSteps(run[j], e, run[j + 1], w);
    var f :| Step(run[k], f) == Some(run[k + 1]);
    InvQueue(run, k);
    NodeSteps(run[k], f, run[k + 1], w);
    CommitCompares(run[k], f, run[k + 1], w);
  }

  lemma WaitersStay(s: State, e: Event, s': State)
    requires Step(s, e) == Some(s')
    ensures |s'.waiters| == |s.waiters|
  {
  }

  lemma CommitCompares(s: State, e: Event, s': State, w: nat)
    requires Step(s, e) == Some(s') && e == WaiterMove(w) && w < |s.waiters| && s.waiters[w].pc == Commit
    ensures |s'.waiters| == |s.waiters| && s'.waiters[w].pc == if s.waiters[w].epoch == s.epoch then Wait else Skip
  {
  }

  /** A wait is cancelled only because its condition was true when the caller looked, or because of a critical
      section since it entered the waitset; and a caller that finds its condition true cancels. */
  lemma CancelledForAReason(run: seq<State>, j: nat, k: nat, w: nat)
    requires IsRun(Init, Next, run) && j < k && EntersAt(run, j, w) && k + 1 < |run|
    requires w < |run[k].waiters| && w < |run[k + 1].waiters| && run[k].waiters[w].session == run[j + 1].waiters[w].session
    ensures run[k].waiters[w].pc != Skip && run[k + 1].waiters[w].pc == Skip ==>
              || (run[k].waiters[w].pc == Look && run[k].waiters[w].context in run[k].cond)
              || (run[k].waiters[w].pc == Commit && SectionBetween(run, j + 1, k))
    ensures run[k].waiters[w].pc == Look && run[k].waiters[w].context in run[k].cond && run[k + 1].waiters[w].pc != Look ==>
              run[k + 1].waiters[w].pc == Skip
  {
    hide Init, SectionBetween, Queue;
    if CommitsAt(run, k, w) { BlocksUnlessNotified(run, j, k, w); }
    assert Next(run[k], run[k + 1]);
    var e :| Step(run[k], e) == Some(run[k + 1]);
    InvQueue(run, k);
    NodeSteps(run[k], e, run[k + 1], w);
    if run[k + 1].waiters[w].pc != run[k].waiters[w].pc { LookCompares(run[k], e, run[k + 1], w); }
  }

  lemma LookCompares(s: State, e: Event, s': State, w: nat)
    requires Step(s, e) == Some(s') && w < |s.waiters| && w < |s'.waiters| && s'.waiters[w].pc != s.waiters[w].pc
    requires e == WaiterMove(w) || s.waiters[w].pc == Idle
    ensures s.waiters[w].pc == Look ==> s'.waiters[w].pc == if s.waiters[w].context in s.cond then Skip else Commit
    ensures s'.waiters[w].pc == Skip ==> s.waiters[w].pc == Look || s.waiters[w].pc == Commit
  {
    hide Drop, Keep, Collected, Chosen;
  }

  ghost predicate HappensAt(act: Act, run: seq<State>, m: nat, w: nat) {
    m + 1 < |run| && Does(act, run[m], run[m + 1], w)
  }

  ghost predicate TakenSince(run: seq<State>, j: nat, k: nat, w: nat) {
    exists m :: j <= m < k && HappensAt(Take, run, m, w)
  }

  /** Between states `j` and `k` a notifier has taken the node, and after that one has posted it. */
  ghost predicate TakenAndPosted(run: seq<State>, j: nat, k: nat, w: nat) {
    exists m :: j <= m < k && HappensAt(PostIt, run, m, w) && TakenSince(run, j, m, w)
  }

  predicate NotCancelled(pc: WaiterPc) {
    pc == Look || pc == Commit || pc == Wait
  }

  /** As long as the session lasts and is not cancelled, the node is in the waitset, or has been taken and is
      to be posted, or has been taken and posted. */
  ghost predicate Story(run: seq<State>, j: nat, k: nat, w: nat, session: nat)
    requires k < |run|
  {
    && w < |run[k].waiters| && run[k].waiters[w].session >= session
    && (run[k].waiters[w].session == session && NotCancelled(run[k].waiters[w].pc) && w !in run[k].waitset ==>
          TakenSince(run, j, k, w) && (run[k].waiters[w].holder.Some? || TakenAndPosted(run, j, k, w)))
  }

  lemma StoryLater(run: seq<State>, j: nat, k: nat, w: nat)
    ensures TakenSince(run, j, k, w) ==> TakenSince(run, j, k + 1, w)
    ensures TakenAndPosted(run, j, k, w) ==> TakenAndPosted(run, j, k + 1, w)
    ensures j <= k && HappensAt(Take, run, k, w) ==> TakenSince(run, j, k + 1, w)
    ensures j <= k && HappensAt(PostIt, run, k, w) && TakenSince(run, j, k, w) ==> TakenAndPosted(run, j, k + 1, w)
  {
    hide HappensAt;
  }

  lemma SessionGoesOn(s: State, e: Event, s': State, w: nat)
    requires Inv(s) && Step(s, e) == Some(s') && w < |s.waiters|
    ensures |s'.waiters| == |s.waiters| && s'.waiters[w].session >= s.waiters[w].session
    ensures s'.waiters[w].session == s.waiters[w].session && NotCancelled(s'.waiters[w].pc) ==>
              && NotCancelled(s.waiters[w].pc) && (w in s'.waitset ==> w in s.waitset)
              && (w in s.waitset && w !in s'.waitset ==> s'.waiters[w].pc == s.waiters[w].pc)
  {
    NodeSteps(s, e, s', w);
    hide NotifierStep, Drop;
    assert LocalOk(s.waiters[w], w in s.waitset);
  }

  /** What one step does to a node in a session that is not cancelled. */
  lemma SessionSteps(s: State, e: Event, s': State, w: nat)
    requires Inv(s) && Step(s, e) == Some(s') && w < |s.waiters|
    ensures |s'.waiters| == |s.waiters| && s'.waiters[w].session >= s.waiters[w].session
    ensures s'.waiters[w].session == s.waiters[w].session && NotCancelled(s'.waiters[w].pc) ==>
              && NotCancelled(s.waiters[w].pc) && (w in s'.waitset ==> w in s.waitset)
              && (w in s.waitset && w !in s'.waitset ==> Does(Take, s, s', w) && s'.waiters[w].holder.Some?)
              && (w !in s.waitset && s.waiters[w].holder.Some? && s'.waiters[w].holder.None? ==> Does(PostIt, s, s', w))
  {
    hide Step, Locals, Queue, Released, Signals;
    SessionGoesOn(s, e, s', w);
    StepBalances(s, e, s', w);
    if w in s.waitset && Posts(s, s', w) {
      var n :| 0 <= n < |s.notifiers| && w in s.notifiers[n].todo;
      assert TodoOk(s, n);
    }
  }

  lemma {:induction false} StoryGoesOn(run: seq<State>, j: nat, k: nat, w: nat)
    requires IsRun(Init, Next, run) && j <= k < |run| && w < |run[j].waiters| && w in run[j].waitset
    ensures Story(run, j, k, w, run[j].waiters[w].session)
    decreases k
  {
    hide Init, Step, Inv, Does, TakenSince, TakenAndPosted;
    if j < k {
      StoryGoesOn(run, j, k - 1, w);
      assert Next(run[k - 1], run[k - 1 + 1]);
      var e :| Step(run[k - 1], e) == Some(run[k]);
      RunKeepsInv(run, k - 1);
      SessionSteps(run[k - 1], e, run[k], w);
      StoryLater(run, j, k - 1, w);
    }
  }

  /** A thread that has gone to sleep comes back from P() only after a notifier has taken its node out of the
      waitset, since it entered it, and has posted it after that. */
  lemma SleepsUntilPosted(run: seq<State>, j: nat, k: nat, w: nat)
    requires IsRun(Init, Next, run) && j < k && EntersAt(run, j, w) && k + 1 < |run|
    requires w < |run[k].waiters| && w < |run[k + 1].waiters| && run[k].waiters[w].session == run[j + 1].waiters[w].session
    requires run[k].waiters[w].pc == Wait && run[k + 1].waiters[w].pc != Wait
    ensures TakenAndPosted(run, j + 1, k, w) && run[k + 1].waiters[w].pc == Idle
  {
    hide Init, Step, Inv, TakenSince, TakenAndPosted;
    StoryGoesOn(run, j + 1, k, w);
    RunKeepsInv(run, k);
    assert Next(run[k], run[k + 1]);
    var e :| Step(run[k], e) == Some(run[k + 1]);
    WakesWithPermit(run[k], e, run[k + 1], w);
  }

  lemma WakesWithPermit(s: State, e: Event, s': State, w: nat)
    requires Inv(s) && Step(s, e) == Some(s') && w < |s.waiters| && w < |s'.waiters|
    requires s.waiters[w].pc == Wait && s'.waiters[w].pc != Wait
    ensures w !in s.waitset && s.waiters[w].holder.None? && s'.waiters[w].pc == Idle
  {
    NodeSteps(s, e, s', w);
    hide NotifierStep;
    assert LocalOk(s.waiters[w], w in s.waitset);
  }

  // ---------------------------------------------------------------- progress

  /** What a notifier has still to do. */
  function Errand(f: Notifier): nat {
    match f.pc
    case Signal => 3
    case Test => 2
    case Section => 1
    case _ => 0
  }

  /** And what a waiter has still to do in its session, or to be destroyed. */
  function Path(pc: WaiterPc): nat {
    match pc
    case Pump => 8
    case Mark => 7
    case Enter => 6
    case Look => 5
    case Commit => 4
    case Skip => 3
    case Peek => 2
    case Wait => 1
    case Leave => 1
    case Destroy => 1
    case Idle => 0
    case Gone => 0
  }

  lemma PathShrinks(s: State, w: nat)
    ensures w < |s.waiters| && WaiterStep(s, w).Some? ==> Path(WaiterStep(s, w).value.waiters[w].pc) < Path(s.waiters[w].pc)
  {
    hide Drop;
  }

  /** A notifier never waits and comes to an end; a waiter waits for a permit only, in wait() or to pump a
      skipped wakeup, and comes nearer to its end with every step. */
  lemma NobodyElseWaits(run: seq<State>, k: nat, n: nat, w: nat)
    requires IsRun(Init, Next, run) && k < |run|
    ensures n < |run[k].notifiers| && run[k].notifiers[n].pc != Done ==>
              && NotifierStep(run[k], n).Some?
              && var f, f' := run[k].notifiers[n], NotifierStep(run[k], n).value.notifiers[n];
                 || Errand(f') < Errand(f) || f'.pc == Done
                 || (f.pc == Post && f'.pc == Post && |f'.todo| < |f.todo|)
    ensures w < |run[k].waiters| && run[k].waiters[w].pc != Idle && run[k].waiters[w].pc != Gone ==>
              var x := run[k].waiters[w];
              WaiterStep(run[k], w).Some? || (x.permits == 0 && (x.pc == Wait || x.pc == Pump || (x.pc == Destroy && x.skipped)))
    ensures w < |run[k].waiters| && WaiterStep(run[k], w).Some? ==>
              Path(WaiterStep(run[k], w).value.waiters[w].pc) < Path(run[k].waiters[w].pc)
  {
    hide Init, Next, IsRun, Drop, Keep, Reversed, LastWanted, Collected, Path;
    RunKeepsInv(run, k);
    var s := run[k];
    PathShrinks(s, w);
    if n < |s.notifiers| && s.notifiers[n].pc == Post {
      assert TodoOk(s, n);
      assert s.notifiers[n].todo != [] ==> s.notifiers[n].todo[0] in s.notifiers[n].todo;
    }
  }

  /** A node that is not in use may prepare to wait, first pumping a wakeup it has skipped, or be destroyed; anybody
      may notify, and withdraw conditions. */
  lemma CallsBegin(run: seq<State>, k: nat, w: nat, signals: set<nat>)
    requires IsRun(Init, Next, run) && k < |run|
    ensures w < |run[k].waiters| && run[k].waiters[w].pc == Idle ==>
              var x := run[k].waiters[w];
              && !x.inList && w !in run[k].waitset
              && Step(run[k], Destruct(w)) == Some(WithWaiter(run[k], w, x.(pc := Destroy)))
              && Step(run[k], Prepare(w)) == Some(WithWaiter(run[k], w, x.(initialized := true, pc := if x.skipped then Pump else Mark)))
    ensures var next := Step(run[k], Notify(All, signals));
            && next.Some? && |next.value.notifiers| == |run[k].notifiers| + 1
            && next.value.notifiers[|run[k].notifiers|] == Notifier(All, Signal, signals, [], {})
    ensures Step(run[k], Withdraw(signals)).Some? && Step(run[k], Withdraw(signals)).value.cond !! signals
  {
    hide Init, Next, IsRun, Drop, Keep, Reversed, LastWanted, Collected;
    RunKeepsInv(run, k);
    assert w < |run[k].waiters| ==> LocalOk(run[k].waiters[w], w in run[k].waitset);
  }

  /** The mutex is taken only where there is something to do under it: a notifier that finds the waitset empty is done
      and has changed nothing, any other goes on to its critical section; a cancelled wait goes to the mutex
      exactly if its node has not been taken. */
  lemma LocksOnlyIfNeeded(run: seq<State>, k: nat, n: nat, w: nat)
    requires IsRun(Init, Next, run) && k < |run|
    ensures n < |run[k].notifiers| && run[k].notifiers[n].pc == Test ==>
              && NotifierStep(run[k], n) == Some(run[k].(notifiers := NotifierStep(run[k], n).value.notifiers))
              && NotifierStep(run[k], n).value.notifiers[n].pc == if run[k].waitset == [] then Done else Section
    ensures w < |run[k].waiters| && run[k].waiters[w].pc == Peek ==>
              && WaiterStep(run[k], w).Some?
              && (WaiterStep(run[k], w).value.waiters[w].pc == Leave <==> w in run[k].waitset)
  {
    hide Init, Next, IsRun, Drop, Keep, Reversed, LastWanted, Collected;
    RunKeepsInv(run, k);
    var s := run[k];
    assert w < |s.waiters| ==> LocalOk(s.waiters[w], w in s.waitset);
  }

  ghost predicate SignalsAt(run: seq<State>, j: nat, n: nat, c: nat) {
    && j + 1 < |run| && n < |run[j].notifiers| && n < |run[j + 1].notifiers| && c in run[j].notifiers[n].signals
    && run[j].notifiers[n].pc == Signal && run[j + 1].notifiers[n].pc != Signal
  }

  /** Nobody takes the condition of context `c` back in this step. */
  predicate Kept(s: State, s': State, c: nat) {
    c in s.cond ==> c in s'.cond
  }

  /** Once a notifier has made a condition true it stays true until somebody withdraws it, so that a caller that
      looks in between cancels its wait. */
  lemma {:induction false} SignalStays(run: seq<State>, j: nat, k: nat, n: nat, w: nat)
    requires IsRun(Init, Next, run) && j < k < |run| && w < |run[k].waiters| && SignalsAt(run, j, n, run[k].waiters[w].context)
    requires forall m | j < m < k :: Kept(run[m], run[m + 1], run[k].waiters[w].context)
    ensures run[k].waiters[w].context in run[k].cond
    ensures run[k].waiters[w].pc == Look ==>
              WaiterStep(run[k], w) == Some(WithWaiter(run[k], w, run[k].waiters[w].(pc := Skip)))
  {
    hide Init, Step;
    assert Next(run[j], run[j + 1]);
    var e :| Step(run[j], e) == Some(run[j + 1]);
    SignalTakesEffect(run[j], e, run[j + 1], n);
    StillTrue(run, j + 1, k, run[k].waiters[w].context);
  }

  lemma SignalTakesEffect(s: State, e: Event, s': State, n: nat)
    requires Step(s, e) == Some(s') && n < |s.notifiers| && n < |s'.notifiers|
    requires s.notifiers[n].pc == Signal && s'.notifiers[n].pc != Signal
    ensures s.notifiers[n].signals <= s'.cond
  {
    hide Drop, Keep, Collected, Chosen;
  }

  lemma {:induction false} StillTrue(run: seq<State>, j: nat, k: nat, c: nat)
    requires j <= k < |run| && c in run[j].cond && forall m | j <= m < k :: Kept(run[m], run[m + 1], c)
    ensures c in run[k].cond
    decreases k
  {
    if j < k {
      StillTrue(run, j, k - 1, c);
      assert Kept(run[k - 1], run[k - 1 + 1], c);
    }
  }

  /** When wait() returns from P(), the node is out of the list and nothing is left to pump; a destroyed
      node is in no list and owes no wakeup. */
  lemma NothingLeftBehind(run: seq<State>, k: nat, w: nat)
    requires IsRun(Init, Next, run) && k < |run| && w < |run[k].waiters|
    requires run[k].waiters[w].pc == Gone || (run[k].waiters[w].pc == Wait && run[k].waiters[w].permits > 0)
    ensures w !in run[k].waitset && forall n: nat :: !WillPost(run[k], n, w)
    ensures run[k].waiters[w].permits == if run[k].waiters[w].pc == Gone then 0 else 1
    ensures run[k].waiters[w].pc == Wait ==> !run[k].waiters[w].inList && !run[k].waiters[w].skipped
  {
    RunKeepsInv(run, k);
    var s := run[k];
    assert LocalOk(s.waiters[w], w in s.waitset) && HolderOk(s, w);
    forall n: nat ensures !WillPost(s, n, w) {
      assert n < |s.notifiers| ==> TodoOk(s, n);
    }
  }

  /** A thread that pumps a skipped wakeup, in prepare_wait or in the destructor, never waits for
      nothing: the permit is there or a notifier is about to post it. */
  lemma PumpTerminates(run: seq<State>, k: nat, w: nat)
    requires IsRun(Init, Next, run) && k < |run| && w < |run[k].waiters|
    requires run[k].waiters[w].pc == Pump || (run[k].waiters[w].pc == Destroy && run[k].waiters[w].skipped)
    requires run[k].waiters[w].permits == 0
    ensures exists n :: WillPost(run[k], n, w)
  {
    RunKeepsInv(run, k);
    var s := run[k];
    assert LocalOk(s.waiters[w], w in s.waitset) && HolderOk(s, w);
    var n := s.waiters[w].holder.value;
    assert TodoOk(s, n) && WillPost(s, n, w);
  }

  /** notify_one takes the node that has waited longest; notify_one(predicate) the matching node that
      has waited least; notify_all and notify(predicate) take every matching node, the former in the
      order of arrival, the latter in the opposite order. */
  lemma WhoIsTaken(s: State, kind: Kind)
    requires Queue(s)
    ensures var taken, left := Collected(s, kind), Drop(s.waitset, Chosen(s, kind));
            match kind
            case One => taken + left == s.waitset && (|taken| == 1 || s.waitset == [])
            case All => taken == s.waitset && left == []
            case Matching(wanted) =>
              && (forall w :: w in taken <==> w in s.waitset && Wants(s, wanted, w))
              && (forall w :: w in left <==> w in s.waitset && !Wants(s, wanted, w))
              && (forall a, b | Precedes(s.waitset, a, b) && a in taken && b in taken :: Precedes(taken, b, a))
              && (forall a, b | Precedes(s.waitset, a, b) && a in left && b in left :: Precedes(left, a, b))
            case OneMatching(wanted) =>
              if exists w :: w in s.waitset && Wants(s, wanted, w) then
                exists i | 0 <= i < |s.waitset| ::
                  && YoungestWanted(s, wanted, i)
                  && taken == [s.waitset[i]] && left == s.waitset[..i] + s.waitset[i + 1..]
              else taken == [] && left == s.waitset
  {
    var ws := s.waitset;
    match kind
    case One =>
      if ws != [] {
        FilterOne(ws, 0);
        assert [ws[0]] + (ws[..0] + ws[1..]) == ws;
      }
    case All =>
      FilterAll(ws, Chosen(s, kind));
    case Matching(wanted) =>
      MatchingIsTaken(s, wanted);
    case OneMatching(wanted) =>
      YoungestIsTaken(s, wanted);
  }

  ghost predicate YoungestWanted(s: State, wanted: set<nat>, i: nat)
    requires i < |s.waitset|
  {
    Wants(s, wanted, s.waitset[i]) && forall j | i < j < |s.waitset| :: !Wants(s, wanted, s.waitset[j])
  }

  /** `a` stands before `b`. */
  ghost predicate Precedes(ws: seq<nat>, a: nat, b: nat) {
    exists i, j :: 0 <= i < j < |ws| && ws[i] == a && ws[j] == b
  }

  lemma MatchingIsTaken(s: State, wanted: set<nat>)
    requires Queue(s)
    ensures var kind := Matching(wanted);
            var taken, left := Collected(s, kind), Drop(s.waitset, Chosen(s, kind));
            && (forall w :: w in taken <==> w in s.waitset && Wants(s, wanted, w))
            && (forall w :: w in left <==> w in s.waitset && !Wants(s, wanted, w))
            && (forall a, b | Precedes(s.waitset, a, b) && a in taken && b in taken :: Precedes(taken, b, a))
            && (forall a, b | Precedes(s.waitset, a, b) && a in left && b in left :: Precedes(left, a, b))
  {
    var chosen := Chosen(s, Matching(wanted));
    var taken, left := Collected(s, Matching(wanted)), Drop(s.waitset, chosen);
    Taken(s, Matching(wanted));
    forall a, b | Precedes(s.waitset, a, b) && a in taken && b in taken
      ensures Precedes(taken, b, a)
    {
      FilterOrder(s.waitset, chosen, a, b);
      ReversedOrder(Keep(s.waitset, chosen), a, b);
    }
    forall a, b | Precedes(s.waitset, a, b) && a in left && b in left
      ensures Precedes(left, a, b)
    {
      FilterOrder(s.waitset, chosen, a, b);
    }
  }

  lemma YoungestIsTaken(s: State, wanted: set<nat>)
    requires Queue(s)
    ensures var kind := OneMatching(wanted);
            var taken, left := Collected(s, kind), Drop(s.waitset, Chosen(s, kind));
            if exists w :: w in s.waitset && Wants(s, wanted, w) then
              exists i | 0 <= i < |s.waitset| ::
                && YoungestWanted(s, wanted, i)
                && taken == [s.waitset[i]] && left == s.waitset[..i] + s.waitset[i + 1..]
            else taken == [] && left == s.waitset
  {
    var ws := s.waitset;
    var chosen := LastWanted(s, ws, wanted);
    if w :| w in ws && Wants(s, wanted, w) {
      var i := LastWantedAt(s, ws, wanted);
      FilterOne(ws, i);
      assert YoungestWanted(s, wanted, i);
    } else {
      LastWantedMembers(s, ws, wanted);
      FilterNone(ws, chosen);
    }
  }

  lemma {:induction false} LastWantedAt(s: State, ws: seq<nat>, wanted: set<nat>) returns (i: nat)
    requires exists w :: w in ws && Wants(s, wanted, w)
    ensures i < |ws| && LastWanted(s, ws, wanted) == {ws[i]}
    ensures Wants(s, wanted, ws[i]) && forall j | i < j < |ws| :: !Wants(s, wanted, ws[j])
  {
    var front, last := ws[..|ws| - 1], ws[|ws| - 1];
    if Wants(s, wanted, last) {
      i := |ws| - 1;
    } else {
      var w :| w in ws && Wants(s, wanted, w);
      assert ws == front + [last];
      assert w in front;
      i := LastWantedAt(s, front, wanted);
    }
  }

  lemma {:induction false} FilterOne(ws: seq<nat>, i: nat)
    requires Distinct(ws) && i < |ws|
    ensures Keep(ws, {ws[i]}) == [ws[i]] && Drop(ws, {ws[i]}) == ws[..i] + ws[i + 1..]
  {
    var front, last := ws[..|ws| - 1], ws[|ws| - 1];
    if i == |ws| - 1 {
      FilterNone(front, {ws[i]});
    } else {
      FilterOne(front, i);
      assert ws[i + 1..] == front[i + 1..] + [last];
    }
  }

  lemma {:induction false} FilterNone(ws: seq<nat>, chosen: set<nat>)
    requires forall i | 0 <= i < |ws| :: ws[i] !in chosen
    ensures Keep(ws, chosen) == [] && Drop(ws, chosen) == ws
  {
    if ws != [] {
      FilterNone(ws[..|ws| - 1], chosen);
    }
  }

  lemma {:induction false} FilterAll(ws: seq<nat>, chosen: set<nat>)
    requires forall i | 0 <= i < |ws| :: ws[i] in chosen
    ensures Keep(ws, chosen) == ws && Drop(ws, chosen) == []
  {
    if ws != [] {
      FilterAll(ws[..|ws| - 1], chosen);
    }
  }

  /** `a` before `b` in the front of a list, or `b` at its end. */
  lemma BeforeSnoc(ws: seq<nat>, last: nat, a: nat, b: nat)
    ensures Precedes(ws + [last], a, b) <==> Precedes(ws, a, b) || (a in ws && b == last)
  {
    var all := ws + [last];
    if Precedes(ws, a, b) {
      var i, j :| 0 <= i < j < |ws| && ws[i] == a && ws[j] == b;
      assert all[i] == a && all[j] == b;
    }
    if a in ws && b == last {
      var i :| 0 <= i < |ws| && ws[i] == a;
      assert all[i] == a && all[|ws|] == b;
    }
  }

  /** `a` before `b` in the rest of a list, or `a` at its start. */
  lemma BeforeCons(first: nat, ws: seq<nat>, a: nat, b: nat)
    requires Precedes(ws, a, b) || (a == first && b in ws)
    ensures Precedes([first] + ws, a, b)
  {
    var all := [first] + ws;
    if Precedes(ws, a, b) {
      var i, j :| 0 <= i < j < |ws| && ws[i] == a && ws[j] == b;
      assert all[i + 1] == a && all[j + 1] == b;
    } else {
      var j :| 0 <= j < |ws| && ws[j] == b;
      assert all[0] == a && all[j + 1] == b;
    }
  }

  lemma {:induction false} FilterOrder(ws: seq<nat>, chosen: set<nat>, a: nat, b: nat)
    requires Precedes(ws, a, b)
    ensures a in chosen && b in chosen ==> Precedes(Keep(ws, chosen), a, b)
    ensures a !in chosen && b !in chosen ==> Precedes(Drop(ws, chosen), a, b)
  {
    assert |ws| > 0;
    hide Precedes;
    var front, last := ws[..|ws| - 1], ws[|ws| - 1];
    assert ws == front + [last];
    BeforeSnoc(front, last, a, b);
    if Precedes(front, a, b) {
      FilterOrder(front, chosen, a, b);
    }
    DropMembers(front, chosen);
    KeepMembers(front, chosen);
    var keep, drop := Keep(front, chosen), Drop(front, chosen);
    assert if last in chosen then Keep(ws, chosen) == keep + [last] && Drop(ws, chosen) == drop
           else Keep(ws, chosen) == keep && Drop(ws, chosen) == drop + [last];
    BeforeSnoc(keep, last, a, b);
    BeforeSnoc(drop, last, a, b);
  }

  lemma {:induction false} ReversedOrder(ws: seq<nat>, a: nat, b: nat)
    requires Precedes(ws, a, b)
    ensures Precedes(Reversed(ws), b, a)
  {
    var front, last := ws[..|ws| - 1], ws[|ws| - 1];
    assert ws == front + [last];
    BeforeSnoc(front, last, a, b);
    if Precedes(front, a, b) {
      ReversedOrder(front, a, b);
    }
    ReversedMembers(front);
    BeforeCons(last, Reversed(front), b, a);
  }
}

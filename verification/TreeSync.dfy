/**
 * Sending a scanned directory tree: a task per node sends it and then its children; files and empty
 * directories are removed from the tree when sent, and a directory when the last of its children is.
 * `pending` counts, per directory, the children that have not been reported yet.
 *
 * Nodes are numbered so that a parent comes before its children; node 0 is the root. Sends do not fail.
 */
module TreeSync {
  import opened Behaviors
  import opened Sums

  datatype Status =
    | Fresh                 // no task yet
    | Spawned
    | Sending(sent: nat)    // header and path are sent; so many bytes of contents
    | Sent
    | Spawning              // directory: iter_children, under the node's mutex
    | Awaiting              // directory: all children have tasks
    | Leaving               // file or empty directory: about to remove itself
    | Finishing             // directory: the last child was reported; about to be removed
    | Erasing               // and to be erased from `pending`
    | Owing                 // removed; its parent's count is about to be decremented
    | Finished

  datatype Node = Node(parent: Option<nat>, isDirectory: bool, size: nat, status: Status, sends: nat, removals: nat)

  datatype State = State(nodes: seq<Node>, pending: map<nat, nat>, sumDone: nat, sumTotal: nat)

  datatype Event =
    | Begin(i: nat)
    | Chunk(i: nat, n: nat)       // write_partial sent n bytes; tick
    | EndSend(i: nat)
    | Decide(i: nat)
    | Spawn(i: nat, child: nat)
    | EndSpawn(i: nat)
    | Remove(i: nat)              // TrackedNode::remove, under the parent's mutex
    | Erase(i: nat)
    | Decrement(i: nat)

  // ---------------------------------------------------------------- trees

  predicate IsChild(nodes: seq<Node>, c: nat, p: nat) {
    c < |nodes| && nodes[c].parent == Some(p)
  }

  /** Node `i` hangs in a directory that comes before it. */
  predicate Hangs(nodes: seq<Node>, i: nat)
    requires i < |nodes|
  {
    nodes[i].parent.Some? && nodes[i].parent.value < i && nodes[nodes[i].parent.value].isDirectory
  }

  predicate Tree(nodes: seq<Node>) {
    && |nodes| > 0 && nodes[0].parent == None && nodes[0].isDirectory
    && forall i | 0 < i < |nodes| :: Hangs(nodes, i)
  }

  function FileBytes(x: Node): int {
    if x.isDirectory then 0 else x.size
  }

  predicate Unstarted(nodes: seq<Node>) {
    forall i | 0 <= i < |nodes| ::
      nodes[i].status == (if i == 0 then Spawned else Fresh) && nodes[i].sends == 0 && nodes[i].removals == 0
  }

  ghost predicate Init(s: State) {
    && Tree(s.nodes) && Unstarted(s.nodes)
    && s.pending == map[] && s.sumDone == 0 && s.sumTotal == Sum(s.nodes, FileBytes)
  }

  predicate Removed(x: Node) {
    x.parent.Some? && (x.status == Erasing || x.status == Owing || x.status == Finished)
  }

  /** The children of `p` in its list. */
  ghost function InList(p: nat): Node -> int {
    (x: Node) => if x.parent == Some(p) && !Removed(x) then 1 else 0
  }

  // ---------------------------------------------------------------- steps

  function Set(s: State, i: nat, status: Status): State
    requires i < |s.nodes|
  {
    s.(nodes := s.nodes[i := s.nodes[i].(status := status)])
  }

  /** The mutex of the parent of `i` is free. */
  predicate ParentUnlocked(s: State, i: nat)
    requires i < |s.nodes|
  {
    var p := s.nodes[i].parent;
    p.Some? && p.value < |s.nodes| && s.nodes[p.value].status != Spawning
  }

  ghost function DecideStep(s: State, i: nat): State
    requires i < |s.nodes|
  {
    var x := s.nodes[i];
    var count := Sum(s.nodes, InList(i));
    if !x.isDirectory || (count == 0 && x.parent.Some?) then Set(s, i, Leaving)
    else Set(s, i, Spawning).(pending := s.pending[i := if count >= 0 then count else 0])
  }

  ghost function Step(s: State, e: Event): Option<State> {
    if e.i >= |s.nodes| then None else
    var x := s.nodes[e.i];
    match e
    case Begin(i) =>
      if x.status == Spawned then Some(s.(nodes := s.nodes[i := x.(status := Sending(0), sends := x.sends + 1)])) else None
    case Chunk(i, n) =>
      if x.status.Sending? && n > 0 && x.status.sent + n <= FileBytes(x)
      then Some(Set(s, i, Sending(x.status.sent + n)).(sumDone := s.sumDone + n)) else None
    case EndSend(i) => if x.status.Sending? && x.status.sent == FileBytes(x) then Some(Set(s, i, Sent)) else None
    case Decide(i) => if x.status == Sent then Some(DecideStep(s, i)) else None
    case Spawn(i, child) =>
      if x.status == Spawning && IsChild(s.nodes, child, i) && s.nodes[child].status == Fresh
      then Some(Set(s, child, Spawned)) else None
    case EndSpawn(i) =>
      if x.status == Spawning && forall c: nat | IsChild(s.nodes, c, i) :: s.nodes[c].status != Fresh
      then Some(Set(s, i, Awaiting)) else None
    case Remove(i) =>
      if x.status == Finishing && x.parent == None then Some(Set(s, i, Erasing))
      else if (x.status == Leaving || x.status == Finishing) && ParentUnlocked(s, i)
      then
        var next := if x.status == Leaving then Owing else Erasing;
        Some(s.(nodes := s.nodes[i := x.(status := next, removals := x.removals + 1)]))
      else None
    case Erase(i) =>
      if x.status == Erasing
      then Some(Set(s, i, if x.parent == None then Finished else Owing).(pending := s.pending - {i})) else None
    case Decrement(i) =>
      if x.status == Owing && x.parent.Some? && x.parent.value < |s.nodes|
         && x.parent.value in s.pending && s.pending[x.parent.value] > 0 then
        var p, left := x.parent.value, s.pending[x.parent.value] - 1;
        var s' := Set(s, i, Finished).(pending := s.pending[p := left]);
        Some(if left == 0 then Set(s', p, Finishing) else s')
      else None
  }

  ghost predicate Next(s: State, s': State) {
    exists e :: Step(s, e) == Some(s')
  }

  // ---------------------------------------------------------------- invariant

  /** Children that have not been reported to `p` yet. */
  ghost function Open(p: nat): Node -> int {
    (x: Node) => if x.parent == Some(p) && x.status != Finished then 1 else 0
  }

  predicate Early(status: Status) {
    status == Fresh || status == Spawned || status.Sending? || status == Sent
  }

  predicate Late(status: Status) {
    status == Finishing || status == Erasing || status == Owing || status == Finished
  }

  predicate HasEntry(status: Status) {
    status == Spawning || status == Awaiting || status == Finishing || status == Erasing
  }

  /** How far the child of a node can be. */
  predicate PairOk(parent: Status, child: Node) {
    && (Early(parent) ==> child.status == Fresh)
    && (parent == Spawning ==> !Removed(child))
    && (parent == Awaiting ==> child.status != Fresh)
    && parent != Leaving
    && (Late(parent) ==> child.status == Finished)
  }

  function SentBytes(x: Node): int {
    if x.status == Fresh || x.status == Spawned then 0
    else if x.status.Sending? then x.status.sent
    else FileBytes(x)
  }

  predicate NodeOk(x: Node) {
    && x.sends == (if x.status == Fresh || x.status == Spawned then 0 else 1)
    && x.removals == (if Removed(x) then 1 else 0)
    && (x.status.Sending? ==> x.status.sent <= FileBytes(x))
    && (HasEntry(x.status) ==> x.isDirectory)
    && (x.parent == None ==> x.status != Fresh && x.status != Leaving && x.status != Owing)
  }

  predicate FitsParent(nodes: seq<Node>, c: nat)
    requires c < |nodes|
  {
    var p := nodes[c].parent;
    p.Some? && p.value < |nodes| ==> PairOk(nodes[p.value].status, nodes[c])
  }

  predicate Shape(s: State) {
    && Tree(s.nodes)
    && (forall i | 0 <= i < |s.nodes| :: NodeOk(s.nodes[i]))
    && (forall c | 0 < c < |s.nodes| :: FitsParent(s.nodes, c))
  }

  ghost function ChildOf(p: nat): Node -> int {
    (x: Node) => if x.parent == Some(p) then 1 else 0
  }

  ghost predicate EntryOk(s: State, i: nat)
    requires i < |s.nodes|
  {
    var status := s.nodes[i].status;
    && (i in s.pending <==> HasEntry(status))
    && (i in s.pending ==> s.pending[i] == Sum(s.nodes, Open(i)))
    && (i in s.pending && (status == Spawning || status == Awaiting) ==>
          s.pending[i] > 0 || (i == 0 && Sum(s.nodes, ChildOf(i)) == 0))
  }

  ghost predicate Pending(s: State) {
    && (forall i | i in s.pending :: i < |s.nodes|)
    && forall i | 0 <= i < |s.nodes| :: EntryOk(s, i)
  }

  ghost predicate Bytes(s: State) {
    s.sumDone == Sum(s.nodes, SentBytes) && s.sumTotal == Sum(s.nodes, FileBytes)
  }

  /** A directory without children is never reported to. */
  predicate Lone(s: State) {
    |s.nodes| == 1 ==> !Late(s.nodes[0].status)
  }

  ghost predicate Inv(s: State) {
    Shape(s) && Pending(s) && Bytes(s) && Lone(s)
  }

  // ---------------------------------------------------------------- sums over the nodes

  lemma {:induction false} SumSame(nodes: seq<Node>, a: Node -> int, b: Node -> int)
    requires forall i | 0 <= i < |nodes| :: a(nodes[i]) == b(nodes[i])
    ensures Sum(nodes, a) == Sum(nodes, b)
  {
    if nodes != [] {
      SumSame(nodes[..|nodes| - 1], a, b);
    }
  }

  /** One node moves on; what it is does not change. */
  predicate SameNode(x: Node, y: Node) {
    x.parent == y.parent && x.isDirectory == y.isDirectory && x.size == y.size
  }

  lemma MoveSums(nodes: seq<Node>, i: nat, y: Node, p: nat)
    requires i < |nodes| && SameNode(nodes[i], y)
    ensures Sum(nodes[i := y], ChildOf(p)) == Sum(nodes, ChildOf(p))
    ensures Sum(nodes[i := y], Open(p)) == Sum(nodes, Open(p)) - Open(p)(nodes[i]) + Open(p)(y)
  {
    hide Sum;
    SumUpdate(nodes, i, y, ChildOf(p));
    SumUpdate(nodes, i, y, Open(p));
  }

  lemma MoveBytes(nodes: seq<Node>, i: nat, y: Node)
    requires i < |nodes| && SameNode(nodes[i], y)
    ensures Sum(nodes[i := y], FileBytes) == Sum(nodes, FileBytes)
    ensures Sum(nodes[i := y], SentBytes) == Sum(nodes, SentBytes) - SentBytes(nodes[i]) + SentBytes(y)
  {
    hide Sum;
    SumUpdate(nodes, i, y, FileBytes);
    SumUpdate(nodes, i, y, SentBytes);
  }

  // ---------------------------------------------------------------- the shape is kept

  /** A node may move on if this fits its parent and its children. */
  lemma MoveKeepsShape(s: State, i: nat, y: Node)
    requires Shape(s) && i < |s.nodes| && SameNode(s.nodes[i], y) && NodeOk(y)
    requires y.parent.Some? && y.parent.value < |s.nodes| ==> PairOk(s.nodes[y.parent.value].status, y)
    requires forall c: nat | IsChild(s.nodes, c, i) :: PairOk(y.status, s.nodes[c])
    ensures Shape(s.(nodes := s.nodes[i := y]))
  {
    var nodes' := s.nodes[i := y];
    forall c | 0 < c < |nodes'| ensures Hangs(nodes', c) && FitsParent(nodes', c) {
      assert Hangs(s.nodes, c) && FitsParent(s.nodes, c);
      if s.nodes[c].parent == Some(i) { assert IsChild(s.nodes, c, i); }
    }
  }

  lemma ParentPair(s: State, c: nat)
    requires Shape(s) && 0 < c < |s.nodes|
    ensures s.nodes[c].parent.Some? && s.nodes[c].parent.value < c
    ensures PairOk(s.nodes[s.nodes[c].parent.value].status, s.nodes[c])
    ensures s.nodes[s.nodes[c].parent.value].isDirectory
  {
    assert Hangs(s.nodes, c) && FitsParent(s.nodes, c);
  }

  lemma ChildPairs(s: State, i: nat)
    requires Shape(s) && i < |s.nodes|
    ensures NodeOk(s.nodes[i]) && (s.nodes[i].parent == None <==> i == 0) && (i == 0 ==> s.nodes[i].isDirectory)
    ensures forall c: nat | IsChild(s.nodes, c, i) :: c > i && PairOk(s.nodes[i].status, s.nodes[c]) && s.nodes[i].isDirectory
  {
    if i > 0 { ParentPair(s, i); }
    forall c: nat | IsChild(s.nodes, c, i)
      ensures c > i && PairOk(s.nodes[i].status, s.nodes[c]) && s.nodes[i].isDirectory
    {
      ParentPair(s, c);
    }
  }

  /** The node an event moves, and what it becomes. */
  function Mover(e: Event): nat {
    if e.Spawn? then e.child else e.i
  }

  lemma StepMoves(s: State, e: Event, s': State)
    requires Step(s, e) == Some(s') && !e.Decrement?
    ensures Mover(e) < |s.nodes| == |s'.nodes|
    ensures s'.nodes == s.nodes[Mover(e) := s'.nodes[Mover(e)]] && SameNode(s.nodes[Mover(e)], s'.nodes[Mover(e)])
    ensures s'.sumTotal == s.sumTotal
  {
  }

  lemma NoChildInList(s: State, i: nat)
    requires Shape(s) && i < |s.nodes| && s.nodes[i].status == Sent && Sum(s.nodes, InList(i)) == 0
    ensures forall c: nat :: !IsChild(s.nodes, c, i)
  {
    hide Sum;
    ChildPairs(s, i);
    forall c: nat ensures !IsChild(s.nodes, c, i) {
      if IsChild(s.nodes, c, i) { SumBounds(s.nodes, c, InList(i)); }
    }
  }

  lemma StepKeepsShape(s: State, e: Event, s': State)
    requires Shape(s) && Step(s, e) == Some(s') && !e.Decrement?
    ensures Shape(s')
  {
    hide Sum, Shape, Tree;
    StepMoves(s, e, s');
    var m := Mover(e);
    ChildPairs(s, m);
    if m > 0 { ParentPair(s, m); }
    if e.Decide? && s.nodes[e.i].isDirectory && Sum(s.nodes, InList(e.i)) == 0 { NoChildInList(s, e.i); }
    MoveKeepsShape(s, m, s'.nodes[m]);
    SameNodesSameShape(s.(nodes := s'.nodes), s');
  }

  lemma SameNodesSameShape(s: State, s': State)
    requires Shape(s) && s'.nodes == s.nodes
    ensures Shape(s')
  {
  }

  lemma DecrementKeepsShape(s: State, e: Event, s': State)
    requires Shape(s) && Pending(s) && e.Decrement? && Step(s, e) == Some(s')
    ensures Shape(s')
  {
    hide Sum, Shape, Tree;
    var i := e.i;
    ChildPairs(s, i);
    assert i > 0;
    ParentPair(s, i);
    var p := s.nodes[i].parent.value;
    var y := s.nodes[i].(status := Finished);
    assert s.nodes[p].status == Awaiting;
    MoveKeepsShape(s, i, y);
    var t := s.(nodes := s.nodes[i := y]);
    if s.pending[p] == 1 {
      ReportLast(s, i, p);
      ChildPairs(t, p);
      if p > 0 { ParentPair(t, p); }
      MoveKeepsShape(t, p, t.nodes[p].(status := Finishing));
      SameNodesSameShape(t.(nodes := s'.nodes), s');
    } else {
      SameNodesSameShape(t, s');
    }
  }

  /** When the count drops to zero, all children have been reported. */
  lemma ReportLast(s: State, i: nat, p: nat)
    requires Pending(s) && i < |s.nodes| && p < |s.nodes| && s.nodes[i].parent == Some(p) && s.nodes[i].status == Owing
    requires p in s.pending && s.pending[p] == 1
    ensures var nodes' := s.nodes[i := s.nodes[i].(status := Finished)];
            && Sum(nodes', Open(p)) == 0
            && forall c: nat | IsChild(nodes', c, p) :: nodes'[c].status == Finished
  {
    hide Sum;
    var y := s.nodes[i].(status := Finished);
    var nodes' := s.nodes[i := y];
    assert EntryOk(s, p);
    MoveSums(s.nodes, i, y, p);
    forall c: nat | IsChild(nodes', c, p) ensures nodes'[c].status == Finished {
      SumBounds(nodes', c, Open(p));
    }
  }

  // ---------------------------------------------------------------- the counts are kept

  /** Apart from Decrement, no step reports a child. */
  lemma StepReportsNothing(s: State, e: Event, s': State, p: nat)
    requires Shape(s) && Step(s, e) == Some(s') && !e.Decrement?
    ensures Sum(s'.nodes, ChildOf(p)) == Sum(s.nodes, ChildOf(p)) && Sum(s'.nodes, Open(p)) == Sum(s.nodes, Open(p))
  {
    hide Sum, Shape, Tree;
    StepMoves(s, e, s');
    var m := Mover(e);
    MoveSums(s.nodes, m, s'.nodes[m], p);
  }

  /** Before its children have tasks, a directory has all of them in its list, unreported. */
  lemma AllChildrenOpen(s: State, i: nat)
    requires Shape(s) && i < |s.nodes| && s.nodes[i].status == Sent
    ensures Sum(s.nodes, InList(i)) == Sum(s.nodes, Open(i)) == Sum(s.nodes, ChildOf(i)) >= 0
  {
    ChildPairs(s, i);
    hide Shape, Tree, Sum;
    forall c | 0 <= c < |s.nodes|
      ensures InList(i)(s.nodes[c]) == Open(i)(s.nodes[c]) == ChildOf(i)(s.nodes[c])
    {
      assert IsChild(s.nodes, c, i) ==> s.nodes[c].status == Fresh;
    }
    SumSame(s.nodes, InList(i), Open(i));
    SumSame(s.nodes, Open(i), ChildOf(i));
    SumNonNegative(s.nodes, ChildOf(i));
  }

  lemma OthersKeepEntries(s: State, e: Event, s': State, i: nat)
    requires Shape(s) && Step(s, e) == Some(s') && !e.Decrement? && i < |s.nodes| && i != Mover(e) && EntryOk(s, i)
    ensures i < |s'.nodes| && EntryOk(s', i)
  {
    hide Sum, Shape, Tree;
    StepMoves(s, e, s');
    StepReportsNothing(s, e, s', i);
  }

  lemma MoverKeepsEntry(s: State, e: Event, s': State)
    requires Shape(s) && Step(s, e) == Some(s') && !e.Decrement? && Mover(e) < |s.nodes| && EntryOk(s, Mover(e))
    ensures Mover(e) < |s'.nodes| && EntryOk(s', Mover(e))
  {
    hide Sum, Shape, Tree;
    StepMoves(s, e, s');
    var m := Mover(e);
    StepReportsNothing(s, e, s', m);
    if e.Decide? { AllChildrenOpen(s, m); ChildPairs(s, m); }
  }

  lemma StepKeepsPending(s: State, e: Event, s': State)
    requires Shape(s) && Pending(s) && Step(s, e) == Some(s') && !e.Decrement?
    ensures Pending(s')
  {
    StepMoves(s, e, s');
    forall i | 0 <= i < |s'.nodes| ensures EntryOk(s', i) {
      assert EntryOk(s, i);
      if i == Mover(e) { MoverKeepsEntry(s, e, s'); } else { OthersKeepEntries(s, e, s', i); }
    }
    PendingKeys(s, e, s');
  }

  lemma PendingKeys(s: State, e: Event, s': State)
    requires Step(s, e) == Some(s') && forall i | i in s.pending :: i < |s.nodes|
    ensures forall i | i in s'.pending :: i < |s'.nodes|
  {
    hide Sum;
  }

  lemma DecrementKeepsEntry(s: State, e: Event, s': State, j: nat)
    requires Shape(s) && Pending(s) && e.Decrement? && Step(s, e) == Some(s') && j < |s.nodes|
    ensures j < |s'.nodes| && EntryOk(s', j)
  {
    hide Sum, Tree, Shape;
    var i := e.i;
    ChildPairs(s, i);
    ParentPair(s, i);
    var p := s.nodes[i].parent.value;
    var y := s.nodes[i].(status := Finished);
    var nodes1 := s.nodes[i := y];
    assert EntryOk(s, j) && EntryOk(s, p);
    assert p != i && s.nodes[p].status == Awaiting;
    MoveSums(s.nodes, i, y, j);
    MoveSums(nodes1, p, nodes1[p].(status := Finishing), j);
  }

  lemma DecrementKeepsPending(s: State, e: Event, s': State)
    requires Shape(s) && Pending(s) && e.Decrement? && Step(s, e) == Some(s')
    ensures Pending(s')
  {
    hide Sum;
    forall j | 0 <= j < |s'.nodes| ensures EntryOk(s', j) {
      DecrementKeepsEntry(s, e, s', j);
    }
    PendingKeys(s, e, s');
  }

  lemma StepKeepsBytes(s: State, e: Event, s': State)
    requires Shape(s) && Bytes(s) && Step(s, e) == Some(s')
    ensures Bytes(s')
  {
    hide Sum, Tree, Shape;
    if e.Decrement? {
      var i := e.i;
      var p := s.nodes[i].parent.value;
      var y := s.nodes[i].(status := Finished);
      MoveBytes(s.nodes, i, y);
      ChildPairs(s, i);
      ParentPair(s, i);
      var nodes1 := s.nodes[i := y];
      MoveBytes(nodes1, p, nodes1[p].(status := Finishing));
    } else {
      StepMoves(s, e, s');
      MoveBytes(s.nodes, Mover(e), s'.nodes[Mover(e)]);
    }
  }

  lemma StepKeepsLone(s: State, e: Event, s': State)
    requires Shape(s) && Lone(s) && Step(s, e) == Some(s')
    ensures Lone(s')
  {
    hide Sum;
  }

  lemma StepKeepsInv(s: State, e: Event, s': State)
    requires Inv(s) && Step(s, e) == Some(s')
    ensures Inv(s')
  {
    hide Sum, Shape, Pending, Bytes, Step, Lone;
    StepKeepsBytes(s, e, s');
    StepKeepsLone(s, e, s');
    if e.Decrement? {
      DecrementKeepsShape(s, e, s');
      DecrementKeepsPending(s, e, s');
    } else {
      StepKeepsShape(s, e, s');
      StepKeepsPending(s, e, s');
    }
  }

  lemma RootOnly(nodes: seq<Node>, i: nat)
    requires Tree(nodes) && i < |nodes|
    ensures nodes[i].parent == None <==> i == 0
  {
    assert i > 0 ==> Hangs(nodes, i);
  }

  lemma UnstartedShape(s: State)
    requires Tree(s.nodes) && Unstarted(s.nodes)
    ensures Shape(s)
  {
    hide Tree;
    forall i | 0 <= i < |s.nodes| ensures NodeOk(s.nodes[i]) {
      RootOnly(s.nodes, i);
    }
  }

  lemma InitInv(s: State)
    requires Init(s)
    ensures Inv(s)
  {
    hide Sum, Tree;
    UnstartedShape(s);
    forall i | 0 <= i < |s.nodes| ensures SentBytes(s.nodes[i]) == 0 {}
    SumConstant(s.nodes, SentBytes, 0);
    hide Shape;
  }

  lemma RunKeepsInv(run: seq<State>, k: nat)
    requires IsRun(Init, Next, run) && k < |run|
    ensures Inv(run[k])
  {
    forall s | Init(s) ensures Inv(s) { InitInv(s); }
    forall s, s' | Inv(s) && Next(s, s') ensures Inv(s') {
      var e :| Step(s, e) == Some(s');
      StepKeepsInv(s, e, s');
    }
    hide Init, Next, Inv;
    InvariantInRun(Init, Next, Inv, run, k);
  }

  // ---------------------------------------------------------------- safety

  ghost predicate IsAncestor(nodes: seq<Node>, a: nat, d: nat)
    decreases d
  {
    0 < d < |nodes| && nodes[d].parent.Some? && nodes[d].parent.value < d
    && (nodes[d].parent.value == a || IsAncestor(nodes, a, nodes[d].parent.value))
  }

  lemma {:induction false} RemovedWithDescendants(s: State, a: nat, d: nat)
    requires Shape(s) && a < |s.nodes| && IsAncestor(s.nodes, a, d)
    requires Removed(s.nodes[a]) || (a == 0 && Late(s.nodes[0].status))
    ensures Removed(s.nodes[d]) && s.nodes[d].status == Finished
    decreases d
  {
    var p := s.nodes[d].parent.value;
    ParentPair(s, d);
    if p != a {
      RemovedWithDescendants(s, a, p);
    }
  }

  /** In every state of every run: a node has been sent at most once and removed at most once, the root
      never, and what has been removed has been sent; and all descendants of a removed directory have
      been removed and reported. */
  lemma RemovedLast(run: seq<State>, k: nat, a: nat)
    requires IsRun(Init, Next, run) && k < |run| && a < |run[k].nodes|
    ensures run[k].nodes[a].sends <= 1 && run[k].nodes[a].removals <= run[k].nodes[a].sends
    ensures run[k].nodes[0].removals == 0
    ensures Removed(run[k].nodes[a]) ==> forall d: nat | IsAncestor(run[k].nodes, a, d) :: Removed(run[k].nodes[d])
  {
    RunKeepsInv(run, k);
    hide Init, Next, IsRun, Sum;
    var s := run[k];
    ChildPairs(s, 0);
    ChildPairs(s, a);
    if Removed(s.nodes[a]) {
      forall d: nat | IsAncestor(s.nodes, a, d) ensures Removed(s.nodes[d]) {
        RemovedWithDescendants(s, a, d);
      }
    }
  }

  /** The nodes whose memory a step reads or writes. Erasing uses the address of a node as a key only, and
      decrementing uses the parent, whose address was read before the removal. */
  function Touched(s: State, e: Event): set<nat> {
    if e.i >= |s.nodes| then {} else
    var p := s.nodes[e.i].parent;
    match e
    case Spawn(i, child) => {i, child}
    case Remove(i) => if p.Some? then {i, p.value} else {i}
    case Erase(_) => {}
    case Decrement(_) => if p.Some? then {p.value} else {}
    case _ => {e.i}
  }

  /** No step touches a node that has been removed. */
  lemma NothingRemovedIsTouched(run: seq<State>, k: nat, e: Event, x: nat)
    requires IsRun(Init, Next, run) && k < |run| && Step(run[k], e).Some? && x in Touched(run[k], e)
    ensures x < |run[k].nodes| && !Removed(run[k].nodes[x])
  {
    RunKeepsInv(run, k);
    hide Init, Next, IsRun, Sum, Inv;
    var s := run[k];
    assert Shape(s) by { InvShape(s); }
    hide Shape;
    ChildPairs(s, e.i);
    if e.i > 0 { ParentPair(s, e.i); }
    if e.Spawn? { ParentPair(s, e.child); }
  }

  lemma InvShape(s: State)
    requires Inv(s)
    ensures Shape(s)
  {
  }

  // ---------------------------------------------------------------- every run ends

  function Rank(x: Node): int {
    match x.status
    case Fresh => FileBytes(x) + 9
    case Spawned => FileBytes(x) + 8
    case Sending(n) => (if n <= FileBytes(x) then FileBytes(x) - n else 0) + 7
    case Sent => 6
    case Spawning => 5
    case Awaiting => 4
    case Finishing => 3
    case Leaving => 2
    case Erasing => 2
    case Owing => 1
    case Finished => 0
  }

  lemma MoverRanksLower(s: State, e: Event, s': State)
    requires Shape(s) && Step(s, e) == Some(s') && !e.Decrement? && Mover(e) < |s.nodes| == |s'.nodes|
    ensures Rank(s'.nodes[Mover(e)]) < Rank(s.nodes[Mover(e)])
  {
    hide Sum, Tree, Shape;
    ChildPairs(s, e.i);
  }

  lemma DecrementDecreases(s: State, e: Event, s': State)
    requires Shape(s) && e.Decrement? && Step(s, e) == Some(s')
    ensures Sum(s'.nodes, Rank) < Sum(s.nodes, Rank)
  {
    hide Sum, Tree, Shape;
    var i := e.i;
    var p := s.nodes[i].parent.value;
    var y := s.nodes[i].(status := Finished);
    SumUpdate(s.nodes, i, y, Rank);
    ChildPairs(s, i);
    ParentPair(s, i);
    var nodes1 := s.nodes[i := y];
    SumUpdate(nodes1, p, nodes1[p].(status := Finishing), Rank);
  }

  lemma StepDecreases(s: State, e: Event, s': State)
    requires Inv(s) && Step(s, e) == Some(s')
    ensures 0 <= Sum(s'.nodes, Rank) < Sum(s.nodes, Rank)
  {
    hide Sum, Tree, Shape, Pending, Bytes, Step;
    SumNonNegative(s'.nodes, Rank);
    if e.Decrement? {
      DecrementDecreases(s, e, s');
    } else {
      StepMoves(s, e, s');
      MoverRanksLower(s, e, s');
      SumUpdate(s.nodes, Mover(e), s'.nodes[Mover(e)], Rank);
    }
  }

  /** No run is longer than the amount of work in its first state. */
  lemma {:induction false} RunIsBounded(run: seq<State>, k: nat)
    requires IsRun(Init, Next, run) && k < |run|
    ensures Sum(run[k].nodes, Rank) + k <= Sum(run[0].nodes, Rank)
  {
    hide Sum, Init, Inv, Step;
    if k > 0 {
      RunIsBounded(run, k - 1);
      RunKeepsInv(run, k - 1);
      assert Next(run[k - 1], run[k - 1 + 1]);
      var e :| Step(run[k - 1], e) == Some(run[k]);
      StepDecreases(run[k - 1], e, run[k]);
    }
  }

  // ---------------------------------------------------------------- how it ends

  ghost predicate Stuck(s: State) {
    forall e :: Step(s, e) == None
  }

  /** Only three statuses do not give a node something to do. */
  lemma StuckStatus(s: State, i: nat)
    requires Inv(s) && Stuck(s) && i < |s.nodes|
    ensures s.nodes[i].status == Fresh || s.nodes[i].status == Awaiting || s.nodes[i].status == Finished
  {
    hide Sum, Shape, Tree, Pending, Bytes;
    var x := s.nodes[i];
    ChildPairs(s, i);
    assert Step(s, Begin(i)) == None && Step(s, EndSend(i)) == None && Step(s, Decide(i)) == None && Step(s, Erase(i)) == None;
    assert Step(s, Chunk(i, 1)) == None;
    if x.status == Spawning {
      StuckSpawning(s, i);
    } else if x.status == Leaving || x.status == Finishing {
      assert Step(s, Remove(i)) == None;
      if i > 0 { ParentPair(s, i); StuckSpawning(s, x.parent.value); }
    } else if x.status == Owing {
      assert Step(s, Decrement(i)) == None;
      ParentPair(s, i);
      OwedEntry(s, i);
    }
  }

  lemma StuckSpawning(s: State, i: nat)
    requires Stuck(s) && i < |s.nodes|
    ensures s.nodes[i].status != Spawning
  {
    hide Sum;
    assert Step(s, EndSpawn(i)) == None;
    forall c: nat ensures s.nodes[i].status == Spawning && IsChild(s.nodes, c, i) ==> s.nodes[c].status != Fresh {
      assert Step(s, Spawn(i, c)) == None;
    }
  }

  lemma OwedEntry(s: State, i: nat)
    requires Shape(s) && Pending(s) && 0 < i < |s.nodes| && s.nodes[i].status == Owing
    ensures s.nodes[i].parent.value in s.pending && s.pending[s.nodes[i].parent.value] > 0
  {
    hide Sum;
    ParentPair(s, i);
    var p := s.nodes[i].parent.value;
    assert EntryOk(s, p);
    SumBounds(s.nodes, i, Open(p));
  }

  lemma {:induction false} NothingFresh(s: State, i: nat)
    requires Inv(s) && Stuck(s) && i < |s.nodes|
    ensures s.nodes[i].status != Fresh
    decreases i
  {
    hide Sum, Shape, Tree, Pending, Bytes, Stuck;
    ChildPairs(s, i);
    if i > 0 {
      ParentPair(s, i);
      NothingFresh(s, s.nodes[i].parent.value);
      StuckStatus(s, s.nodes[i].parent.value);
    }
  }

  /** From the last node down: everything but the root has finished. */
  lemma {:induction false} AllFinished(s: State, i: nat)
    requires Inv(s) && Stuck(s) && i < |s.nodes|
    ensures s.nodes[i].status == Finished || (i == 0 && s.nodes[i].status == Awaiting && |s.nodes| == 1)
    decreases |s.nodes| - i
  {
    hide Sum, Shape, Tree, Pending, Bytes, Stuck;
    NothingFresh(s, i);
    StuckStatus(s, i);
    ChildPairs(s, i);
    forall c | 0 <= c < |s.nodes| ensures Open(i)(s.nodes[c]) == 0 {
      if IsChild(s.nodes, c, i) { AllFinished(s, c); }
    }
    SumConstant(s.nodes, Open(i), 0);
    assert EntryOk(s, i) by { PendingEntry(s, i); }
    if s.nodes[i].status == Awaiting && |s.nodes| > 1 {
      ParentPair(s, 1);
      SumBounds(s.nodes, 1, ChildOf(0));
    }
  }

  lemma PendingEntry(s: State, i: nat)
    requires Pending(s) && i < |s.nodes|
    ensures EntryOk(s, i)
  {
  }

  /** When no step is possible: every node has been sent exactly once, every node but the root has been
      removed exactly once, the root has no children left and all bytes have been counted. `pending` is
      empty if and only if the root had a child; an empty root leaves its own entry, zero, behind. */
  lemma HowItEnds(run: seq<State>)
    requires IsRun(Init, Next, run) && Stuck(run[|run| - 1])
    ensures var s := run[|run| - 1];
            && (forall i | 0 <= i < |s.nodes| :: s.nodes[i].sends == 1 && s.nodes[i].removals == if i == 0 then 0 else 1)
            && Sum(s.nodes, InList(0)) == 0
            && s.sumDone == s.sumTotal
            && s.pending == if |s.nodes| > 1 then map[] else map[0 := 0]
  {
    hide Sum, Shape, Tree, Pending, Bytes, Stuck, Init, Next;
    var s := run[|run| - 1];
    RunKeepsInv(run, |run| - 1);
    forall i | 0 <= i < |s.nodes|
      ensures s.nodes[i].sends == 1 && s.nodes[i].removals == if i == 0 then 0 else 1
      ensures SentBytes(s.nodes[i]) == FileBytes(s.nodes[i])
      ensures i in s.pending ==> i == 0 && |s.nodes| == 1 && s.pending[i] == 0
      ensures |s.nodes| == 1 ==> i in s.pending
      ensures InList(0)(s.nodes[i]) == 0
    {
      AllFinished(s, i);
      ChildPairs(s, i);
      PendingEntry(s, i);
      if i == 0 { SumConstant(s.nodes, Open(0), 0); }
    }
    SumConstant(s.nodes, InList(0), 0);
    SumSame(s.nodes, SentBytes, FileBytes);
    EndSums(s);
    assert s.nodes[0].sends == 1;
    assert forall i | i in s.pending :: i < |s.nodes| && s.nodes[i].sends == 1 && i == 0 && |s.nodes| == 1;
    assert |s.nodes| == 1 ==> s.pending.Keys == {0} && s.pending[0] == 0;
  }

  lemma EndSums(s: State)
    requires Shape(s) && Bytes(s) && Pending(s)
    ensures |s.nodes| > 0 && s.sumDone == Sum(s.nodes, SentBytes) && s.sumTotal == Sum(s.nodes, FileBytes)
    ensures forall i | i in s.pending :: i < |s.nodes|
  {
  }

  function Only(status: Status, sends: nat, pending: map<nat, nat>): State {
    State([Node(None, true, 0, status, sends, 0)], pending, 0, 0)
  }

  lemma OnlySends()
    ensures Next(Only(Spawned, 0, map[]), Only(Sending(0), 1, map[]))
    ensures Next(Only(Sending(0), 1, map[]), Only(Sent, 1, map[]))
  {
    hide Sum;
    var a, b, c := Only(Spawned, 0, map[]), Only(Sending(0), 1, map[]), Only(Sent, 1, map[]);
    assert b.nodes == a.nodes[0 := b.nodes[0]] && c.nodes == b.nodes[0 := c.nodes[0]];
    assert Step(a, Begin(0)) == Some(b) && Step(b, EndSend(0)) == Some(c);
  }

  lemma OnlyDecides()
    ensures Next(Only(Sent, 1, map[]), Only(Spawning, 1, map[0 := 0]))
  {
    var c, d := Only(Sent, 1, map[]), Only(Spawning, 1, map[0 := 0]);
    OneNode(c.nodes[0]);
    hide Sum;
    assert d.nodes == c.nodes[0 := d.nodes[0]];
    assert Step(c, Decide(0)) == Some(d);
  }

  lemma OnlyWaits()
    ensures Next(Only(Spawning, 1, map[0 := 0]), Only(Awaiting, 1, map[0 := 0]))
  {
    hide Sum;
    var d, f := Only(Spawning, 1, map[0 := 0]), Only(Awaiting, 1, map[0 := 0]);
    assert f.nodes == d.nodes[0 := f.nodes[0]];
    assert Step(d, EndSpawn(0)) == Some(f);
  }

  lemma AwaitingIsStuck(s: State)
    requires |s.nodes| == 1 && s.nodes[0].status == Awaiting
    ensures Stuck(s)
  {
  }

  /** The smallest case in which `pending` is not empty at the end: a root directory without entries. */
  lemma EmptyRootKeepsItsEntry() returns (run: seq<State>)
    ensures IsRun(Init, Next, run) && Stuck(run[|run| - 1]) && run[|run| - 1].pending == map[0 := 0]
  {
    hide Step, Stuck, Sum, Next;
    var a, b, c := Only(Spawned, 0, map[]), Only(Sending(0), 1, map[]), Only(Sent, 1, map[]);
    var d, f := Only(Spawning, 1, map[0 := 0]), Only(Awaiting, 1, map[0 := 0]);
    run := [a, b, c, d, f];
    OneNode(a.nodes[0]);
    OnlySends();
    OnlyDecides();
    OnlyWaits();
    AwaitingIsStuck(f);
  }

  lemma OneNode(x: Node)
    requires x.parent == None && x.isDirectory
    ensures Sum([x], FileBytes) == 0 && Sum([x], InList(0)) == 0
  {
    assert [x][..0] == [];
  }
}

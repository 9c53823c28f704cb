/**
 * The waitset as it lies in memory: an intrusive circular doubly linked list with a sentinel, the two
 * traversals of it that take nodes out (all of them, or the matching ones from the back), and the loop that
 * posts the nodes taken, each of which may be gone as soon as it is posted.
 */
module WaitList {
  import opened EventCount

  class Node {
    const context: nat
    var next: Node?
    var prev: Node?
    var inList: bool
    var aborted: bool

    constructor (context: nat)
      ensures this.context == context && !inList && !aborted
    {
      this.context := context;
      next, prev, inList, aborted := null, null, false, false;
    }
  }

  predicate NoRepeat(nodes: seq<Node>) {
    forall i, j | 0 <= i < j < |nodes| :: nodes[i] != nodes[j]
  }

  /** The node at position `i`; the sentinel comes before the first and after the last. */
  ghost function At(head: Node, nodes: seq<Node>, i: int): Node {
    if 0 <= i < |nodes| then nodes[i] else head
  }

  ghost predicate Joined(head: Node, nodes: seq<Node>, i: int)
    requires 0 <= i < |nodes|
    reads nodes
  {
    nodes[i].next == At(head, nodes, i + 1) && nodes[i].prev == At(head, nodes, i - 1)
  }

  ghost predicate Linked(head: Node, nodes: seq<Node>)
    reads head, nodes
  {
    && head.next == At(head, nodes, 0) && head.prev == At(head, nodes, |nodes| - 1)
    && forall i | 0 <= i < |nodes| :: Joined(head, nodes, i)
  }

  class List {
    const head: Node
    var count: nat
    ghost var nodes: seq<Node>

    ghost predicate Valid()
      reads this, head, nodes
    {
      && count == |nodes|
      && head !in nodes && NoRepeat(nodes)
      && Linked(head, nodes)
    }

    constructor ()
      ensures Valid() && nodes == [] && fresh(head)
    {
      head := new Node(0);
      count, nodes := 0, [];
      new;
      head.next, head.prev := head, head;
    }

    /** Appends at the back. */
    method Add(n: Node)
      requires Valid() && n != head && n !in nodes
      modifies this`count, this`nodes, head`next, head`prev, nodes`next, nodes`prev, n`next, n`prev
      ensures Valid() && nodes == old(nodes) + [n]
    {
      count := count + 1;
      n.prev := head.prev;
      n.next := head;
      head.prev.next := n;
      head.prev := n;
      nodes := nodes + [n];
      forall i | 0 <= i < |nodes| ensures Joined(head, nodes, i) {
        assert i < |nodes| - 1 ==> old(Joined(head, nodes, i));
      }
    }

    /** Unlinks `n`, whose own links stay as they were. */
    method Remove(n: Node, ghost at: nat)
      requires Valid() && at < |nodes| && nodes[at] == n
      modifies this`count, this`nodes, head`next, head`prev, nodes`next, nodes`prev
      ensures Valid() && nodes == old(nodes[..at] + nodes[at + 1..])
      ensures n.next == old(n.next) && n.prev == old(n.prev)
    {
      ghost var was := nodes;
      count := count - 1;
      assert Joined(head, was, at);
      n.prev.next := n.next;
      n.next.prev := n.prev;
      nodes := nodes[..at] + nodes[at + 1..];
      forall i | 0 <= i < |nodes| ensures Joined(head, nodes, i) {
        ghost var j := if i < at then i else i + 1;
        assert old(Joined(head, was, j));
        assert nodes[i] == was[j];
      }
    }

    /** Moves every node to the empty list `to`, in order. */
    method FlushTo(to: List)
      requires Valid() && to.Valid() && to != this && to.head != head && to.nodes == [] && to.head !in nodes
      modifies this`count, this`nodes, head`next, head`prev, nodes`next, nodes`prev
      modifies to`count, to`nodes, to.head`next, to.head`prev
      ensures Valid() && to.Valid()
      ensures nodes == [] && to.nodes == old(nodes)
    {
      if count > 0 {
        ghost var was := nodes;
        assert Joined(head, was, 0) && Joined(head, was, |was| - 1);
        to.count := count;
        to.head.next := head.next;
        to.head.prev := head.prev;
        head.next.prev := to.head;
        head.prev.next := to.head;
        to.nodes := nodes;
        head.next, head.prev := head, head;
        count, nodes := 0, [];
        forall i | 0 <= i < |was| ensures Joined(to.head, to.nodes, i) {
          assert old(Joined(head, was, i));
        }
      }
    }
  }

  lemma {:induction false} KeepFront(x: Node, rest: seq<Node>, chosen: set<Node>)
    ensures Keep<Node>([x] + rest, chosen) == (if x in chosen then [x] else []) + Keep<Node>(rest, chosen)
  {
    var all := [x] + rest;
    if rest == [] {
      assert all[..0] == [];
    } else {
      assert all[..|all| - 1] == [x] + rest[..|rest| - 1];
      KeepFront(x, rest[..|rest| - 1], chosen);
    }
  }

  lemma {:induction false} DropFront(x: Node, rest: seq<Node>, chosen: set<Node>)
    ensures Drop<Node>([x] + rest, chosen) == (if x in chosen then [] else [x]) + Drop<Node>(rest, chosen)
  {
    var all := [x] + rest;
    if rest == [] {
      assert all[..0] == [];
    } else {
      assert all[..|all| - 1] == [x] + rest[..|rest| - 1];
      DropFront(x, rest[..|rest| - 1], chosen);
    }
  }

  lemma {:induction false} ReversedFront(x: Node, rest: seq<Node>)
    ensures Reversed<Node>([x] + rest) == Reversed<Node>(rest) + [x]
  {
    var all := [x] + rest;
    if rest == [] {
      assert all[..0] == [];
    } else {
      assert all[..|all| - 1] == [x] + rest[..|rest| - 1];
      ReversedFront(x, rest[..|rest| - 1]);
    }
  }

  ghost predicate Apart(a: List, b: List)
    reads a, b
  {
    && a != b && a.head != b.head && a.head !in b.nodes && b.head !in a.nodes
    && forall x | x in a.nodes :: x !in b.nodes
  }

  /** Takes a matching node out of the waitset, clears its flag and appends it to the private list. */
  method Move(from: List, temp: List, n: Node, ghost at: nat)
    requires from.Valid() && temp.Valid() && Apart(from, temp) && at < |from.nodes| && from.nodes[at] == n
    modifies from`count, from`nodes, from.head`next, from.head`prev, from.nodes
    modifies temp`count, temp`nodes, temp.head`next, temp.head`prev, temp.nodes
    ensures from.Valid() && temp.Valid() && Apart(from, temp)
    ensures from.nodes == old(from.nodes[..at] + from.nodes[at + 1..])
    ensures temp.nodes == old(temp.nodes) + [n]
    ensures !n.inList && n !in from.nodes
    ensures forall x | x in from.nodes :: x.inList == old(x.inList)
    ensures forall x | x in old(temp.nodes) :: x.inList == old(x.inList)
  {
    hide Linked;
    ghost var kept := temp.nodes;
    assert forall i | 0 <= i < |kept| :: kept[i] !in from.nodes && kept[i] != from.head;
    from.Remove(n, at);
    assert temp.Valid();
    n.inList := false;
    temp.Add(n);
  }

  lemma Before(list: List, k: nat)
    requires list.Valid() && k <= |list.nodes|
    ensures k == |list.nodes| ==> list.head.prev == At(list.head, list.nodes, k - 1)
    ensures 0 < k ==> list.nodes[k - 1].prev == At(list.head, list.nodes, k - 2)
  {
    assert 0 < k ==> Joined(list.head, list.nodes, k - 1);
  }

  ghost function Wanted(nodes: seq<Node>, wanted: set<nat>): set<Node> {
    set x | x in nodes && x.context in wanted
  }

  /** The waitset and the private list when the traversal has come down to position `k`. */
  ghost function Left(nodes: seq<Node>, k: nat, chosen: set<Node>): seq<Node>
    requires k <= |nodes|
  {
    nodes[..k] + Drop<Node>(nodes[k..], chosen)
  }

  ghost function TakenSoFar(nodes: seq<Node>, k: nat, chosen: set<Node>): seq<Node>
    requires k <= |nodes|
  {
    Reversed<Node>(Keep<Node>(nodes[k..], chosen))
  }

  lemma LeftFurther(nodes: seq<Node>, k: nat, chosen: set<Node>)
    requires 0 < k <= |nodes|
    ensures var x, left := nodes[k - 1], Left(nodes, k, chosen);
            && k <= |left| && left[k - 1] == x
            && Left(nodes, k - 1, chosen) == if x in chosen then left[..k - 1] + left[k..] else left
  {
    hide Drop, Keep;
    var x, rest := nodes[k - 1], Drop<Node>(nodes[k..], chosen);
    assert nodes[k - 1..] == [x] + nodes[k..];
    KeepFront(x, nodes[k..], chosen);
    DropFront(x, nodes[k..], chosen);
  }

  lemma TakenFurther(nodes: seq<Node>, k: nat, chosen: set<Node>)
    requires 0 < k <= |nodes|
    ensures var x, taken := nodes[k - 1], TakenSoFar(nodes, k, chosen);
            TakenSoFar(nodes, k - 1, chosen) == if x in chosen then taken + [x] else taken
  {
    hide Drop, Keep, Reversed;
    var x, kept := nodes[k - 1], Keep<Node>(nodes[k..], chosen);
    assert nodes[k - 1..] == [x] + nodes[k..];
    KeepFront(x, nodes[k..], chosen);
    DropFront(x, nodes[k..], chosen);
    ReversedFront(x, kept);
    assert [] + kept == kept;
  }

  lemma Ends(nodes: seq<Node>, chosen: set<Node>)
    ensures Left(nodes, |nodes|, chosen) == nodes && TakenSoFar(nodes, |nodes|, chosen) == []
    ensures Left(nodes, 0, chosen) == Drop<Node>(nodes, chosen)
    ensures TakenSoFar(nodes, 0, chosen) == Reversed<Node>(Keep<Node>(nodes, chosen))
  {
    assert nodes[|nodes|..] == [] && nodes[..|nodes|] == nodes && nodes[0..] == nodes;
  }

  /** The traversal has come down to position `k` of what was the waitset. */
  ghost predicate Traversed(from: List, temp: List, was: seq<Node>, k: nat, chosen: set<Node>)
    requires k <= |was|
    reads from, from.head, from.nodes, temp, temp.head, temp.nodes
  {
    && from.Valid() && temp.Valid() && Apart(from, temp)
    && from.nodes == Left(was, k, chosen) && temp.nodes == TakenSoFar(was, k, chosen)
    && (forall x | x in from.nodes :: x.inList) && forall x | x in temp.nodes :: !x.inList
  }

  /** One round of the traversal, at position `k - 1`; the neighbour is read before the node moves. */
  method Visit(from: List, temp: List, n: Node, wanted: set<nat>, ghost was: seq<Node>, ghost k: nat)
    returns (next: Node)
    requires 0 < k <= |was| && n == was[k - 1] && Traversed(from, temp, was, k, Wanted(was, wanted))
    modifies from`count, from`nodes, from.head`next, from.head`prev, from.nodes
    modifies temp`count, temp`nodes, temp.head`next, temp.head`prev, temp.nodes
    ensures Traversed(from, temp, was, k - 1, Wanted(was, wanted))
    ensures next == At(from.head, was, k - 2)
  {
    hide Linked, Left, TakenSoFar, Apart;
    LeftFurther(was, k, Wanted(was, wanted));
    TakenFurther(was, k, Wanted(was, wanted));
    Before(from, k);
    SamePrefix(was, k, Wanted(was, wanted));
    next := n.prev;
    if n.context in wanted {
      Move(from, temp, n, k - 1);
    }
  }

  lemma {:induction false} FilterMembers(nodes: seq<Node>, chosen: set<Node>)
    ensures forall x | x in Drop<Node>(nodes, chosen) :: x in nodes
    ensures forall x | x in Reversed<Node>(Keep<Node>(nodes, chosen)) :: x in nodes
  {
    if nodes != [] {
      FilterMembers(nodes[..|nodes| - 1], chosen);
      var front := nodes[..|nodes| - 1];
      var kept := Keep<Node>(front, chosen);
      assert kept + [] == kept && (kept + [nodes[|nodes| - 1]])[..|kept|] == kept;
    }
  }

  lemma StillThere(nodes: seq<Node>, k: nat, chosen: set<Node>)
    requires k <= |nodes|
    ensures forall i | 0 <= i < |Left(nodes, k, chosen)| :: Left(nodes, k, chosen)[i] in nodes
    ensures forall i | 0 <= i < |TakenSoFar(nodes, k, chosen)| :: TakenSoFar(nodes, k, chosen)[i] in nodes
  {
    hide Drop, Keep, Reversed;
    FilterMembers(nodes[k..], chosen);
    var left, taken := Left(nodes, k, chosen), TakenSoFar(nodes, k, chosen);
    forall i | 0 <= i < |left| ensures left[i] in nodes {
      assert i >= k ==> left[i] in Drop<Node>(nodes[k..], chosen) && left[i] in nodes[k..];
    }
    forall i | 0 <= i < |taken| ensures taken[i] in nodes {
      assert taken[i] in taken && taken[i] in nodes[k..];
    }
  }

  lemma SamePrefix(nodes: seq<Node>, k: nat, chosen: set<Node>)
    requires k <= |nodes|
    ensures k <= |Left(nodes, k, chosen)| && forall i | 0 <= i < k :: Left(nodes, k, chosen)[i] == nodes[i]
  {
  }

  /** The traversal of notify(predicate): from the back, matching nodes move to the private list. */
  method TakeMatching(from: List, temp: List, wanted: set<nat>)
    requires from.Valid() && temp.Valid() && Apart(from, temp) && temp.nodes == []
    requires forall x | x in from.nodes :: x.inList
    modifies from`count, from`nodes, from.head`next, from.head`prev, from.nodes
    modifies temp`count, temp`nodes, temp.head`next, temp.head`prev
    ensures from.Valid() && temp.Valid() && Apart(from, temp)
    ensures from.nodes == Drop<Node>(old(from.nodes), Wanted(old(from.nodes), wanted))
    ensures temp.nodes == Reversed<Node>(Keep<Node>(old(from.nodes), Wanted(old(from.nodes), wanted)))
    ensures (forall x | x in from.nodes :: x.inList) && forall x | x in temp.nodes :: !x.inList
  {
    hide Linked, Drop, Keep, Reversed, Left, TakenSoFar;
    ghost var was := from.nodes;
    ghost var k := |was|;
    Ends(was, Wanted(was, wanted));
    Before(from, k);
    var n := from.head.prev;
    while n != from.head
      invariant 0 <= k <= |was| && n == At(from.head, was, k - 1) && from.head !in was
      invariant Traversed(from, temp, was, k, Wanted(was, wanted))
      decreases k
    {
      StillThere(was, k, Wanted(was, wanted));
      n := Visit(from, temp, n, wanted, was, k);
      k := k - 1;
    }
  }

  /** The critical section of notify_all and abort_all: everything moves to the private list, and the flags
      are cleared. */
  method TakeAll(from: List, temp: List)
    requires from.Valid() && temp.Valid() && Apart(from, temp) && temp.nodes == []
    modifies from`count, from`nodes, from.head`next, from.head`prev, from.nodes
    modifies temp`count, temp`nodes, temp.head`next, temp.head`prev
    ensures from.Valid() && temp.Valid() && from.nodes == [] && temp.nodes == old(from.nodes)
    ensures forall x | x in temp.nodes :: !x.inList
  {
    from.FlushTo(temp);
    ghost var i := 0;
    After(temp, 0);
    var n := temp.head.next;
    while n != temp.head
      invariant 0 <= i <= |temp.nodes| && n == At(temp.head, temp.nodes, i)
      invariant from.Valid() && temp.Valid() && from.nodes == [] && temp.nodes == old(from.nodes)
      invariant forall j | 0 <= j < i :: !temp.nodes[j].inList
      decreases |temp.nodes| - i
    {
      label before:
      n.inList := false;
      forall j | 0 <= j < |temp.nodes| ensures Joined(temp.head, temp.nodes, j) {
        assert old@before(Joined(temp.head, temp.nodes, j));
      }
      After(temp, i + 1);
      n := n.next;
      i := i + 1;
    }
  }

  lemma After(list: List, i: nat)
    requires list.Valid() && i <= |list.nodes|
    ensures i == 0 ==> list.head.next == At(list.head, list.nodes, 0)
    ensures 0 < i ==> list.nodes[i - 1].next == At(list.head, list.nodes, i)
  {
    assert 0 < i ==> Joined(list.head, list.nodes, i - 1);
  }

  /** V() of the node's semaphore. From then on the node belongs to its thread again, which may reuse or
      destroy it, like every node posted before: nothing is known of their fields any more. */
  method PostNode(n: Node, abort: bool, posted: seq<Node>)
    requires abort ==> n.aborted
    modifies n, posted
  {
    modify n, posted;
  }

  /** The posting loop of notify_all, notify(predicate) and abort_all: every node of the private list is posted,
      once and in order. The link to the next node is read before the post and never after it. `flags` says
      whether each node was marked as aborted when it was posted: abort_all marks all, the others none. */
  method PostAll(temp: List, abort: bool) returns (posted: seq<Node>, ghost flags: seq<bool>)
    requires temp.Valid()
    modifies temp.nodes
    ensures posted == old(temp.nodes) && |flags| == |posted|
    ensures forall i | 0 <= i < |flags| :: flags[i] == (abort || old(temp.nodes[i].aborted))
  {
    ghost var was := temp.nodes;
    posted, flags := [], [];
    var n := temp.head.next;
    while n != temp.head
      invariant |posted| <= |was| && posted == was[..|posted|] && temp.nodes == was
      invariant temp.head !in was && NoRepeat(was)
      invariant n == At(temp.head, was, |posted|)
      invariant forall j | |posted| <= j < |was| :: Joined(temp.head, was, j)
      invariant forall j | |posted| <= j < |was| :: was[j].aborted == old(was[j].aborted)
      invariant |flags| == |posted| && forall i | 0 <= i < |flags| :: flags[i] == (abort || old(was[i].aborted))
      decreases |was| - |posted|
    {
      assert Joined(temp.head, was, |posted|);
      label before:
      var next := n.next;
      if abort { n.aborted := true; }
      flags := flags + [n.aborted];
      PostNode(n, abort, posted);
      forall j | |posted| < j < |was| ensures Joined(temp.head, was, j) {
        assert was[j] !in posted && was[j] != n;
        assert old@before(Joined(temp.head, was, j));
      }
      posted := posted + [n];
      n := next;
    }
  }
}

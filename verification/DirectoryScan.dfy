/** The scan that builds the tree to be sent: an explicit stack of directories still to be listed. */
module DirectoryScan {
  import opened Behaviors
  import opened Sums
  import opened TreeSync

  /** What iterating over a directory yields, in the order in which it does; a directory that cannot be
      opened yields nothing. Entries that are neither directories nor regular files are ignored. */
  datatype Entry = File(name: string, size: nat) | Directory(name: string, entries: seq<Entry>) | Other(name: string)

  function EntryCount(e: Entry): nat {
    match e
    case File(_, _) => 1
    case Directory(_, entries) => 1 + Count(entries)
    case Other(_) => 0
  }

  /** Regular files and directories below, at any depth. */
  function Count(entries: seq<Entry>): nat {
    if entries == [] then 0 else EntryCount(entries[0]) + Count(entries[1..])
  }

  function EntryTotal(e: Entry): nat {
    match e
    case File(_, size) => size
    case Directory(_, entries) => Total(entries)
    case Other(_) => 0
  }

  /** Bytes of all regular files below. */
  function Total(entries: seq<Entry>): nat {
    if entries == [] then 0 else EntryTotal(entries[0]) + Total(entries[1..])
  }

  /** A directory that waits to be listed, and its node. */
  datatype Job = Job(entries: seq<Entry>, node: nat)

  function StackCount(stack: seq<Job>): nat {
    if stack == [] then 0 else StackCount(stack[..|stack| - 1]) + Count(stack[|stack| - 1].entries)
  }

  function StackTotal(stack: seq<Job>): nat {
    if stack == [] then 0 else StackTotal(stack[..|stack| - 1]) + Total(stack[|stack| - 1].entries)
  }

  lemma StackEmpty()
    ensures StackCount([]) == 0 && StackTotal([]) == 0
  {
  }

  lemma StackPush(stack: seq<Job>, job: Job)
    ensures StackCount(stack + [job]) == StackCount(stack) + Count(job.entries)
    ensures StackTotal(stack + [job]) == StackTotal(stack) + Total(job.entries)
  {
    assert (stack + [job])[..|stack|] == stack;
  }

  // ---------------------------------------------------------------- the sort

  predicate NameLess(a: string, b: string) {
    b != "" && (a == "" || a[0] < b[0] || (a[0] == b[0] && NameLess(a[1..], b[1..])))
  }

  /** The comparison of the sort: regular files by size, everything else by name. */
  predicate Less(a: Entry, b: Entry) {
    if a.File? && b.File? then a.size < b.size else NameLess(a.name, b.name)
  }

  predicate Tied(a: Entry, b: Entry) {
    !Less(a, b) && !Less(b, a)
  }

  /** What std::sort demands of the comparison, on the entries of one directory. */
  ghost predicate StrictWeakOrder(entries: seq<Entry>) {
    && (forall a | a in entries :: !Less(a, a))
    && (forall a, b, c | a in entries && b in entries && c in entries :: Less(a, b) && Less(b, c) ==> Less(a, c))
    && (forall a, b, c | a in entries && b in entries && c in entries :: Tied(a, b) && Tied(b, c) ==> Tied(a, c))
  }

  ghost predicate Sorted(entries: seq<Entry>) {
    forall i, j | 0 <= i < j < |entries| :: !Less(entries[j], entries[i])
  }

  type Sort = seq<Entry> -> seq<Entry>

  /** std::sort permutes, and it sorts where the comparison is an order. */
  ghost predicate IsSort(sort: Sort) {
    forall entries ::
      multiset(sort(entries)) == multiset(entries) && (StrictWeakOrder(entries) ==> Sorted(sort(entries)))
  }

  ghost predicate DistinctNames(entries: seq<Entry>) {
    forall a, b | a in entries && b in entries && a.name == b.name :: a == b
  }

  /** Something other than a regular file stands between two regular files only if their sizes are in the
      order of their names. */
  ghost predicate SizesFollowNames(entries: seq<Entry>) {
    forall f, d, g | f in entries && d in entries && g in entries ::
      f.File? && g.File? && !d.File? && NameLess(f.name, d.name) && NameLess(d.name, g.name) ==> f.size < g.size
  }

  lemma {:induction false} NamesCompare(a: string, b: string)
    ensures !(NameLess(a, b) && NameLess(b, a)) && (a != b ==> NameLess(a, b) || NameLess(b, a))
  {
    if a != "" && b != "" {
      NamesCompare(a[1..], b[1..]);
      assert a == [a[0]] + a[1..] && b == [b[0]] + b[1..];
    }
  }

  lemma {:induction false} NamesChain(a: string, b: string, c: string)
    requires NameLess(a, b) && NameLess(b, c)
    ensures NameLess(a, c)
  {
    if a != "" && a[0] == b[0] == c[0] {
      NamesChain(a[1..], b[1..], c[1..]);
    }
  }

  /** The comparison can go round in a circle. */
  lemma ComparisonCanCycle()
    ensures var small, large, between := File("z", 1), File("a", 5), Directory("m", []);
            Less(small, large) && Less(large, between) && Less(between, small)
  {
  }

  lemma LessIsTransitive(entries: seq<Entry>, a: Entry, b: Entry, c: Entry)
    requires DistinctNames(entries) && SizesFollowNames(entries)
    requires a in entries && b in entries && c in entries && Less(a, b) && Less(b, c)
    ensures Less(a, c)
  {
    NamesCompare(a.name, b.name);
    NamesCompare(b.name, c.name);
    NamesCompare(a.name, c.name);
    if NameLess(a.name, b.name) && NameLess(b.name, c.name) { NamesChain(a.name, b.name, c.name); }
    if NameLess(c.name, a.name) && NameLess(a.name, b.name) { NamesChain(c.name, a.name, b.name); }
    if NameLess(b.name, c.name) && NameLess(c.name, a.name) { NamesChain(b.name, c.name, a.name); }
  }

  lemma TiesAreSizes(entries: seq<Entry>, a: Entry, b: Entry)
    requires DistinctNames(entries) && a in entries && b in entries
    ensures Tied(a, b) <==> a == b || (a.File? && b.File? && a.size == b.size)
  {
    NamesCompare(a.name, b.name);
  }

  lemma OrderIfSizesFollow(entries: seq<Entry>)
    requires DistinctNames(entries) && SizesFollowNames(entries)
    ensures StrictWeakOrder(entries)
  {
    hide Less, Tied;
    forall a | a in entries ensures !Less(a, a) {
      TiesAreSizes(entries, a, a);
      TiedIsMutual(a, a);
    }
    forall a, b, c | a in entries && b in entries && c in entries && Less(a, b) && Less(b, c) ensures Less(a, c) {
      LessIsTransitive(entries, a, b, c);
    }
    forall a, b, c | a in entries && b in entries && c in entries && Tied(a, b) && Tied(b, c) ensures Tied(a, c) {
      TiesAreSizes(entries, a, b);
      TiesAreSizes(entries, b, c);
      TiesAreSizes(entries, a, c);
    }
  }

  lemma TiedIsMutual(a: Entry, b: Entry)
    ensures Tied(a, b) ==> !Less(a, b) && !Less(b, a)
  {
  }

  /** The comparison is an order on a directory exactly when sizes follow names around every entry that is
      not a regular file. */
  lemma ComparisonIsOrder(entries: seq<Entry>)
    requires DistinctNames(entries)
    ensures StrictWeakOrder(entries) <==> SizesFollowNames(entries)
  {
    if StrictWeakOrder(entries) {
      hide DistinctNames;
      forall f, d, g | f in entries && d in entries && g in entries && f.File? && g.File? && !d.File?
                       && NameLess(f.name, d.name) && NameLess(d.name, g.name)
        ensures f.size < g.size
      {
        assert Less(f, d) && Less(d, g);
      }
    } else if SizesFollowNames(entries) {
      OrderIfSizesFollow(entries);
    }
  }

  lemma {:induction false} KeptFrom(entries: seq<Entry>, i: nat, j: nat) returns (k: nat, l: nat)
    requires i < j < |Kept(entries)|
    ensures k < l < |entries| && entries[k] == Kept(entries)[i] && entries[l] == Kept(entries)[j]
  {
    var front := entries[..|entries| - 1];
    if j < |Kept(front)| {
      k, l := KeptFrom(front, i, j);
    } else {
      k := KeptAt(front, i);
      l := |entries| - 1;
    }
  }

  lemma {:induction false} KeptAt(entries: seq<Entry>, i: nat) returns (k: nat)
    requires i < |Kept(entries)|
    ensures k < |entries| && entries[k] == Kept(entries)[i]
  {
    var front := entries[..|entries| - 1];
    if i < |Kept(front)| { k := KeptAt(front, i); } else { k := |entries| - 1; }
  }

  /** In a directory on which the comparison is an order, the regular files come smallest first and the
      subdirectories by name. */
  lemma SmallestFirst(sort: Sort, entries: seq<Entry>, i: nat, j: nat)
    requires IsSort(sort) && DistinctNames(entries) && SizesFollowNames(entries)
    requires i < j < |Kept(sort(entries))|
    ensures var a, b := Kept(sort(entries))[i], Kept(sort(entries))[j];
            && (a.File? && b.File? ==> a.size <= b.size)
            && (a.Directory? && b.Directory? ==> !NameLess(b.name, a.name))
  {
    ComparisonIsOrder(entries);
    assert Sorted(sort(entries));
    var k, l := KeptFrom(sort(entries), i, j);
    assert !Less(sort(entries)[l], sort(entries)[k]);
  }

  function Without(entries: seq<Entry>, i: nat): (rest: seq<Entry>)
    requires i < |entries|
    ensures |rest| == |entries| - 1
  {
    entries[..i] + entries[i + 1..]
  }

  /** One entry can be counted first. */
  lemma {:induction false} CountApart(entries: seq<Entry>, i: nat)
    requires i < |entries|
    ensures Count(entries) == EntryCount(entries[i]) + Count(Without(entries, i))
    ensures Total(entries) == EntryTotal(entries[i]) + Total(Without(entries, i))
  {
    if i == 0 {
      assert Without(entries, 0) == entries[1..];
    } else {
      CountApart(entries[1..], i - 1);
      assert Without(entries, i)[1..] == Without(entries[1..], i - 1);
    }
  }

  lemma BagApart(entries: seq<Entry>, i: nat)
    requires i < |entries|
    ensures multiset(Without(entries, i)) == multiset(entries) - multiset{entries[i]}
  {
    assert entries == entries[..i] + [entries[i]] + entries[i + 1..];
  }

  lemma InBag(entries: seq<Entry>, e: Entry) returns (i: nat)
    requires e in multiset(entries)
    ensures i < |entries| && entries[i] == e
  {
    i :| 0 <= i < |entries| && entries[i] == e;
  }

  lemma {:induction false} CountPermuted(a: seq<Entry>, b: seq<Entry>)
    requires multiset(a) == multiset(b)
    ensures Count(a) == Count(b) && Total(a) == Total(b)
    decreases |a|
  {
    if a == [] {
      assert |multiset(b)| == |b|;
    } else {
      hide Count, Total, EntryCount, EntryTotal, Without;
      var i := InBag(b, a[0]);
      BagApart(a, 0);
      BagApart(b, i);
      CountPermuted(Without(a, 0), Without(b, i));
      CountApart(a, 0);
      CountApart(b, i);
    }
  }

  lemma SortKeepsCount(sort: Sort, entries: seq<Entry>)
    requires IsSort(sort)
    ensures Count(sort(entries)) == Count(entries) && Total(sort(entries)) == Total(entries)
  {
    CountPermuted(sort(entries), entries);
  }

  // ---------------------------------------------------------------- what the tree stands for

  /** Entries that become nodes. */
  function Kept(entries: seq<Entry>): seq<Entry> {
    if entries == [] then []
    else Kept(entries[..|entries| - 1]) + (if entries[|entries| - 1].Other? then [] else [entries[|entries| - 1]])
  }

  /** The entries that the children of node `p` stand for, in order. */
  ghost function Kids(nodes: seq<Node>, contents: seq<Entry>, p: nat): seq<Entry>
    requires |contents| == |nodes|
  {
    if nodes == [] then [] else
    var n := |nodes| - 1;
    Kids(nodes[..n], contents[..n], p) + if nodes[n].parent == Some(p) then [contents[n]] else []
  }

  predicate StandsFor(x: Node, e: Entry) {
    match e
    case File(_, size) => !x.isDirectory && x.size == size
    case Directory(_, _) => x.isDirectory
    case Other(_) => false
  }

  /** Listed directories have their children; the one being listed has those seen so far; others none. */
  ghost predicate KidsOk(sort: Sort, nodes: seq<Node>, contents: seq<Entry>, ready: seq<bool>,
                         at: Option<nat>, seen: seq<Entry>, i: nat)
    requires |contents| == |nodes| == |ready| && i < |nodes|
  {
    && StandsFor(nodes[i], contents[i])
    && Kids(nodes, contents, i) ==
       if at == Some(i) then seen else if ready[i] && contents[i].Directory? then Kept(sort(contents[i].entries)) else []
  }

  ghost predicate Built(sort: Sort, nodes: seq<Node>, contents: seq<Entry>, ready: seq<bool>,
                        at: Option<nat>, seen: seq<Entry>)
  {
    && |contents| == |nodes| == |ready|
    && forall i | 0 <= i < |nodes| :: KidsOk(sort, nodes, contents, ready, at, seen, i)
  }

  predicate HoldsEntries(e: Entry, entries: seq<Entry>) {
    e.Directory? && e.entries == entries
  }

  /** The nodes that are not ready are those on the stack, each once. */
  ghost predicate Waiting(contents: seq<Entry>, ready: seq<bool>, stack: seq<Job>) {
    && |ready| == |contents|
    && (forall k | 0 <= k < |stack| ::
          stack[k].node < |ready| && !ready[stack[k].node] && HoldsEntries(contents[stack[k].node], stack[k].entries))
    && (forall k, l | 0 <= k < l < |stack| :: stack[k].node != stack[l].node)
    && (forall i | 0 <= i < |ready| && !ready[i] :: exists k :: 0 <= k < |stack| && stack[k].node == i)
  }

  lemma KidsAppend(nodes: seq<Node>, contents: seq<Entry>, x: Node, e: Entry, p: nat)
    requires |contents| == |nodes|
    ensures Kids(nodes + [x], contents + [e], p) == Kids(nodes, contents, p) + if x.parent == Some(p) then [e] else []
  {
    assert (nodes + [x])[..|nodes|] == nodes && (contents + [e])[..|nodes|] == contents;
  }

  lemma {:induction false} NoKidsYet(nodes: seq<Node>, contents: seq<Entry>, p: nat)
    requires |contents| == |nodes|
    requires forall i | 0 <= i < |nodes| :: nodes[i].parent != Some(p)
    ensures Kids(nodes, contents, p) == []
  {
    if nodes != [] {
      NoKidsYet(nodes[..|nodes| - 1], contents[..|nodes| - 1], p);
    }
  }

  /** A new child of a directory. */
  lemma AddChild(nodes: seq<Node>, x: Node)
    requires Tree(nodes) && Unstarted(nodes)
    requires x.parent.Some? && x.parent.value < |nodes| && nodes[x.parent.value].isDirectory
    requires x.status == Fresh && x.sends == 0 && x.removals == 0
    ensures Tree(nodes + [x]) && Unstarted(nodes + [x])
    ensures Sum(nodes + [x], FileBytes) == Sum(nodes, FileBytes) + FileBytes(x)
  {
    hide Sum;
    SumAppend(nodes, x, FileBytes);
    TreeGrows(nodes, x);
  }

  lemma TreeGrows(nodes: seq<Node>, x: Node)
    requires Tree(nodes) && x.parent.Some? && x.parent.value < |nodes| && nodes[x.parent.value].isDirectory
    ensures Tree(nodes + [x])
  {
    var nodes' := nodes + [x];
    forall i | 0 < i < |nodes'| ensures Hangs(nodes', i) {
      assert i < |nodes| ==> Hangs(nodes, i);
    }
  }

  lemma AddKid(sort: Sort, nodes: seq<Node>, contents: seq<Entry>, ready: seq<bool>, at: nat, seen: seq<Entry>,
               x: Node, e: Entry)
    requires Tree(nodes) && Built(sort, nodes, contents, ready, Some(at), seen) && at < |nodes|
    requires StandsFor(x, e) && x.parent == Some(at)
    ensures Built(sort, nodes + [x], contents + [e], ready + [e.File?], Some(at), seen + [e])
  {
    var nodes', contents', ready', seen' := nodes + [x], contents + [e], ready + [e.File?], seen + [e];
    forall i | 0 <= i < |nodes'| ensures KidsOk(sort, nodes', contents', ready', Some(at), seen', i) {
      KidsAppend(nodes, contents, x, e, i);
      if i < |nodes| {
        assert KidsOk(sort, nodes, contents, ready, Some(at), seen, i);
      } else {
        forall j | 0 <= j < |nodes| ensures nodes[j].parent != Some(i) {
          assert j > 0 ==> Hangs(nodes, j);
        }
        NoKidsYet(nodes, contents, i);
      }
    }
  }

  /** The scan yields one node per regular file or directory, each behind its parent and every one ready
      to be iterated; the children of each node are the entries of its directory, in the order in which
      they are sorted; and the total is exact. This is the state from which sending starts. */
  method Scan(root: seq<Entry>, sort: Sort)
    returns (nodes: seq<Node>, ready: seq<bool>, total: nat, contents: seq<Entry>)
    requires IsSort(sort)
    ensures Init(State(nodes, map[], 0, total))
    ensures |nodes| == 1 + Count(root) && total == Total(root)
    ensures |ready| == |nodes| && forall i | 0 <= i < |ready| :: ready[i]
    ensures |contents| == |nodes| && HoldsEntries(contents[0], root)
    ensures forall i | 0 <= i < |nodes| ::
              && StandsFor(nodes[i], contents[i])
              && Kids(nodes, contents, i) == if contents[i].Directory? then Kept(sort(contents[i].entries)) else []
  {
    hide Sum, Tree, Unstarted, Waiting, Count, Total, Built, Kids, Kept, StackCount, StackTotal, StandsFor, IsSort;
    nodes, ready, total := [Node(None, true, 0, Spawned, 0, 0)], [false], 0;
    var stack := [Job(root, 0)];
    contents := [Directory("", root)];
    RootAlone(sort, nodes[0], stack[0], contents[0]);
    StackEmpty();
    StackPush([], stack[0]);
    assert [] + [stack[0]] == stack;
    while stack != []
      invariant Tree(nodes) && Unstarted(nodes) && Waiting(contents, ready, stack) && Built(sort, nodes, contents, ready, None, [])
      invariant |contents| == |nodes| > 0 && HoldsEntries(contents[0], root)
      invariant total == Sum(nodes, FileBytes)
      invariant |nodes| + StackCount(stack) == 1 + Count(root)
      invariant total + StackTotal(stack) == Total(root)
      decreases StackCount(stack), |stack|
    {
      var job := stack[|stack| - 1];
      assert stack[..|stack| - 1] + [job] == stack;
      StackPush(stack[..|stack| - 1], job);
      nodes, ready, total, stack, contents := ListDirectory(nodes, ready, total, stack[..|stack| - 1], job, contents, sort);
    }
    AllReady(sort, nodes, contents, ready);
  }

  lemma RootAlone(sort: Sort, x: Node, job: Job, e: Entry)
    requires x == Node(None, true, 0, Spawned, 0, 0) && job.node == 0 && HoldsEntries(e, job.entries)
    ensures Sum([x], FileBytes) == 0 && Tree([x]) && Unstarted([x])
    ensures Waiting([e], [false], [job]) && Built(sort, [x], [e], [false], None, [])
  {
    assert [x][..0] == [];
    assert [job][0].node == 0;
    NoKidsYet([x], [e], 0);
  }

  lemma AllReady(sort: Sort, nodes: seq<Node>, contents: seq<Entry>, ready: seq<bool>)
    requires Waiting(contents, ready, []) && Built(sort, nodes, contents, ready, None, [])
    ensures |ready| == |nodes| && forall i | 0 <= i < |ready| :: ready[i]
    ensures forall i | 0 <= i < |nodes| ::
              && StandsFor(nodes[i], contents[i])
              && Kids(nodes, contents, i) == if contents[i].Directory? then Kept(sort(contents[i].entries)) else []
  {
    forall i | 0 <= i < |nodes|
      ensures StandsFor(nodes[i], contents[i])
      ensures Kids(nodes, contents, i) == if contents[i].Directory? then Kept(sort(contents[i].entries)) else []
    {
      assert KidsOk(sort, nodes, contents, ready, None, [], i);
    }
  }

  /** One directory: its entries become nodes, its subdirectories jobs, and its node is unlocked. */
  method ListDirectory(nodes0: seq<Node>, ready0: seq<bool>, total0: nat, stack0: seq<Job>, job: Job,
                       contents0: seq<Entry>, sort: Sort)
    returns (nodes: seq<Node>, ready: seq<bool>, total: nat, stack: seq<Job>, contents: seq<Entry>)
    requires IsSort(sort) && Tree(nodes0) && Unstarted(nodes0) && total0 == Sum(nodes0, FileBytes)
    requires Waiting(contents0, ready0, stack0 + [job]) && Built(sort, nodes0, contents0, ready0, None, [])
    ensures Tree(nodes) && Unstarted(nodes) && total == Sum(nodes, FileBytes)
    ensures Waiting(contents, ready, stack) && Built(sort, nodes, contents, ready, None, [])
    ensures |nodes| + StackCount(stack) == |nodes0| + StackCount(stack0) + Count(job.entries)
    ensures total + StackTotal(stack) == total0 + StackTotal(stack0) + Total(job.entries)
    ensures |contents| == |nodes| >= |nodes0| == |contents0| && contents[..|nodes0|] == contents0
    ensures |nodes| == |nodes0| ==> stack == stack0
  {
    hide Sum, Tree, Unstarted, Waiting, Built, Kids, Kept, StackCount, StackTotal, IsSort;
    nodes, ready, total, stack, contents := nodes0, ready0, total0, stack0, contents0;
    var entries := sort(job.entries);
    SortKeepsCount(sort, job.entries);
    BeginJob(sort, nodes, contents, ready, stack, job, entries);
    var j := 0;
    while j < |entries|
      invariant 0 <= j <= |entries| && (|nodes| == |nodes0| ==> stack == stack0)
      invariant |contents| == |nodes| >= |nodes0| && contents[..|nodes0|] == contents0
      invariant Tree(nodes) && Unstarted(nodes) && total == Sum(nodes, FileBytes)
      invariant Waiting(contents, ready, stack + [job])
      invariant Built(sort, nodes, contents, ready, Some(job.node), Kept(entries[..j]))
      invariant |nodes| + StackCount(stack) + Count(entries[j..]) == |nodes0| + StackCount(stack0) + Count(entries)
      invariant total + StackTotal(stack) + Total(entries[j..]) == total0 + StackTotal(stack0) + Total(entries)
    {
      var entry := entries[j];
      assert entries[j..][1..] == entries[j + 1..];
      KeptNext(entries, j);
      JobNode(sort, nodes, contents, ready, stack, job, Some(job.node), Kept(entries[..j]));
      match entry {
        case Directory(_, below) =>
          var child := Node(Some(job.node), true, 0, Fresh, 0, 0);
          var sub := Job(below, |nodes|);
          AddChild(nodes, child);
          AddKid(sort, nodes, contents, ready, job.node, Kept(entries[..j]), child, entry);
          WaitForChild(contents, ready, stack, job, sub, entry);
          StackPush(stack, sub);
          nodes, ready, stack, contents := nodes + [child], ready + [false], stack + [sub], contents + [entry];
        case File(_, size) =>
          var child := Node(Some(job.node), false, size, Fresh, 0, 0);
          AddChild(nodes, child);
          AddKid(sort, nodes, contents, ready, job.node, Kept(entries[..j]), child, entry);
          ReadyChild(contents, ready, stack + [job], entry);
          nodes, ready, total, contents := nodes + [child], ready + [true], total + size, contents + [entry];
        case Other(_) =>
      }
      j := j + 1;
    }
    assert entries[..j] == entries;
    Unlock(sort, nodes, contents, ready, stack, job);
    ready := ready[job.node := true];
  }

  lemma KeptNext(entries: seq<Entry>, j: nat)
    requires j < |entries|
    ensures Kept(entries[..j + 1]) == if entries[j].Other? then Kept(entries[..j]) else Kept(entries[..j]) + [entries[j]]
  {
    assert entries[..j + 1][..j] == entries[..j];
  }

  lemma JobNode(sort: Sort, nodes: seq<Node>, contents: seq<Entry>, ready: seq<bool>, stack: seq<Job>, job: Job,
                at: Option<nat>, seen: seq<Entry>)
    requires Waiting(contents, ready, stack + [job]) && Built(sort, nodes, contents, ready, at, seen)
    ensures job.node < |nodes| == |contents| == |ready| && nodes[job.node].isDirectory && !ready[job.node]
    ensures HoldsEntries(contents[job.node], job.entries)
  {
    assert (stack + [job])[|stack|] == job;
    assert job.node < |nodes| && KidsOk(sort, nodes, contents, ready, at, seen, job.node);
  }

  lemma BeginJob(sort: Sort, nodes: seq<Node>, contents: seq<Entry>, ready: seq<bool>, stack: seq<Job>, job: Job,
                 entries: seq<Entry>)
    requires Waiting(contents, ready, stack + [job]) && Built(sort, nodes, contents, ready, None, [])
    ensures |contents| == |nodes| && Built(sort, nodes, contents, ready, Some(job.node), Kept(entries[..0]))
  {
    JobNode(sort, nodes, contents, ready, stack, job, None, []);
    var seen := Kept(entries[..0]);
    forall i | 0 <= i < |nodes| ensures KidsOk(sort, nodes, contents, ready, Some(job.node), seen, i) {
      assert KidsOk(sort, nodes, contents, ready, None, [], i);
    }
  }

  lemma WaitForChild(contents: seq<Entry>, ready: seq<bool>, stack: seq<Job>, job: Job, sub: Job, e: Entry)
    requires Waiting(contents, ready, stack + [job]) && sub.node == |ready| && HoldsEntries(e, sub.entries)
    ensures Waiting(contents + [e], ready + [false], stack + [sub] + [job])
  {
    var before, after := stack + [job], stack + [sub] + [job];
    var contents', ready' := contents + [e], ready + [false];
    assert forall k | 0 <= k < |after| ::
        after[k] == if k < |stack| then before[k] else if k == |stack| then sub else before[|stack|];
    forall i | 0 <= i < |ready'| && !ready'[i] ensures exists k :: 0 <= k < |after| && after[k].node == i {
      if i < |ready| {
        var k :| 0 <= k < |before| && before[k].node == i;
        assert after[if k < |stack| then k else k + 1] == before[k];
      } else {
        assert after[|stack|] == sub;
      }
    }
  }

  lemma ReadyChild(contents: seq<Entry>, ready: seq<bool>, stack: seq<Job>, e: Entry)
    requires Waiting(contents, ready, stack)
    ensures Waiting(contents + [e], ready + [true], stack)
  {
    var ready' := ready + [true];
    forall i | 0 <= i < |ready'| && !ready'[i] ensures exists k :: 0 <= k < |stack| && stack[k].node == i {
      assert !ready[i];
    }
  }

  lemma Unlock(sort: Sort, nodes: seq<Node>, contents: seq<Entry>, ready: seq<bool>, stack: seq<Job>, job: Job)
    requires Waiting(contents, ready, stack + [job])
    requires Built(sort, nodes, contents, ready, Some(job.node), Kept(sort(job.entries)))
    ensures job.node < |ready| && Waiting(contents, ready[job.node := true], stack)
    ensures Built(sort, nodes, contents, ready[job.node := true], None, [])
  {
    JobNode(sort, nodes, contents, ready, stack, job, Some(job.node), Kept(sort(job.entries)));
    var before, ready' := stack + [job], ready[job.node := true];
    assert before[|stack|] == job && forall k | 0 <= k < |stack| :: stack[k] == before[k];
    forall i | 0 <= i < |ready'| && !ready'[i] ensures exists k :: 0 <= k < |stack| && stack[k].node == i {
      assert !ready[i];
      var k :| 0 <= k < |before| && before[k].node == i;
      assert stack[k].node == i;
    }
    forall i | 0 <= i < |nodes| ensures KidsOk(sort, nodes, contents, ready', None, [], i) {
      assert KidsOk(sort, nodes, contents, ready, Some(job.node), Kept(sort(job.entries)), i);
    }
  }
}

/**
 * The lifetime of a small object pool: its owner allocates from a private and a public free list and
 * finally destroys the pool, while any number of other threads give objects back. Two counters decide who
 * frees the pool. Every atomic access is a step; the loop of cleanup_list is a step per object. The load
 * with which the owner finds the public list not empty is merged with the exchange that takes it: in
 * between the list can only grow.
 */
module SmallObjectPool {
  import opened Behaviors
  import opened Sums

  /** What `m_public_list` holds. */
  datatype Head = Null | Node(id: nat) | DeadMark

  /** Where an object of the pool is. `Try` to `FreePool` are a thread other than the owner inside
      deallocate_impl with this object; `Count` and later: the memory of the object is already freed. */
  datatype Where =
    | Out                 // in use
    | Returning           // about to load the public list
    | Try(seen: Head)     // has loaded it: a compare-and-swap, or, if it is dead, frees the object
    | Count               // ++m_public_counter
    | FreePool            // made the counter zero
    | Done
    | Listed              // on one of the two lists
    | Cleaned             // freed by the owner

  datatype Object = Object(place: Where, next: Head)

  datatype OwnerPc =
    | Alive
    | CleanPrivate(removed: nat)
    | Exchange
    | CleanPublic(list: Head, removed: nat)
    | Subtract
    | Last                // made the counter zero
    | Gone

  /** `priv` and `pub`: the objects on the two lists, first to last. */
  datatype State = State(
    objects: seq<Object>, privateHead: Head, publicHead: Head, priv: seq<nat>, pub: seq<nat>,
    owner: OwnerPc, privateCounter: int, publicCounter: int, poolFrees: nat)

  datatype Event =
    | Allocate
    | DeallocateOwn(id: nat)
    | Deallocate(id: nat)       // another thread begins to give the object back
    | Foreign(id: nat)          // and moves on
    | Destroy
    | Owner

  predicate Init(s: State) {
    s == State([], Null, Null, [], [], Alive, 0, 0, 0)
  }

  function Put(s: State, id: nat, x: Object): State
    requires id < |s.objects|
  {
    s.(objects := s.objects[id := x])
  }

  /** Takes the first object of a list. */
  function Rest(list: seq<nat>): seq<nat> {
    if list == [] then [] else list[1..]
  }

  function AllocateStep(s: State): Option<State> {
    if s.owner != Alive then None
    else if s.privateHead.Node? then
      var id := s.privateHead.id;
      if id >= |s.objects| then None else
      Some(Put(s, id, Object(Out, Null)).(privateHead := s.objects[id].next, priv := Rest(s.priv)))
    else if s.publicHead.Node? then
      var id := s.publicHead.id;
      if id >= |s.objects| then None else
      Some(Put(s, id, Object(Out, Null))
           .(privateHead := s.objects[id].next, priv := Rest(s.pub), publicHead := Null, pub := []))
    else
      Some(s.(objects := s.objects + [Object(Out, Null)], privateCounter := s.privateCounter + 1))
  }

  function ForeignStep(s: State, id: nat): Option<State> {
    if id >= |s.objects| then None else
    match s.objects[id].place
    case Returning => Some(Put(s, id, Object(Try(s.publicHead), Null)))
    case Try(seen) =>
      if seen == DeadMark then Some(Put(s, id, Object(Count, Null)))
      else if s.publicHead == seen then
        Some(Put(s, id, Object(Listed, seen)).(publicHead := Node(id), pub := [id] + s.pub))
      else Some(Put(s, id, Object(Try(s.publicHead), Null)))
    case Count =>
      Some(Put(s, id, Object(if s.publicCounter + 1 == 0 then FreePool else Done, Null))
           .(publicCounter := s.publicCounter + 1))
    case FreePool => Some(Put(s, id, Object(Done, Null)).(poolFrees := s.poolFrees + 1))
    case _ => None
  }

  function OwnerStep(s: State): Option<State> {
    match s.owner
    case Alive => None
    case CleanPrivate(removed) =>
      (match s.privateHead
       case Node(id) =>
         if id >= |s.objects| then None else
         Some(Put(s, id, Object(Cleaned, Null))
              .(privateHead := s.objects[id].next, priv := Rest(s.priv), owner := CleanPrivate(removed + 1)))
       case _ => Some(s.(owner := Exchange, privateCounter := s.privateCounter - removed)))
    case Exchange => Some(s.(owner := CleanPublic(s.publicHead, 0), publicHead := DeadMark))
    case CleanPublic(list, removed) =>
      (match list
       case Node(id) =>
         if id >= |s.objects| then None else
         Some(Put(s, id, Object(Cleaned, Null)).(pub := Rest(s.pub), owner := CleanPublic(s.objects[id].next, removed + 1)))
       case _ => Some(s.(owner := Subtract, privateCounter := s.privateCounter - removed)))
    case Subtract =>
      var left := s.publicCounter - s.privateCounter;
      Some(s.(publicCounter := left, owner := if left == 0 then Last else Gone))
    case Last => Some(s.(owner := Gone, poolFrees := s.poolFrees + 1))
    case Gone => None
  }

  function Step(s: State, e: Event): Option<State> {
    match e
    case Allocate => AllocateStep(s)
    case DeallocateOwn(id) =>
      if s.owner == Alive && id < |s.objects| && s.objects[id].place == Out then
        Some(Put(s, id, Object(Listed, s.privateHead)).(privateHead := Node(id), priv := [id] + s.priv))
      else None
    case Deallocate(id) =>
      if id < |s.objects| && s.objects[id].place == Out then Some(Put(s, id, Object(Returning, Null))) else None
    case Foreign(id) => ForeignStep(s, id)
    case Destroy => if s.owner == Alive then Some(s.(owner := CleanPrivate(0))) else None
    case Owner => OwnerStep(s)
  }

  ghost predicate Next(s: State, s': State) {
    exists e :: Step(s, e) == Some(s')
  }

  // ---------------------------------------------------------------- the lists

  predicate LinkOk(objects: seq<Object>, list: seq<nat>, i: nat)
    requires i < |list|
  {
    && list[i] < |objects| && objects[list[i]].place == Listed
    && objects[list[i]].next == if i + 1 < |list| then Node(list[i + 1]) else Null
  }

  predicate Chain(objects: seq<Object>, head: Head, list: seq<nat>) {
    && head == (if list == [] then Null else Node(list[0]))
    && forall i | 0 <= i < |list| :: LinkOk(objects, list, i)
  }

  predicate Distinct(list: seq<nat>) {
    forall i, j | 0 <= i < j < |list| :: list[i] != list[j]
  }

  /** The list the owner took over from the other threads, or still shares with them. */
  function PublicList(s: State): Head {
    if s.owner.CleanPublic? then s.owner.list else if s.publicHead == DeadMark then Null else s.publicHead
  }

  predicate Dead(owner: OwnerPc) {
    owner.CleanPublic? || owner == Subtract || owner == Last || owner == Gone
  }

  predicate Lists(s: State) {
    && Chain(s.objects, s.privateHead, s.priv) && Chain(s.objects, PublicList(s), s.pub)
    && Distinct(s.priv + s.pub)
    && (s.publicHead == DeadMark <==> Dead(s.owner))
    && (s.owner != Alive && !s.owner.CleanPrivate? ==> s.priv == [])
    && (Dead(s.owner) && !s.owner.CleanPublic? ==> s.pub == [])
  }

  // ---------------------------------------------------------------- the accounts

  function IsListed(x: Object): int { if x.place == Listed then 1 else 0 }

  function NotCleaned(x: Object): int { if x.place == Cleaned then 0 else 1 }

  function Counted(x: Object): int { if x.place == Done || x.place == FreePool then 1 else 0 }

  function Frees(x: Object): int { if x.place == FreePool then 1 else 0 }

  predicate Subtracted(owner: OwnerPc) {
    owner == Last || owner == Gone
  }

  function Removed(owner: OwnerPc): nat {
    if owner.CleanPrivate? || owner.CleanPublic? then owner.removed else 0
  }

  ghost predicate Accounts(s: State) {
    && Sum(s.objects, IsListed) == |s.priv| + |s.pub|
    && (!Subtracted(s.owner) ==>
          && s.privateCounter - Removed(s.owner) == Sum(s.objects, NotCleaned)
          && s.publicCounter == Sum(s.objects, Counted)
          && s.poolFrees == 0 && Sum(s.objects, Frees) == 0)
    && (Subtracted(s.owner) ==>
          && s.publicCounter == Sum(s.objects, Counted) - Sum(s.objects, NotCleaned)
          && s.poolFrees + Sum(s.objects, Frees) + (if s.owner == Last then 1 else 0)
             == if s.publicCounter == 0 then 1 else 0)
  }

  ghost predicate Inv(s: State) {
    Lists(s) && Accounts(s)
  }

  // ---------------------------------------------------------------- list lemmas

  /** Changing an object that is not on the list. */
  lemma ChainFrame(objects: seq<Object>, head: Head, list: seq<nat>, id: nat, x: Object)
    requires Chain(objects, head, list) && id < |objects| && id !in list
    ensures Chain(objects[id := x], head, list)
  {
    var objects' := objects[id := x];
    forall i | 0 <= i < |list| ensures LinkOk(objects', list, i) {
      assert LinkOk(objects, list, i) && list[i] in list;
    }
  }

  lemma ChainAppend(objects: seq<Object>, head: Head, list: seq<nat>, x: Object)
    requires Chain(objects, head, list)
    ensures Chain(objects + [x], head, list)
  {
    var objects' := objects + [x];
    forall i | 0 <= i < |list| ensures LinkOk(objects', list, i) {
      assert LinkOk(objects, list, i);
    }
  }

  lemma NotOnList(objects: seq<Object>, head: Head, list: seq<nat>, id: nat)
    requires Chain(objects, head, list) && id < |objects| && objects[id].place != Listed
    ensures id !in list
  {
    forall i | 0 <= i < |list| ensures list[i] != id {
      assert LinkOk(objects, list, i);
    }
  }

  lemma PushFront(objects: seq<Object>, head: Head, list: seq<nat>, id: nat)
    requires Chain(objects, head, list) && id < |objects| && objects[id].place != Listed
    ensures Chain(objects[id := Object(Listed, head)], Node(id), [id] + list)
  {
    NotOnList(objects, head, list, id);
    var objects', list' := objects[id := Object(Listed, head)], [id] + list;
    forall i | 0 <= i < |list'| ensures LinkOk(objects', list', i) {
      if i > 0 {
        assert LinkOk(objects, list, i - 1) && list'[i] == list[i - 1] && list[i - 1] in list;
        assert i + 1 < |list'| ==> list'[i + 1] == list[i];
      }
    }
  }

  lemma PopFront(objects: seq<Object>, id: nat, list: seq<nat>, x: Object)
    requires Chain(objects, Node(id), list) && Distinct(list)
    ensures list != [] && list[0] == id && id < |objects| && objects[id].place == Listed
    ensures Chain(objects[id := x], objects[id].next, list[1..])
  {
    assert LinkOk(objects, list, 0);
    var objects', rest := objects[id := x], list[1..];
    forall i | 0 <= i < |rest| ensures LinkOk(objects', rest, i) {
      assert LinkOk(objects, list, i + 1) && rest[i] == list[i + 1];
      assert i + 1 < |rest| ==> rest[i + 1] == list[i + 2];
    }
  }

  lemma DistinctParts(a: seq<nat>, b: seq<nat>)
    ensures Distinct(a + b) <==> Distinct(a) && Distinct(b) && forall x | x in a :: x !in b
  {
    var both := a + b;
    if Distinct(both) {
      forall i, j | 0 <= i < j < |a| ensures a[i] != a[j] { assert both[i] != both[j]; }
      forall i, j | 0 <= i < j < |b| ensures b[i] != b[j] { assert both[|a| + i] != both[|a| + j]; }
      forall x | x in a ensures x !in b {
        var i :| 0 <= i < |a| && a[i] == x;
        forall j | 0 <= j < |b| ensures b[j] != x { assert both[i] != both[|a| + j]; }
      }
    } else {
      var i, j :| 0 <= i < j < |both| && both[i] == both[j];
      assert i < |a| <= j ==> both[i] in a && both[i] in b;
      assert |a| <= i ==> both[i] == b[i - |a|] && both[j] == b[j - |a|];
    }
  }

  // ---------------------------------------------------------------- steps keep the lists

  lemma FrameKeepsLists(s: State, id: nat, x: Object)
    requires Lists(s) && id < |s.objects| && s.objects[id].place != Listed
    ensures Chain(s.objects[id := x], s.privateHead, s.priv) && Chain(s.objects[id := x], PublicList(s), s.pub)
  {
    NotOnList(s.objects, s.privateHead, s.priv, id);
    NotOnList(s.objects, PublicList(s), s.pub, id);
    ChainFrame(s.objects, s.privateHead, s.priv, id, x);
    ChainFrame(s.objects, PublicList(s), s.pub, id, x);
  }

  lemma DeallocateOwnKeepsLists(s: State, id: nat, s': State)
    requires Lists(s) && Step(s, DeallocateOwn(id)) == Some(s')
    ensures Lists(s')
  {
    hide Chain, Distinct;
    NotOnList(s.objects, s.privateHead, s.priv, id);
    NotOnList(s.objects, PublicList(s), s.pub, id);
    PushFront(s.objects, s.privateHead, s.priv, id);
    ChainFrame(s.objects, PublicList(s), s.pub, id, Object(Listed, s.privateHead));
    DistinctFront(s.priv, s.pub, id);
  }

  lemma DistinctFront(a: seq<nat>, b: seq<nat>, id: nat)
    requires Distinct(a + b) && id !in a && id !in b
    ensures Distinct([id] + a + b) && Distinct(a + ([id] + b))
  {
    DistinctParts(a, b);
    DistinctParts([id] + a, b);
    DistinctParts(a, [id] + b);
  }

  lemma DistinctRest(a: seq<nat>, b: seq<nat>)
    requires Distinct(a + b)
    ensures Distinct(a) && Distinct(b) && Distinct(Rest(a) + b) && Distinct(a + Rest(b))
    ensures a != [] ==> a[0] !in b && a[0] !in Rest(a)
    ensures b != [] ==> b[0] !in a && b[0] !in Rest(b)
  {
    DistinctParts(a, b);
    DistinctParts(Rest(a), b);
    DistinctParts(a, Rest(b));
  }

  lemma ForeignKeepsLists(s: State, id: nat, s': State)
    requires Lists(s) && ForeignStep(s, id) == Some(s')
    ensures Lists(s')
  {
    hide Chain, Distinct;
    FrameKeepsLists(s, id, s'.objects[id]);
    if s'.pub != s.pub {
      PushFront(s.objects, s.publicHead, s.pub, id);
      NotOnList(s.objects, s.privateHead, s.priv, id);
      NotOnList(s.objects, PublicList(s), s.pub, id);
      DistinctFront(s.priv, s.pub, id);
    }
  }

  lemma HeadNode(objects: seq<Object>, head: Head, list: seq<nat>)
    requires Chain(objects, head, list)
    ensures head.Node? <==> list != []
    ensures head.Node? ==> list[0] == head.id && head.id < |objects| && objects[head.id].place == Listed
    ensures !head.Node? ==> head == Null
  {
    assert list != [] ==> LinkOk(objects, list, 0);
  }

  lemma AllocateKeepsLists(s: State, s': State)
    requires Lists(s) && AllocateStep(s) == Some(s')
    ensures Lists(s')
  {
    hide Chain, Distinct;
    HeadNode(s.objects, s.privateHead, s.priv);
    HeadNode(s.objects, s.publicHead, s.pub);
    DistinctRest(s.priv, s.pub);
    if s.privateHead.Node? {
      var id := s.privateHead.id;
      PopFront(s.objects, id, s.priv, Object(Out, Null));
      ChainFrame(s.objects, s.publicHead, s.pub, id, Object(Out, Null));
    } else if s.publicHead.Node? {
      var id := s.publicHead.id;
      PopFront(s.objects, id, s.pub, Object(Out, Null));
      assert s.priv + Rest(s.pub) == s'.priv + s'.pub;
      EmptyChain(s'.objects);
    } else {
      ChainAppend(s.objects, s.privateHead, s.priv, Object(Out, Null));
      ChainAppend(s.objects, s.publicHead, s.pub, Object(Out, Null));
    }
  }

  lemma EmptyChain(objects: seq<Object>)
    ensures Chain(objects, Null, [])
  {
  }

  lemma OwnerKeepsLists(s: State, s': State)
    requires Lists(s) && OwnerStep(s) == Some(s')
    ensures Lists(s')
  {
    hide Chain, Distinct;
    HeadNode(s.objects, s.privateHead, s.priv);
    HeadNode(s.objects, PublicList(s), s.pub);
    DistinctRest(s.priv, s.pub);
    if s.owner.CleanPrivate? && s.privateHead.Node? {
      PopFront(s.objects, s.privateHead.id, s.priv, Object(Cleaned, Null));
      ChainFrame(s.objects, PublicList(s), s.pub, s.privateHead.id, Object(Cleaned, Null));
    } else if s.owner.CleanPublic? && s.owner.list.Node? {
      PopFront(s.objects, s.owner.list.id, s.pub, Object(Cleaned, Null));
      ChainFrame(s.objects, s.privateHead, s.priv, s.owner.list.id, Object(Cleaned, Null));
    }
  }

  lemma StepKeepsLists(s: State, e: Event, s': State)
    requires Lists(s) && Step(s, e) == Some(s')
    ensures Lists(s')
  {
    match e
    case Allocate => AllocateKeepsLists(s, s');
    case DeallocateOwn(id) => DeallocateOwnKeepsLists(s, id, s');
    case Deallocate(id) => FrameKeepsLists(s, id, Object(Returning, Null));
    case Foreign(id) => ForeignKeepsLists(s, id, s');
    case Destroy =>
    case Owner => OwnerKeepsLists(s, s');
  }

  // ---------------------------------------------------------------- steps keep the accounts

  /** The four sums after one object has changed. */
  lemma Change(objects: seq<Object>, id: nat, x: Object)
    requires id < |objects|
    ensures var objects' := objects[id := x];
            && Sum(objects', IsListed) == Sum(objects, IsListed) - IsListed(objects[id]) + IsListed(x)
            && Sum(objects', NotCleaned) == Sum(objects, NotCleaned) - NotCleaned(objects[id]) + NotCleaned(x)
            && Sum(objects', Counted) == Sum(objects, Counted) - Counted(objects[id]) + Counted(x)
            && Sum(objects', Frees) == Sum(objects, Frees) - Frees(objects[id]) + Frees(x)
  {
    hide Sum;
    SumUpdate(objects, id, x, IsListed);
    SumUpdate(objects, id, x, NotCleaned);
    SumUpdate(objects, id, x, Counted);
    SumUpdate(objects, id, x, Frees);
  }

  lemma Create(objects: seq<Object>)
    ensures var objects' := objects + [Object(Out, Null)];
            && Sum(objects', IsListed) == Sum(objects, IsListed)
            && Sum(objects', NotCleaned) == Sum(objects, NotCleaned) + 1
            && Sum(objects', Counted) == Sum(objects, Counted)
            && Sum(objects', Frees) == Sum(objects, Frees)
  {
    hide Sum;
    SumAppend(objects, Object(Out, Null), IsListed);
    SumAppend(objects, Object(Out, Null), NotCleaned);
    SumAppend(objects, Object(Out, Null), Counted);
    SumAppend(objects, Object(Out, Null), Frees);
  }

  lemma OwnKeepsAccounts(s: State, e: Event, s': State)
    requires Lists(s) && Accounts(s) && Step(s, e) == Some(s')
    requires e.Allocate? || e.DeallocateOwn? || e.Deallocate? || e.Destroy?
    ensures Accounts(s')
  {
    hide Sum, Chain, Distinct;
    HeadNode(s.objects, s.privateHead, s.priv);
    HeadNode(s.objects, PublicList(s), s.pub);
    match e
    case Allocate =>
      if s.privateHead.Node? {
        Change(s.objects, s.privateHead.id, Object(Out, Null));
      } else if s.publicHead.Node? {
        Change(s.objects, s.publicHead.id, Object(Out, Null));
      } else {
        Create(s.objects);
      }
    case DeallocateOwn(id) => Change(s.objects, id, Object(Listed, s.privateHead));
    case Deallocate(id) => Change(s.objects, id, Object(Returning, Null));
    case Destroy =>
  }

  lemma OwnerKeepsAccounts(s: State, s': State)
    requires Lists(s) && Accounts(s) && OwnerStep(s) == Some(s')
    ensures Accounts(s')
  {
    hide Sum, Chain, Distinct;
    HeadNode(s.objects, s.privateHead, s.priv);
    HeadNode(s.objects, PublicList(s), s.pub);
    if s.owner.CleanPrivate? && s.privateHead.Node? {
      Change(s.objects, s.privateHead.id, Object(Cleaned, Null));
    } else if s.owner.CleanPublic? && s.owner.list.Node? {
      Change(s.objects, s.owner.list.id, Object(Cleaned, Null));
    }
  }

  /** Given back and counted objects are among those not cleaned. */
  lemma CountedBounds(objects: seq<Object>, id: nat)
    requires id < |objects|
    ensures Sum(objects, Counted) >= 0 && Sum(objects, Frees) >= Frees(objects[id])
    ensures objects[id].place != Done && objects[id].place != FreePool && objects[id].place != Cleaned ==>
              Sum(objects, Counted) < Sum(objects, NotCleaned)
  {
    SumNonNegative(objects, Counted);
    SumBounds(objects, id, Frees);
    SumCompare(objects, Counted, NotCleaned);
    if objects[id].place != Done && objects[id].place != FreePool && objects[id].place != Cleaned {
      var objects' := objects[id := Object(Done, Null)];
      SumCompare(objects', Counted, NotCleaned);
      Change(objects, id, Object(Done, Null));
    }
  }

  lemma ForeignKeepsAccounts(s: State, id: nat, s': State)
    requires Accounts(s) && ForeignStep(s, id) == Some(s')
    ensures Accounts(s')
  {
    hide Sum;
    Change(s.objects, id, s'.objects[id]);
    CountedBounds(s.objects, id);
  }

  lemma StepKeepsInv(s: State, e: Event, s': State)
    requires Inv(s) && Step(s, e) == Some(s')
    ensures Inv(s')
  {
    hide Lists, Accounts, ForeignStep, OwnerStep, AllocateStep;
    StepKeepsLists(s, e, s');
    match e
    case Foreign(id) => ForeignKeepsAccounts(s, id, s');
    case Owner => OwnerKeepsAccounts(s, s');
    case _ => OwnKeepsAccounts(s, e, s');
  }

  lemma RunKeepsInv(run: seq<State>, k: nat)
    requires IsRun(Init, Next, run) && k < |run|
    ensures Inv(run[k])
  {
    forall s, s' | Inv(s) && Next(s, s') ensures Inv(s') {
      var e :| Step(s, e) == Some(s');
      StepKeepsInv(s, e, s');
    }
    InvariantInRun(Init, Next, Inv, run, k);
  }

  // ---------------------------------------------------------------- theorems

  /** An object that still has to be given back, or whose return has not been counted. */
  function Outstanding(x: Object): int {
    if x.place == Listed || x.place == Cleaned then 0 else 1
  }

  /** Until the pool is destroyed, the private counter equals the outstanding objects plus both lists. */
  lemma CounterIsExact(run: seq<State>, k: nat)
    requires IsRun(Init, Next, run) && k < |run| && run[k].owner == Alive
    ensures run[k].privateCounter == Sum(run[k].objects, Outstanding) + |run[k].priv| + |run[k].pub|
  {
    RunKeepsInv(run, k);
    NotCleanedSplits(run[k].objects);
  }

  lemma {:induction false} NotCleanedSplits(objects: seq<Object>)
    ensures Sum(objects, NotCleaned) == Sum(objects, Outstanding) + Sum(objects, IsListed)
  {
    if objects != [] {
      NotCleanedSplits(objects[..|objects| - 1]);
    }
  }

  /** The actor may still touch the pool. */
  predicate TouchesPool(place: Where) {
    place == Out || place == Returning || place.Try? || place == Count
  }

  /** Somebody has freed the pool, or has made the counter zero and is about to. */
  ghost predicate Ending(s: State) {
    s.poolFrees > 0 || s.owner == Last || exists i :: 0 <= i < |s.objects| && s.objects[i].place == FreePool
  }

  /** Exactly one actor frees the pool, and only when every object has been given back: then no object
      is in use or on its way, the owner is past destroy, and nobody else is about to free the pool. */
  lemma FreedOnceAndLast(run: seq<State>, k: nat)
    requires IsRun(Init, Next, run) && k < |run| && Ending(run[k])
    ensures forall id | 0 <= id < |run[k].objects| ::
              !TouchesPool(run[k].objects[id].place) && run[k].objects[id].place != Listed
    ensures run[k].owner == Last || run[k].owner == Gone
    ensures run[k].poolFrees + Sum(run[k].objects, Frees) + (if run[k].owner == Last then 1 else 0) == 1
  {
    RunKeepsInv(run, k);
    hide Init, Next, IsRun;
    var s := run[k];
    SumNonNegative(s.objects, Frees);
    if i :| 0 <= i < |s.objects| && s.objects[i].place == FreePool {
      SumBounds(s.objects, i, Frees);
    }
    forall id | 0 <= id < |s.objects| ensures !TouchesPool(s.objects[id].place) && s.objects[id].place != Listed {
      CountedBounds(s.objects, id);
      SumBounds(s.objects, id, IsListed);
    }
  }

  /** And it is freed in the end: when the owner has gone and every object is accounted for, once. */
  lemma FreedInTheEnd(run: seq<State>, k: nat)
    requires IsRun(Init, Next, run) && k < |run| && run[k].owner == Gone
    requires forall i | 0 <= i < |run[k].objects| :: run[k].objects[i].place == Done || run[k].objects[i].place == Cleaned
    ensures run[k].poolFrees == 1
  {
    RunKeepsInv(run, k);
    var objects := run[k].objects;
    SumConstant(objects, Frees, 0);
    AllCounted(objects);
  }

  lemma {:induction false} AllCounted(objects: seq<Object>)
    requires forall i | 0 <= i < |objects| :: objects[i].place == Done || objects[i].place == Cleaned
    ensures Sum(objects, Counted) == Sum(objects, NotCleaned)
  {
    if objects != [] {
      AllCounted(objects[..|objects| - 1]);
    }
  }

  /** The assertion in destroy: the private counter is never negative when it is subtracted. */
  lemma CounterNotNegative(run: seq<State>, k: nat)
    requires IsRun(Init, Next, run) && k < |run| && run[k].owner == Subtract
    ensures run[k].privateCounter >= 0
  {
    RunKeepsInv(run, k);
    SumNonNegative(run[k].objects, NotCleaned);
  }

  /** An allocation reuses what has been given back: the first object of the private list, or else the first of
      the public list, whose rest becomes private; a new object is made only when both lists are empty. */
  lemma AllocationReuses(run: seq<State>, k: nat)
    requires IsRun(Init, Next, run) && k < |run| && run[k].owner == Alive
    ensures AllocateStep(run[k]).Some?
    ensures var s, s' := run[k], AllocateStep(run[k]).value;
            if s.priv != [] then
              && s'.priv == s.priv[1..] && s'.pub == s.pub && s'.privateCounter == s.privateCounter
              && s.priv[0] < |s.objects| && s'.objects == s.objects[s.priv[0] := Object(Out, Null)]
            else if s.pub != [] then
              && s'.priv == s.pub[1..] && s'.pub == [] && s'.privateCounter == s.privateCounter
              && s.pub[0] < |s.objects| && s'.objects == s.objects[s.pub[0] := Object(Out, Null)]
            else s'.objects == s.objects + [Object(Out, Null)] && s'.priv == s'.pub == []
  {
    RunKeepsInv(run, k);
    hide Init, Next, IsRun, Accounts;
    var s := run[k];
    assert s.priv != [] ==> LinkOk(s.objects, s.priv, 0);
    assert s.pub != [] ==> LinkOk(s.objects, s.pub, 0);
  }

  /** Nobody waits: a thread giving an object back, and an owner destroying the pool, can always go on. */
  lemma NobodyStuck(run: seq<State>, k: nat, id: nat)
    requires IsRun(Init, Next, run) && k < |run|
    ensures run[k].owner != Alive && run[k].owner != Gone ==> OwnerStep(run[k]).Some?
    ensures run[k].owner == Alive ==> Step(run[k], Destroy).Some? && Step(run[k], Destroy).value.owner == CleanPrivate(0)
    ensures id < |run[k].objects| ==>
              match run[k].objects[id].place
              case Out => Step(run[k], Deallocate(id)).Some? && (run[k].owner == Alive ==> Step(run[k], DeallocateOwn(id)).Some?)
              case Listed => true
              case Cleaned => true
              case Done => true
              case _ => ForeignStep(run[k], id).Some?
  {
    RunKeepsInv(run, k);
    hide Init, Next, IsRun, Accounts;
    var s := run[k];
    assert s.priv != [] ==> LinkOk(s.objects, s.priv, 0);
    assert s.pub != [] ==> LinkOk(s.objects, s.pub, 0);
  }

  /** `n` steps of the thread that gives the object back, with nobody else moving. */
  function Moves(s: State, id: nat, n: nat): Option<State>
    decreases n
  {
    if n == 0 then Some(s) else
    match ForeignStep(s, id)
    case None => None
    case Some(s') => Moves(s', id, n - 1)
  }

  /** Undisturbed, a thread that gives an object back to a living pool has put it in front of the public list after
      two steps and changed nothing else; the owner's next allocation with an empty private list hands it out again
      and takes over the list as it was before. Given back to a dead pool the object is counted instead. */
  lemma ReturnedAndReused(run: seq<State>, k: nat, id: nat)
    requires IsRun(Init, Next, run) && k < |run| && id < |run[k].objects| && run[k].objects[id].place == Returning
    ensures !Dead(run[k].owner) ==>
              && Moves(run[k], id, 2) == Some(Put(run[k], id, Object(Listed, run[k].publicHead))
                                              .(publicHead := Node(id), pub := [id] + run[k].pub))
              && (run[k].owner == Alive && run[k].priv == [] ==>
                    AllocateStep(Moves(run[k], id, 2).value) ==
                    Some(Put(run[k], id, Object(Out, Null)).(publicHead := Null, pub := [],
                                                             privateHead := run[k].publicHead, priv := run[k].pub)))
    ensures Dead(run[k].owner) ==>
              Moves(run[k], id, 3) == Some(Put(run[k], id, Object(if run[k].publicCounter == -1 then FreePool else Done, Null))
                                           .(publicCounter := run[k].publicCounter + 1))
  {
    RunKeepsInv(run, k);
    hide Init, Next, IsRun, Accounts;
    var s := run[k];
    var s1 := Put(s, id, Object(Try(s.publicHead), Null));
    assert ForeignStep(s, id) == Some(s1) && Moves(s, id, 1) == Some(s1);
    if Dead(s.owner) {
      var s2 := Put(s1, id, Object(Count, Null));
      assert ForeignStep(s1, id) == Some(s2) && s2 == Put(s, id, Object(Count, Null));
      var s3 := ForeignStep(s2, id).value;
      assert s3.objects == s.objects[id := s3.objects[id]];
      assert Moves(s2, id, 1) == Some(s3) && Moves(s1, id, 2) == Some(s3);
    } else {
      var s2 := Put(s, id, Object(Listed, s.publicHead)).(publicHead := Node(id), pub := [id] + s.pub);
      assert ForeignStep(s1, id).value.objects == s2.objects;
      assert ForeignStep(s1, id) == Some(s2) && Moves(s1, id, 1) == Some(s2);
      if s.owner == Alive && s.priv == [] {
        var s3 := AllocateStep(s2).value;
        assert s3.objects == s.objects[id := Object(Out, Null)] && Rest(s2.pub) == s.pub;
      }
    }
  }
}

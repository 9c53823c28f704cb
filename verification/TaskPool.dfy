/**
 * The array under a task deque, and the relocation done by `prepare_task_pool` when the array
 * has no room after `tail`: the present entries are moved to the front, either inside the same
 * array (source and destination overlap) or into a larger one.
 */
module TaskPool {

  datatype Task = Task(id: nat, isolation: nat, proxy: bool)

  /** A cell is a null pointer, a task pointer, or a slot that nobody may read (poisoned). */
  datatype Cell = Hole | Item(task: Task) | Junk

  const MIN_TASK_POOL_SIZE := 64
  const MAX_NFS_SIZE := 128
  const WORD_SIZE := 8

  /** Entries that `allocate_task_pool(n)` really provides: whole cache lines. */
  function RoundedCapacity(n: nat): (c: nat)
    ensures n <= c < n + MAX_NFS_SIZE / WORD_SIZE
    ensures c % (MAX_NFS_SIZE / WORD_SIZE) == 0
  {
    (n * WORD_SIZE + MAX_NFS_SIZE - 1) / MAX_NFS_SIZE * MAX_NFS_SIZE / WORD_SIZE
  }

  /** The entries that are not null, in order. */
  function Present(cells: seq<Cell>): (p: seq<Cell>)
    ensures |p| <= |cells|
    ensures forall c | c in p :: c != Hole && c in cells
  {
    if cells == [] then []
    else
      var last := cells[|cells| - 1];
      Present(cells[..|cells| - 1]) + (if last == Hole then [] else [last])
  }

  lemma PresentStep(cells: seq<Cell>, lo: nat, i: nat)
    requires lo <= i < |cells|
    ensures Present(cells[lo..i + 1]) == Present(cells[lo..i]) + (if cells[i] == Hole then [] else [cells[i]])
  {
    var s := cells[lo..i + 1];
    assert s[..|s| - 1] == cells[lo..i] && s[|s| - 1] == cells[i];
  }

  /** Capacity after making room for `n` more entries next to `live` present ones. */
  function GrownCapacity(size: nat, live: nat, n: nat): (c: nat)
    requires size >= MIN_TASK_POOL_SIZE
    ensures live + n <= c && size <= c
    ensures c == size <==> live + n + MIN_TASK_POOL_SIZE / 4 <= size
    ensures c != size ==> 2 * size <= c
    ensures c != size ==> c < 2 * size + MAX_NFS_SIZE / WORD_SIZE || c < live + n + MAX_NFS_SIZE / WORD_SIZE
  {
    var need := live + n;
    if need > size - MIN_TASK_POOL_SIZE / 4
    then RoundedCapacity(if need < 2 * size then 2 * size else need)
    else size
  }

  class ArenaSlot {
    var head: nat
    var tail: nat
    var pool: array<Cell>

    ghost predicate Valid()
      reads this
    {
      && head <= tail <= pool.Length
      && (pool.Length == 0 || pool.Length >= MIN_TASK_POOL_SIZE)
    }

    /** The tasks between the bounds, in order, holes left out. */
    ghost function Contents(): seq<Cell>
      requires Valid()
      reads this, pool
    {
      Present(pool[head..tail])
    }

    constructor ()
      ensures Valid() && fresh(pool) && pool.Length == 0 && Contents() == []
    {
      head, tail := 0, 0;
      pool := new Cell[0];
    }

    /** Makes room for `n` entries at the returned index, which is the (new) tail. */
    method PrepareTaskPool(n: nat) returns (t: nat)
      requires Valid()
      modifies this, pool
      ensures Valid() && (pool == old(pool) || fresh(pool))
      ensures t == tail && t + n <= pool.Length
      ensures Contents() == old(Contents())
      ensures old(tail + n <= pool.Length) ==>
                pool == old(pool) && head == old(head) && tail == old(tail) && pool[..] == old(pool[..])
      ensures old(tail + n > pool.Length) ==>
                head == 0 && tail == |old(Contents())| && pool[..tail] == old(Contents())
      ensures old(tail + n > pool.Length && pool.Length > 0) ==>
                pool.Length == old(GrownCapacity(pool.Length, |Contents()|, n))
      ensures old(tail + n > pool.Length && pool.Length == 0) ==>
                pool.Length == RoundedCapacity(if n < MIN_TASK_POOL_SIZE then MIN_TASK_POOL_SIZE else n)
    {
      if tail + n <= pool.Length {
        return tail;
      }
      if pool.Length == 0 {
        AllocateTaskPool(if n < MIN_TASK_POOL_SIZE then MIN_TASK_POOL_SIZE else n);
        return 0;
      }
      t := Relocate(n);
      PresentOfPresent(old(pool[head..tail]));
      assert pool[0..tail] == pool[..tail];
    }

    /** The slow path: counts the present entries, grows the array when it is nearly full, compacts. */
    method Relocate(n: nat) returns (t1: nat)
      requires Valid() && pool.Length > 0 && tail + n > pool.Length
      modifies this, pool
      ensures pool == old(pool) || fresh(pool)
      ensures head == 0 && tail == t1 == |old(Contents())| && t1 <= pool.Length
      ensures pool.Length == old(GrownCapacity(pool.Length, |Contents()|, n))
      ensures pool[..t1] == old(Contents())
    {
      var H, T := head, tail;
      var source := pool;
      ghost var before := pool[..];
      var live := CountPresent(source, H, T);
      assert before[H..T] == source[H..T];
      var newSize := n + live;
      if newSize > source.Length - MIN_TASK_POOL_SIZE / 4 {
        if newSize < 2 * source.Length {
          newSize := 2 * source.Length;
        }
        AllocateTaskPool(newSize);
      }
      assert source[H..T] == before[H..T];
      t1 := MovePresent(source, H, T);
      head := 0;
      tail := t1;
    }

    static method CountPresent(source: array<Cell>, h: nat, t: nat) returns (live: nat)
      requires h <= t <= source.Length
      ensures live == |Present(source[h..t])|
    {
      live := 0;
      for i := h to t
        invariant live == |Present(source[h..i])|
      {
        PresentStep(source[..], h, i);
        assert source[..][h..i] == source[h..i] && source[..][h..i + 1] == source[h..i + 1];
        if source[i] != Hole {
          live := live + 1;
        }
      }
    }

    method AllocateTaskPool(n: nat)
      modifies this`pool
      ensures fresh(pool) && pool.Length == RoundedCapacity(n)
    {
      var byteSize := (n * WORD_SIZE + MAX_NFS_SIZE - 1) / MAX_NFS_SIZE * MAX_NFS_SIZE;
      pool := new Cell[byteSize / WORD_SIZE];
    }

    /** Copies the present entries of `source[h..t]` to the front of `pool`; the two may be one array. */
    method MovePresent(source: array<Cell>, h: nat, t: nat) returns (t1: nat)
      requires h <= t <= source.Length && t - h <= pool.Length
      modifies pool
      ensures t1 <= t - h && pool[..t1] == Present(old(source[h..t]))
    {
      ghost var before := source[..];
      t1 := 0;
      for i := h to t
        invariant t1 <= i - h
        invariant pool[..t1] == Present(before[h..i])
        invariant forall k | i <= k < source.Length :: source[k] == before[k]
      {
        PresentStep(before, h, i);
        if source[i] != Hole {
          pool[t1] := source[i];
          t1 := t1 + 1;
        }
      }
      assert before[h..t] == old(source[h..t]);
    }
  }

  /** Filtering a sequence without holes changes nothing. */
  lemma {:induction false} PresentWithoutHoles(p: seq<Cell>)
    requires Hole !in p
    ensures Present(p) == p
  {
    if p != [] {
      PresentWithoutHoles(p[..|p| - 1]);
    }
  }

  lemma PresentOfPresent(cells: seq<Cell>)
    ensures Present(Present(cells)) == Present(cells)
  {
    PresentWithoutHoles(Present(cells));
  }
}

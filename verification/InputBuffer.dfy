/**
 * The ring array of a serial filter: tokens are stored at `token & (size - 1)`, and the array grows by
 * doubling when a token is too far ahead.
 */
module InputBuffer {
  import opened Behaviors
  import opened SerialStage

  // ---------------------------------------------------------------- masks

  /** Bitwise conjunction of two unsigned numbers. */
  function And(a: nat, b: nat): nat {
    if a == 0 || b == 0 then 0 else 2 * And(a / 2, b / 2) + if a % 2 == 1 && b % 2 == 1 then 1 else 0
  }

  ghost predicate PowerOfTwo(n: nat) {
    n == 1 || (n > 1 && n % 2 == 0 && PowerOfTwo(n / 2))
  }

  lemma Doubled(n: nat)
    requires PowerOfTwo(n)
    ensures PowerOfTwo(2 * n) && PowerOfTwo(n * 2)
  {
    assert 2 * n / 2 == n && 2 * n == n * 2;
  }

  lemma AndHalves(t: nat, half: nat)
    requires half > 0
    ensures And(t, 0) == 0 && And(t, 2 * half - 1) == 2 * And(t / 2, half - 1) + t % 2
  {
    var mask := 2 * half - 1;
    assert mask / 2 == half - 1 && mask % 2 == 1;
  }

  /** Masking with a power of two minus one is taking the remainder. */
  lemma {:induction false} MaskIsRemainder(t: nat, size: nat)
    requires PowerOfTwo(size)
    ensures And(t, size - 1) == t % size
  {
    hide And;
    if size == 1 {
      AndHalves(t, 1);
    } else {
      var half := size / 2;
      MaskIsRemainder(t / 2, half);
      AndHalves(t, half);
      HalfRemainder(t, half);
      assert size == 2 * half;
    }
  }

  lemma HalfRemainder(t: nat, half: nat)
    requires half > 0
    ensures t % (2 * half) == 2 * (t / 2 % half) + t % 2
  {
    var q, r := t / 2 / half, t / 2 % half;
    assert t / 2 == q * half + r;
    assert t == q * (2 * half) + (2 * r + t % 2);
    RemainderIs(t, 2 * half, q, 2 * r + t % 2);
  }

  lemma NonNegative(a: int, b: int)
    requires a >= 0 && b >= 0
    ensures a * b >= 0
  {
  }

  lemma LargeMultiple(e: int, d: int)
    requires d >= 0
    ensures e == 0 || e * d >= d || e * d <= -d
  {
    if e > 0 {
      NonNegative(e - 1, d);
      assert e * d == d + (e - 1) * d;
    } else if e < 0 {
      NonNegative(-e - 1, d);
      assert e * d == -d - (-e - 1) * d;
    }
  }

  lemma RemainderIs(t: nat, d: nat, q: nat, r: nat)
    requires d > 0 && t == q * d + r && r < d
    ensures t % d == r
  {
    assert (t / d - q) * d == r - t % d;
    LargeMultiple(t / d - q, d);
  }

  /** Tokens of a window no longer than the array lie in different slots. */
  lemma SlotsDiffer(t: nat, u: nat, size: nat)
    requires size > 0 && t < u < t + size
    ensures t % size != u % size
  {
    assert (u / size - t / size) * size == u - t - (u % size - t % size);
    LargeMultiple(u / size - t / size, size);
  }

  /** One window further, the slot is the same. */
  lemma SameSlot(t: nat, size: nat)
    requires size > 0
    ensures (t + size) % size == t % size
  {
    RemainderIs(t + size, size, t / size + 1, t % size);
  }

  // ---------------------------------------------------------------- the ring

  const INITIAL_BUFFER_SIZE := 4

  datatype Slot = Slot(info: Info, valid: bool)

  /** The slot of token `t` says whether, and with what, `t` is parked. */
  ghost predicate SlotOk(slots: seq<Slot>, parked: map<nat, Info>, t: nat)
    requires |slots| > 0
  {
    var slot := slots[t % |slots|];
    (slot.valid <==> t in parked) && (t in parked ==> slot.info == parked[t])
  }

  /** The array holds exactly the parked tokens of the window that starts at `low`, which is not parked. */
  ghost predicate Holds(slots: seq<Slot>, low: nat, parked: map<nat, Info>) {
    && |slots| > 0
    && (forall t: nat | low <= t < low + |slots| :: SlotOk(slots, parked, t))
    && (forall t | t in parked :: low < t < low + |slots|)
  }

  lemma PutHolds(slots: seq<Slot>, low: nat, parked: map<nat, Info>, t: nat, info: Info)
    requires Holds(slots, low, parked) && low < t < low + |slots|
    ensures Holds(slots[t % |slots| := Slot(info, true)], low, parked[t := info])
  {
    var slots', parked' := slots[t % |slots| := Slot(info, true)], parked[t := info];
    forall u: nat | low <= u < low + |slots| ensures SlotOk(slots', parked', u) {
      assert SlotOk(slots, parked, u);
      if u < t { SlotsDiffer(u, t, |slots|); } else if t < u { SlotsDiffer(t, u, |slots|); }
    }
  }

  lemma AdvanceHolds(slots: seq<Slot>, low: nat, parked: map<nat, Info>)
    requires Holds(slots, low, parked)
    ensures var at := (low + 1) % |slots|;
            Holds(slots[at := slots[at].(valid := false)], low + 1, parked - {low + 1})
  {
    var size := |slots|;
    var at := (low + 1) % size;
    var slots', parked' := slots[at := slots[at].(valid := false)], parked - {low + 1};
    SameSlot(low, size);
    assert SlotOk(slots, parked, low);
    forall u: nat | low + 1 <= u < low + 1 + size ensures SlotOk(slots', parked', u) {
      if low + 1 < u { SlotsDiffer(low + 1, u, size); }
      assert u < low + size ==> SlotOk(slots, parked, u);
    }
  }

  class Ring {
    const ordered: bool
    var slots: array<Slot>
    var low: nat
    var high: nat
    ghost var parked: map<nat, Info>

    ghost predicate Valid()
      reads this, slots
    {
      PowerOfTwo(slots.Length) && Holds(slots[..], low, parked)
    }

    ghost function Value(): Buffer
      reads this
    {
      Buffer(ordered, low, high, parked)
    }

    constructor (ordered: bool)
      ensures Valid() && fresh(slots) && slots.Length == INITIAL_BUFFER_SIZE
      ensures Value() == Buffer(ordered, 0, 0, map[])
    {
      this.ordered := ordered;
      slots := new Slot[INITIAL_BUFFER_SIZE](_ => Slot(Info(0, 0, false), false));
      low, high, parked := 0, 0, map[];
    }

    lemma SizeIsPositive()
      requires Valid()
      ensures slots.Length > 0
    {
    }

    /** Stores the item, unless it is its turn; the caller then runs it. */
    method TryPutToken(info: Info) returns (deferred: bool, stamped: Info)
      requires Valid()
      requires TokenOf(Value(), info) >= low && TokenOf(Value(), info) !in parked
      modifies this, slots
      ensures Valid() && (slots == old(slots) || fresh(slots))
      ensures Value() == Put(old(Value()), info)
      ensures deferred <==> TokenOf(old(Value()), info) != old(low)
      ensures stamped == Stamped(old(Value()), info)
      ensures !deferred || TokenOf(old(Value()), info) - low < old(slots.Length) ==> slots == old(slots)
    {
      hide Holds, And, PowerOfTwo;
      SizeIsPositive();
      var token;
      stamped := info;
      if ordered {
        if !info.ready {
          stamped := info.(token := high, ready := true);
          high := high + 1;
        }
        token := stamped.token;
      } else {
        token := high;
        high := high + 1;
      }
      deferred := token != low;
      if deferred {
        if token - low >= slots.Length {
          Grow(token - low + 1);
        }
        SizeIsPositive();
        PutHolds(slots[..], low, parked, token, stamped);
        MaskIsRemainder(token, slots.Length);
        slots[And(token, slots.Length - 1)] := Slot(stamped, true);
        parked := parked[token := stamped];
      }
    }

    /** The turn passes to the next token; if that is parked, it is handed to the caller to be run. */
    method NextToken() returns (wakee: Option<Info>)
      requires Valid()
      modifies this`low, this`parked, slots
      ensures Valid() && Value() == Advance(old(Value()))
      ensures wakee == if low in old(parked) then Some(old(parked)[low]) else None
    {
      AdvanceHolds(slots[..], low, parked);
      MaskIsRemainder(low + 1, slots.Length);
      low := low + 1;
      var i := And(low, slots.Length - 1);
      NextSlot(slots[..], low, parked);
      wakee := if slots[i].valid then Some(slots[i].info) else None;
      slots[i] := slots[i].(valid := false);
      parked := parked - {low};
    }

    /** Doubles the array until `minimum` fits; every parked token keeps its item. */
    method Grow(minimum: nat)
      requires Valid()
      modifies this`slots
      ensures Valid() && fresh(slots) && slots.Length >= minimum && slots.Length >= 2 * old(slots.Length)
    {
      hide Holds, And, PowerOfTwo;
      SizeIsPositive();
      var narrow := slots;
      Doubled(narrow.Length);
      var size, newSize := narrow.Length, 2 * narrow.Length;
      while newSize < minimum
        invariant slots == narrow && newSize >= 2 * size && newSize >= 1 && PowerOfTwo(newSize)
        decreases minimum - newSize
      {
        Doubled(newSize);
        newSize := newSize * 2;
      }
      var wide := new Slot[newSize](_ => Slot(Info(0, 0, false), false));
      var i := 0;
      while i < size
        invariant 0 <= i <= size && slots == narrow && narrow[..] == old(narrow[..])
        invariant forall u: nat | low <= u < low + i :: wide[u % newSize] == narrow[u % size]
        invariant forall u: nat | low + i <= u < low + newSize :: !wide[u % newSize].valid
      {
        MaskIsRemainder(low + i, newSize);
        MaskIsRemainder(low + i, size);
        forall u: nat | low <= u < low + newSize && u != low + i ensures u % newSize != (low + i) % newSize {
          if u < low + i { SlotsDiffer(u, low + i, newSize); } else { SlotsDiffer(low + i, u, newSize); }
        }
        wide[And(low + i, newSize - 1)] := narrow[And(low + i, size - 1)];
        i := i + 1;
      }
      GrownHolds(narrow[..], wide[..], low, parked);
      slots := wide;
    }
  }

  lemma NextSlot(slots: seq<Slot>, low: nat, parked: map<nat, Info>)
    requires low > 0 && Holds(slots, low - 1, parked)
    ensures var slot := slots[low % |slots|];
            (slot.valid <==> low in parked) && (low in parked ==> slot.info == parked[low])
  {
    if |slots| == 1 {
      assert SlotOk(slots, parked, low - 1);
    } else {
      assert SlotOk(slots, parked, low);
    }
  }

  lemma GrownHolds(slots: seq<Slot>, wide: seq<Slot>, low: nat, parked: map<nat, Info>)
    requires Holds(slots, low, parked) && |wide| >= |slots|
    requires forall u: nat | low <= u < low + |slots| :: wide[u % |wide|] == slots[u % |slots|]
    requires forall u: nat | low + |slots| <= u < low + |wide| :: !wide[u % |wide|].valid
    ensures Holds(wide, low, parked)
  {
    forall u: nat | low <= u < low + |wide| ensures SlotOk(wide, parked, u) {
      assert u < low + |slots| ==> SlotOk(slots, parked, u);
    }
  }
}

/**
 * The market: per-client demand, demand per priority level, and the division of workers among the clients
 * of each level by integer division with a running carry.
 */
module Market {
  import opened ArenaDemand

  const NUM_PRIORITY_LEVELS := 3

  function Min(a: int, b: int): int { if a < b then a else b }

  // ---------------------------------------------------------------- arithmetic of the carry

  lemma Product(m: int, a: int, d: int)
    requires 0 <= m && a <= d
    ensures m * a <= m * d && (0 <= a ==> 0 <= m * a)
  {
  }

  lemma SameQuotient(d: int, q: int, r: int, q': int, r': int)
    requires d > 0 && 0 <= r < d && 0 <= r' < d && d * q + r == d * q' + r'
    ensures q == q' && r == r'
  {
    assert d * (q + 1) == d * q + d && d * (q' + 1) == d * q' + d;
    if q < q' {
      Product(d, q + 1, q');
    } else if q' < q {
      Product(d, q' + 1, q);
    }
  }

  lemma DivideCarried(q: int, r: int, d: int)
    requires d > 0
    ensures (d * q + r) / d == q + r / d && (d * q + r) % d == r % d
  {
    var x := d * q + r;
    assert d * (q + r / d) == d * q + d * (r / d);
    SameQuotient(d, q + r / d, r % d, x / d, x % d);
  }

  lemma QuotientAtMost(tmp: int, m: int, d: int)
    requires d > 0 && 0 <= m && 0 <= tmp < m * d + d
    ensures 0 <= tmp / d <= m
  {
    var p := tmp / d;
    assert d * (m + 1) == m * d + d && tmp == d * p + tmp % d;
    if p > m {
      Product(d, m + 1, p);
    } else if p < 0 {
      Product(d, p, -1);
    }
  }

  /** Dividing a sum in two steps, the remainder of the first carried into the second. */
  lemma CarryOver(x: int, y: int, d: int)
    requires d > 0
    ensures (x + y) / d == x / d + (y + x % d) / d && (x + y) % d == (y + x % d) % d
  {
    assert x == d * (x / d) + x % d;
    DivideCarried(x / d, y + x % d, d);
  }

  /** Serving one more client of demand `m` after clients of total demand `served`. */
  lemma ServeOneMore(a: int, served: int, m: int, d: int)
    requires d > 0 && 0 <= a <= d && 0 <= served && 0 <= m
    ensures var tmp := m * a + (a * served) % d;
            && a * (served + m) / d == a * served / d + tmp / d
            && a * (served + m) % d == tmp % d
            && 0 <= tmp / d <= m
  {
    Product(m, a, d);
    assert a * (served + m) == a * served + m * a;
    CarryOver(a * served, m * a, d);
    QuotientAtMost(m * a + (a * served) % d, m, d);
  }

  // ---------------------------------------------------------------- what an allotment has to be

  ghost function Total(s: seq<int>): int {
    if s == [] then 0 else s[0] + Total(s[1..])
  }

  /** Workers for clients of demand `m` at a level of demand `d` that gets `a` workers. */
  ghost function Share(a: int, m: int, d: int): int {
    if d == 0 then 0 else a * m / d
  }

  /** The last clients of the list are served first: for every k, the k served first have together exactly
      the floor of their proportional share, and none has more than its maximum. */
  ghost predicate Proportional(maxes: seq<int>, allots: seq<int>, a: int, d: int) {
    && |maxes| == |allots|
    && (forall i | 0 <= i < |maxes| :: 0 <= allots[i] <= maxes[i])
    && (forall i | 0 <= i <= |maxes| :: Total(allots[i..]) == Share(a, Total(maxes[i..]), d))
  }

  lemma ShareExact(a: int, d: int)
    requires 0 <= a <= d
    ensures Share(a, d, d) == a && Share(d, a, d) == a
  {
    if d > 0 {
      Exact(a, d);
      assert a * d == d * a;
    }
  }

  lemma Exact(a: int, d: int)
    requires d > 0
    ensures d * a / d == a
  {
    DivideCarried(a, 0, d);
    assert d * a + 0 == d * a;
  }

  lemma ProportionalFront(maxes: seq<int>, allots: seq<int>, a: int, d: int, m: int, x: int)
    requires Proportional(maxes, allots, a, d) && 0 <= x <= m
    requires Share(a, m + Total(maxes), d) == x + Share(a, Total(maxes), d)
    ensures Proportional([m] + maxes, [x] + allots, a, d)
  {
    hide Share, Total;
    var ms, xs := [m] + maxes, [x] + allots;
    TotalCons(m, maxes);
    TotalCons(x, allots);
    assert maxes[0..] == maxes && allots[0..] == allots;
    assert ms[1..] == maxes && xs[1..] == allots;
    assert ms[0..] == ms && xs[0..] == xs;
    forall i | 0 < i <= |ms|
      ensures Total(xs[i..]) == Share(a, Total(ms[i..]), d)
    {
      assert ms[i..] == maxes[i - 1..] && xs[i..] == allots[i - 1..];
    }
  }

  lemma TotalCons(x: int, s: seq<int>)
    ensures Total([x] + s) == x + Total(s)
  {
    assert ([x] + s)[1..] == s;
  }

  lemma {:induction false} TotalNonNegative(s: seq<int>)
    requires forall i | 0 <= i < |s| :: s[i] >= 0
    ensures Total(s) >= 0 && forall i | 0 <= i < |s| :: s[i] <= Total(s)
  {
    if s != [] {
      TotalNonNegative(s[1..]);
      assert forall i | 0 < i < |s| :: s[i] == s[1..][i - 1];
    }
  }

  /** A level served in full proportion uses exactly its workers. */
  lemma ProportionalTotal(maxes: seq<int>, allots: seq<int>, a: int)
    requires Proportional(maxes, allots, a, Total(maxes)) && 0 <= a <= Total(maxes)
    ensures Total(allots) == a
  {
    assert maxes[0..] == maxes && allots[0..] == allots;
    ShareExact(a, Total(maxes));
    hide Share;
  }

  /** A level with enough workers gives every client its maximum. */
  lemma ProportionalFull(maxes: seq<int>, allots: seq<int>, i: nat)
    requires Proportional(maxes, allots, Total(maxes), Total(maxes)) && i < |maxes|
    requires forall j | 0 <= j < |maxes| :: maxes[j] >= 0
    ensures allots[i] == maxes[i]
  {
    TailTotal(maxes, i);
    TailTotal(maxes, i + 1);
    ShareExact(Total(maxes[i..]), Total(maxes));
    ShareExact(Total(maxes[i + 1..]), Total(maxes));
    hide Share;
    assert maxes[i..][1..] == maxes[i + 1..] && allots[i..][1..] == allots[i + 1..];
  }

  lemma {:induction false} TailTotal(s: seq<int>, i: nat)
    requires i <= |s| && forall j | 0 <= j < |s| :: s[j] >= 0
    ensures 0 <= Total(s[i..]) <= Total(s)
  {
    if i == 0 {
      assert s[0..] == s;
      TotalNonNegative(s);
    } else {
      TailTotal(s[1..], i - 1);
      assert s[1..][i - 1..] == s[i..];
    }
  }

  // ---------------------------------------------------------------- clients

  class Client {
    const level: nat
    const arenaWorkers: nat
    var mandatoryRequests: int
    var totalRequested: int
    var minWorkers: int
    var maxWorkers: int
    var allotment: int
    var topPriority: bool

    constructor (level: nat, arenaWorkers: nat)
      requires level < NUM_PRIORITY_LEVELS
      ensures this.level == level && this.arenaWorkers == arenaWorkers
      ensures mandatoryRequests == totalRequested == minWorkers == maxWorkers == allotment == 0 && !topPriority
    {
      this.level, this.arenaWorkers := level, arenaWorkers;
      mandatoryRequests, totalRequested, minWorkers, maxWorkers := 0, 0, 0, 0;
      allotment, topPriority := 0, false;
    }

    /** The bounds follow from the arena's counters. */
    ghost predicate Consistent()
      reads this
    {
      && minWorkers == MinRequest(mandatoryRequests)
      && maxWorkers == MaxRequest(mandatoryRequests, totalRequested, arenaWorkers)
    }

    /** The allotment and, for a client that asks for workers, whether its level is the top one. */
    method SetAllotment(allotted: int, listIndex: nat, top: nat) returns (top': nat)
      modifies this`allotment, this`topPriority
      ensures allotment == allotted
      ensures top' == if maxWorkers != 0 && top == NUM_PRIORITY_LEVELS then listIndex else top
      ensures topPriority == if maxWorkers != 0 then listIndex == top' else old(topPriority)
    {
      allotment := allotted;
      top' := top;
      if maxWorkers != 0 {
        if top == NUM_PRIORITY_LEVELS {
          top' := listIndex;
        }
        topPriority := listIndex == top';
      }
    }

    /** pm_client::update_request: by how much the maximum has changed. */
    method UpdateRequest(mandatoryDelta: int, workersDelta: int) returns (delta: int)
      requires -1 <= mandatoryDelta <= 1
      modifies this`mandatoryRequests, this`totalRequested, this`minWorkers, this`maxWorkers
      ensures Consistent() && delta == maxWorkers - old(maxWorkers)
      ensures mandatoryRequests == old(mandatoryRequests) + mandatoryDelta
      ensures totalRequested == old(totalRequested) + workersDelta
    {
      mandatoryRequests := mandatoryRequests + mandatoryDelta;
      totalRequested := totalRequested + workersDelta;
      var max := MaxRequest(mandatoryRequests, totalRequested, arenaWorkers);
      delta := max - maxWorkers;
      minWorkers := MinRequest(mandatoryRequests);
      maxWorkers := max;
    }
  }

  predicate Distinct(cs: seq<Client>) {
    forall i, j | 0 <= i < j < |cs| :: cs[i] != cs[j]
  }

  /** With soft limit 0 one worker goes to the first client served that has a mandatory request and a
      maximum above 0, as long as fewer than `target` are assigned. */
  ghost predicate MandatoryFirst(maxes: seq<int>, mins: seq<int>, allots: seq<int>, before: int, target: int) {
    && |maxes| == |mins| == |allots|
    && forall i | 0 <= i < |maxes| ::
         allots[i] == if maxes[i] > 0 && mins[i] > 0 && before + Total(allots[i + 1..]) < target then 1 else 0
  }

  lemma MandatoryFront(maxes: seq<int>, mins: seq<int>, allots: seq<int>, before: int, target: int, i: nat, x: int)
    requires |maxes| == |mins| && i < |maxes| && MandatoryFirst(maxes[i + 1..], mins[i + 1..], allots, before, target)
    requires x == if maxes[i] > 0 && mins[i] > 0 && before + Total(allots) < target then 1 else 0
    ensures MandatoryFirst(maxes[i..], mins[i..], [x] + allots, before, target)
  {
    var xs := [x] + allots;
    forall j | 0 <= j < |xs|
      ensures xs[j] == if maxes[i..][j] > 0 && mins[i..][j] > 0 && before + Total(xs[j + 1..]) < target then 1 else 0
    {
      if j == 0 {
        assert xs[1..] == allots;
      } else {
        assert xs[j + 1..] == allots[j..];
        assert maxes[i..][j] == maxes[i + 1..][j - 1] && mins[i..][j] == mins[i + 1..][j - 1];
      }
    }
  }

  ghost function Carry(softLimit: nat, a: int, served: int, d: int): int {
    if softLimit > 0 && d > 0 then a * served % d else 0
  }

  /** The state of the inner loop when the clients from index `i` on are served. */
  ghost predicate Served(ms: seq<int>, ns: seq<int>, i: nat, allots: seq<int>,
                         softLimit: nat, a: int, d: int, before: int, target: int, carry: int)
  {
    && |ms| == |ns| && i <= |ms| && |allots| == |ms| - i
    && (softLimit > 0 ==> Proportional(ms[i..], allots, a, d))
    && (softLimit == 0 ==> MandatoryFirst(ms[i..], ns[i..], allots, before, target))
    && carry == Carry(softLimit, a, Total(ms[i..]), d)
  }

  lemma NoCarry(a: int, x: int, y: int, d: int)
    ensures Carry(0, a, x, d) == Carry(0, a, y, d)
  {
  }

  lemma CarryStep(softLimit: nat, a: int, served: int, m: int, d: int)
    requires softLimit > 0 && d > 0 && 0 <= a <= d && 0 <= served && 0 <= m
    ensures var tmp := m * a + Carry(softLimit, a, served, d);
            && tmp % d == Carry(softLimit, a, m + served, d)
            && Share(a, m + served, d) == tmp / d + Share(a, served, d)
            && 0 <= tmp / d <= m
  {
    ServeOneMore(a, served, m, d);
    assert m + served == served + m;
  }

  /** One client of a level: its allotment and the carry for the next. */
  method ServeClient(m: int, n: int, softLimit: nat, a: int, d: int, before: int, target: int, given: int, carry: int,
                     ghost ms: seq<int>, ghost ns: seq<int>, ghost i: nat, ghost allots: seq<int>)
    returns (allotted: int, carry': int)
    requires i < |ms| && Served(ms, ns, i + 1, allots, softLimit, a, d, before, target, carry)
    requires m == ms[i] && n == ns[i] && 0 <= m <= d && 0 <= a <= d && 0 <= Total(ms[i + 1..])
    requires given == before + Total(allots)
    ensures Served(ms, ns, i, [allotted] + allots, softLimit, a, d, before, target, carry')
    ensures m == 0 ==> allotted == 0
  {
    hide Share, Carry, Total, Proportional, MandatoryFirst;
    ghost var rest := ms[i + 1..];
    assert ms[i..] == [m] + rest && ns[i..] == [n] + ns[i + 1..];
    SuffixStep(ms, i);
    allotted, carry' := 0, carry;
    if m == 0 {
    } else if softLimit == 0 {
      allotted := if n > 0 && given < target then 1 else 0;
    } else {
      var tmp := m * a + carry;
      allotted := tmp / d;
      carry' := tmp % d;
      CarryStep(softLimit, a, Total(rest), m, d);
    }
    NoCarry(a, Total(ms[i..]), Total(rest), d);
    if softLimit == 0 {
      MandatoryFront(ms, ns, allots, before, target, i, allotted);
    } else {
      ProportionalFront(rest, allots, a, d, m, allotted);
    }
  }

  /** The inner loop of update_allotment: the clients of one level, the last one first. */
  method ServeLevel(cs: seq<Client>, level: nat, a: int, d: int, softLimit: nat, target: int,
                    before: int, carry0: int, top0: nat, ghost ms: seq<int>, ghost ns: seq<int>)
    returns (given: int, carry: int, top: nat, ghost allots: seq<int>, ghost marks: seq<bool>)
    requires Distinct(cs) && d == Total(ms) && 0 <= a <= d && carry0 == 0
    requires |ms| == |ns| == |cs| && forall i | 0 <= i < |cs| :: cs[i].maxWorkers == ms[i] >= 0 && cs[i].minWorkers == ns[i]
    requires level < NUM_PRIORITY_LEVELS && (top0 == NUM_PRIORITY_LEVELS || top0 < level)
    modifies (set c | c in cs)`allotment, (set c | c in cs)`topPriority
    ensures |allots| == |cs| && forall i | 0 <= i < |cs| :: cs[i].allotment == allots[i]
    ensures LevelAllotted(ms, ns, allots, softLimit, a, d, before, target)
    ensures given == before + Total(allots) && carry == 0
    ensures top == if top0 == NUM_PRIORITY_LEVELS && d > 0 then level else top0
    ensures |marks| == |cs| && forall i | 0 <= i < |cs| :: cs[i].topPriority == marks[i]
    ensures Marked(ms, marks, top0 == NUM_PRIORITY_LEVELS)
  {
    hide Served, Total, LevelAllotted;
    given, carry, top := before, carry0, top0;
    allots := seq(|cs|, _ => 0);
    StartServing(ms, ns, softLimit, a, d, before, target);
    DemandIsLarge(ms);
    var i := |cs|;
    assert allots[i..] == [] && ms[i..] == [] && ms[0..] == ms;
    while i > 0
      invariant 0 <= i <= |cs| == |allots|
      invariant forall j | i <= j < |cs| :: cs[j].allotment == allots[j]
      invariant given == before + Total(allots[i..])
      invariant Served(ms, ns, i, allots[i..], softLimit, a, d, before, target, carry)
      invariant top == if top0 == NUM_PRIORITY_LEVELS && Total(ms[i..]) > 0 then level else top0
      invariant forall j | i <= j < |cs| && cs[j].maxWorkers > 0 :: cs[j].topPriority == (top0 == NUM_PRIORITY_LEVELS)
    {
      i := i - 1;
      var c := cs[i];
      var allotted;
      allotted, carry := ServeClient(c.maxWorkers, c.minWorkers, softLimit, a, d, before, target, given, carry,
                                     ms, ns, i, allots[i + 1..]);
      top := c.SetAllotment(allotted, level, top);
      given := given + allotted;
      SuffixStep(ms, i);
      SuffixUpdate(allots, i, allotted);
      allots := allots[i := allotted];
    }
    assert allots[0..] == allots;
    FinishServing(ms, ns, allots, softLimit, a, d, before, target, carry);
    marks := seq(|cs|, j requires 0 <= j < |cs| reads cs => cs[j].topPriority);
  }

  /** Clients that ask for workers are marked as top priority, or none is. */
  ghost predicate Marked(ms: seq<int>, marks: seq<bool>, top: bool) {
    |marks| == |ms| && forall i | 0 <= i < |ms| && ms[i] > 0 :: marks[i] == top
  }

  /** The allotment of one level: `a` of its demand `d` are granted, `before` workers went to levels above. */
  ghost predicate LevelAllotted(ms: seq<int>, ns: seq<int>, allots: seq<int>,
                                softLimit: nat, a: int, d: int, before: int, w: int)
  {
    && |ms| == |ns| == |allots|
    && (softLimit > 0 ==> Proportional(ms, allots, a, d))
    && (softLimit == 0 ==> MandatoryFirst(ms, ns, allots, before, w))
  }

  lemma SuffixStep(s: seq<int>, i: nat)
    requires i < |s|
    ensures Total(s[i..]) == s[i] + Total(s[i + 1..])
  {
    assert s[i..][1..] == s[i + 1..];
  }

  lemma SuffixUpdate(s: seq<int>, i: nat, x: int)
    requires i < |s|
    ensures s[i := x][i..] == [x] + s[i + 1..] && Total([x] + s[i + 1..]) == x + Total(s[i + 1..])
  {
    assert ([x] + s[i + 1..])[1..] == s[i + 1..];
  }

  lemma StartServing(ms: seq<int>, ns: seq<int>, softLimit: nat, a: int, d: int, before: int, target: int)
    requires |ms| == |ns|
    ensures Served(ms, ns, |ms|, [], softLimit, a, d, before, target, 0) && Total([]) == 0
  {
    assert ms[|ms|..] == [] && ns[|ns|..] == [];
  }

  lemma FinishServing(ms: seq<int>, ns: seq<int>, allots: seq<int>,
                      softLimit: nat, a: int, d: int, before: int, target: int, carry: int)
    requires Served(ms, ns, 0, allots, softLimit, a, d, before, target, carry) && d == Total(ms) && 0 <= a <= d
    ensures LevelAllotted(ms, ns, allots, softLimit, a, d, before, target) && carry == 0
  {
    assert ms[0..] == ms && ns[0..] == ns;
    if d > 0 { DivideCarried(a, 0, d); }
  }

  lemma DemandIsLarge(ms: seq<int>)
    requires forall i | 0 <= i < |ms| :: ms[i] >= 0
    ensures forall i | 0 <= i < |ms| :: ms[i] <= Total(ms)
    ensures forall i | 0 <= i <= |ms| :: 0 <= Total(ms[i..]) <= Total(ms)
  {
    TotalNonNegative(ms);
    forall i | 0 <= i <= |ms|
      ensures 0 <= Total(ms[i..]) <= Total(ms)
    {
      TailTotal(ms, i);
    }
  }

  // ---------------------------------------------------------------- the market

  /** Workers that level `l` gets out of `w` when every level above it is served first. */
  ghost function LevelWorkers(demand: seq<int>, w: int, l: nat): int
    requires l < |demand|
  {
    Min(demand[l], Remaining(demand, w, l))
  }

  /** What is left of `w` workers below the first `l` levels. */
  ghost function Remaining(demand: seq<int>, w: int, l: nat): int
    requires l <= |demand|
  {
    var left := w - Total(demand[..l]);
    if left <= 0 then 0 else left
  }

  function Target(totalDemand: int, softLimit: nat, mandatory: int): int {
    Min(totalDemand, if mandatory > 0 && softLimit == 0 then 1 else softLimit)
  }

  /** Bounds, allotments, mandatory requests and marks of the clients of one level, in the order of their
      registration. */
  datatype Level = Level(maxes: seq<int>, mins: seq<int>, allots: seq<int>, mandatory: seq<int>, marks: seq<bool>)

  /** The same clients with the same requests; allotments and marks may differ. */
  ghost predicate SameRequests(levels: seq<Level>, levels': seq<Level>) {
    && |levels| == |levels'|
    && forall l | 0 <= l < |levels| ::
         levels'[l] == levels[l].(allots := levels'[l].allots, marks := levels'[l].marks)
  }

  predicate LevelSize(v: Level, n: nat) {
    |v.maxes| == |v.mins| == |v.allots| == |v.mandatory| == n && |v.marks| == n
  }

  /** `v` shows the client at place `i` as it is. */
  ghost predicate ClientShown(c: Client, v: Level, i: nat)
    requires LevelSize(v, |v.maxes|) && i < |v.maxes|
    reads c
  {
    && c.minWorkers == v.mins[i] && c.maxWorkers == v.maxes[i] && c.allotment == v.allots[i]
    && c.mandatoryRequests == v.mandatory[i] && c.topPriority == v.marks[i]
  }

  const NO_CLIENTS := Level([], [], [], [], [])

  /** No level above `l` asks for workers. */
  ghost predicate NoDemandAbove(demand: seq<int>, l: nat)
    requires l <= |demand|
  {
    forall j | 0 <= j < l :: demand[j] == 0
  }

  /** In the first `n` levels a client with demand is marked if and only if its level is the highest with
      demand. */
  ghost predicate TopMarked(levels: seq<Level>, demand: seq<int>, n: nat)
    requires n <= |levels| == |demand|
  {
    forall l | 0 <= l < n :: Marked(levels[l].maxes, levels[l].marks, NoDemandAbove(demand, l))
  }

  /** Mandatory requests of the clients of the first `n` levels. */
  ghost function MandatoryTotal(levels: seq<Level>, n: nat): int
    requires n <= |levels|
  {
    if n == 0 then 0 else MandatoryTotal(levels, n - 1) + Total(levels[n - 1].mandatory)
  }

  ghost function AssignedAbove(levels: seq<Level>, l: nat): int
    requires l <= |levels|
  {
    if l == 0 then 0 else AssignedAbove(levels, l - 1) + Total(levels[l - 1].allots)
  }

  /** What update_allotment has to leave behind for target `w`. */
  ghost predicate AllLevelsAllotted(levels: seq<Level>, demand: seq<int>, softLimit: nat, w: int, n: nat)
    requires n <= |levels| == |demand|
  {
    forall l | 0 <= l < n ::
      LevelAllotted(levels[l].maxes, levels[l].mins, levels[l].allots, softLimit,
                    LevelWorkers(demand, w, l), demand[l], AssignedAbove(levels, l), w)
  }

  class Market {
    var softLimit: nat
    var totalDemand: int
    var levelDemand: seq<int>
    var mandatoryRequested: int
    var clients: seq<seq<Client>>
    ghost var levels: seq<Level>      // the clients' bounds and allotments
    ghost var issued: int             // sum of all changes of demand handed to the thread dispatcher

    ghost function Members(): set<Client>
      reads this
    {
      set l, c | 0 <= l < |clients| && c in clients[l] :: c
    }

    /** Every client is in the list of its level, once. */
    ghost predicate Structure()
      reads this
    {
      && |clients| == |levelDemand| == |levels| == NUM_PRIORITY_LEVELS
      && (forall l | 0 <= l < NUM_PRIORITY_LEVELS :: Distinct(clients[l]))
      && (forall l, i | 0 <= l < NUM_PRIORITY_LEVELS && 0 <= i < |clients[l]| :: clients[l][i].level == l)
    }

    /** `levels` shows the clients as they are, and their bounds follow from their requests. */
    ghost predicate Shown(l: nat)
      requires l < |clients| && l < |levels|
      reads this, if l < |clients| then set c | c in clients[l] else {}
    {
      && LevelSize(levels[l], |clients[l]|)
      && forall i | 0 <= i < |clients[l]| :: ClientShown(clients[l][i], levels[l], i) && clients[l][i].Consistent()
    }

    /** The totals are the sums they stand for. */
    ghost predicate Balanced()
      requires Structure()
      reads this
    {
      && (forall l | 0 <= l < NUM_PRIORITY_LEVELS :: levelDemand[l] == Total(levels[l].maxes))
      && totalDemand == Total(levelDemand) == issued
      && mandatoryRequested == MandatoryTotal(levels, NUM_PRIORITY_LEVELS)
    }

    ghost predicate Valid()
      reads this, Members()
    {
      && Structure()
      && (forall l | 0 <= l < NUM_PRIORITY_LEVELS :: Shown(l))
      && Balanced()
    }

    ghost predicate Allotted()
      requires Structure()
      reads this
    {
      && AllLevelsAllotted(levels, levelDemand, softLimit, Target(totalDemand, softLimit, mandatoryRequested),
                           NUM_PRIORITY_LEVELS)
      && TopMarked(levels, levelDemand, NUM_PRIORITY_LEVELS)
    }

    constructor (softLimit: nat)
      ensures Valid() && Allotted() && Members() == {} && this.softLimit == softLimit
      ensures clients == [[], [], []] && totalDemand == mandatoryRequested == 0
    {
      this.softLimit, totalDemand, mandatoryRequested, issued := softLimit, 0, 0, 0;
      levelDemand := [0, 0, 0];
      clients := [[], [], []];
      levels := [NO_CLIENTS, NO_CLIENTS, NO_CLIENTS];
      new;
      hide Total, MandatoryTotal, AllLevelsAllotted, TopMarked;
      NothingAllotted(softLimit);
    }

    /** The outer loop: the levels in order of priority, the rest of the workers handed down. */
    method UpdateAllotment()
      requires Valid()
      modifies this`levels, Members()`allotment, Members()`topPriority
      ensures Valid() && Allotted() && SameRequests(old(levels), levels)
    {
      var effective := if mandatoryRequested > 0 && softLimit == 0 then 1 else softLimit;
      var maxWorkers := Min(totalDemand, effective);
      var unassigned := maxWorkers;
      var given, carry := 0, 0;
      var top: nat := NUM_PRIORITY_LEVELS;
      DemandNonNegative();
      LevelStart(levels, levelDemand, softLimit, maxWorkers);
      hide Total, MandatoryTotal, LevelAllotted, Marked, Progress, AllLevelsAllotted, TopMarked, Distinct, Shown, Balanced;
      for l := 0 to NUM_PRIORITY_LEVELS
        invariant Valid()
        invariant SameRequests(old(levels), levels)
        invariant carry == 0 && (top == NUM_PRIORITY_LEVELS || top < l)
        invariant Progress(levels, levelDemand, softLimit, maxWorkers, l, unassigned, given, top)
      {
        unassigned, given, carry, top := ServeNext(l, maxWorkers, unassigned, given, carry, top);
      }
      ProgressDone(levels, levelDemand, softLimit, maxWorkers, NUM_PRIORITY_LEVELS, unassigned, given, top);
    }

    /** Gives level `l` what it gets of the workers that are left and serves its clients. */
    method ServeNext(l: nat, w: int, unassigned: int, given: int, carry: int, top: nat)
      returns (unassigned': int, given': int, carry': int, top': nat)
      requires Valid() && l < NUM_PRIORITY_LEVELS && carry == 0 && (top == NUM_PRIORITY_LEVELS || top < l)
      requires Progress(levels, levelDemand, softLimit, w, l, unassigned, given, top)
      modifies this`levels, Members()`allotment, Members()`topPriority
      ensures Valid() && SameRequests(old(levels), levels)
      ensures carry' == 0 && (top' == NUM_PRIORITY_LEVELS || top' <= l)
      ensures Progress(levels, levelDemand, softLimit, w, l + 1, unassigned', given', top')
    {
      hide Total, LevelAllotted, Marked, Progress, Valid, Members, SameRequests, Min;
      DemandNonNegative();
      ProgressBounds(levels, levelDemand, softLimit, w, l, unassigned, given, top);
      var a := Min(levelDemand[l], unassigned);
      ghost var allots, marks;
      given', carry', top', allots, marks := ServeLevelOf(l, a, w, given, carry, top);
      ProgressStep(old(levels), levelDemand, softLimit, w, l, unassigned, given, top, allots, marks);
      SameRequestsAfter(old(levels), l, allots, marks);
      unassigned' := unassigned - a;
    }

    /** Serves the clients of level `l`; the others are not touched. */
    method ServeLevelOf(l: nat, a: int, w: int, before: int, carry0: int, top0: nat)
      returns (given: int, carry: int, top: nat, ghost allots: seq<int>, ghost marks: seq<bool>)
      requires Valid() && l < NUM_PRIORITY_LEVELS && 0 <= a <= levelDemand[l] && carry0 == 0
      requires top0 == NUM_PRIORITY_LEVELS || top0 < l
      modifies this`levels, Members()`allotment, Members()`topPriority
      ensures Valid() && levels == old(levels)[l := old(levels)[l].(allots := allots, marks := marks)]
      ensures Marked(levels[l].maxes, marks, top0 == NUM_PRIORITY_LEVELS)
      ensures LevelAllotted(levels[l].maxes, levels[l].mins, allots, softLimit, a, levelDemand[l], before, w)
      ensures given == before + Total(allots) && carry == 0
      ensures top == if top0 == NUM_PRIORITY_LEVELS && levelDemand[l] > 0 then l else top0
    {
      hide Total, LevelAllotted, Marked;
      RequestsShown(l);
      given, carry, top, allots, marks :=
        ServeLevel(clients[l], l, a, levelDemand[l], softLimit, w, before, carry0, top0, levels[l].maxes, levels[l].mins);
      MandatoryUpdate(levels, l, levels[l].(allots := allots, marks := marks), NUM_PRIORITY_LEVELS);
      levels := levels[l := levels[l].(allots := allots, marks := marks)];
      forall j | 0 <= j < NUM_PRIORITY_LEVELS
        ensures Shown(j)
      {
        assert old(Shown(j));
        forall i | 0 <= i < |clients[j]| && j != l
          ensures clients[j][i].allotment == old(clients[j][i].allotment)
          ensures clients[j][i].topPriority == old(clients[j][i].topPriority)
        {
          assert clients[j][i] !in clients[l];
        }
      }
    }

    /** A new client, which has not asked for anything yet, goes to the end of the list of its level. */
    method RegisterClient(c: Client)
      requires Valid() && Allotted()
      requires c.level < NUM_PRIORITY_LEVELS && c !in clients[c.level]
      requires c.Consistent() && c.mandatoryRequests == 0 && c.maxWorkers == 0 && c.allotment == 0
      modifies this`clients, this`levels
      ensures clients == old(clients)[c.level := old(clients)[c.level] + [c]]
      ensures Valid() && Allotted()
    {
      hide Total, LevelAllotted, LevelWorkers, AssignedAbove, AllLevelsAllotted, MandatoryTotal;
      var l := c.level;
      ghost var v := levels[l];
      clients := clients[l := clients[l] + [c]];
      levels := levels[l := LevelWith(v, c.minWorkers, c.topPriority)];
      TotalSnoc(v.mandatory, 0);
      MandatoryUpdate(old(levels), l, levels[l], NUM_PRIORITY_LEVELS);
      TotalSnoc(v.maxes, 0);
      TotalSnoc(v.allots, 0);
      forall j | 0 <= j < NUM_PRIORITY_LEVELS
        ensures Shown(j)
      {
        assert old(Shown(j));
      }
      ClientAdded(old(levels), levels, levelDemand, softLimit,
                  Target(totalDemand, softLimit, mandatoryRequested), l, c.minWorkers, c.topPriority);
    }

    /** std::find on the list of a level. */
    method Find(l: nat, c: Client) returns (i: nat)
      requires l < |clients| && c in clients[l]
      ensures i < |clients[l]| && clients[l][i] == c
    {
      i := 0;
      while clients[l][i] != c
        invariant i < |clients[l]| && c !in clients[l][..i]
        decreases |clients[l]| - i
      {
        i := i + 1;
      }
    }

    /** A client leaves. The totals stay right exactly when it has neither demand nor mandatory requests. */
    method UnregisterClient(c: Client)
      requires Valid() && c.level < NUM_PRIORITY_LEVELS && c in clients[c.level]
      modifies this`clients, this`levels
      ensures Structure() && (forall l | 0 <= l < NUM_PRIORITY_LEVELS :: Shown(l)) && c !in clients[c.level]
      ensures exists i | 0 <= i < |old(clients)[c.level]| :: old(clients)[c.level][i] == c
                && clients == old(clients)[c.level := Without(old(clients)[c.level], i)]
      ensures Balanced() <==> c.maxWorkers == 0 && c.mandatoryRequests == 0
      ensures old(Allotted()) && c.maxWorkers == 0 ==> Allotted()
    {
      hide Total, LevelAllotted, LevelWorkers, AssignedAbove, AllLevelsAllotted, MandatoryTotal;
      var l := c.level;
      var i := Find(l, c);
      assert Shown(l);
      RemoveAt(l, i);
      ghost var v := old(levels)[l];
      TotalWithout(v.maxes, i);
      TotalWithout(v.mandatory, i);
      MandatoryUpdate(old(levels), l, levels[l], NUM_PRIORITY_LEVELS);
      if c.maxWorkers == 0 && old(Allotted()) {
        ClientRemoved(old(levels), levelDemand, softLimit, Target(totalDemand, softLimit, mandatoryRequested), l, i);
      }
    }

    /** Takes the i-th client out of the list of level `l`. */
    method RemoveAt(l: nat, i: nat)
      requires Valid() && l < NUM_PRIORITY_LEVELS && i < |clients[l]|
      requires LevelSize(levels[l], |clients[l]|)
      modifies this`clients, this`levels
      ensures Structure() && (forall l | 0 <= l < NUM_PRIORITY_LEVELS :: Shown(l)) && old(clients)[l][i] !in clients[l]
      ensures clients == old(clients)[l := Without(old(clients)[l], i)]
      ensures levels == old(levels)[l := LevelWithout(old(levels)[l], i)]
    {
      hide Total, MandatoryTotal, Balanced, ClientShown;
      clients := clients[l := Without(clients[l], i)];
      levels := levels[l := LevelWithout(levels[l], i)];
      forall j | 0 <= j < NUM_PRIORITY_LEVELS
        ensures Shown(j)
      {
        assert old(Shown(j));
        forall k | 0 <= k < |clients[j]| && j == l
          ensures ClientShown(clients[j][k], levels[j], k)
        {
          StillShown(clients[j][k], old(levels)[l], i, k);
        }
      }
    }

    /** A change of the soft limit divides the workers anew. */
    method SetActiveNumWorkers(limit: nat)
      requires Valid() && Allotted()
      modifies this`softLimit, this`levels, Members()`allotment, Members()`topPriority
      ensures Valid() && Allotted() && softLimit == limit
    {
      if softLimit != limit {
        softLimit := limit;
        assert forall l | 0 <= l < NUM_PRIORITY_LEVELS :: old(Shown(l)) ==> Shown(l);
        UpdateAllotment();
      }
    }

    /** A client's request changes; its place is `i` in the list of its level. */
    method UpdateClient(c: Client, mandatoryDelta: int, workersDelta: int, ghost i: nat) returns (delta: int)
      requires Valid() && -1 <= mandatoryDelta <= 1 && c.level < NUM_PRIORITY_LEVELS
      requires i < |clients[c.level]| && clients[c.level][i] == c
      requires LevelSize(levels[c.level], |clients[c.level]|)
      modifies this`levels, c`mandatoryRequests, c`totalRequested, c`minWorkers, c`maxWorkers
      ensures Structure() && (forall l | 0 <= l < NUM_PRIORITY_LEVELS :: Shown(l))
      ensures delta == c.maxWorkers - old(c.maxWorkers) && old(c.maxWorkers) == old(levels)[c.level].maxes[i]
      ensures c.mandatoryRequests == old(c.mandatoryRequests) + mandatoryDelta
      ensures c.totalRequested == old(c.totalRequested) + workersDelta
      ensures old(c.mandatoryRequests) == old(levels)[c.level].mandatory[i]
      ensures levels == old(levels)[c.level := LevelChanged(old(levels)[c.level], i, c.maxWorkers, c.minWorkers, c.mandatoryRequests)]
    {
      hide Total, Balanced;
      var l := c.level;
      assert Shown(l);
      ghost var v := levels[l];
      delta := c.UpdateRequest(mandatoryDelta, workersDelta);
      levels := levels[l := LevelChanged(v, i, c.maxWorkers, c.minWorkers, c.mandatoryRequests)];
      forall j | 0 <= j < NUM_PRIORITY_LEVELS
        ensures Shown(j)
      {
        assert old(Shown(j));
        assert forall k | 0 <= k < |clients[j]| && (j != l || k != i) :: clients[j][k] != c;
      }
    }

    /** A client's request changes and the totals follow. */
    method RecordRequest(c: Client, mandatoryDelta: int, workersDelta: int) returns (delta: int)
      requires Valid() && -1 <= mandatoryDelta <= 1 && c.level < NUM_PRIORITY_LEVELS && c in clients[c.level]
      modifies this`totalDemand, this`levelDemand, this`mandatoryRequested, this`levels, this`issued,
               c`mandatoryRequests, c`totalRequested, c`minWorkers, c`maxWorkers
      ensures Valid() && delta == c.maxWorkers - old(c.maxWorkers)
      ensures c.mandatoryRequests == old(c.mandatoryRequests) + mandatoryDelta
      ensures c.totalRequested == old(c.totalRequested) + workersDelta
      ensures totalDemand == old(totalDemand) + delta && issued == old(issued) + delta
      ensures levelDemand == old(levelDemand)[c.level := old(levelDemand)[c.level] + delta]
      ensures mandatoryRequested == old(mandatoryRequested) + mandatoryDelta
    {
      hide Total, MandatoryTotal;
      var l := c.level;
      ghost var i :| 0 <= i < |clients[l]| && clients[l][i] == c;
      assert Shown(l);
      ghost var v := levels[l];
      delta := UpdateClient(c, mandatoryDelta, workersDelta, i);
      label updated:
      totalDemand := totalDemand + delta;
      levelDemand := levelDemand[l := levelDemand[l] + delta];
      mandatoryRequested := mandatoryRequested + mandatoryDelta;
      issued := issued + delta;
      TotalUpdate(v.maxes, i, c.maxWorkers);
      TotalUpdate(v.mandatory, i, c.mandatoryRequests);
      MandatoryUpdate(old(levels), l, levels[l], NUM_PRIORITY_LEVELS);
      TotalUpdate(old(levelDemand), l, levelDemand[l]);
      forall j | 0 <= j < NUM_PRIORITY_LEVELS
        ensures Shown(j)
      {
        assert old@updated(Shown(j));
      }
    }

    /** The request is recorded, the workers are divided anew, and the change of the client's maximum is
        what the thread dispatcher is told. */
    method AdjustDemand(c: Client, mandatoryDelta: int, workersDelta: int) returns (delta: int)
      requires Valid() && -1 <= mandatoryDelta <= 1 && c.level < NUM_PRIORITY_LEVELS && c in clients[c.level]
      modifies this`totalDemand, this`levelDemand, this`mandatoryRequested, this`levels, this`issued,
               c`mandatoryRequests, c`totalRequested, c`minWorkers, c`maxWorkers,
               Members()`allotment, Members()`topPriority
      ensures Valid() && Allotted() && delta == c.maxWorkers - old(c.maxWorkers)
      ensures c.mandatoryRequests == old(c.mandatoryRequests) + mandatoryDelta
      ensures c.totalRequested == old(c.totalRequested) + workersDelta
      ensures totalDemand == old(totalDemand) + delta && issued == old(issued) + delta
      ensures levelDemand == old(levelDemand)[c.level := old(levelDemand)[c.level] + delta]
      ensures mandatoryRequested == old(mandatoryRequested) + mandatoryDelta
    {
      hide Valid, Allotted;
      delta := RecordRequest(c, mandatoryDelta, workersDelta);
      UpdateAllotment();
    }

    lemma RequestsShown(l: nat)
      requires Valid() && l < NUM_PRIORITY_LEVELS
      ensures LevelSize(levels[l], |clients[l]|) && levelDemand[l] == Total(levels[l].maxes)
      ensures forall i | 0 <= i < |clients[l]| ::
                clients[l][i].maxWorkers == levels[l].maxes[i] >= 0 && clients[l][i].minWorkers == levels[l].mins[i]
    {
      DemandNonNegative();
      assert Shown(l);
      forall i | 0 <= i < |clients[l]|
        ensures clients[l][i].maxWorkers == levels[l].maxes[i] >= 0 && clients[l][i].minWorkers == levels[l].mins[i]
      {
        assert ClientShown(clients[l][i], levels[l], i);
      }
    }

    lemma DemandNonNegative()
      requires Valid()
      ensures |levels| == |clients| == |levelDemand| == NUM_PRIORITY_LEVELS
      ensures forall l | 0 <= l < NUM_PRIORITY_LEVELS :: levelDemand[l] >= 0
      ensures forall l, i | 0 <= l < NUM_PRIORITY_LEVELS && 0 <= i < |clients[l]| :: clients[l][i].maxWorkers >= 0
      ensures totalDemand >= 0
    {
      forall l | 0 <= l < NUM_PRIORITY_LEVELS
        ensures levelDemand[l] >= 0 && forall i | 0 <= i < |clients[l]| :: clients[l][i].maxWorkers >= 0
      {
        assert Shown(l);
        forall i | 0 <= i < |clients[l]|
          ensures clients[l][i].maxWorkers == levels[l].maxes[i] >= 0
        {
          assert ClientShown(clients[l][i], levels[l], i) && clients[l][i].Consistent();
        }
        TotalNonNegative(levels[l].maxes);
      }
      TotalNonNegative(levelDemand);
    }
  }

  lemma SameRequestsAfter(levels: seq<Level>, l: nat, allots: seq<int>, marks: seq<bool>)
    requires l < |levels|
    ensures SameRequests(levels, levels[l := levels[l].(allots := allots, marks := marks)])
  {
  }

  lemma LevelStart(levels: seq<Level>, demand: seq<int>, softLimit: nat, w: int)
    requires w >= 0 && |levels| == |demand|
    ensures Progress(levels, demand, softLimit, w, 0, w, 0, NUM_PRIORITY_LEVELS)
  {
    assert demand[..0] == [];
  }

  lemma {:induction false} TotalSnoc(s: seq<int>, x: int)
    ensures Total(s + [x]) == Total(s) + x
  {
    if s != [] {
      assert (s + [x])[1..] == s[1..] + [x];
      TotalSnoc(s[1..], x);
    }
  }

  lemma LevelStep(demand: seq<int>, w: int, l: nat)
    requires l < |demand| && forall j | 0 <= j < |demand| :: demand[j] >= 0
    ensures LevelWorkers(demand, w, l) == Min(demand[l], Remaining(demand, w, l))
    ensures Remaining(demand, w, l + 1) == Remaining(demand, w, l) - LevelWorkers(demand, w, l)
    ensures 0 <= LevelWorkers(demand, w, l) <= demand[l]
  {
    assert demand[..l + 1] == demand[..l] + [demand[l]];
    TotalSnoc(demand[..l], demand[l]);
  }

  lemma {:induction false} AssignedAboveAgrees(levels: seq<Level>, levels': seq<Level>, l: nat)
    requires l <= |levels| && l <= |levels'| && forall j | 0 <= j < l :: levels[j] == levels'[j]
    ensures AssignedAbove(levels, l) == AssignedAbove(levels', l)
  {
    if l > 0 {
      AssignedAboveAgrees(levels, levels', l - 1);
    }
  }

  /** One more level marked. */
  lemma MarkedDone(levels: seq<Level>, demand: seq<int>, l: nat, allots: seq<int>, marks: seq<bool>)
    requires l < |levels| == |demand| && TopMarked(levels, demand, l)
    requires Marked(levels[l].maxes, marks, NoDemandAbove(demand, l))
    ensures TopMarked(levels[l := levels[l].(allots := allots, marks := marks)], demand, l + 1)
  {
    hide Marked;
  }

  lemma {:induction false} NothingMandatory(levels: seq<Level>, n: nat)
    requires n <= |levels| && forall l | 0 <= l < n :: levels[l].mandatory == []
    ensures MandatoryTotal(levels, n) == 0
  {
    if n > 0 {
      NothingMandatory(levels, n - 1);
    }
  }

  lemma NothingAllotted(softLimit: nat)
    ensures var levels := [NO_CLIENTS, NO_CLIENTS, NO_CLIENTS];
            && MandatoryTotal(levels, NUM_PRIORITY_LEVELS) == 0 && TopMarked(levels, [0, 0, 0], NUM_PRIORITY_LEVELS)
            && AllLevelsAllotted(levels, [0, 0, 0], softLimit, 0, NUM_PRIORITY_LEVELS)
    ensures Total([]) == 0 && Total([0, 0, 0]) == 0
  {
    NothingMandatory([NO_CLIENTS, NO_CLIENTS, NO_CLIENTS], NUM_PRIORITY_LEVELS);
    TotalSnoc([], 0);
    TotalSnoc([0], 0);
    TotalSnoc([0, 0], 0);
    assert [0, 0] == [0] + [0] && [0, 0, 0] == [0, 0] + [0];
  }

  lemma {:induction false} MandatoryUpdate(levels: seq<Level>, l: nat, v: Level, n: nat)
    requires l < |levels| && n <= |levels|
    ensures MandatoryTotal(levels[l := v], n) ==
            MandatoryTotal(levels, n) + if l < n then Total(v.mandatory) - Total(levels[l].mandatory) else 0
  {
    if n > 0 {
      MandatoryUpdate(levels, l, v, n - 1);
    }
  }

  /** One more level served. */
  lemma LevelDone(levels: seq<Level>, demand: seq<int>, softLimit: nat, w: int, l: nat, allots: seq<int>, marks: seq<bool>)
    requires l < |levels| == |demand| && AllLevelsAllotted(levels, demand, softLimit, w, l)
    requires LevelAllotted(levels[l].maxes, levels[l].mins, allots, softLimit,
                           LevelWorkers(demand, w, l), demand[l], AssignedAbove(levels, l), w)
    ensures var levels' := levels[l := levels[l].(allots := allots, marks := marks)];
            && AllLevelsAllotted(levels', demand, softLimit, w, l + 1)
            && AssignedAbove(levels', l + 1) == AssignedAbove(levels, l) + Total(allots)
  {
    hide LevelAllotted, LevelWorkers, Total;
    var levels' := levels[l := levels[l].(allots := allots, marks := marks)];
    forall j | 0 <= j <= l
      ensures AssignedAbove(levels', j) == AssignedAbove(levels, j)
    {
      AssignedAboveAgrees(levels, levels', j);
    }
  }

  /** The outer loop before level `l`: what is left, what has been given, which level was the first with
      demand, and the levels above `l` are served. */
  ghost predicate Progress(levels: seq<Level>, demand: seq<int>, softLimit: nat, w: int, l: nat,
                           unassigned: int, given: int, top: nat)
    requires l <= |levels| == |demand|
  {
    && unassigned == Remaining(demand, w, l) && given == AssignedAbove(levels, l)
    && (top == NUM_PRIORITY_LEVELS <==> NoDemandAbove(demand, l))
    && AllLevelsAllotted(levels, demand, softLimit, w, l) && TopMarked(levels, demand, l)
  }

  lemma ProgressBounds(levels: seq<Level>, demand: seq<int>, softLimit: nat, w: int, l: nat,
                       unassigned: int, given: int, top: nat)
    requires l < |levels| == |demand| && forall j | 0 <= j < |demand| :: demand[j] >= 0
    requires Progress(levels, demand, softLimit, w, l, unassigned, given, top)
    ensures 0 <= Min(demand[l], unassigned) <= demand[l]
  {
    LevelStep(demand, w, l);
  }

  lemma ProgressDone(levels: seq<Level>, demand: seq<int>, softLimit: nat, w: int, n: nat,
                     unassigned: int, given: int, top: nat)
    requires n <= |levels| == |demand| && Progress(levels, demand, softLimit, w, n, unassigned, given, top)
    ensures AllLevelsAllotted(levels, demand, softLimit, w, n) && TopMarked(levels, demand, n)
  {
  }

  lemma ProgressStep(levels: seq<Level>, demand: seq<int>, softLimit: nat, w: int, l: nat,
                     unassigned: int, given: int, top: nat, allots: seq<int>, marks: seq<bool>)
    requires l < |levels| == |demand| == NUM_PRIORITY_LEVELS && forall j | 0 <= j < |demand| :: demand[j] >= 0
    requires Progress(levels, demand, softLimit, w, l, unassigned, given, top)
    requires LevelAllotted(levels[l].maxes, levels[l].mins, allots, softLimit, Min(demand[l], unassigned), demand[l], given, w)
    requires Marked(levels[l].maxes, marks, top == NUM_PRIORITY_LEVELS)
    ensures Progress(levels[l := levels[l].(allots := allots, marks := marks)], demand, softLimit, w, l + 1,
                     unassigned - Min(demand[l], unassigned), given + Total(allots),
                     if top == NUM_PRIORITY_LEVELS && demand[l] > 0 then l else top)
  {
    hide Total, LevelAllotted, Remaining, AssignedAbove, AllLevelsAllotted, TopMarked, Marked;
    LevelStep(demand, w, l);
    LevelDone(levels, demand, softLimit, w, l, allots, marks);
    MarkedDone(levels, demand, l, allots, marks);
  }

  // ---------------------------------------------------------------- a client comes

  lemma ProportionalBack(maxes: seq<int>, allots: seq<int>, a: int, d: int)
    requires Proportional(maxes, allots, a, d)
    ensures Proportional(maxes + [0], allots + [0], a, d)
  {
    hide Share, Total;
    var ms, xs := maxes + [0], allots + [0];
    forall i | 0 <= i <= |ms|
      ensures Total(xs[i..]) == Share(a, Total(ms[i..]), d)
    {
      if i < |ms| {
        assert ms[i..] == maxes[i..] + [0] && xs[i..] == allots[i..] + [0];
        TotalSnoc(maxes[i..], 0);
        TotalSnoc(allots[i..], 0);
      } else {
        assert ms[i..] == maxes[|maxes|..] && xs[i..] == allots[|allots|..];
      }
    }
  }

  lemma MandatoryBack(maxes: seq<int>, mins: seq<int>, allots: seq<int>, before: int, w: int, n: int)
    requires MandatoryFirst(maxes, mins, allots, before, w)
    ensures MandatoryFirst(maxes + [0], mins + [n], allots + [0], before, w)
  {
    var xs := allots + [0];
    forall i | 0 <= i < |maxes|
      ensures xs[i] == if maxes[i] > 0 && mins[i] > 0 && before + Total(xs[i + 1..]) < w then 1 else 0
    {
      assert xs[i + 1..] == allots[i + 1..] + [0];
      TotalSnoc(allots[i + 1..], 0);
    }
  }

  /** A client without requests at the end of the list. */
  function LevelWith(v: Level, min: int, mark: bool): Level {
    Level(v.maxes + [0], v.mins + [min], v.allots + [0], v.mandatory + [0], v.marks + [mark])
  }

  lemma ClientAdded(levels: seq<Level>, levels': seq<Level>, demand: seq<int>, softLimit: nat, w: int, l: nat, n: int, mark: bool)
    requires l < |levels| == |demand| && AllLevelsAllotted(levels, demand, softLimit, w, |levels|)
    requires levels' == levels[l := LevelWith(levels[l], n, mark)]
    ensures AllLevelsAllotted(levels', demand, softLimit, w, |levels|)
  {
    hide Proportional, MandatoryFirst, LevelWorkers, Total;
    forall j | 0 <= j < |levels|
      ensures LevelAllotted(levels'[j].maxes, levels'[j].mins, levels'[j].allots, softLimit,
                            LevelWorkers(demand, w, j), demand[j], AssignedAbove(levels', j), w)
    {
      AddedAssignedAbove(levels, levels', l, j, n, mark);
      if j == l {
        if softLimit > 0 {
          ProportionalBack(levels[l].maxes, levels[l].allots, LevelWorkers(demand, w, l), demand[l]);
        } else {
          MandatoryBack(levels[l].maxes, levels[l].mins, levels[l].allots, AssignedAbove(levels, l), w, n);
        }
      }
    }
  }

  lemma {:induction false} AddedAssignedAbove(levels: seq<Level>, levels': seq<Level>, l: nat, j: nat, n: int, mark: bool)
    requires l < |levels| && j <= |levels|
    requires levels' == levels[l := LevelWith(levels[l], n, mark)]
    ensures AssignedAbove(levels', j) == AssignedAbove(levels, j)
  {
    if j > 0 {
      AddedAssignedAbove(levels, levels', l, j - 1, n, mark);
      TotalSnoc(levels[l].allots, 0);
    }
  }

  // ---------------------------------------------------------------- a client goes

  function Without<T>(s: seq<T>, i: nat): (r: seq<T>)
    requires i < |s|
    ensures |r| == |s| - 1 && forall j | 0 <= j < |r| :: r[j] == if j < i then s[j] else s[j + 1]
  {
    s[..i] + s[i + 1..]
  }

  function LevelWithout(v: Level, i: nat): Level
    requires LevelSize(v, |v.maxes|) && i < |v.maxes|
  {
    Level(Without(v.maxes, i), Without(v.mins, i), Without(v.allots, i), Without(v.mandatory, i), Without(v.marks, i))
  }

  lemma StillShown(c: Client, v: Level, i: nat, k: nat)
    requires LevelSize(v, |v.maxes|) && i < |v.maxes| && k < |v.maxes| - 1
    requires ClientShown(c, v, if k < i then k else k + 1)
    ensures ClientShown(c, LevelWithout(v, i), k)
  {
  }

  /** The request of the i-th client has changed. */
  function LevelChanged(v: Level, i: nat, max: int, min: int, mandatory: int): Level
    requires LevelSize(v, |v.maxes|) && i < |v.maxes|
  {
    v.(maxes := v.maxes[i := max], mins := v.mins[i := min], mandatory := v.mandatory[i := mandatory])
  }

  lemma {:induction false} TotalWithout(s: seq<int>, i: nat)
    requires i < |s|
    ensures Total(Without(s, i)) == Total(s) - s[i]
  {
    if i == 0 {
      assert Without(s, 0) == s[1..];
    } else {
      TotalWithout(s[1..], i - 1);
      assert Without(s, i)[1..] == Without(s[1..], i - 1);
    }
  }

  /** Leaving a zero out changes no sum over a tail. */
  lemma TailWithout(s: seq<int>, i: nat, k: nat)
    requires i < |s| && s[i] == 0 && k < |s|
    ensures Total(Without(s, i)[k..]) == Total(s[if k <= i then k else k + 1..])
  {
    if k <= i {
      assert Without(s, i)[k..] == Without(s[k..], i - k);
      TotalWithout(s[k..], i - k);
    } else {
      assert Without(s, i)[k..] == s[k + 1..];
    }
  }

  lemma ProportionalWithout(maxes: seq<int>, allots: seq<int>, a: int, d: int, i: nat)
    requires Proportional(maxes, allots, a, d) && i < |maxes| && maxes[i] == 0
    ensures Proportional(Without(maxes, i), Without(allots, i), a, d)
  {
    hide Share, Total;
    assert allots[i] == 0;
    var ms, xs := Without(maxes, i), Without(allots, i);
    forall k | 0 <= k <= |ms|
      ensures Total(xs[k..]) == Share(a, Total(ms[k..]), d)
    {
      TailWithout(maxes, i, k);
      TailWithout(allots, i, k);
    }
  }

  lemma MandatoryWithout(maxes: seq<int>, mins: seq<int>, allots: seq<int>, before: int, w: int, i: nat)
    requires MandatoryFirst(maxes, mins, allots, before, w) && i < |maxes| && maxes[i] == 0
    ensures MandatoryFirst(Without(maxes, i), Without(mins, i), Without(allots, i), before, w)
  {
    hide Total;
    var xs := Without(allots, i);
    forall k | 0 <= k < |xs|
      ensures xs[k] == if Without(maxes, i)[k] > 0 && Without(mins, i)[k] > 0 && before + Total(xs[k + 1..]) < w then 1 else 0
    {
      TailWithout(allots, i, k + 1);
      if k == i - 1 {
        assert allots[k + 1..][0] == 0;
        SuffixStep(allots, k + 1);
      }
    }
  }

  lemma {:induction false} RemovedAssignedAbove(levels: seq<Level>, l: nat, i: nat, j: nat)
    requires l < |levels| && j <= |levels|
    requires i < |levels[l].maxes| && LevelSize(levels[l], |levels[l].maxes|) && levels[l].allots[i] == 0
    ensures AssignedAbove(levels[l := LevelWithout(levels[l], i)], j) == AssignedAbove(levels, j)
  {
    if j > 0 {
      RemovedAssignedAbove(levels, l, i, j - 1);
      TotalWithout(levels[l].allots, i);
    }
  }

  lemma ClientRemoved(levels: seq<Level>, demand: seq<int>, softLimit: nat, w: int, l: nat, i: nat)
    requires l < |levels| == |demand| && AllLevelsAllotted(levels, demand, softLimit, w, |levels|)
    requires i < |levels[l].maxes| && LevelSize(levels[l], |levels[l].maxes|) && levels[l].maxes[i] == 0
    ensures AllLevelsAllotted(levels[l := LevelWithout(levels[l], i)], demand, softLimit, w, |levels|)
  {
    hide LevelWorkers, Total;
    var levels' := levels[l := LevelWithout(levels[l], i)];
    assert levels[l].allots[i] == 0;
    forall j | 0 <= j < |levels|
      ensures LevelAllotted(levels'[j].maxes, levels'[j].mins, levels'[j].allots, softLimit,
                            LevelWorkers(demand, w, j), demand[j], AssignedAbove(levels', j), w)
    {
      RemovedAssignedAbove(levels, l, i, j);
      if j == l {
        if softLimit > 0 {
          ProportionalWithout(levels[l].maxes, levels[l].allots, LevelWorkers(demand, w, l), demand[l], i);
        } else {
          MandatoryWithout(levels[l].maxes, levels[l].mins, levels[l].allots, AssignedAbove(levels, l), w, i);
        }
      }
    }
  }

  lemma {:induction false} TotalUpdate(s: seq<int>, i: nat, x: int)
    requires i < |s|
    ensures Total(s[i := x]) == Total(s) - s[i] + x
  {
    if i == 0 {
      assert s[i := x][1..] == s[1..];
    } else {
      TotalUpdate(s[1..], i - 1, x);
      assert s[i := x][1..] == s[1..][i - 1 := x];
    }
  }

  // ---------------------------------------------------------------- what the division achieves

  ghost predicate DemandsMatch(levels: seq<Level>, demand: seq<int>) {
    && |levels| == |demand|
    && forall l | 0 <= l < |levels| ::
         demand[l] == Total(levels[l].maxes) && forall i | 0 <= i < |levels[l].maxes| :: levels[l].maxes[i] >= 0
  }

  lemma DemandsMatchNonNegative(levels: seq<Level>, demand: seq<int>)
    requires DemandsMatch(levels, demand)
    ensures forall l | 0 <= l < |demand| :: demand[l] >= 0
  {
    forall l | 0 <= l < |demand|
      ensures demand[l] >= 0
    {
      TotalNonNegative(levels[l].maxes);
    }
  }

  lemma NothingAbove(demand: seq<int>)
    ensures Total(demand[..0]) == 0
  {
  }

  /** With a positive soft limit, the first `n` levels together use all the workers that can be used there. */
  lemma {:induction false} WorkersUsed(levels: seq<Level>, demand: seq<int>, softLimit: nat, w: int, n: nat)
    requires DemandsMatch(levels, demand) && softLimit > 0 && w >= 0 && n <= |levels|
    requires AllLevelsAllotted(levels, demand, softLimit, w, |levels|)
    ensures AssignedAbove(levels, n) == Min(w, Total(demand[..n]))
  {
    NothingAbove(demand);
    hide Total, Proportional, MandatoryFirst;
    DemandsMatchNonNegative(levels, demand);
    if n == 0 {
      assert demand[..0] == [];
    } else {
      var l := n - 1;
      WorkersUsed(levels, demand, softLimit, w, l);
      LevelStep(demand, w, l);
      ProportionalTotal(levels[l].maxes, levels[l].allots, LevelWorkers(demand, w, l));
      assert demand[..n] == demand[..l] + [demand[l]];
      TotalSnoc(demand[..l], demand[l]);
    }
  }

  /** The whole of min(demand, limit) is handed out: `assigned == max_workers`. */
  lemma AllWorkersAssigned(levels: seq<Level>, demand: seq<int>, softLimit: nat, mandatory: int)
    requires DemandsMatch(levels, demand) && softLimit > 0
    requires AllLevelsAllotted(levels, demand, softLimit, Target(Total(demand), softLimit, mandatory), |levels|)
    ensures AssignedAbove(levels, |levels|) == Min(Total(demand), softLimit)
  {
    DemandsMatchNonNegative(levels, demand);
    TotalNonNegative(demand);
    WorkersUsed(levels, demand, softLimit, Target(Total(demand), softLimit, mandatory), |levels|);
    assert demand[..|demand|] == demand;
  }

  /** A lower level has workers only when every client of every level above has its maximum. */
  lemma HigherLevelsFirst(levels: seq<Level>, demand: seq<int>, softLimit: nat, w: int, l: nat, l': nat, i: nat)
    requires DemandsMatch(levels, demand) && softLimit > 0 && w >= 0
    requires AllLevelsAllotted(levels, demand, softLimit, w, |levels|)
    requires l < l' < |levels| && Total(levels[l'].allots) > 0 && i < |levels[l].maxes|
    ensures levels[l].allots[i] == levels[l].maxes[i]
  {
    hide Total, Proportional, Remaining, LevelWorkers;
    DemandsMatchNonNegative(levels, demand);
    LevelStep(demand, w, l');
    ProportionalTotal(levels[l'].maxes, levels[l'].allots, LevelWorkers(demand, w, l'));
    RemainingShrinks(demand, w, l + 1, l');
    LevelStep(demand, w, l);
    ProportionalFull(levels[l].maxes, levels[l].allots, i);
  }

  lemma {:induction false} RemainingShrinks(demand: seq<int>, w: int, l: nat, l': nat)
    requires l <= l' <= |demand| && forall j | 0 <= j < |demand| :: demand[j] >= 0
    ensures Remaining(demand, w, l') <= Remaining(demand, w, l)
  {
    if l < l' {
      RemainingShrinks(demand, w, l, l' - 1);
      LevelStep(demand, w, l' - 1);
    }
  }

  /** A client that soft limit 0 can give the one worker to. */
  ghost predicate HasEligible(v: Level)
    requires |v.maxes| == |v.mins|
  {
    exists i :: 0 <= i < |v.maxes| && v.maxes[i] > 0 && v.mins[i] > 0
  }

  lemma {:induction false} MandatoryLevel(maxes: seq<int>, mins: seq<int>, allots: seq<int>, before: int, w: int, k: nat)
    requires MandatoryFirst(maxes, mins, allots, before, w) && 0 <= before <= w <= 1 && k <= |maxes|
    ensures before + Total(allots[k..])
            == if exists i :: k <= i < |maxes| && maxes[i] > 0 && mins[i] > 0 then w else before
    decreases |maxes| - k
  {
    if k < |maxes| {
      MandatoryLevel(maxes, mins, allots, before, w, k + 1);
      SuffixStep(allots, k);
      if i :| k + 1 <= i < |maxes| && maxes[i] > 0 && mins[i] > 0 {
      }
    } else {
      assert allots[k..] == [];
    }
  }

  lemma {:induction false} MandatoryWorkers(levels: seq<Level>, demand: seq<int>, w: int, n: nat)
    requires |levels| == |demand| && n <= |levels| && 0 <= w <= 1
    requires AllLevelsAllotted(levels, demand, 0, w, |levels|)
    ensures AssignedAbove(levels, n) == if exists l :: 0 <= l < n && HasEligible(levels[l]) then w else 0
  {
    hide Total, MandatoryFirst, Proportional, LevelWorkers, HasEligible;
    if n > 0 {
      var l, v := n - 1, levels[n - 1];
      MandatoryWorkers(levels, demand, w, l);
      assert LevelAllotted(v.maxes, v.mins, v.allots, 0, LevelWorkers(demand, w, l), demand[l], AssignedAbove(levels, l), w);
      MandatoryOfLevel(v, AssignedAbove(levels, l), w);
    }
  }

  lemma MandatoryOfLevel(v: Level, before: int, w: int)
    requires MandatoryFirst(v.maxes, v.mins, v.allots, before, w) && 0 <= before <= w <= 1
    ensures before + Total(v.allots) == if HasEligible(v) then w else before
  {
    hide Total, MandatoryFirst;
    MandatoryLevel(v.maxes, v.mins, v.allots, before, w, 0);
    assert v.allots[0..] == v.allots;
  }

  /** Soft limit 0: `assigned == max_workers` holds exactly when there is nothing to hand out or some client
      has both a mandatory request and a maximum above 0. */
  lemma MandatoryWorkerAssigned(levels: seq<Level>, demand: seq<int>, mandatory: int)
    requires DemandsMatch(levels, demand)
    requires AllLevelsAllotted(levels, demand, 0, Target(Total(demand), 0, mandatory), |levels|)
    ensures 0 <= AssignedAbove(levels, |levels|) <= 1
    ensures AssignedAbove(levels, |levels|) == Target(Total(demand), 0, mandatory)
            <==> Target(Total(demand), 0, mandatory) == 0 || exists l :: 0 <= l < |levels| && HasEligible(levels[l])
  {
    DemandsMatchNonNegative(levels, demand);
    TotalNonNegative(demand);
    MandatoryWorkers(levels, demand, Target(Total(demand), 0, mandatory), |levels|);
  }

  lemma NobodyEligible(m: Market, first: Client, second: Client)
    requires m.Valid() && m.Allotted() && m.softLimit == 0 && m.clients == [[], [first, second], []]
    requires first.mandatoryRequests == 1 && first.totalRequested == 0 && first.arenaWorkers > 0
    requires second.mandatoryRequests == 0 && second.totalRequested > 0 && second.arenaWorkers > 0
    requires m.totalDemand == first.maxWorkers + second.maxWorkers && m.mandatoryRequested == 1
    ensures Target(m.totalDemand, 0, m.mandatoryRequested) == 1
    ensures AssignedAbove(m.levels, NUM_PRIORITY_LEVELS) == 0
  {
    hide Total, MandatoryTotal, AssignedAbove, AllLevelsAllotted, TopMarked;
    assert m.Shown(0) && m.Shown(1) && m.Shown(2);
    assert m.clients[1][0] == first && m.clients[1][1] == second;
    assert forall l | 0 <= l < NUM_PRIORITY_LEVELS :: !HasEligible(m.levels[l]);
    MandatoryWorkers(m.levels, m.levelDemand, 1, NUM_PRIORITY_LEVELS);
  }

  /** A soft limit of 0 and two clients without requests. */
  method TwoClients() returns (m: Market, first: Client, second: Client)
    ensures fresh(m) && fresh(first) && fresh(second) && first != second
    ensures m.Valid() && m.Allotted() && m.clients == [[], [first, second], []]
    ensures m.softLimit == m.totalDemand == m.mandatoryRequested == 0
    ensures first.level == second.level == 1 && first.arenaWorkers == second.arenaWorkers == 4
    ensures first.mandatoryRequests == first.totalRequested == first.maxWorkers == 0
    ensures second.mandatoryRequests == second.totalRequested == second.maxWorkers == 0
  {
    hide Market.Valid, Market.Allotted;
    m := new Market(0);
    first := new Client(1, 4);
    second := new Client(1, 4);
    m.RegisterClient(first);
    assert m.clients[1] == [first];
    m.RegisterClient(second);
    assert m.clients[1] == [first, second];
  }

  /** The assertion at the end of update_allotment can fail: the first client ends up with the requests of
      ArenaDemand.MandatoryWithoutWorkers (minimum 1, maximum 0), the second wants workers, and the soft
      limit is 0. After the last call the target is 1 and nobody has been given a worker. */
  method AssertionCanFail() returns (m: Market)
    ensures fresh(m) && m.Valid() && m.Allotted()
    ensures Target(m.totalDemand, m.softLimit, m.mandatoryRequested) == 1
    ensures AssignedAbove(m.levels, NUM_PRIORITY_LEVELS) == 0
  {
    hide Market.Valid, Market.Allotted, AssignedAbove;
    var first, second;
    m, first, second := TwoClients();
    var up := m.AdjustDemand(first, 0, 4);
    var mandatory := m.AdjustDemand(first, 1, 0);
    var down := m.AdjustDemand(first, 0, -4);
    var other := m.AdjustDemand(second, 0, 4);
    NobodyEligible(m, first, second);
  }
}

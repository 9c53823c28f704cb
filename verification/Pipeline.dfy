/**
 * A whole pipeline: any sequence of filters, the tasks of module PipelineTokens carrying items through them,
 * and a buffer of module SerialStage in front of every serial filter but the first. Tokens are numbered by
 * the first in-order filter. If that is the input filter, it increments its counter without a lock, in two
 * accesses here; that no two tasks do so at once, and that every token reaches a buffer once, is proved.
 */
module Pipeline {
  import opened Behaviors
  import opened Sums
  import T = PipelineTokens
  import S = SerialStage

  datatype Mode = Parallel | InOrder | OutOfOrder

  /** `Loading(v)`: read, and its task has loaded the counter of tokens. `Fresh`: read, not passed on yet.
      `Arriving(f)`: about to enter filter `f`, or the end of the pipe. */
  datatype Place = Loading(seen: nat) | Fresh | Arriving(f: nat) | Parked(f: nat) | Running(f: nat) | Out

  datatype Item = Item(token: nat, ready: bool, place: Place)

  /** `carry`: the item of each task; items are numbered in the order in which they are read. `high`: the
      counter of the input filter. */
  datatype State = State(
    filters: seq<Mode>, tokens: T.State, carry: seq<nat>, items: seq<Item>, high: nat, stages: seq<S.State>)

  datatype Event =
    | Task(i: nat, item: bool, declaresEnd: bool)
    | StoreToken(i: nat)
    | Enter(x: nat)
    | Leave(x: nat)

  /** The first in-order filter, which numbers the items; the end of the pipe if there is none. */
  function FirstOrdered(filters: seq<Mode>): (f: nat)
    ensures f <= |filters| && (f < |filters| ==> filters[f] == InOrder)
    ensures forall g | 0 <= g < f :: filters[g] != InOrder
  {
    if filters == [] || filters[0] == InOrder then 0 else 1 + FirstOrdered(filters[1..])
  }

  predicate Assigns(filters: seq<Mode>, f: nat)
    requires f < |filters|
  {
    filters[f] != InOrder || f == FirstOrdered(filters)
  }

  predicate Init(s: State) {
    && |s.filters| > 0 && T.Init(s.tokens)
    && s.tokens.serial == (s.filters[0] != Parallel) && s.tokens.single == (|s.filters| == 1)
    && s.carry == [0] && s.items == [] && s.high == 0 && |s.stages| == |s.filters|
    && forall f | 0 <= f < |s.filters| ::
         s.stages[f] ==
         S.State(S.Buffer(s.filters[f] == InOrder, 0, 0, map[]), Assigns(s.filters, f), None, [], map[])
  }

  function PlaceOf(s: State, x: nat): Place {
    if x < |s.items| then s.items[x].place else Out
  }

  function Moved(items: seq<Item>, x: nat, place: Place): seq<Item> {
    if x < |items| then items[x := items[x].(place := place)] else items
  }

  /** The task's item is still inside the filters, or its token is not stored yet. */
  predicate Waits(s: State, i: nat)
    requires i < |s.tokens.tasks| && i < |s.carry|
  {
    || (s.tokens.tasks[i] == T.Flow && PlaceOf(s, s.carry[i]) != Arriving(|s.filters|))
    || (s.tokens.tasks[i] == T.HasItem && PlaceOf(s, s.carry[i]).Loading?)
  }

  /** The input filter returns an item. */
  predicate Reads(t: T.State, pc: T.Pc, item: bool) {
    item && ((pc == T.Start && t.serial) || pc == T.Reading)
  }

  function NewItem(s: State, pc: T.Pc): Item
    requires |s.filters| > 0
  {
    Item(0, false, if pc == T.Reading then Arriving(1) else if s.filters[0] == InOrder then Loading(s.high) else Fresh)
  }

  function TaskStep(s: State, i: nat, item: bool, declaresEnd: bool): Option<State> {
    if s.filters == [] || i >= |s.tokens.tasks| || i >= |s.carry| || Waits(s, i) then None else
    match T.Step(s.tokens, T.Move(i, item, declaresEnd))
    case None => None
    case Some(tokens) =>
      var pc := s.tokens.tasks[i];
      var s' := s.(tokens := tokens, carry := if pc == T.Spawning then s.carry + [0] else s.carry);
      if Reads(s.tokens, pc, item) then
        Some(s'.(items := s.items + [NewItem(s, pc)], carry := s'.carry[i := |s.items|]))
      else if pc == T.Flow || (pc == T.HasItem && s.tokens.single) then
        Some(s'.(items := Moved(s.items, s.carry[i], Out)))
      else if (pc == T.HasItem && s.tokens.available <= 1) || (pc == T.Spawning && s.tokens.serial) then
        Some(s'.(items := Moved(s.items, s.carry[i], Arriving(1))))
      else Some(s')
  }

  /** my_token = high_token++, second half. */
  function StoreStep(s: State, i: nat): Option<State> {
    if i < |s.tokens.tasks| && i < |s.carry| && s.tokens.tasks[i] == T.HasItem && PlaceOf(s, s.carry[i]).Loading? then
      var v := s.items[s.carry[i]].place.seen;
      Some(s.(high := v + 1, items := s.items[s.carry[i] := Item(v, true, Fresh)]))
    else None
  }

  function InfoOf(s: State, x: nat): S.Info
    requires x < |s.items|
  {
    S.Info(x, s.items[x].token, s.items[x].ready)
  }

  function EnterStep(s: State, x: nat): Option<State> {
    if !PlaceOf(s, x).Arriving? || s.items[x].place.f >= |s.filters| || s.items[x].place.f >= |s.stages| then None else
    var f := s.items[x].place.f;
    if s.filters[f] == Parallel then Some(s.(items := Moved(s.items, x, Running(f)))) else
    var b, info := s.stages[f].buffer, InfoOf(s, x);
    var stamped := S.Stamped(b, info);
    var place := if S.TokenOf(b, info) == b.low then Running(f) else Parked(f);
    Some(s.(items := s.items[x := Item(stamped.token, stamped.ready, place)],
            stages := s.stages[f := S.Enter(s.stages[f], info)]))
  }

  /** The running item of a stage goes on, and the one parked for the next token takes its place. */
  function LeftItems(stage: S.State, f: nat, items: seq<Item>, x: nat): seq<Item> {
    var moved, b := Moved(items, x, Arriving(f + 1)), stage.buffer;
    if b.low + 1 in b.parked then Moved(moved, b.parked[b.low + 1].item, Running(f)) else moved
  }

  function LeaveStep(s: State, x: nat): Option<State> {
    if !PlaceOf(s, x).Running? || s.items[x].place.f >= |s.filters| || s.items[x].place.f >= |s.stages| then None else
    var f := s.items[x].place.f;
    if s.filters[f] == Parallel then Some(s.(items := Moved(s.items, x, Arriving(f + 1))))
    else Some(s.(stages := s.stages[f := S.Leave(s.stages[f])], items := LeftItems(s.stages[f], f, s.items, x)))
  }

  function Step(s: State, e: Event): Option<State> {
    match e
    case Task(i, item, declaresEnd) => TaskStep(s, i, item, declaresEnd)
    case StoreToken(i) => StoreStep(s, i)
    case Enter(x) => EnterStep(s, x)
    case Leave(x) => LeaveStep(s, x)
  }

  ghost predicate Next(s: State, s': State) {
    exists e :: Step(s, e) == Some(s')
  }

  // ---------------------------------------------------------------- invariant

  predicate Serial(filters: seq<Mode>, f: nat) {
    1 <= f < |filters| && filters[f] != Parallel
  }

  /** Behind filter `f`. */
  predicate Passed(p: Place, f: nat) {
    p.Out? || ((p.Arriving? || p.Parked? || p.Running?) && p.f > f)
  }

  predicate Entered(p: Place, f: nat) {
    Passed(p, f) || p == Parked(f) || p == Running(f)
  }

  predicate Shape(s: State) {
    && |s.filters| > 0 && |s.stages| == |s.filters| && |s.carry| == |s.tokens.tasks|
    && s.tokens.serial == (s.filters[0] != Parallel) && s.tokens.single == (|s.filters| == 1)
    && forall f | 0 <= f < |s.filters| ::
         s.stages[f].buffer.ordered == (s.filters[f] == InOrder) && s.stages[f].assigns == Assigns(s.filters, f)
  }

  /** Carries an item. */
  predicate Holds(serial: bool, pc: T.Pc) {
    pc == T.HasItem || pc == T.Flow || (pc == T.Spawning && serial)
  }

  predicate FitsPc(pc: T.Pc, p: Place) {
    match pc
    case HasItem => p.Loading? || p.Fresh?
    case Spawning => p.Fresh?
    case _ => p.Arriving? || p.Parked? || p.Running?
  }

  predicate PcOk(serial: bool, pc: T.Pc) {
    && (pc == T.Ready || pc == T.Reading || pc == T.Dry ==> !serial)
    && (pc == T.HasItem || pc == T.AtEnd ==> serial)
  }

  predicate CarryOk(s: State, i: nat)
    requires i < |s.tokens.tasks| && i < |s.carry|
  {
    && PcOk(s.tokens.serial, s.tokens.tasks[i])
    && (Holds(s.tokens.serial, s.tokens.tasks[i]) ==>
          s.carry[i] < |s.items| && FitsPc(s.tokens.tasks[i], s.items[s.carry[i]].place))
  }

  predicate Carries(s: State, i: nat, x: nat) {
    i < |s.tokens.tasks| && i < |s.carry| && Holds(s.tokens.serial, s.tokens.tasks[i]) && s.carry[i] == x
  }

  ghost predicate Held(s: State, x: nat) {
    exists i :: Carries(s, i, x)
  }

  /** Every task that carries an item has one of its own, and every item in the pipe has a task. */
  ghost predicate Carried(s: State)
    requires |s.carry| == |s.tokens.tasks|
  {
    && (forall i | 0 <= i < |s.carry| :: CarryOk(s, i))
    && (forall i, j, x | Carries(s, i, x) && Carries(s, j, x) :: i == j)
    && (forall x | 0 <= x < |s.items| && !s.items[x].place.Out? :: Held(s, x))
  }

  /** Has its token. */
  predicate Numbered(filters: seq<Mode>, p: Place) {
    var first := FirstOrdered(filters);
    if first == 0 then !p.Loading? else first < |filters| && Entered(p, first)
  }

  predicate PlaceOk(filters: seq<Mode>, p: Place) {
    match p
    case Loading(_) => FirstOrdered(filters) == 0
    case Arriving(f) => 1 <= f <= |filters|
    case Parked(f) => Serial(filters, f)
    case Running(f) => 1 <= f < |filters|
    case _ => true
  }

  ghost predicate Came(stage: S.State, x: nat) {
    exists t :: t in stage.arrived && stage.arrived[t] == x
  }

  ghost predicate ItemOk(s: State, x: nat)
    requires x < |s.items| && |s.stages| == |s.filters|
  {
    var item := s.items[x];
    && PlaceOk(s.filters, item.place)
    && (item.ready <==> Numbered(s.filters, item.place))
    && (item.ready && FirstOrdered(s.filters) == 0 ==> item.token == x)
    && (forall f: nat | Serial(s.filters, f) && Entered(item.place, f) :: Came(s.stages[f], x))
  }

  /** Where the item of token `t` of a stage is. */
  predicate Spot(stage: S.State, f: nat, t: nat, p: Place) {
    if t in stage.buffer.parked then p == Parked(f)
    else if stage.running == Some(t) then p == Running(f)
    else Passed(p, f)
  }

  predicate TokenOk(stage: S.State, f: nat, t: nat, items: seq<Item>)
    requires t in stage.arrived
  {
    var x := stage.arrived[t];
    x < |items| && Spot(stage, f, t, items[x].place) && (stage.buffer.ordered ==> items[x].ready && items[x].token == t)
  }

  ghost predicate StageOk(stage: S.State, f: nat, items: seq<Item>) {
    && S.Inv(stage)
    && (forall t | t in stage.arrived :: TokenOk(stage, f, t, items))
    && (forall t, u | t in stage.arrived && u in stage.arrived && stage.arrived[t] == stage.arrived[u] :: t == u)
  }

  ghost predicate Stages(s: State)
    requires |s.stages| == |s.filters|
  {
    forall f: nat | Serial(s.filters, f) :: StageOk(s.stages[f], f, s.items)
  }

  ghost predicate Items(s: State)
    requires |s.stages| == |s.filters|
  {
    forall x | 0 <= x < |s.items| :: ItemOk(s, x)
  }

  predicate IsLoading(s: State) {
    s.items != [] && s.items[|s.items| - 1].place.Loading?
  }

  /** Only the item read last can be waiting for its token, and the counter counts the others. */
  predicate Counter(s: State) {
    && (forall x | 0 <= x < |s.items| && s.items[x].place.Loading? :: x == |s.items| - 1 && s.items[x].place.seen == x)
    && (FirstOrdered(s.filters) == 0 ==> s.high == |s.items| - if IsLoading(s) then 1 else 0)
  }

  ghost predicate Inv(s: State) {
    Shape(s) && T.Inv(s.tokens) && Carried(s) && Items(s) && Stages(s) && Counter(s)
  }

  // ---------------------------------------------------------------- tokens are used once

  lemma CameWith(s: State, f: nat, x: nat) returns (t: nat)
    requires Shape(s) && Items(s) && Stages(s) && Serial(s.filters, f) && x < |s.items| && Entered(s.items[x].place, f)
    ensures t in s.stages[f].arrived && s.stages[f].arrived[t] == x && TokenOk(s.stages[f], f, t, s.items)
  {
    assert ItemOk(s, x) && StageOk(s.stages[f], f, s.items);
    assert Came(s.stages[f], x);
    t :| t in s.stages[f].arrived && s.stages[f].arrived[t] == x;
  }

  lemma TokensDiffer(s: State, x: nat, y: nat)
    requires Shape(s) && Items(s) && Stages(s) && x < |s.items| && y < |s.items|
    requires s.items[x].ready && s.items[y].ready && s.items[x].token == s.items[y].token
    ensures x == y
  {
    assert ItemOk(s, x) && ItemOk(s, y);
    var first := FirstOrdered(s.filters);
    if first > 0 {
      var t := CameWith(s, first, x);
      var u := CameWith(s, first, y);
    }
  }

  /** What arrives at a serial filter is what module SerialStage asks for. */
  lemma ArrivalIsAdmissible(s: State, x: nat)
    requires Shape(s) && Items(s) && Stages(s) && x < |s.items|
    requires s.items[x].place.Arriving? && Serial(s.filters, s.items[x].place.f)
    ensures S.Admissible(s.stages[s.items[x].place.f], InfoOf(s, x))
  {
    var f := s.items[x].place.f;
    var stage, info := s.stages[f], InfoOf(s, x);
    assert ItemOk(s, x);
    if !stage.assigns && info.token in stage.arrived {
      assert StageOk(stage, f, s.items) && TokenOk(stage, f, info.token, s.items);
      TokensDiffer(s, x, stage.arrived[info.token]);
    }
  }

  // ---------------------------------------------------------------- through the filters

  /** Seen from filter `f` nothing has changed. */
  predicate SameAt(p: Place, p': Place, f: nat) {
    && (Passed(p, f) <==> Passed(p', f)) && (p == Parked(f) <==> p' == Parked(f))
    && (p == Running(f) <==> p' == Running(f))
  }

  predicate KeepsToken(item: Item, item': Item) {
    item.ready ==> item'.ready && item'.token == item.token
  }

  lemma StageKept(stage: S.State, f: nat, items: seq<Item>, items': seq<Item>)
    requires StageOk(stage, f, items) && |items| <= |items'|
    requires forall x | 0 <= x < |items| :: SameAt(items[x].place, items'[x].place, f) && KeepsToken(items[x], items'[x])
    ensures StageOk(stage, f, items')
  {
    hide S.Inv;
    forall t | t in stage.arrived ensures TokenOk(stage, f, t, items') {
      assert TokenOk(stage, f, t, items);
    }
  }

  predicate InFlow(p: Place) {
    p.Arriving? || p.Parked? || p.Running?
  }

  /** Items have moved through the filters; tasks have not. */
  lemma FlowKeepsCarried(s: State, s': State)
    requires |s.carry| == |s.tokens.tasks| && Carried(s) && s'.tokens == s.tokens && s'.carry == s.carry
    requires |s'.items| == |s.items|
    requires forall x | 0 <= x < |s.items| ::
               || s'.items[x].place == s.items[x].place || (InFlow(s.items[x].place) && InFlow(s'.items[x].place))
               || (s.items[x].place.Loading? && s'.items[x].place == Fresh)
    ensures Carried(s')
  {
    forall i | 0 <= i < |s'.carry| ensures CarryOk(s', i) {
      assert CarryOk(s, i);
    }
    forall i, j, x | Carries(s', i, x) && Carries(s', j, x) ensures i == j {
      assert Carries(s, i, x) && Carries(s, j, x);
    }
    forall x | 0 <= x < |s'.items| && !s'.items[x].place.Out? ensures Held(s', x) {
      assert Held(s, x);
      var i :| Carries(s, i, x);
      assert Carries(s', i, x);
    }
  }

  lemma FlowKeepsCounter(s: State, s': State)
    requires Counter(s) && s'.filters == s.filters && s'.high == s.high && |s'.items| == |s.items|
    requires forall x | 0 <= x < |s.items| ::
               s'.items[x].place == s.items[x].place || (InFlow(s.items[x].place) && InFlow(s'.items[x].place))
    ensures Counter(s')
  {
  }

  lemma EnterEffect(stage: S.State, info: S.Info)
    requires S.Inv(stage) && S.Admissible(stage, info)
    ensures var stage', token, low := S.Enter(stage, info), S.TokenOf(stage.buffer, info), stage.buffer.low;
            && S.Inv(stage') && token !in stage.arrived && token !in stage.buffer.parked
            && stage'.arrived == stage.arrived[token := info.item]
            && (forall t :: t in stage'.buffer.parked <==> t in stage.buffer.parked || (t == token && token != low))
            && stage'.running == (if token == low then Some(token) else stage.running)
            && stage.running != Some(token) && (token == low ==> stage.running == None)
            && stage'.buffer.ordered == stage.buffer.ordered && stage'.assigns == stage.assigns
  {
    assert S.Step(stage, S.Arrive(info)) == Some(S.Enter(stage, info));
    S.StepKeepsInv(stage, S.Arrive(info), S.Enter(stage, info));
    S.NewToken(stage, info);
  }

  lemma LeaveEffect(stage: S.State)
    requires S.Inv(stage) && stage.running.Some?
    ensures var stage', low := S.Leave(stage), stage.buffer.low + 1;
            && S.Inv(stage') && stage'.arrived == stage.arrived
            && (forall t :: t in stage'.buffer.parked <==> t in stage.buffer.parked && t != low)
            && stage'.running == (if low in stage.buffer.parked then Some(low) else None)
            && stage.running.value !in stage.buffer.parked && stage.running.value != low
            && (low in stage.buffer.parked ==> low in stage.arrived && stage.buffer.parked[low].item == stage.arrived[low])
            && stage'.buffer.ordered == stage.buffer.ordered && stage'.assigns == stage.assigns
  {
    assert S.Step(stage, S.Finish) == Some(S.Leave(stage));
    S.StepKeepsInv(stage, S.Finish, S.Leave(stage));
  }

  lemma CameStays(stage: S.State, stage': S.State, token: nat, x: nat, y: nat)
    requires token !in stage.arrived && stage'.arrived == stage.arrived[token := x]
    requires Came(stage, y) || y == x
    ensures Came(stage', y)
  {
    assert stage'.arrived[token] == x;
    if Came(stage, y) {
      var t :| t in stage.arrived && stage.arrived[t] == y;
      assert t in stage'.arrived && stage'.arrived[t] == y;
    }
  }

  /** What an item is after it has entered stage `f`. */
  function EnteredItem(stage: S.State, f: nat, x: nat, item: Item): Item {
    var b, info := stage.buffer, S.Info(x, item.token, item.ready);
    var stamped := S.Stamped(b, info);
    Item(stamped.token, stamped.ready, if S.TokenOf(b, info) == b.low then Running(f) else Parked(f))
  }

  lemma StageEntered(stage: S.State, f: nat, items: seq<Item>, x: nat)
    requires StageOk(stage, f, items) && x < |items| && items[x].place == Arriving(f)
    requires S.Admissible(stage, S.Info(x, items[x].token, items[x].ready))
    ensures var stage' := S.Enter(stage, S.Info(x, items[x].token, items[x].ready));
            StageOk(stage', f, items[x := EnteredItem(stage, f, x, items[x])])
  {
    hide S.Inv, S.Enter;
    var info := S.Info(x, items[x].token, items[x].ready);
    var stage', token := S.Enter(stage, info), S.TokenOf(stage.buffer, info);
    var items' := items[x := EnteredItem(stage, f, x, items[x])];
    EnterEffect(stage, info);
    forall t | t in stage.arrived ensures stage.arrived[t] != x && TokenOk(stage', f, t, items') {
      assert TokenOk(stage, f, t, items);
    }
    assert TokenOk(stage', f, token, items');
  }

  /** An item has entered filter `f`; only it and the stage have changed. */
  predicate EntersOnly(s: State, x: nat, f: nat, s': State) {
    && x < |s.items| == |s'.items| && f < |s.filters| && |s.stages| == |s'.stages| == |s.filters|
    && s'.filters == s.filters && s'.tokens == s.tokens && s'.carry == s.carry && s'.high == s.high
    && s.items[x].place == Arriving(f) && s'.items == s.items[x := s'.items[x]]
    && s'.stages == s.stages[f := s'.stages[f]]
    && (s'.items[x].place == Running(f) || (s'.items[x].place == Parked(f) && s.filters[f] != Parallel))
    && KeepsToken(s.items[x], s'.items[x])
    && (s'.items[x].ready <==> s.items[x].ready || s.filters[f] == InOrder)
  }

  lemma EntersOnlyOne(s: State, x: nat, s': State)
    requires Shape(s) && EnterStep(s, x) == Some(s')
    ensures x < |s.items| && s.items[x].place.Arriving? && EntersOnly(s, x, s.items[x].place.f, s')
  {
    hide S.Enter;
  }

  lemma EnterKeepsStages(s: State, x: nat, s': State)
    requires Inv(s) && EnterStep(s, x) == Some(s')
    ensures Stages(s') && Shape(s')
    ensures forall y, g: nat | Serial(s.filters, g) && Came(s.stages[g], y) :: Came(s'.stages[g], y)
    ensures Serial(s.filters, s.items[x].place.f) ==> Came(s'.stages[s.items[x].place.f], x)
  {
    hide EnterStep, T.Inv, Carried, Items, StageOk, Counter, Came;
    EntersOnlyOne(s, x, s');
    var f := s.items[x].place.f;
    StageOfEntered(s, x, s');
    forall g: nat | Serial(s'.filters, g) && g != f ensures StageOk(s'.stages[g], g, s'.items) {
      StageKept(s.stages[g], g, s.items, s'.items);
    }
  }

  lemma StageOfEntered(s: State, x: nat, s': State)
    requires Shape(s) && Items(s) && Stages(s) && EnterStep(s, x) == Some(s')
    ensures var f := s.items[x].place.f;
            && s'.stages[f].buffer.ordered == s.stages[f].buffer.ordered && s'.stages[f].assigns == s.stages[f].assigns
            && (Serial(s.filters, f) ==>
                  && StageOk(s'.stages[f], f, s'.items) && Came(s'.stages[f], x)
                  && forall y | Came(s.stages[f], y) :: Came(s'.stages[f], y))
  {
    hide S.Inv, S.Enter;
    var f := s.items[x].place.f;
    assert ItemOk(s, x);
    if s.filters[f] != Parallel {
      ArrivalIsAdmissible(s, x);
      assert StageOk(s.stages[f], f, s.items);
      StageEntered(s.stages[f], f, s.items, x);
      EnterEffect(s.stages[f], InfoOf(s, x));
      forall y | Came(s.stages[f], y) || y == x ensures Came(s'.stages[f], y) {
        CameStays(s.stages[f], s'.stages[f], S.TokenOf(s.stages[f].buffer, InfoOf(s, x)), x, y);
      }
    }
  }

  lemma EnterKeepsItems(s: State, x: nat, s': State)
    requires Shape(s) && Items(s) && x < |s.items| && s.items[x].place.Arriving? && EntersOnly(s, x, s.items[x].place.f, s')
    requires forall y, g: nat | Serial(s.filters, g) && Came(s.stages[g], y) :: Came(s'.stages[g], y)
    requires Serial(s.filters, s.items[x].place.f) ==> Came(s'.stages[s.items[x].place.f], x)
    ensures Items(s')
  {
    hide Came;
    assert ItemOk(s, x);
    forall y | 0 <= y < |s'.items| ensures ItemOk(s', y) {
      assert ItemOk(s, y);
    }
  }

  lemma EnterKeepsInv(s: State, x: nat, s': State)
    requires Inv(s) && EnterStep(s, x) == Some(s')
    ensures Inv(s')
  {
    hide EnterStep, T.Inv, Carried, Items, Stages, Counter;
    EntersOnlyOne(s, x, s');
    EnterKeepsStages(s, x, s');
    EnterKeepsItems(s, x, s');
    FlowKeepsCarried(s, s');
    FlowKeepsCounter(s, s');
  }

  predicate MovedAlong(item: Item, item': Item, f: nat) {
    || item' == item
    || (item.place == Running(f) && item' == item.(place := Arriving(f + 1)))
    || (item.place == Parked(f) && item' == item.(place := Running(f)))
  }

  lemma RunningToken(stage: S.State, f: nat, items: seq<Item>, x: nat)
    requires StageOk(stage, f, items) && x < |items| && items[x].place == Running(f) && Came(stage, x)
    ensures stage.running.Some? && stage.running.value in stage.arrived && stage.arrived[stage.running.value] == x
  {
    hide S.Inv;
    var t :| t in stage.arrived && stage.arrived[t] == x;
    assert TokenOk(stage, f, t, items);
  }

  lemma LeftItemsMoved(stage: S.State, f: nat, items: seq<Item>, x: nat)
    requires StageOk(stage, f, items) && x < |items| && items[x].place == Running(f) && stage.running.Some?
    ensures |LeftItems(stage, f, items, x)| == |items|
    ensures forall y | 0 <= y < |items| :: MovedAlong(items[y], LeftItems(stage, f, items, x)[y], f)
  {
    hide S.Inv, S.Leave;
    LeaveEffect(stage);
    var low := stage.buffer.low + 1;
    assert low in stage.buffer.parked ==> TokenOk(stage, f, low, items);
  }

  lemma TokenLeft(stage: S.State, f: nat, items: seq<Item>, x: nat, u: nat)
    requires StageOk(stage, f, items) && x < |items| && items[x].place == Running(f) && u in stage.arrived
    requires stage.running.Some? && stage.running.value in stage.arrived && stage.arrived[stage.running.value] == x
    ensures u in S.Leave(stage).arrived && TokenOk(S.Leave(stage), f, u, LeftItems(stage, f, items, x))
  {
    hide S.Inv, S.Leave;
    LeaveEffect(stage);
    var low := stage.buffer.low + 1;
    assert TokenOk(stage, f, u, items);
    if low in stage.buffer.parked {
      assert TokenOk(stage, f, low, items);
      assert u != low ==> stage.arrived[u] != stage.arrived[low];
    }
    assert u != stage.running.value ==> stage.arrived[u] != x;
  }

  /** The stage whose running item leaves. */
  lemma StageLeft(stage: S.State, f: nat, items: seq<Item>, x: nat)
    requires StageOk(stage, f, items) && x < |items| && items[x].place == Running(f) && Came(stage, x)
    ensures stage.running.Some? && StageOk(S.Leave(stage), f, LeftItems(stage, f, items, x))
    ensures |LeftItems(stage, f, items, x)| == |items|
    ensures forall y | 0 <= y < |items| :: MovedAlong(items[y], LeftItems(stage, f, items, x)[y], f)
  {
    hide S.Inv, S.Leave, LeftItems, TokenOk, MovedAlong;
    RunningToken(stage, f, items, x);
    LeaveEffect(stage);
    LeftItemsMoved(stage, f, items, x);
    forall u | u in stage.arrived ensures TokenOk(S.Leave(stage), f, u, LeftItems(stage, f, items, x)) {
      TokenLeft(stage, f, items, x, u);
    }
  }

  lemma StageNotLeft(stage: S.State, g: nat, f: nat, items: seq<Item>, items': seq<Item>)
    requires StageOk(stage, g, items) && g != f && |items'| == |items|
    requires forall y | 0 <= y < |items| :: MovedAlong(items[y], items'[y], f)
    ensures StageOk(stage, g, items')
  {
    hide S.Inv, StageOk;
    StageKept(stage, g, items, items');
  }

  lemma ItemsLeft(s: State, x: nat, s': State)
    requires Shape(s) && Items(s) && Stages(s) && LeaveStep(s, x) == Some(s')
    ensures x < |s.items| && s.items[x].place.Running? && 1 <= s.items[x].place.f < |s.filters|
    ensures var f := s.items[x].place.f;
            && s' == s.(items := s'.items, stages := s'.stages) && |s'.items| == |s.items|
            && (forall y | 0 <= y < |s.items| :: MovedAlong(s.items[y], s'.items[y], f))
            && |s'.stages| == |s.stages| && s'.stages == s.stages[f := s'.stages[f]]
            && s'.stages[f].arrived == s.stages[f].arrived
            && s'.stages[f].buffer.ordered == s.stages[f].buffer.ordered && s'.stages[f].assigns == s.stages[f].assigns
            && (Serial(s.filters, f) ==> StageOk(s'.stages[f], f, s'.items))
  {
    hide S.Inv, S.Leave;
    var f := s.items[x].place.f;
    assert ItemOk(s, x);
    if s.filters[f] != Parallel {
      assert StageOk(s.stages[f], f, s.items);
      StageLeft(s.stages[f], f, s.items, x);
      LeaveEffect(s.stages[f]);
    }
  }

  lemma LeaveKeepsStages(s: State, x: nat, s': State)
    requires Shape(s) && Items(s) && Stages(s) && LeaveStep(s, x) == Some(s')
    ensures Shape(s') && Stages(s')
  {
    hide LeaveStep, StageOk, Items;
    ItemsLeft(s, x, s');
    var f := s.items[x].place.f;
    forall g: nat | Serial(s'.filters, g) && g != f ensures StageOk(s'.stages[g], g, s'.items) {
      StageNotLeft(s.stages[g], g, f, s.items, s'.items);
    }
  }

  lemma LeaveKeepsItems(s: State, f: nat, s': State)
    requires |s.stages| == |s.filters| == |s'.stages| && Items(s) && s'.filters == s.filters && |s'.items| == |s.items|
    requires f < |s.filters| && forall y | 0 <= y < |s.items| :: MovedAlong(s.items[y], s'.items[y], f)
    requires forall g | 0 <= g < |s.stages| :: s'.stages[g].arrived == s.stages[g].arrived
    ensures Items(s')
  {
    forall y | 0 <= y < |s'.items| ensures ItemOk(s', y) {
      assert ItemOk(s, y) && MovedAlong(s.items[y], s'.items[y], f);
      forall g: nat | Serial(s'.filters, g) && Entered(s'.items[y].place, g) ensures Came(s'.stages[g], y) {
        assert Came(s.stages[g], y);
      }
    }
  }

  lemma LeaveKeepsInv(s: State, x: nat, s': State)
    requires Inv(s) && LeaveStep(s, x) == Some(s')
    ensures Inv(s')
  {
    hide T.Inv, Carried, Items, Stages, Counter, S.Leave;
    LeaveKeepsStages(s, x, s');
    ItemsLeft(s, x, s');
    LeaveKeepsItems(s, s.items[x].place.f, s');
    FlowKeepsCarried(s, s');
    FlowKeepsCounter(s, s');
  }

  // ---------------------------------------------------------------- the tasks

  lemma StoreKeepsInv(s: State, i: nat, s': State)
    requires Inv(s) && StoreStep(s, i) == Some(s')
    ensures Inv(s')
  {
    hide T.Inv;
    var x := s.carry[i];
    assert ItemOk(s, x);
    FlowKeepsCarried(s, s');
    StoreKeepsStages(s, x, s');
    forall y | 0 <= y < |s'.items| ensures ItemOk(s', y) {
      assert ItemOk(s, y);
    }
  }

  lemma StoreKeepsStages(s: State, x: nat, s': State)
    requires Shape(s) && Stages(s) && s'.filters == s.filters && s'.stages == s.stages && x < |s.items| == |s'.items|
    requires s.items[x].place.Loading? && !s.items[x].ready && s'.items == s.items[x := s'.items[x]]
    requires s'.items[x].place == Fresh
    ensures Stages(s')
  {
    hide StageOk;
    forall g: nat | Serial(s'.filters, g) ensures StageOk(s'.stages[g], g, s'.items) {
      StageKept(s.stages[g], g, s.items, s'.items);
    }
  }

  /** What a step of a task does to its place in the pipeline. */
  lemma PcEffect(t: T.State, e: T.Event, t': T.State)
    requires T.Step(t, e) == Some(t') && e.i < |t.tasks| <= |t'.tasks| && PcOk(t.serial, t.tasks[e.i])
    ensures t'.serial == t.serial && t'.single == t.single
    ensures var pc, pc' := t.tasks[e.i], t'.tasks[e.i];
            && PcOk(t.serial, pc')
            && (Reads(t, pc, e.item) ==> !Holds(t.serial, pc) && pc' == if pc == T.Reading then T.Flow else T.HasItem)
            && (pc == T.Flow ==> !Holds(t.serial, pc'))
            && (pc == T.HasItem ==> pc' == if t.single then T.Start else if t.available > 1 then T.Spawning else T.Flow)
            && (pc == T.Spawning && t.serial ==> pc' == T.Flow)
            && (!Holds(t.serial, pc) && !Reads(t, pc, e.item) ==> !Holds(t.serial, pc'))
  {
  }

  /** Everything but task `i` and its item stays. */
  predicate OnlyTask(s: State, i: nat, s': State) {
    && i < |s.carry| == |s.tokens.tasks| && |s.carry| <= |s'.carry| == |s'.tokens.tasks|
    && s'.filters == s.filters && s'.stages == s.stages && s'.high == s.high
    && s'.tokens.serial == s.tokens.serial && s'.tokens.single == s.tokens.single
    && (forall j | 0 <= j < |s.carry| && j != i :: s'.tokens.tasks[j] == s.tokens.tasks[j] && s'.carry[j] == s.carry[j])
    && (forall j | |s.carry| <= j < |s'.carry| :: s'.tokens.tasks[j] == T.Start)
    && PcOk(s.tokens.serial, s'.tokens.tasks[i])
  }

  predicate HoldsNow(s: State, i: nat)
    requires i < |s.tokens.tasks|
  {
    Holds(s.tokens.serial, s.tokens.tasks[i])
  }

  /** The task reads an item, carries it to the first filter or on, brings it out, or has none. */
  predicate ItemStep(s: State, i: nat, s': State)
    requires i < |s.carry| && i < |s'.carry| && i < |s.tokens.tasks| && i < |s'.tokens.tasks| && |s.filters| > 0
  {
    var x, pc, pc' := s.carry[i], s.tokens.tasks[i], s'.tokens.tasks[i];
    || (&& !HoldsNow(s, i) && HoldsNow(s', i) && s'.carry[i] == |s.items| && s'.items == s.items + [NewItem(s, pc)]
        && FitsPc(pc', NewItem(s, pc).place) && (pc == T.Reading || T.Reader(pc) == 1))
    || (&& s'.carry[i] == x && s'.items == s.items && HoldsNow(s', i) == HoldsNow(s, i)
        && (HoldsNow(s, i) && x < |s.items| ==> FitsPc(pc', s.items[x].place)))
    || (&& s'.carry[i] == x && HoldsNow(s, i) && !HoldsNow(s', i) && s'.items == Moved(s.items, x, Out)
        && PlaceOf(s, x) == if |s.filters| == 1 && pc == T.HasItem then Fresh else Arriving(|s.filters|))
    || (&& s'.carry[i] == x && HoldsNow(s, i) && pc' == T.Flow && s'.items == Moved(s.items, x, Arriving(1))
        && PlaceOf(s, x) == Fresh)
  }

  lemma TaskEffect(s: State, i: nat, item: bool, declaresEnd: bool, s': State)
    requires Shape(s) && i < |s.carry| && CarryOk(s, i) && TaskStep(s, i, item, declaresEnd) == Some(s')
    ensures OnlyTask(s, i, s') && ItemStep(s, i, s')
  {
    hide T.Step;
    T.StepShape(s.tokens, T.Move(i, item, declaresEnd), s'.tokens);
    PcEffect(s.tokens, T.Move(i, item, declaresEnd), s'.tokens);
  }

  lemma TaskKeepsCarried(s: State, i: nat, s': State)
    requires Shape(s) && Carried(s) && OnlyTask(s, i, s') && ItemStep(s, i, s')
    ensures Carried(s')
  {
    assert CarryOk(s, i);
    forall j | 0 <= j < |s'.carry| ensures CarryOk(s', j) {
      if j < |s.carry| {
        assert CarryOk(s, j);
        assert j != i && HoldsNow(s, j) && HoldsNow(s, i) ==> Carries(s, j, s.carry[j]) && Carries(s, i, s.carry[i]);
      }
    }
    forall j, k, x | Carries(s', j, x) && Carries(s', k, x) ensures j == k {
      CarriesBefore(s, i, s', j, x);
      CarriesBefore(s, i, s', k, x);
    }
    forall x | 0 <= x < |s'.items| && !s'.items[x].place.Out? ensures Held(s', x) {
      TaskKeepsHeld(s, i, s', x);
    }
  }

  lemma CarriesBefore(s: State, i: nat, s': State, j: nat, x: nat)
    requires Shape(s) && Carried(s) && OnlyTask(s, i, s') && ItemStep(s, i, s') && Carries(s', j, x)
    ensures if x < |s.items| then Carries(s, j, x) else j == i
  {
    if j < |s.carry| {
      assert CarryOk(s, j);
    }
  }

  lemma TaskKeepsHeld(s: State, i: nat, s': State, x: nat)
    requires Shape(s) && Carried(s) && OnlyTask(s, i, s') && ItemStep(s, i, s')
    requires x < |s'.items| && !s'.items[x].place.Out?
    ensures Held(s', x)
  {
    if x < |s.items| {
      assert Held(s, x);
      var j :| Carries(s, j, x);
      assert Carries(s', j, x);
    } else {
      assert Carries(s', i, x);
    }
  }

  lemma TaskKeepsStages(s: State, i: nat, s': State)
    requires Shape(s) && Items(s) && Stages(s) && OnlyTask(s, i, s') && CarryOk(s, i) && ItemStep(s, i, s')
    ensures Stages(s')
  {
    hide StageOk, Items;
    forall g: nat | Serial(s'.filters, g) ensures StageOk(s'.stages[g], g, s'.items) {
      StageKept(s.stages[g], g, s.items, s'.items);
    }
  }

  lemma TaskKeepsItems(s: State, i: nat, s': State)
    requires Shape(s) && Items(s) && OnlyTask(s, i, s') && ItemStep(s, i, s')
    requires PcOk(s.tokens.serial, s.tokens.tasks[i])
    ensures Items(s')
  {
    hide Came;
    forall y | 0 <= y < |s'.items| ensures ItemOk(s', y) {
      if y < |s.items| {
        assert ItemOk(s, y);
      }
    }
  }

  /** No other item is waiting for its token when one is read. */
  lemma NobodyLoads(s: State, i: nat, y: nat)
    requires Shape(s) && T.Inv(s.tokens) && Carried(s) && Items(s) && i < |s.carry| && y < |s.items|
    requires !HoldsNow(s, i) && (s.tokens.tasks[i] == T.Reading || T.Reader(s.tokens.tasks[i]) == 1)
    ensures !s.items[y].place.Loading?
  {
    hide T.Inv;
    assert CarryOk(s, i) && ItemOk(s, y);
    if s.items[y].place.Loading? {
      assert Held(s, y);
      var j :| Carries(s, j, y);
      assert CarryOk(s, j);
      if T.Reader(s.tokens.tasks[i]) == 1 { T.ReadersAreOne(s.tokens, i, j); }
    }
  }

  lemma TaskKeepsCounter(s: State, i: nat, s': State)
    requires Inv(s) && OnlyTask(s, i, s') && ItemStep(s, i, s')
    ensures Counter(s')
  {
    hide T.Inv, Stages;
    assert CarryOk(s, i);
    if |s'.items| > |s.items| {
      forall y | 0 <= y < |s.items| ensures !s.items[y].place.Loading? {
        NobodyLoads(s, i, y);
      }
    }
  }

  lemma TaskKeepsInv(s: State, i: nat, item: bool, declaresEnd: bool, s': State)
    requires Inv(s) && TaskStep(s, i, item, declaresEnd) == Some(s')
    ensures Inv(s')
  {
    hide T.Inv, T.Step, Items, Stages, Counter;
    assert CarryOk(s, i);
    TaskEffect(s, i, item, declaresEnd, s');
    T.StepKeepsInv(s.tokens, T.Move(i, item, declaresEnd), s'.tokens);
    TaskKeepsCarried(s, i, s');
    TaskKeepsStages(s, i, s');
    TaskKeepsItems(s, i, s');
    TaskKeepsCounter(s, i, s');
  }

  // ---------------------------------------------------------------- every run

  lemma StepKeepsInv(s: State, e: Event, s': State)
    requires Inv(s) && Step(s, e) == Some(s')
    ensures Inv(s')
  {
    hide Inv, TaskStep, StoreStep, EnterStep, LeaveStep;
    match e
    case Task(i, item, declaresEnd) => TaskKeepsInv(s, i, item, declaresEnd, s');
    case StoreToken(i) => StoreKeepsInv(s, i, s');
    case Enter(x) => EnterKeepsInv(s, x, s');
    case Leave(x) => LeaveKeepsInv(s, x, s');
  }

  lemma InitInv(s: State)
    requires Init(s)
    ensures Inv(s)
  {
    T.RunKeepsInv([s.tokens], 0);
    forall f: nat | Serial(s.filters, f) ensures StageOk(s.stages[f], f, s.items) {
      assert s.stages[f].arrived == map[];
    }
  }

  lemma RunKeepsInv(run: seq<State>, k: nat)
    requires IsRun(Init, Next, run) && k < |run|
    ensures Inv(run[k])
  {
    hide Init, Inv, Step;
    forall s | Init(s) ensures Inv(s) {
      InitInv(s);
    }
    forall s, s' | Inv(s) && Next(s, s') ensures Inv(s') {
      var e :| Step(s, e) == Some(s');
      StepKeepsInv(s, e, s');
    }
    InvariantInRun(Init, Next, Inv, run, k);
  }

  // ---------------------------------------------------------------- theorems

  /** In every step of every run each buffer stands still or makes a step of SerialStage: no token comes to it
      twice, and what leaves it is what was running. */
  lemma StagesAreRuns(run: seq<State>, k: nat, f: nat)
    requires IsRun(Init, Next, run) && k + 1 < |run| && Serial(run[k].filters, f)
    ensures f < |run[k].stages| && f < |run[k + 1].stages|
    ensures run[k + 1].stages[f] == run[k].stages[f] || S.Next(run[k].stages[f], run[k + 1].stages[f])
  {
    hide Init, Inv, Step;
    RunKeepsInv(run, k);
    assert Next(run[k], run[k + 1]);
    var e :| Step(run[k], e) == Some(run[k + 1]);
    StageSteps(run[k], e, run[k + 1], f);
  }

  lemma StageSteps(s: State, e: Event, s': State, f: nat)
    requires Inv(s) && Step(s, e) == Some(s') && Serial(s.filters, f)
    ensures f < |s.stages| == |s'.stages|
    ensures s'.stages[f] == s.stages[f] || S.Next(s.stages[f], s'.stages[f])
  {
    hide T.Inv, T.Step, S.Inv, S.Enter, S.Leave;
    var stage := s.stages[f];
    if e.Enter? && s.items[e.x].place.f == f {
      ArrivalIsAdmissible(s, e.x);
      assert S.Step(stage, S.Arrive(InfoOf(s, e.x))) == Some(s'.stages[f]);
    } else if e.Leave? && s.items[e.x].place.f == f {
      ItemsLeft(s, e.x, s');
      var t := CameWith(s, f, e.x);
      assert S.Step(stage, S.Finish) == Some(s'.stages[f]);
    }
  }

  /** All in-order filters run on the items in one and the same order, each item with the number it got: what
      filter `g` has run on is an initial part of what an earlier in-order filter `f` has run on, and of the
      items in the order of input if the input filter is in order. */
  lemma SameOrderEverywhere(run: seq<State>, k: nat, f: nat, g: nat, i: nat)
    requires IsRun(Init, Next, run) && k < |run|
    requires Serial(run[k].filters, f) && Serial(run[k].filters, g) && f <= g
    requires run[k].filters[f] == run[k].filters[g] == InOrder
    requires |run[k].stages| == |run[k].filters| && i < |run[k].stages[g].started|
    ensures i < |run[k].stages[f].started| && run[k].stages[g].started[i] == run[k].stages[f].started[i]
    ensures run[k].filters[0] == InOrder ==> run[k].stages[g].started[i] == (i, i)
  {
    RunKeepsInv(run, k);
    hide Init, Next, IsRun, T.Inv, Carried;
    var s := run[k];
    var x := s.stages[g].arrived[i];
    assert StageOk(s.stages[g], g, s.items) && StageOk(s.stages[f], f, s.items);
    assert TokenOk(s.stages[g], g, i, s.items) && ItemOk(s, x);
    assert i !in s.stages[g].buffer.parked;
    var t := CameWith(s, f, x);
  }

  /** No item comes to a serial filter twice. */
  lemma RunsOnce(run: seq<State>, k: nat, f: nat, i: nat, j: nat)
    requires IsRun(Init, Next, run) && k < |run| && Serial(run[k].filters, f) && |run[k].stages| == |run[k].filters|
    requires i < |run[k].stages[f].started| && j < |run[k].stages[f].started|
    requires run[k].stages[f].started[i].1 == run[k].stages[f].started[j].1
    ensures i == j
  {
    RunKeepsInv(run, k);
    hide Init, Next, IsRun;
    assert StageOk(run[k].stages[f], f, run[k].items);
  }

  /** When all tasks are finished, the input has ended, and every item that was read has run through every serial
      filter, exactly once, and left the pipe. */
  lemma EverythingComesOut(run: seq<State>, k: nat, f: nat, x: nat)
    requires IsRun(Init, Next, run) && k < |run| && Serial(run[k].filters, f) && x < |run[k].items|
    requires forall i | 0 <= i < |run[k].tokens.tasks| :: run[k].tokens.tasks[i] == T.Gone
    ensures run[k].tokens.ended && run[k].items[x].place == Out
    ensures f < |run[k].stages| && run[k].stages[f].buffer.parked == map[]
    ensures |run[k].stages[f].started| == |run[k].items|
    ensures exists i :: 0 <= i < |run[k].stages[f].started| && run[k].stages[f].started[i].1 == x
  {
    RunKeepsInv(run, k);
    hide Init, Next, IsRun;
    T.AllGone(run[k].tokens);
    AllOut(run[k], f);
    var t := CameWith(run[k], f, x);
  }

  /** With no task left, a stage has run on as many tokens as there are items. */
  lemma AllOut(s: State, f: nat)
    requires Inv(s) && Serial(s.filters, f) && forall i | 0 <= i < |s.tokens.tasks| :: s.tokens.tasks[i] == T.Gone
    ensures forall x | 0 <= x < |s.items| :: s.items[x].place == Out
    ensures s.stages[f].buffer.parked == map[] && |s.stages[f].started| == |s.items|
    ensures forall t :: t in s.stages[f].arrived <==> 0 <= t < |s.stages[f].started|
  {
    hide T.Inv;
    var stage := s.stages[f];
    forall x | 0 <= x < |s.items| ensures s.items[x].place == Out {
      assert s.items[x].place != Out ==> Held(s, x);
    }
    assert StageOk(stage, f, s.items);
    forall t | t in stage.arrived ensures t !in stage.buffer.parked && stage.running != Some(t) {
      assert TokenOk(stage, f, t, s.items);
    }
    var objects := seq(|stage.started|, i requires 0 <= i < |stage.started| => stage.started[i].1);
    forall i | 0 <= i < |objects| ensures objects[i] < |s.items| {
      assert TokenOk(stage, f, i, s.items);
    }
    forall x | 0 <= x < |s.items| ensures x in objects {
      var t := CameWith(s, f, x);
      assert objects[t] == x;
    }
    AsManyAs(objects, |s.items|);
  }

  /** Distinct numbers below `n`, all of them: there are `n`. */
  lemma {:induction false} AsManyAs(objects: seq<nat>, n: nat)
    requires forall i, j | 0 <= i < j < |objects| :: objects[i] != objects[j]
    requires forall i | 0 <= i < |objects| :: objects[i] < n
    requires forall x | 0 <= x < n :: x in objects
    ensures |objects| == n
  {
    if n > 0 {
      assert n - 1 in objects;
      var i :| 0 <= i < |objects| && objects[i] == n - 1;
      var rest := objects[..i] + objects[i + 1..];
      forall x | 0 <= x < n - 1 ensures x in rest {
        assert x in objects;
        var j :| 0 <= j < |objects| && objects[j] == x;
        assert rest[if j < i then j else j - 1] == x;
      }
      AsManyAs(rest, n - 1);
    }
  }

  // ---------------------------------------------------------------- no deadlock

  /** Can be moved on by itself. */
  predicate Mobile(p: Place) {
    !p.Parked? && !p.Out?
  }

  /** The item that has the token for which stage `f` waits. */
  lemma AwaitedItem(s: State, f: nat, x: nat) returns (y: nat)
    requires Shape(s) && Items(s) && Stages(s) && x < |s.items| && s.items[x].place == Parked(f)
    requires Serial(s.filters, f) && s.stages[f].running == None
    ensures y < |s.items| && !Entered(s.items[y].place, f)
  {
    var stage, first := s.stages[f], FirstOrdered(s.filters);
    var low := stage.buffer.low;
    var t := CameWith(s, f, x);
    assert StageOk(stage, f, s.items) && ItemOk(s, x);
    assert low < t && low !in stage.arrived && !stage.assigns && first < f;
    if first == 0 {
      y := low;
    } else {
      var u := CameWith(s, first, x);
      assert StageOk(s.stages[first], first, s.items);
      assert low in s.stages[first].arrived;
      y := s.stages[first].arrived[low];
      assert TokenOk(s.stages[first], first, low, s.items);
    }
    assert ItemOk(s, y);
    if Entered(s.items[y].place, f) {
      var v := CameWith(s, f, y);
    }
  }

  /** Where an item is parked, another one can move, here or before. */
  lemma {:induction false} ParkedWaitsForMobile(s: State, f: nat, x: nat) returns (y: nat)
    requires Shape(s) && Items(s) && Stages(s) && x < |s.items| && s.items[x].place == Parked(f)
    ensures y < |s.items| && Mobile(s.items[y].place)
    decreases f
  {
    assert ItemOk(s, x) && StageOk(s.stages[f], f, s.items);
    if s.stages[f].running.Some? {
      y := s.stages[f].arrived[s.stages[f].running.value];
      assert TokenOk(s.stages[f], f, s.stages[f].running.value, s.items);
    } else {
      y := AwaitedItem(s, f, x);
      if s.items[y].place.Parked? {
        y := ParkedWaitsForMobile(s, s.items[y].place.f, y);
      }
    }
  }

  lemma MobileCanMove(s: State, x: nat) returns (e: Event)
    requires Shape(s) && Carried(s) && Items(s) && x < |s.items| && Mobile(s.items[x].place)
    ensures Step(s, e).Some?
  {
    assert ItemOk(s, x) && Held(s, x);
    var i :| Carries(s, i, x);
    assert CarryOk(s, i);
    match s.items[x].place
    case Loading(_) => e := StoreToken(i);
    case Fresh => e := Task(i, false, false);
    case Arriving(f) => e := if f < |s.filters| then Enter(x) else Task(i, false, false);
    case Running(_) => e := Leave(x);
  }

  /** The pipeline is never stuck: while some task is not finished, some step can be made. */
  lemma NeverStuck(run: seq<State>, k: nat, i: nat) returns (e: Event)
    requires IsRun(Init, Next, run) && k < |run| && i < |run[k].tokens.tasks| && run[k].tokens.tasks[i] != T.Gone
    ensures Step(run[k], e).Some?
  {
    hide Init, Next, IsRun, T.Inv, Step;
    RunKeepsInv(run, k);
    var s := run[k];
    assert CarryOk(s, i);
    if HoldsNow(s, i) {
      var x := s.carry[i];
      if s.items[x].place.Parked? { x := ParkedWaitsForMobile(s, s.items[x].place.f, x); }
      e := MobileCanMove(s, x);
    } else {
      e := Task(i, false, false);
      IdleCanMove(s, i);
    }
  }

  lemma IdleCanMove(s: State, i: nat)
    requires Shape(s) && i < |s.carry| && !HoldsNow(s, i) && s.tokens.tasks[i] != T.Gone
    ensures Step(s, Task(i, false, false)).Some?
  {
  }

  // ---------------------------------------------------------------- the pipeline comes to an end

  /** How far an item has to go. */
  function Road(n: nat, p: Place): int {
    match p
    case Loading(_) => 3 * n + 4
    case Fresh => 3 * n + 3
    case Arriving(f) => 3 * (n - f) + 2
    case Parked(f) => 3 * (n - f) + 1
    case Running(f) => 3 * (n - f)
    case Out => 0
  }

  function Roads(n: nat, items: seq<Item>): int {
    if items == [] then 0 else Roads(n, items[..|items| - 1]) + Road(n, items[|items| - 1].place)
  }

  lemma {:induction false} RoadsShrink(n: nat, items: seq<Item>, items': seq<Item>, x: int)
    requires |items'| == |items|
    requires forall y | 0 <= y < |items| :: Road(n, items'[y].place) <= Road(n, items[y].place)
    requires 0 <= x < |items| ==> Road(n, items'[x].place) < Road(n, items[x].place)
    ensures Roads(n, items') <= Roads(n, items) && (0 <= x < |items| ==> Roads(n, items') < Roads(n, items))
  {
    if items != [] {
      RoadsShrink(n, items[..|items| - 1], items'[..|items| - 1], x);
    }
  }

  lemma {:induction false} RoadsNotNegative(s: State, m: nat)
    requires |s.stages| == |s.filters| && Items(s) && m <= |s.items|
    ensures Roads(|s.filters|, s.items[..m]) >= 0
  {
    if m > 0 {
      RoadsNotNegative(s, m - 1);
      assert ItemOk(s, m - 1) && s.items[..m][..m - 1] == s.items[..m - 1];
    }
  }

  /** What is left to do once the input has ended: every step of a task may still bring an item into the pipe. */
  ghost function Left(s: State): int {
    (3 * |s.filters| + 5) * Sum(s.tokens.tasks, T.Left) + Roads(|s.filters|, s.items)
  }

  lemma FlowShrinks(s: State, e: Event, s': State)
    requires Inv(s) && Step(s, e) == Some(s') && !e.Task?
    ensures s'.tokens == s.tokens && s'.filters == s.filters && Roads(|s.filters|, s'.items) < Roads(|s.filters|, s.items)
  {
    hide T.Inv, Carried, Counter, S.Inv, S.Enter, S.Leave;
    match e
    case StoreToken(i) => RoadsShrink(|s.filters|, s.items, s'.items, s.carry[i]);
    case Enter(x) =>
      EntersOnlyOne(s, x, s');
      RoadsShrink(|s.filters|, s.items, s'.items, x);
    case Leave(x) =>
      ItemsLeft(s, x, s');
      assert s'.items[x].place != s.items[x].place by { LeaverMoves(s, x, s'); }
      RoadsShrink(|s.filters|, s.items, s'.items, x);
  }

  lemma LeaverMoves(s: State, x: nat, s': State)
    requires Shape(s) && Items(s) && Stages(s) && LeaveStep(s, x) == Some(s') && |s'.items| == |s.items|
    ensures x < |s.items| && s'.items[x].place != s.items[x].place
  {
    hide S.Leave;
    var f := s.items[x].place.f;
    assert ItemOk(s, x);
    if s.filters[f] != Parallel {
      var t := CameWith(s, f, x);
      var low := s.stages[f].buffer.low + 1;
      assert low in s.stages[f].buffer.parked ==> TokenOk(s.stages[f], f, low, s.items);
    }
  }

  lemma TaskAddsLittle(s: State, i: nat, s': State)
    requires Shape(s) && Carried(s) && OnlyTask(s, i, s') && ItemStep(s, i, s') && s'.filters == s.filters
    ensures Roads(|s.filters|, s'.items) <= Roads(|s.filters|, s.items) + 3 * |s.filters| + 4
  {
    var n, x := |s.filters|, s.carry[i];
    assert CarryOk(s, i);
    if s'.items == s.items {
    } else if s'.items == s.items + [NewItem(s, s.tokens.tasks[i])] {
      assert s'.items[..|s.items|] == s.items;
    } else {
      RoadsShrink(n, s.items, s'.items, -1);
    }
  }

  lemma {:induction false} Weighed(a: int, b: int, c: nat)
    requires b < a
    ensures c * b <= c * a - c
  {
    if c > 0 {
      Weighed(a, b, c - 1);
      assert c * b == (c - 1) * b + b && c * a == (c - 1) * a + a;
    }
  }

  lemma StepShrinks(s: State, e: Event, s': State)
    requires Inv(s) && Step(s, e) == Some(s') && s.tokens.ended && !T.SerialRead(s.tokens, s'.tokens)
    ensures s'.tokens.ended && Left(s') < Left(s)
  {
    hide T.Inv, T.Step, T.SerialRead, Sum, Roads, Items, Stages, Counter;
    if e.Task? {
      hide Shape, Carried;
      T.StepDrains(s.tokens, T.Move(e.i, e.item, e.declaresEnd), s'.tokens);
      TaskEffect(s, e.i, e.item, e.declaresEnd, s');
      TaskAddsLittle(s, e.i, s');
      Weighed(Sum(s.tokens.tasks, T.Left), Sum(s'.tokens.tasks, T.Left), 3 * |s.filters| + 5);
    } else {
      FlowShrinks(s, e, s');
    }
  }

  lemma LeftNotNegative(s: State)
    requires Inv(s)
    ensures Left(s) >= 0
  {
    hide T.Inv, Carried, Items, Stages, Counter, Sum, Roads;
    RoadsNotNegative(s, |s.items|);
    assert s.items[..|s.items|] == s.items;
    SumNonNegative(s.tokens.tasks, T.Left);
    Weighed(Sum(s.tokens.tasks, T.Left), -1, 3 * |s.filters| + 5);
  }

  /** Once the input has ended, and a serial input filter returns nothing more, the whole pipeline comes to an end: the
      number of steps of all its tasks and items together is bounded in advance. It does not get stuck before
      all tasks are finished (NeverStuck), and then everything has come out (EverythingComesOut). */
  lemma {:induction false} ComesToAnEnd(run: seq<State>, j: nat, k: nat)
    requires IsRun(Init, Next, run) && j <= k < |run| && run[j].tokens.ended
    requires forall m | j <= m < |run| - 1 :: m < k ==> !T.SerialRead(run[m].tokens, run[m + 1].tokens)
    ensures run[k].tokens.ended && 0 <= Left(run[k]) <= Left(run[j]) - (k - j)
    decreases k
  {
    hide Init, Step, Inv, T.SerialRead, Left;
    RunKeepsInv(run, k);
    LeftNotNegative(run[k]);
    if j < k {
      ComesToAnEnd(run, j, k - 1);
      RunKeepsInv(run, k - 1);
      assert Next(run[k - 1], run[k - 1 + 1]) && !T.SerialRead(run[k - 1].tokens, run[k - 1 + 1].tokens);
      var e :| Step(run[k - 1], e) == Some(run[k]);
      StepShrinks(run[k - 1], e, run[k]);
    }
  }
}

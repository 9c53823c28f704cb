/**
 * A serial filter of a pipeline: tokens that arrive early are parked until their turn comes. This module
 * has the buffer as a value and every run of a stage; the ring array that implements it is in InputBuffer.
 */
module SerialStage {
  import opened Behaviors

  /** What travels through the pipeline. `ready`: the token has been assigned. */
  datatype Info = Info(item: nat, token: nat, ready: bool)

  /** `low` is the lowest token that may start; `high` numbers the items of a stage that assigns tokens. */
  datatype Buffer = Buffer(ordered: bool, low: nat, high: nat, parked: map<nat, Info>)

  /** The token under which `info` enters the buffer. */
  function TokenOf(b: Buffer, info: Info): nat {
    if b.ordered && info.ready then info.token else b.high
  }

  function Stamped(b: Buffer, info: Info): Info {
    if b.ordered && !info.ready then info.(token := b.high, ready := true) else info
  }

  /** try_put_token: parks every token but `low`. */
  function Put(b: Buffer, info: Info): Buffer {
    var token := TokenOf(b, info);
    var b' := if b.ordered && info.ready then b else b.(high := b.high + 1);
    if token != b.low then b'.(parked := b.parked[token := Stamped(b, info)]) else b'
  }

  /** try_to_spawn_task_for_next_token: the turn passes to the next token. */
  function Advance(b: Buffer): Buffer {
    b.(low := b.low + 1, parked := b.parked - {b.low + 1})
  }

  // ---------------------------------------------------------------- a stage at work

  /** `assigns`: the stage numbers the items itself; otherwise they come with distinct tokens.
      `arrived`: the object that came with each token; `started`: tokens and objects the filter has been
      run on, in order. */
  datatype State = State(
    buffer: Buffer, assigns: bool, running: Option<nat>, started: seq<(nat, nat)>, arrived: map<nat, nat>)

  datatype Event = Arrive(info: Info) | Finish

  predicate Init(s: State) {
    && s.buffer == Buffer(s.buffer.ordered, 0, 0, map[])
    && (!s.assigns ==> s.buffer.ordered)
    && s.running == None && s.started == [] && s.arrived == map[]
  }

  /** Arrivals that the rest of the pipeline can produce, as module Pipeline proves: a token is used once. */
  predicate Admissible(s: State, info: Info) {
    if s.assigns then !(s.buffer.ordered && info.ready) else info.ready && info.token !in s.arrived
  }

  function Start(s: State, token: nat, item: nat): State {
    s.(running := Some(token), started := s.started + [(token, item)])
  }

  /** An item comes to the stage; it is parked, or its token has the turn. */
  function Enter(s: State, info: Info): State {
    var token := TokenOf(s.buffer, info);
    var s' := s.(buffer := Put(s.buffer, info), arrived := s.arrived[token := info.item]);
    if token == s.buffer.low then Start(s', token, info.item) else s'
  }

  /** The filter has finished its token; the next one starts if it is there. */
  function Leave(s: State): State {
    var s' := s.(buffer := Advance(s.buffer), running := None);
    var low := s'.buffer.low;
    if low in s.buffer.parked then Start(s', low, s.buffer.parked[low].item) else s'
  }

  function Step(s: State, e: Event): Option<State> {
    match e
    case Arrive(info) => if Admissible(s, info) then Some(Enter(s, info)) else None
    case Finish => if s.running == None then None else Some(Leave(s))
  }

  ghost predicate Next(s: State, s': State) {
    exists e :: Step(s, e) == Some(s')
  }

  ghost predicate Inv(s: State) {
    var b := s.buffer;
    && (!s.assigns ==> b.ordered)
    && |s.started| == b.low + (if s.running.Some? then 1 else 0)
    && (forall i | 0 <= i < |s.started| :: i in s.arrived && s.started[i] == (i, s.arrived[i]))
    && (s.running.Some? ==> s.running.value == b.low)
    && (forall t | t in b.parked :: t > b.low && t in s.arrived && b.parked[t].item == s.arrived[t])
    && (forall t | t in s.arrived :: t < |s.started| || t in b.parked)
    && (s.assigns ==> forall t :: t in s.arrived <==> 0 <= t < b.high)
  }

  /** The token of an arrival is new. */
  lemma NewToken(s: State, info: Info)
    requires Inv(s) && Admissible(s, info)
    ensures TokenOf(s.buffer, info) !in s.arrived && TokenOf(s.buffer, info) >= s.buffer.low
    ensures TokenOf(s.buffer, info) !in s.buffer.parked && s.running != Some(TokenOf(s.buffer, info))
    ensures TokenOf(s.buffer, info) == s.buffer.low ==> s.running == None
  {
    assert TokenOf(s.buffer, info) !in s.arrived;
  }

  lemma ArriveKeepsInv(s: State, info: Info, s': State)
    requires Inv(s) && Step(s, Arrive(info)) == Some(s')
    ensures Inv(s')
  {
    NewToken(s, info);
    var token := TokenOf(s.buffer, info);
    assert s'.arrived == s.arrived[token := info.item];
    assert token == s.buffer.low ==> s'.started == s.started + [(token, info.item)] && |s.started| == token;
    assert token != s.buffer.low ==> s'.started == s.started;
  }

  lemma FinishKeepsInv(s: State, s': State)
    requires Inv(s) && Step(s, Finish) == Some(s')
    ensures Inv(s')
  {
  }

  lemma StepKeepsInv(s: State, e: Event, s': State)
    requires Inv(s) && Step(s, e) == Some(s')
    ensures Inv(s')
  {
    hide Inv, Step;
    match e
    case Arrive(info) => ArriveKeepsInv(s, info, s');
    case Finish => FinishKeepsInv(s, s');
  }

  lemma RunKeepsInv(run: seq<State>, k: nat)
    requires IsRun(Init, Next, run) && k < |run|
    ensures Inv(run[k])
  {
    forall s, s' | Inv(s) && Next(s, s') ensures Inv(s') {
      var e :| Step(s, e) == Some(s');
      StepKeepsInv(s, e, s');
    }
    InvariantInRun(Init, Next, Inv, run, k);
  }

  /** For every order of arrival: the filter is run on tokens 0, 1, 2, ..., each with the object that
      came with it, at most one at a time, the running one being `low`; `low` is never parked; a token
      that has arrived has been started or is parked; and if `low` has arrived, it is running. */
  lemma SerialOrder(run: seq<State>, k: nat)
    requires IsRun(Init, Next, run) && k < |run|
    ensures forall i | 0 <= i < |run[k].started| ::
              i in run[k].arrived && run[k].started[i] == (i, run[k].arrived[i])
    ensures run[k].running.Some? ==> run[k].running.value == run[k].buffer.low
    ensures run[k].running.Some? <==> run[k].buffer.low in run[k].arrived
    ensures run[k].buffer.low !in run[k].buffer.parked
    ensures forall t :: t in run[k].arrived <==> 0 <= t < |run[k].started| || t in run[k].buffer.parked
    ensures forall t | t in run[k].buffer.parked :: t >= |run[k].started|
  {
    RunKeepsInv(run, k);
  }

  /** No arrival finds its token already passed or already in use. */
  lemma ArrivalsAreNew(run: seq<State>, k: nat, info: Info)
    requires IsRun(Init, Next, run) && k < |run| && Admissible(run[k], info)
    ensures var token := TokenOf(run[k].buffer, info);
            token >= run[k].buffer.low && token !in run[k].buffer.parked && run[k].running != Some(token)
  {
    RunKeepsInv(run, k);
    NewToken(run[k], info);
  }

  /** When everything that was to come, tokens 0 to n - 1, has arrived and nothing runs, all have been run. */
  lemma EverythingRuns(run: seq<State>, k: nat, n: nat)
    requires IsRun(Init, Next, run) && k < |run| && run[k].running == None
    requires forall t :: t in run[k].arrived <==> 0 <= t < n
    ensures |run[k].started| == n && run[k].buffer.parked == map[]
    ensures forall i | 0 <= i < n :: run[k].started[i] == (i, run[k].arrived[i])
  {
    RunKeepsInv(run, k);
    var s := run[k];
    assert s.buffer.low !in s.arrived;
    assert s.buffer.low > 0 ==> s.buffer.low - 1 in s.arrived;
  }
}

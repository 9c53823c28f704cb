/**
 * A proxied task sits in the task pool of its sender and in the mailbox of its addressee. One tagged word
 * decides which of the two takers gets the task, and which frees the proxy. Each place gives the proxy
 * away at most once, as module ProxiedTasks proves, so the machine has two takers that race.
 */
module TaskProxy {
  import opened Behaviors

  const POOL_BIT := 1
  const MAILBOX_BIT := 2
  const LOCATION_MASK := 3

  /** Addresses of tasks leave the two low-order bits free and are never null. */
  predicate IsAddress(t: nat) {
    t > 0 && t % 4 == 0
  }

  predicate IsShared(word: nat) {
    word % 4 == LOCATION_MASK
  }

  function TaskPtr(word: nat): nat {
    word - word % 4
  }

  datatype Side = Pool | Mailbox

  function FromBit(side: Side): nat {
    if side == Pool then POOL_BIT else MAILBOX_BIT
  }

  function CleanerBit(side: Side): nat {
    LOCATION_MASK - FromBit(side)
  }

  function Other(side: Side): Side {
    if side == Pool then Mailbox else Pool
  }

  /** `Away`: the place still holds the proxy. `Free`: extraction failed, the proxy is to be freed. */
  datatype Pc = Away | Load | Cas(seen: nat) | Got(task: nat) | Recheck | Free | Freed

  datatype State = State(task: nat, word: nat, pool: Pc, mailbox: Pc, frees: nat)

  predicate Init(s: State) {
    IsAddress(s.task) && s == State(s.task, s.task + LOCATION_MASK, Away, Away, 0)
  }

  function At(s: State, side: Side): Pc {
    if side == Pool then s.pool else s.mailbox
  }

  function Put(s: State, side: Side, pc: Pc): State {
    if side == Pool then s.(pool := pc) else s.(mailbox := pc)
  }

  /** One atomic access of the taker on this side. */
  function Step(s: State, side: Side): Option<State> {
    match At(s, side)
    case Away => Some(Put(s, side, Load))
    case Load => Some(Put(s, side, if s.word != FromBit(side) then Cas(s.word) else Recheck))
    case Cas(seen) =>
      if s.word == seen then Some(Put(s, side, Got(TaskPtr(seen))).(word := CleanerBit(side)))
      else Some(Put(s, side, Recheck))
    case Recheck => Some(Put(s, side, Free))
    case Free => Some(Put(s, side, Freed).(frees := s.frees + 1))
    case Got(_) => None
    case Freed => None
  }

  ghost predicate Next(s: State, s': State) {
    exists side :: Step(s, side) == Some(s')
  }

  /** The taker may still touch the proxy. */
  predicate Touches(pc: Pc) {
    pc == Load || pc.Cas? || pc == Recheck || pc == Free
  }

  predicate Lost(pc: Pc) {
    pc == Recheck || pc == Free || pc == Freed
  }

  predicate SideInv(s: State, side: Side) {
    var pc, other := At(s, side), At(s, Other(side));
    && (pc.Cas? ==> pc.seen == s.task + LOCATION_MASK)
    && (pc.Got? ==> pc.task == s.task && !other.Got?)
    && (Lost(pc) ==> other.Got?)
    && (s.word == FromBit(side) <==> other.Got?)
  }

  predicate Inv(s: State) {
    && IsAddress(s.task)
    && (s.word == s.task + LOCATION_MASK || s.word == POOL_BIT || s.word == MAILBOX_BIT)
    && SideInv(s, Pool) && SideInv(s, Mailbox)
    && s.frees == (if s.pool == Freed then 1 else 0) + (if s.mailbox == Freed then 1 else 0)
  }

  lemma StepKeepsInv(s: State, side: Side, s': State)
    requires Inv(s) && Step(s, side) == Some(s')
    ensures Inv(s')
  {
    assert SideInv(s, side) && SideInv(s, Other(side));
  }

  lemma RunKeepsInv(run: seq<State>, k: nat)
    requires IsRun(Init, Next, run) && k < |run|
    ensures Inv(run[k])
  {
    forall s, s' | Inv(s) && Next(s, s') ensures Inv(s') {
      var side :| Step(s, side) == Some(s');
      StepKeepsInv(s, side, s');
    }
    InvariantInRun(Init, Next, Inv, run, k);
  }

  /** The two assertions inside extract_task, for the taker about to evaluate them. */
  predicate AssertionsHold(s: State, side: Side) {
    && (At(s, side) == Load ==> s.word == FromBit(side) || (IsShared(s.word) && TaskPtr(s.word) != 0))
    && (At(s, side) == Recheck ==> s.word == FromBit(side))
  }

  /** Exactly one place yields the task and exactly the other one frees the proxy: never two takers get
      it, whoever fails finds the other one served, and nobody frees what the other may still touch. */
  lemma ExactlyOneTaker(run: seq<State>, k: nat, side: Side)
    requires IsRun(Init, Next, run) && k < |run|
    ensures var s := run[k]; AssertionsHold(s, side)
    ensures var s := run[k]; At(s, side).Got? ==> At(s, side).task == s.task && !At(s, Other(side)).Got?
    ensures var s := run[k]; At(s, side) == Free || At(s, side) == Freed ==> At(s, Other(side)).Got?
    ensures var s := run[k]; s.frees <= 1 && (s.frees == 1 <==> s.pool == Freed || s.mailbox == Freed)
    ensures var s := run[k]; s.frees == 1 ==> !Touches(s.pool) && !Touches(s.mailbox) && s.pool != Away && s.mailbox != Away
  {
    RunKeepsInv(run, k);
    assert SideInv(run[k], side) && SideInv(run[k], Other(side));
    assert TaskPtr(run[k].task + LOCATION_MASK) == run[k].task;
  }

  /** When neither taker can move any more, one has the task and the other has freed the proxy, once. */
  lemma AtTheEnd(run: seq<State>)
    requires IsRun(Init, Next, run)
    requires var s := run[|run| - 1]; Step(s, Pool) == None && Step(s, Mailbox) == None
    ensures var s := run[|run| - 1];
            && s.frees == 1
            && ((s.pool == Got(s.task) && s.mailbox == Freed) || (s.mailbox == Got(s.task) && s.pool == Freed))
  {
    RunKeepsInv(run, |run| - 1);
  }
}

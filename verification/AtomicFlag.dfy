/** `atomic_flag` of arena.h: the steps of test_and_set and try_clear_if, one atomic access each. */
module AtomicFlag {

  /** `Busy` carries the address of a local variable of the clearing call. */
  datatype Word = Unset | Set | Busy(token: nat)

  /** Where a test_and_set call stands. */
  datatype SetPc = Load | Interrupt(seen: nat) | Claim | Finished(result: bool)

  function SetStep(word: Word, pc: SetPc): (Word, SetPc) {
    match pc
    case Load =>
      (word, match word case Set => Finished(false) case Unset => Claim case Busy(token) => Interrupt(token))
    case Interrupt(seen) =>
      if word == Busy(seen) then (Set, Finished(false))            // interrupted the clear transaction
      else if word != Unset then (word, Finished(false))     // lost the epoch
      else (word, Claim)                                     // too late, but still in the same epoch
    case Claim => if word == Unset then (Set, Finished(true)) else (word, Finished(false))
    case Finished(_) => (word, pc)
  }

  /** Where a try_clear_if call stands; `Scan(i)` evaluates the predicate, lanes below `i` were empty. */
  datatype ClearPc = Peek | Begin | Scan(i: nat) | Commit | Abort | Over(result: bool)

  predicate InTransaction(pc: ClearPc) {
    pc.Scan? || pc.Commit? || pc.Abort?
  }

  /** `busy` says whether the lane that Scan looks at holds work, `last` whether there is no such lane. */
  function ClearStep(word: Word, token: nat, pc: ClearPc, busy: bool, last: bool): (Word, ClearPc) {
    match pc
    case Peek => (word, if word == Set then Begin else Over(false))
    case Begin => if word == Set then (Busy(token), Scan(0)) else (word, Over(false))
    case Scan(i) => (word, if last then Commit else if busy then Abort else Scan(i + 1))
    case Commit => if word == Busy(token) then (Unset, Over(true)) else (word, Over(false))
    case Abort => (if word == Busy(token) then Set else word, Over(false))
    case Over(_) => (word, pc)
  }
}

/**
 * The loops around `read` and `write`. A system call may move some of the bytes asked for, report the end
 * of the stream, ask to be repeated, or fail; a script of such results stands for the other side.
 */
module NetIO {
  import opened Wire

  const MAX_RW_SIZE := 0x7fff_ffff

  datatype Result = Moved(count: nat) | End | Again | Broken

  /** The outcome of a whole loop: success or failure, the bytes moved, and the results not used up. */
  datatype Outcome = Outcome(ok: bool, moved: nat, rest: seq<Result>)

  /** What one call moves: at least one byte, at most the chunk and what is there. */
  function Clip(count: nat, len: nat, room: nat): (m: nat)
    requires len > 0 && room > 0
    ensures 0 < m <= len && m <= room && m <= MAX_RW_SIZE
  {
    var chunk := if MAX_RW_SIZE < len then MAX_RW_SIZE else len;
    var most := if chunk < room then chunk else room;
    if count == 0 then 1 else if count < most then count else most
  }

  /** The loop as a function of its results; an exhausted script is a closed stream. */
  function Transfer(script: seq<Result>, len: nat, room: nat): Outcome
    decreases |script|
  {
    if len == 0 then Outcome(true, 0, script)
    else if script == [] then Outcome(true, 0, [])
    else match script[0]
      case End => Outcome(true, 0, script[1..])
      case Broken => Outcome(false, 0, script[1..])
      case Again => Transfer(script[1..], len, room)
      case Moved(count) =>
        if room == 0 then Outcome(true, 0, script[1..])
        else
          var m := Clip(count, len, room);
          var tail := Transfer(script[1..], len - m, room - m);
          tail.(moved := m + tail.moved)
  }

  /** The loop moves no more than asked for and than there is; it fails only on a failing call, and only
      short of the goal; and if it reports success short of the goal, a call reported the end. */
  lemma {:induction false} TransferOutcome(script: seq<Result>, len: nat, room: nat)
    ensures var r := Transfer(script, len, room);
            && r.moved <= len && r.moved <= room
            && (!r.ok ==> r.moved < len && Broken in script)
            && (r.ok && r.moved < len ==> End in script || r.moved == room || r.rest == [])
    decreases |script|
  {
    if len > 0 && script != [] {
      match script[0]
      case Again => TransferOutcome(script[1..], len, room);
      case Moved(count) =>
        if room > 0 {
          var m := Clip(count, len, room);
          TransferOutcome(script[1..], len - m, room - m);
        }
      case _ =>
    }
  }

  // ---------------------------------------------------------------- why a loop stops

  predicate IsSuffix<T(==)>(a: seq<T>, b: seq<T>) {
    |a| <= |b| && b[|b| - |a|..] == a
  }

  lemma SuffixOfSuffix<T>(a: seq<T>, b: seq<T>, c: seq<T>)
    requires IsSuffix(a, b) && IsSuffix(b, c)
    ensures IsSuffix(a, c)
  {
    assert c[|c| - |a|..] == c[|c| - |b|..][|b| - |a|..];
  }

  function MoveCount(script: seq<Result>): nat {
    if script == [] then 0 else (if script[0].Moved? then 1 else 0) + MoveCount(script[1..])
  }

  function FailCount(script: seq<Result>): nat {
    if script == [] then 0 else (if script[0] == Broken then 1 else 0) + FailCount(script[1..])
  }

  function EndCount(script: seq<Result>): nat {
    if script == [] then 0 else (if script[0] == End then 1 else 0) + EndCount(script[1..])
  }

  lemma {:induction false} SuffixCounts(rest: seq<Result>, script: seq<Result>)
    requires IsSuffix(rest, script)
    ensures MoveCount(rest) <= MoveCount(script) && FailCount(rest) <= FailCount(script) && EndCount(rest) <= EndCount(script)
  {
    if |rest| < |script| {
      assert IsSuffix(rest, script[1..]);
      SuffixCounts(rest, script[1..]);
    } else {
      assert rest == script;
    }
  }

  /** The last result used up is an end: one that was reported, or a stream with nothing left in it. */
  ghost predicate RanOut(script: seq<Result>, rest: seq<Result>, left: nat) {
    rest == [] || IsSuffix([End] + rest, script) || (left == 0 && exists count :: IsSuffix([Moved(count)] + rest, script))
  }

  /** How a loop goes on from `script` to `rest` while what there is to move shrinks from `room` to `left`: a
      failure is a failing call, and the last one; without one, all that was asked for has been moved, or the
      script or the stream has run out; and every call that moves something moves a byte while there is one. */
  ghost predicate GoesOn(script: seq<Result>, rest: seq<Result>, room: nat, left: nat, alive: bool, full: bool) {
    && IsSuffix(rest, script) && left <= room
    && (alive ==> FailCount(rest) == FailCount(script) && (full || RanOut(script, rest, left)))
    && (!alive ==> IsSuffix([Broken] + rest, script))
    && (left > 0 ==> MoveCount(script) - MoveCount(rest) <= room - left)
  }

  lemma MovesNothing(script: seq<Result>, room: nat)
    ensures GoesOn(script, script, room, room, true, true)
  {
  }

  lemma MovesFirst(r: Result, script: seq<Result>, rest: seq<Result>, room: nat, left: nat, moved: nat, alive: bool, full: bool)
    requires GoesOn(script, rest, room, left, alive, full) && r != Broken
    requires r.Moved? && left > 0 ==> moved > 0
    ensures GoesOn([r] + script, rest, room + moved, left, alive, full)
  {
    var whole := [r] + script;
    assert whole[1..] == script && IsSuffix(script, whole);
    SuffixOfSuffix(rest, script, whole);
    if !alive { SuffixOfSuffix([Broken] + rest, script, whole); }
    if alive && !full && rest != [] {
      if IsSuffix([End] + rest, script) {
        SuffixOfSuffix([End] + rest, script, whole);
      } else {
        var count :| IsSuffix([Moved(count)] + rest, script);
        SuffixOfSuffix([Moved(count)] + rest, script, whole);
      }
    }
  }

  lemma {:induction false} TransferGoesOn(script: seq<Result>, len: nat, room: nat)
    ensures var r := Transfer(script, len, room);
            r.moved <= len && r.moved <= room && GoesOn(script, r.rest, room, room - r.moved, r.ok, r.moved == len)
    decreases |script|
  {
    hide GoesOn, Clip;
    TransferOutcome(script, len, room);
    var r := Transfer(script, len, room);
    if len == 0 || script == [] {
      NothingTransferred(script, room, len == 0);
    } else {
      assert script == [script[0]] + script[1..];
      match script[0]
      case End => StopsAt(script, room, r.ok);
      case Broken => StopsAt(script, room, r.ok);
      case Again =>
        TransferGoesOn(script[1..], len, room);
        MovesFirst(Again, script[1..], r.rest, room, room - r.moved, 0, r.ok, r.moved == len);
      case Moved(count) =>
        if room == 0 {
          StopsAt(script, room, r.ok);
        } else {
          var m := Clip(count, len, room);
          TransferGoesOn(script[1..], len - m, room - m);
          MovesFirst(script[0], script[1..], r.rest, room - m, room - r.moved, m, r.ok, r.moved == len);
        }
    }
  }

  lemma NothingTransferred(script: seq<Result>, room: nat, full: bool)
    requires full || script == []
    ensures GoesOn(script, script, room, room, true, full)
  {
  }

  lemma StopsAt(script: seq<Result>, room: nat, ok: bool)
    requires script != [] && (script[0] == End || script[0] == Broken || (script[0].Moved? && room == 0))
    requires ok == (script[0] != Broken)
    ensures GoesOn(script, script[1..], room, room, ok, false)
  {
    assert [script[0]] + script[1..] == script;
    assert script[0].Moved? ==> IsSuffix([Moved(script[0].count)] + script[1..], script);
  }

  /** One loop after another. */
  lemma GoesOnAndOn(s0: seq<Result>, s1: seq<Result>, s2: seq<Result>, n0: nat, n1: nat, n2: nat, alive: bool, full: bool)
    requires GoesOn(s0, s1, n0, n1, true, true) && GoesOn(s1, s2, n1, n2, alive, full)
    ensures GoesOn(s0, s2, n0, n2, alive, full)
  {
    SuffixOfSuffix(s2, s1, s0);
    if !alive {
      SuffixOfSuffix([Broken] + s2, s1, s0);
    } else if !full && s2 != [] {
      if IsSuffix([End] + s2, s1) {
        SuffixOfSuffix([End] + s2, s1, s0);
      } else {
        var count :| IsSuffix([Moved(count)] + s2, s1);
        SuffixOfSuffix([Moved(count)] + s2, s1, s0);
      }
    }
  }

  /** A script that neither fails nor ends, and moves enough, reads on as long as there is something to read. */
  lemma EnoughMoves(script: seq<Result>, rest: seq<Result>, room: nat, left: nat, alive: bool, full: bool)
    requires GoesOn(script, rest, room, left, alive, full)
    requires Delivers(script, room)
    ensures alive && Delivers(rest, left)
    ensures full || left == 0
  {
    SuffixCounts(rest, script);
    if !alive {
      SuffixCounts([Broken] + rest, script);
    } else if !full && left > 0 && rest != [] {
      SuffixCounts([End] + rest, script);
    }
  }

  /** The stream neither breaks nor ends, and moves `n` bytes at least. */
  predicate Delivers(script: seq<Result>, n: nat) {
    FailCount(script) == 0 && EndCount(script) == 0 && MoveCount(script) >= n
  }

  /** With such a stream everything is written, and each byte costs one result at most. */
  lemma {:induction false} WritesAll(script: seq<Result>, len: nat, more: nat)
    requires Delivers(script, len + more)
    ensures var r := Transfer(script, len, len);
            r.ok && r.moved == len && Delivers(r.rest, more)
    decreases |script|
  {
    if len > 0 {
      match script[0]
      case Again => WritesAll(script[1..], len, more);
      case Moved(count) => WritesAll(script[1..], len - Clip(count, len, len), more);
    }
  }

  /** Both directions of a socket: what the peer has sent and we have not read, and what we have written. */
  class Channel {
    var incoming: seq<Byte>
    var out: seq<Byte>
    var script: seq<Result>

    constructor (incoming: seq<Byte>, script: seq<Result>)
      ensures this.incoming == incoming && out == [] && this.script == script
    {
      this.incoming, out, this.script := incoming, [], script;
    }

    method WritePartial(data: seq<Byte>) returns (ok: bool, off: nat)
      modifies this`out, this`script
      ensures Outcome(ok, off, script) == Transfer(old(script), |data|, |data|)
      ensures off <= |data| && out == old(out) + data[..off] && (!ok ==> off < |data|)
    {
      hide Clip;
      off, ok := 0, true;
      while off < |data|
        invariant off <= |data| && ok && out == old(out) + data[..off]
        invariant var r := Transfer(script, |data| - off, |data| - off);
                  r.(moved := off + r.moved) == Transfer(old(script), |data|, |data|)
        decreases |data| - off, |script|
      {
        if script == [] { break; }
        var result := script[0];
        script := script[1..];
        match result {
          case End => break;
          case Again =>
          case Broken => ok := false; break;
          case Moved(count) =>
            var m := Clip(count, |data| - off, |data| - off);
            out := out + data[off..off + m];
            assert data[..off] + data[off..off + m] == data[..off + m];
            off := off + m;
        }
      }
      TransferOutcome(old(script), |data|, |data|);
    }

    method WriteExact(data: seq<Byte>) returns (ok: bool, off: nat)
      modifies this`out, this`script
      ensures off <= |data| && out == old(out) + data[..off]
      ensures ok <==> off == |data|
      ensures var r := Transfer(old(script), |data|, |data|); off == r.moved && script == r.rest
    {
      ok, off := WritePartial(data);
      if off != |data| { ok := false; }
    }

    /** What one receive of at most `room` bytes takes. */
    method Receive(count: nat, room: nat) returns (chunk: seq<Byte>)
      requires room > 0 && incoming != []
      modifies this`incoming
      ensures chunk + incoming == old(incoming) && |chunk| == Clip(count, room, |old(incoming)|)
    {
      var m := Clip(count, room, |incoming|);
      chunk, incoming := incoming[..m], incoming[m..];
    }

    method ReadPartial(len: nat) returns (ok: bool, data: seq<Byte>)
      modifies this`incoming, this`script
      ensures Outcome(ok, |data|, script) == Transfer(old(script), len, |old(incoming)|)
      ensures |data| <= len && data + incoming == old(incoming) && (!ok ==> |data| < len)
      ensures GoesOn(old(script), script, |old(incoming)|, |incoming|, ok, |data| == len)
    {
      hide GoesOn, Clip;
      data, ok := [], true;
      while |data| < len
        invariant |data| <= len && ok && data + incoming == old(incoming)
        invariant var r := Transfer(script, len - |data|, |incoming|);
                  r.(moved := |data| + r.moved) == Transfer(old(script), len, |old(incoming)|)
        decreases len - |data|, |script|
      {
        if script == [] { break; }
        var result := script[0];
        script := script[1..];
        match result {
          case End => break;
          case Again =>
          case Broken => ok := false; break;
          case Moved(count) =>
            if incoming == [] { break; }
            var chunk := Receive(count, len - |data|);
            assert data + (chunk + incoming) == data + chunk + incoming;
            data := data + chunk;
        }
      }
      TransferOutcome(old(script), len, |old(incoming)|);
      TransferGoesOn(old(script), len, |old(incoming)|);
    }

    method ReadExact(len: nat) returns (ok: bool, data: seq<Byte>)
      modifies this`incoming, this`script
      ensures |data| <= len && data + incoming == old(incoming)
      ensures ok <==> |data| == len
    {
      ok, data := ReadPartial(len);
      if |data| != len { ok := false; }
    }
  }
}

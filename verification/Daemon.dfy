/**
 * One connection of the daemon: the state machine that decodes the stream as its bytes come in, any number
 * at a time, and performs each operation when its message is complete.
 */
module Daemon {
  import opened Wire
  import opened NetIO

  datatype Kind = Connected | HeaderP1 | HeaderP2 | Receiving

  /** Overwrites the bytes from `at` on. */
  function Patch(buf: seq<Byte>, at: nat, data: seq<Byte>): (r: seq<Byte>)
    requires at + |data| <= |buf|
    ensures |r| == |buf| && r[..at + |data|] == buf[..at] + data
  {
    buf[..at] + data + buf[at + |data|..]
  }

  lemma PatchKeeps(target: seq<Byte>, at: nat, data: seq<Byte>, lo: nat, hi: nat)
    requires at + |data| <= |target| && lo <= hi <= at
    ensures Patch(target, at, data)[lo..hi] == target[lo..hi]
  {
  }

  function Resize(buf: seq<Byte>, n: nat): (r: seq<Byte>)
    ensures |r| == n && (n >= |buf| ==> r[..|buf|] == buf)
  {
    if n <= |buf| then buf[..n] else buf + seq(n - |buf|, _ => 0)
  }

  lemma IncompleteSplits(bs: seq<Byte>)
    requires Needed(bs) > |bs|
    ensures Split(bs) == ([], bs)
  {
  }

  lemma CompleteSplits(bs: seq<Byte>)
    requires |bs| >= HEADER_SIZE && Needed(bs) == |bs|
    ensures Split(bs) == ([FirstOperation(bs)], [])
  {
    hide Needed, FirstOperation;
    assert bs[|bs|..] == [];
    NeededIsPositive([]);
    IncompleteSplits([]);
    assert [FirstOperation(bs)] + [] == [FirstOperation(bs)];
  }

  /** One more message has been completed after `done`. */
  lemma Completed(done: seq<Byte>, log: seq<Operation>, rest: seq<Byte>)
    requires Split(done) == (log, []) && |rest| >= HEADER_SIZE && Needed(rest) == |rest|
    ensures Split(done + rest) == (log + [FirstOperation(rest)], [])
  {
    hide Split, Needed, FirstOperation;
    SplitMore(done, rest);
    assert [] + rest == rest;
    CompleteSplits(rest);
  }

  class Connection {
    var kind: Kind
    var progress: nat
    var goal: nat
    var buf: seq<Byte>
    var path: seq<Byte>
    var file: seq<Byte>              // the temporary file
    var log: seq<Operation>
    ghost var done: seq<Byte>        // received and decoded
    ghost var rest: seq<Byte>        // received since

    ghost function Received(): seq<Byte>
      reads this
    {
      done + rest
    }

    ghost predicate AtStart()
      reads this
    {
      kind == Connected && rest == [] && progress == 0
    }

    ghost predicate AtHeader()
      reads this
    {
      && kind == HeaderP1 && goal == HEADER_SIZE == |buf|
      && |rest| == progress <= goal && buf[..progress] == rest
    }

    ghost predicate AtPath()
      reads this
    {
      && kind == HeaderP2 && |buf| >= HEADER_SIZE && goal == |buf| == HEADER_SIZE + PathLength(buf)
      && HEADER_SIZE <= |rest| == progress <= goal && buf[..progress] == rest
    }

    ghost predicate AtContents()
      reads this
    {
      && kind == Receiving && |buf| >= HEADER_SIZE && |buf| == HEADER_SIZE + PathLength(buf)
      && FileType(buf) == REGULAR && goal == FileSize(buf) == |file| && progress <= goal
      && path == buf[HEADER_SIZE..] && rest == buf + file[..progress]
    }

    /** Between two readings: some byte of the current message is still missing. */
    ghost predicate Valid()
      reads this
    {
      && Split(done) == (log, [])
      && (AtStart() || ((AtHeader() || AtPath() || AtContents()) && progress < goal))
    }

    constructor ()
      ensures Valid() && log == [] && Received() == []
    {
      kind, progress, goal, buf, path, file, log := Connected, 0, 0, [], [], [], [];
      done, rest := [], [];
      new;
      IncompleteSplits([]);
    }

    /** At all times between readings the daemon has performed exactly the operations of the messages that
        are complete in what it has received. */
    lemma LogIsDecoded()
      requires Valid()
      ensures Split(Received()) == (log, rest)
    {
      SplitMore(done, rest);
      assert [] + rest == rest && log + [] == log;
      NeedsMore();
      IncompleteSplits(rest);
    }

    lemma NeedsMore()
      requires AtStart() || ((AtHeader() || AtPath() || AtContents()) && progress < goal)
      ensures Needed(rest) > |rest|
    {
      if AtPath() {
        assert rest[10..12] == buf[10..12];
      } else if AtContents() {
        assert rest[10..12] == buf[10..12] && rest[16..24] == buf[16..24];
      }
    }

    /** The bytes a failed reading moved are dropped, and the daemon stops. */
    method Advance(c: Channel, target: seq<Byte>) returns (alive: bool, filled: seq<Byte>, ghost data: seq<Byte>)
      requires progress <= goal == |target|
      modifies this`progress, c`incoming, c`script
      ensures |data| <= goal - old(progress) && data + c.incoming == old(c.incoming)
      ensures alive ==> progress == old(progress) + |data| && filled == Patch(target, old(progress), data)
      ensures !alive ==> progress == old(progress) && progress < goal && filled == target
      ensures GoesOn(old(c.script), c.script, |old(c.incoming)|, |c.incoming|, alive, progress == goal)
    {
      hide GoesOn;
      var bytes;
      alive, bytes := c.ReadPartial(goal - progress);
      data := bytes;
      filled := target;
      if alive {
        filled := Patch(target, progress, bytes);
        progress := progress + |bytes|;
      }
    }

    method ReadHeader(c: Channel) returns (alive: bool)
      requires Split(done) == (log, []) && AtHeader() && progress < goal
      modifies this, c`incoming, c`script
      ensures Split(done) == (log, []) && done == old(done) && log == old(log)
      ensures alive ==> rest + c.incoming == old(rest + c.incoming) && old(rest) <= rest
      ensures alive ==> (AtHeader() && progress < goal) || AtPath()
      ensures !alive ==> AtHeader() && progress < goal && rest == old(rest)
      ensures GoesOn(old(c.script), c.script, |old(c.incoming)|, |c.incoming|, alive, kind == HeaderP2)
    {
      hide GoesOn;
      var filled;
      ghost var data;
      alive, filled, data := Advance(c, buf);
      if alive {
        buf := filled;
        assert rest + data + c.incoming == rest + (data + c.incoming);
        rest := rest + data;
        if progress == goal {
          var length := PathLength(buf);
          goal := goal + length;
          buf := Resize(buf, goal);
          kind := HeaderP2;
          assert buf[10..12] == buf[..HEADER_SIZE][10..12];
        }
      }
    }

    method ReadPath(c: Channel) returns (alive: bool)
      requires Split(done) == (log, []) && AtPath()
      modifies this, c`incoming, c`script
      ensures Split(done) == (log, []) && old(log) <= log
      ensures alive ==> Received() + c.incoming == old(Received() + c.incoming) && old(Received()) <= Received()
      ensures alive ==> AtStart() || (AtPath() && progress < goal) || AtContents()
      ensures !alive ==> AtPath() && progress < goal && Received() == old(Received())
      ensures GoesOn(old(c.script), c.script, |old(c.incoming)|, |c.incoming|, alive, kind != HeaderP2)
      ensures |log| == |old(log)| + if kind == Connected then 1 else 0
    {
      hide Split, Number, GoesOn;
      var filled;
      ghost var data;
      alive, filled, data := Advance(c, buf);
      if alive {
        PatchKeeps(buf, old(progress), data, 10, 12);
        buf := filled;
        assert done + (rest + data) + c.incoming == done + rest + (data + c.incoming);
        rest := rest + data;
        if progress == goal {
          FinishPath();
        }
      }
    }

    /** Header and path are complete: a file is opened, or a directory made. */
    method FinishPath()
      requires Split(done) == (log, []) && AtPath() && progress == goal
      modifies this
      ensures Split(done) == (log, []) && old(log) <= log && Received() == old(Received())
      ensures AtStart() || AtContents()
      ensures |log| == |old(log)| + if kind == Connected then 1 else 0
    {
      hide Split, Number;
      assert buf[..progress] == buf == rest;
      path := buf[HEADER_SIZE..HEADER_SIZE + PathLength(buf)];
      if FileType(buf) == REGULAR {
        file := seq(FileSize(buf), _ => 0);
        progress, goal := 0, FileSize(buf);
        kind := Receiving;
        assert buf + file[..0] == buf;
      } else {
        Completed(done, log, rest);
        log := log + [MakeDirectory(path)];
        Reset();
      }
    }

    method ReadContents(c: Channel) returns (alive: bool)
      requires Split(done) == (log, []) && AtContents()
      modifies this, c`incoming, c`script
      ensures Split(done) == (log, []) && old(log) <= log
      ensures alive ==> Received() + c.incoming == old(Received() + c.incoming) && old(Received()) <= Received()
      ensures alive ==> AtStart() || (AtContents() && progress < goal)
      ensures !alive ==> AtContents() && progress < goal && Received() == old(Received())
      ensures GoesOn(old(c.script), c.script, |old(c.incoming)|, |c.incoming|, alive, kind == Connected)
      ensures |log| == |old(log)| + if kind == Connected then 1 else 0
    {
      hide Split, Number, Needed, FirstOperation, GoesOn;
      var filled;
      ghost var data;
      alive, filled, data := Advance(c, file);
      if alive {
        file := filled;
        assert done + (rest + data) + c.incoming == done + rest + (data + c.incoming);
        rest := rest + data;
        assert rest == buf + file[..progress];
        if progress == goal {
          assert file[..progress] == file;
          FileIsComplete();
          Completed(done, log, rest);
          log := log + [PlaceFile(path, file)];
          Reset();
        }
      }
    }

    lemma FileIsComplete()
      requires AtContents() && progress == goal
      ensures |rest| >= HEADER_SIZE && Needed(rest) == |rest| && FirstOperation(rest) == PlaceFile(path, file)
    {
      assert file[..progress] == file && rest == buf + file;
      assert rest[10..12] == buf[10..12] && rest[16..24] == buf[16..24];
      assert rest[HEADER_SIZE..|buf|] == buf[HEADER_SIZE..] && rest[|buf|..|buf| + FileSize(rest)] == file;
    }

    /** The message has been dealt with. */
    method Reset()
      modifies this`progress, this`goal, this`buf, this`kind, this`done, this`rest
      ensures AtStart() && done == old(Received())
      ensures Received() == old(Received())
    {
      done := done + rest;
      rest := [];
      assert done + rest == done;
      progress, goal, buf := 0, 0, [];
      kind := Connected;
    }

    /** A new message begins; its header is read. */
    method OnHeader(c: Channel) returns (alive: bool)
      requires Valid()
      modifies this, c`incoming, c`script
      ensures Split(done) == (log, []) && log == old(log) && old(Received()) <= Received()
      ensures alive ==> Received() + c.incoming == old(Received() + c.incoming)
      ensures alive ==> AtPath() || ((AtHeader() || AtContents()) && progress < goal)
      ensures !alive ==> AtHeader() && progress < goal && Received() == old(Received())
      ensures GoesOn(old(c.script), c.script, |old(c.incoming)|, |c.incoming|, alive, kind != HeaderP1)
    {
      hide Split, Number, Patch, Resize, GoesOn;
      alive := true;
      MovesNothing(c.script, |c.incoming|);
      if kind == Connected {
        buf := Resize(buf, HEADER_SIZE);
        kind, goal := HeaderP1, HEADER_SIZE;
        assert buf[..progress] == rest;
      }
      if kind == HeaderP1 {
        alive := ReadHeader(c);
        if alive { SameStream(old(done), old(rest), old(c.incoming), rest, c.incoming); }
      }
    }

    /** The socket is readable: up to three stages advance, each by whatever `read` delivers. The bytes
        taken from the stream are added to what was received, no operation is undone, and the operations
        performed are those of the messages now complete. If reading fails, a call has failed, and the daemon
        stops with what was complete before. Otherwise the message is complete and its operation performed,
        or the script or the stream has run out. */
    method OnReadable(c: Channel) returns (alive: bool)
      requires Valid()
      modifies this, c`incoming, c`script
      ensures Valid() && old(log) <= log && old(Received()) <= Received()
      ensures Received() <= old(Received() + c.incoming)
      ensures alive ==> Received() + c.incoming == old(Received() + c.incoming)
      ensures Split(Received()) == (log, rest)
      ensures GoesOn(old(c.script), c.script, |old(c.incoming)|, |c.incoming|, alive, AtStart())
      ensures |log| == |old(log)| + if AtStart() then 1 else 0
    {
      hide Split, Number, AtHeader, AtPath, AtContents, GoesOn;
      alive := OnHeader(c);
      if !alive { Stopped(); return; }
      ghost var s1, n1 := c.script, |c.incoming|;
      KindIsStage();
      if kind == HeaderP2 {
        alive := ReadPath(c);
        GoesOnAndOn(old(c.script), s1, c.script, |old(c.incoming)|, n1, |c.incoming|, alive, kind != HeaderP2);
        if !alive { Stopped(); return; }
      }
      ghost var s2, n2 := c.script, |c.incoming|;
      KindIsStage();
      if kind == Receiving {
        alive := ReadContents(c);
        GoesOnAndOn(old(c.script), s2, c.script, |old(c.incoming)|, n2, |c.incoming|, alive, kind == Connected);
      }
      Stopped();
    }

    lemma KindIsStage()
      requires AtStart() || AtHeader() || AtPath() || AtContents()
      ensures kind == Connected <==> AtStart()
      ensures (kind == HeaderP1 <==> AtHeader()) && (kind == HeaderP2 <==> AtPath()) && (kind == Receiving <==> AtContents())
    {
    }

    lemma Stopped()
      requires Split(done) == (log, [])
      requires AtStart() || ((AtHeader() || AtPath() || AtContents()) && progress < goal)
      ensures Valid() && Split(Received()) == (log, rest) && (kind == Connected <==> AtStart())
      ensures (kind == HeaderP1 <==> AtHeader()) && (kind == HeaderP2 <==> AtPath()) && (kind == Receiving <==> AtContents())
    {
      KindIsStage();
      LogIsDecoded();
    }

    static lemma SameStream(done: seq<Byte>, rest: seq<Byte>, incoming: seq<Byte>, rest': seq<Byte>, incoming': seq<Byte>)
      requires rest' + incoming' == rest + incoming && rest <= rest'
      ensures done + rest' + incoming' == done + rest + incoming && done + rest <= done + rest'
    {
      assert done + rest' + incoming' == done + (rest' + incoming');
      assert done + rest + incoming == done + (rest + incoming);
    }
  }
}

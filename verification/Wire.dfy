/**
 * The byte stream between sender and daemon: a header of 24 bytes, the path, and for a regular file its
 * contents. `Split` is the decoder that sees the whole stream at once.
 */
module Wire {

  type Byte = x: int | 0 <= x < 256

  const HEADER_SIZE := 24
  const MAX_PATH := 65535

  // Values of fs::file_type.
  const REGULAR: Byte := 1
  const DIRECTORY: Byte := 2

  // ---------------------------------------------------------------- little-endian numbers

  function Pow256(k: nat): nat {
    if k == 0 then 1 else 256 * Pow256(k - 1)
  }

  function Bytes(n: nat, k: nat): seq<Byte> {
    if k == 0 then [] else [n % 256] + Bytes(n / 256, k - 1)
  }

  function Number(bs: seq<Byte>): nat {
    if bs == [] then 0 else bs[0] + 256 * Number(bs[1..])
  }

  lemma {:induction false} NumberOfBytes(n: nat, k: nat)
    requires n < Pow256(k)
    ensures |Bytes(n, k)| == k && Number(Bytes(n, k)) == n
  {
    if k > 0 {
      NumberOfBytes(n / 256, k - 1);
      assert Bytes(n, k)[1..] == Bytes(n / 256, k - 1);
    }
  }

  lemma {:induction false} BytesLength(n: nat, k: nat)
    ensures |Bytes(n, k)| == k
  {
    if k > 0 {
      BytesLength(n / 256, k - 1);
    }
  }

  // ---------------------------------------------------------------- messages

  datatype Message = Message(seqNo: nat, perms: nat, ftype: Byte, path: seq<Byte>, fsize: nat, contents: seq<Byte>)

  /** What the fields of a header can hold, and what goes with it: contents follow a regular file only. */
  predicate WellFormed(m: Message) {
    && m.seqNo < Pow256(4) && m.perms < Pow256(4) && |m.path| <= MAX_PATH && m.fsize < Pow256(8)
    && |m.contents| == if m.ftype == REGULAR then m.fsize else 0
  }

  /** Five bytes of the header are padding, of any value. */
  function Header(m: Message, padding: seq<Byte>): seq<Byte>
    requires |padding| == 5
  {
    Bytes(m.seqNo, 4) + Bytes(m.perms, 4) + [m.ftype, padding[0]] + Bytes(|m.path|, 2) + padding[1..] + Bytes(m.fsize, 8)
  }

  function Encode(m: Message, padding: seq<Byte>): seq<Byte>
    requires |padding| == 5
  {
    Header(m, padding) + m.path + m.contents
  }

  function FileType(bs: seq<Byte>): Byte
    requires |bs| >= HEADER_SIZE
  {
    bs[8]
  }

  function PathLength(bs: seq<Byte>): nat
    requires |bs| >= HEADER_SIZE
  {
    Number(bs[10..12])
  }

  function FileSize(bs: seq<Byte>): nat
    requires |bs| >= HEADER_SIZE
  {
    Number(bs[16..24])
  }

  lemma HeaderFields(m: Message, padding: seq<Byte>, tail: seq<Byte>)
    requires WellFormed(m) && |padding| == 5
    ensures |Header(m, padding)| == HEADER_SIZE
    ensures var bs := Header(m, padding) + tail;
            FileType(bs) == m.ftype && PathLength(bs) == |m.path| && FileSize(bs) == m.fsize
  {
    BytesLength(m.seqNo, 4);
    BytesLength(m.perms, 4);
    assert Pow256(2) == 65536;
    NumberOfBytes(|m.path|, 2);
    NumberOfBytes(m.fsize, 8);
    hide Bytes, Number, Pow256;
    var bs := Header(m, padding) + tail;
    assert bs[10..12] == Bytes(|m.path|, 2);
    assert bs[16..24] == Bytes(m.fsize, 8);
  }

  // ---------------------------------------------------------------- decoding a whole stream

  /** What the daemon does to the file system. A file appears under its path only when it is complete. */
  datatype Operation = MakeDirectory(path: seq<Byte>) | PlaceFile(path: seq<Byte>, contents: seq<Byte>)

  function OperationOf(m: Message): Operation {
    if m.ftype == REGULAR then PlaceFile(m.path, m.contents) else MakeDirectory(m.path)
  }

  /** The number of bytes the first message takes, as far as the bytes at hand tell. */
  function Needed(bs: seq<Byte>): nat {
    if |bs| < HEADER_SIZE then HEADER_SIZE
    else HEADER_SIZE + PathLength(bs) + if FileType(bs) == REGULAR then FileSize(bs) else 0
  }

  function FirstOperation(bs: seq<Byte>): Operation
    requires HEADER_SIZE <= |bs| && Needed(bs) <= |bs|
  {
    var body := HEADER_SIZE + PathLength(bs);
    var path := bs[HEADER_SIZE..body];
    if FileType(bs) == REGULAR then PlaceFile(path, bs[body..body + FileSize(bs)]) else MakeDirectory(path)
  }

  /** The operations of all complete messages, and the bytes of the incomplete one that is left. */
  function Split(bs: seq<Byte>): (seq<Operation>, seq<Byte>)
    decreases |bs|
  {
    if Needed(bs) > |bs| then ([], bs)
    else
      var (ops, rest) := Split(bs[Needed(bs)..]);
      ([FirstOperation(bs)] + ops, rest)
  }

  /** More bytes do not change what the first message needs once its header is there. */
  lemma NeededStable(bs: seq<Byte>, more: seq<Byte>)
    requires |bs| >= HEADER_SIZE
    ensures Needed(bs + more) == Needed(bs)
    ensures Needed(bs) <= |bs| ==> FirstOperation(bs + more) == FirstOperation(bs)
  {
    assert (bs + more)[10..12] == bs[10..12] && (bs + more)[16..24] == bs[16..24];
    if Needed(bs) <= |bs| {
      var body := HEADER_SIZE + PathLength(bs);
      assert (bs + more)[HEADER_SIZE..body] == bs[HEADER_SIZE..body];
      if FileType(bs) == REGULAR {
        assert (bs + more)[body..body + FileSize(bs)] == bs[body..body + FileSize(bs)];
      }
    }
  }

  /** Decoding goes on from what was left. */
  lemma {:induction false} SplitMore(bs: seq<Byte>, more: seq<Byte>)
    ensures var (ops, rest) := Split(bs);
            Split(bs + more) == (ops + Split(rest + more).0, Split(rest + more).1)
    decreases |bs|
  {
    hide Needed, FirstOperation;
    var n := Needed(bs);
    NeededIsPositive(bs);
    if n > |bs| {
      assert [] + Split(bs + more).0 == Split(bs + more).0;
    } else {
      NeededStable(bs, more);
      SplitMore(bs[n..], more);
      assert (bs + more)[n..] == bs[n..] + more;
      var (ops, rest) := Split(bs[n..]);
      assert [FirstOperation(bs)] + (ops + Split(rest + more).0) == [FirstOperation(bs)] + ops + Split(rest + more).0;
    }
  }

  lemma NeededIsPositive(bs: seq<Byte>)
    ensures Needed(bs) >= HEADER_SIZE
  {
  }

  // ---------------------------------------------------------------- round trip

  lemma MessageNeeds(m: Message, padding: seq<Byte>, tail: seq<Byte>)
    requires WellFormed(m) && |padding| == 5
    ensures var bs := Encode(m, padding) + tail;
            && Needed(bs) == |Encode(m, padding)| <= |bs|
            && FirstOperation(bs) == OperationOf(m)
            && bs[Needed(bs)..] == tail
  {
    HeaderFields(m, padding, m.path + m.contents + tail);
    hide Header;
    var h := Header(m, padding);
    var bs := Encode(m, padding) + tail;
    assert bs == h + (m.path + m.contents + tail);
    assert bs[HEADER_SIZE..HEADER_SIZE + |m.path|] == m.path;
    assert m.ftype == REGULAR ==> bs[HEADER_SIZE + |m.path|..HEADER_SIZE + |m.path| + m.fsize] == m.contents;
  }

  lemma MessageDecodes(m: Message, padding: seq<Byte>, tail: seq<Byte>)
    requires WellFormed(m) && |padding| == 5
    ensures Split(Encode(m, padding) + tail) == ([OperationOf(m)] + Split(tail).0, Split(tail).1)
  {
    MessageNeeds(m, padding, tail);
    hide Encode, Needed, FirstOperation;
  }

  /** A message cut short yields nothing. */
  lemma TruncatedDecodes(m: Message, padding: seq<Byte>, n: nat)
    requires WellFormed(m) && |padding| == 5 && n < |Encode(m, padding)|
    ensures Split(Encode(m, padding)[..n]) == ([], Encode(m, padding)[..n])
  {
    var whole := Encode(m, padding);
    MessageNeeds(m, padding, []);
    assert whole + [] == whole;
    if n >= HEADER_SIZE {
      NeededStable(whole[..n], whole[n..]);
      assert whole[..n] + whole[n..] == whole;
    }
  }

  datatype Sent = Sent(message: Message, padding: seq<Byte>)

  predicate AllWellFormed(sent: seq<Sent>) {
    forall i | 0 <= i < |sent| :: WellFormed(sent[i].message) && |sent[i].padding| == 5
  }

  function Stream(sent: seq<Sent>): seq<Byte>
    requires AllWellFormed(sent)
  {
    if sent == [] then [] else Encode(sent[0].message, sent[0].padding) + Stream(sent[1..])
  }

  function Operations(sent: seq<Sent>): seq<Operation> {
    if sent == [] then [] else [OperationOf(sent[0].message)] + Operations(sent[1..])
  }

  /** Round trip: decoding what was encoded performs the encoded operations, in order, and leaves nothing. */
  lemma {:induction false} RoundTrip(sent: seq<Sent>)
    requires AllWellFormed(sent)
    ensures Split(Stream(sent)) == (Operations(sent), [])
  {
    if sent != [] {
      RoundTrip(sent[1..]);
      MessageDecodes(sent[0].message, sent[0].padding, Stream(sent[1..]));
    }
  }

  /** Truncation: a prefix of the stream performs exactly the operations of the messages that are complete
      in it, the first `k` of them. */
  lemma {:induction false} PrefixDecodes(sent: seq<Sent>, n: nat) returns (k: nat)
    requires AllWellFormed(sent) && n <= |Stream(sent)|
    ensures k <= |sent| && |Stream(sent[..k])| <= n && (k < |sent| ==> n < |Stream(sent[..k + 1])|)
    ensures Split(Stream(sent)[..n]).0 == Operations(sent[..k])
  {
    if sent == [] {
      k := 0;
    } else {
      var first, rest := Encode(sent[0].message, sent[0].padding), sent[1..];
      hide Encode, Needed, FirstOperation;
      if n < |first| {
        k := 0;
        assert Stream(sent)[..n] == first[..n];
        TruncatedDecodes(sent[0].message, sent[0].padding, n);
        StreamOfOne(sent);
      } else {
        var m := n - |first|;
        var j := PrefixDecodes(rest, m);
        k := j + 1;
        assert Stream(sent)[..n] == first + Stream(rest)[..m];
        MessageDecodes(sent[0].message, sent[0].padding, Stream(rest)[..m]);
        StreamOfMore(sent, j);
        if j < |rest| { StreamOfMore(sent, j + 1); }
      }
    }
  }

  lemma StreamOfOne(sent: seq<Sent>)
    requires AllWellFormed(sent) && sent != []
    ensures Stream(sent[..0]) == [] && Operations(sent[..0]) == []
    ensures Stream(sent[..1]) == Encode(sent[0].message, sent[0].padding)
  {
    hide Encode;
    assert sent[..1][1..] == [];
    assert Encode(sent[0].message, sent[0].padding) + [] == Encode(sent[0].message, sent[0].padding);
  }

  lemma StreamOfMore(sent: seq<Sent>, j: nat)
    requires AllWellFormed(sent) && j < |sent|
    ensures Stream(sent[..j + 1]) == Encode(sent[0].message, sent[0].padding) + Stream(sent[1..][..j])
    ensures Operations(sent[..j + 1]) == [OperationOf(sent[0].message)] + Operations(sent[1..][..j])
  {
    hide Encode;
    assert sent[..j + 1][1..] == sent[1..][..j];
  }
}

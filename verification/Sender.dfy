/** The sending side of a connection, and both sides together. */
module Sender {
  import opened Wire
  import opened NetIO
  import Daemon

  const CHUNK_SIZE := 16384

  /** What is known of a file or directory when it is sent: the fields have the widths of the header, and
      the contents are those of a regular file. The path may be of any length. */
  predicate Sendable(m: Message) {
    && m.seqNo < Pow256(4) && m.perms < Pow256(4) && m.fsize < Pow256(8)
    && |m.contents| == if m.ftype == REGULAR then m.fsize else 0
  }

  /** Sends header, path and contents; `ok(i)` is what the shared flag reads after the i-th chunk. What has
      been written is always a prefix of the encoded message, the whole of it on success; the progress
      reported by then is the size of the contents. A path that does not fit is refused at once. Otherwise the
      message is sent if the stream takes it and the flag is never found cleared. */
  method SendMessage(c: Channel, m: Message, padding: seq<Byte>, ok: nat -> bool, ghost more: nat)
    returns (sent: bool, ticked: nat, ghost n: nat)
    requires Sendable(m) && |padding| == 5
    modifies c`out, c`script
    ensures n <= |Encode(m, padding)| && c.out == old(c.out) + Encode(m, padding)[..n]
    ensures sent ==> |m.path| <= MAX_PATH && n == |Encode(m, padding)| && ticked == |m.contents|
    ensures |m.path| > MAX_PATH ==> !sent && n == 0
    ensures ticked <= |m.contents|
    ensures |m.path| <= MAX_PATH && Delivers(old(c.script), |Encode(m, padding)| + more) && (forall i :: ok(i)) ==>
              sent && Delivers(c.script, more)
  {
    hide Header, Encode, Pow256, Delivers, Transfer;
    sent, ticked, n := false, 0, 0;
    assert c.out == old(c.out) + Encode(m, padding)[..0];
    if |m.path| > MAX_PATH {
      return;
    }
    ghost var whole, h := Encode(m, padding), Header(m, padding);
    ghost var delivers := Delivers(c.script, |whole| + more);
    InContents(m, padding, 0);
    if delivers { WritesAll(c.script, |h|, |m.path| + |m.contents| + more); }
    var written, off := c.WriteExact(Header(m, padding));
    n := off;
    InHeader(m, padding, off);
    if !written { return; }
    if delivers { WritesAll(c.script, |m.path|, |m.contents| + more); }
    written, off := c.WriteExact(m.path);
    n := |h| + off;
    InPath(m, padding, off);
    Regroup(old(c.out), h, m.path[..off]);
    if !written { return; }
    if m.ftype == REGULAR && m.fsize > 0 {
      ghost var k, rounds;
      sent, ticked, k, rounds := SendContents(c, m.contents, ok, more);
      InContents(m, padding, k);
      Regroup(old(c.out), whole[..n], m.contents[..k]);
      n := n + k;
    } else {
      sent := true;
      InContents(m, padding, 0);
    }
  }

  lemma Regroup(a: seq<Byte>, b: seq<Byte>, c: seq<Byte>)
    ensures a + b + c == a + (b + c)
  {
  }

  lemma InHeader(m: Message, padding: seq<Byte>, n: nat)
    requires |padding| == 5 && n <= |Header(m, padding)|
    ensures n <= |Encode(m, padding)| && Header(m, padding)[..n] == Encode(m, padding)[..n]
    ensures Header(m, padding)[..|Header(m, padding)|] == Header(m, padding)
  {
    hide Header;
  }

  lemma InPath(m: Message, padding: seq<Byte>, n: nat)
    requires |padding| == 5 && n <= |m.path|
    ensures |Header(m, padding)| + n <= |Encode(m, padding)|
    ensures Header(m, padding) + m.path[..n] == Encode(m, padding)[..|Header(m, padding)| + n]
  {
    hide Header;
  }

  lemma InContents(m: Message, padding: seq<Byte>, n: nat)
    requires |padding| == 5 && n <= |m.contents|
    ensures var at := |Header(m, padding)| + |m.path|;
            && at + |m.contents| == |Encode(m, padding)|
            && Encode(m, padding)[..at] + m.contents[..n] == Encode(m, padding)[..at + n]
  {
    hide Header;
  }

  /** The loop over the mapped file, in chunks: no round sends more than one, so that progress is reported at least
      that often. */
  method SendContents(c: Channel, contents: seq<Byte>, ok: nat -> bool, ghost more: nat)
    returns (sent: bool, ticked: nat, ghost n: nat, ghost rounds: nat)
    modifies c`out, c`script
    ensures n <= rounds * CHUNK_SIZE && (sent ==> forall i | 0 <= i < rounds :: ok(i))
    ensures ticked <= n <= |contents| && c.out == old(c.out) + contents[..n]
    ensures sent ==> ticked == n == |contents|
    ensures Delivers(old(c.script), |contents| + more) && (forall i :: ok(i)) ==> sent && Delivers(c.script, more)
  {
    hide Delivers, Transfer;
    sent, ticked, n, rounds := true, 0, 0, 0;
    ghost var delivers := Delivers(c.script, |contents| + more);
    var round := 0;
    while ticked < |contents|
      invariant sent && ticked == n <= |contents| && c.out == old(c.out) + contents[..n]
      invariant delivers ==> Delivers(c.script, |contents| - n + more)
      invariant rounds == round && n <= rounds * CHUNK_SIZE && forall i | 0 <= i < rounds :: ok(i)
      decreases |contents| - ticked
    {
      var chunk := if CHUNK_SIZE < |contents| - ticked then CHUNK_SIZE else |contents| - ticked;
      if delivers { WritesAll(c.script, chunk, |contents| - n - chunk + more); }
      var good, off := c.WritePartial(contents[ticked..ticked + chunk]);
      assert contents[ticked..ticked + chunk][..off] == contents[n..n + off];
      assert contents[..n] + contents[n..n + off] == contents[..n + off];
      n := n + off;
      rounds := rounds + 1;
      if !good || off == 0 || !ok(round) {
        sent := false;
        return;
      }
      ticked := ticked + off;
      round := round + 1;
    }
  }

  predicate AllSendable(messages: seq<Sent>) {
    forall i | 0 <= i < |messages| :: Sendable(messages[i].message) && |messages[i].padding| == 5
  }

  /** How many messages come before the first whose path does not fit. */
  ghost function Fitting(messages: seq<Sent>): (n: nat)
    requires AllSendable(messages)
    ensures n <= |messages| && AllWellFormed(messages[..n])
    ensures n < |messages| ==> |messages[n].message.path| > MAX_PATH
  {
    if messages == [] || |messages[0].message.path| > MAX_PATH then 0
    else
      var n := 1 + Fitting(messages[1..]);
      assert forall i | 0 < i < n :: messages[..n][i] == messages[1..][..n - 1][i - 1];
      n
  }

  /** Sends a list of messages over one connection until one of them fails. Nothing of a message with a path
      that does not fit is sent, and nothing after it. */
  method SendAll(c: Channel, messages: seq<Sent>, ok: nat -> bool) returns (sent: bool)
    requires AllSendable(messages) && c.out == []
    modifies c`out, c`script
    ensures c.out <= Stream(messages[..Fitting(messages)])
    ensures sent ==> Fitting(messages) == |messages| && c.out == Stream(messages[..|messages|])
    ensures Fitting(messages) == |messages| && Delivers(old(c.script), |Stream(messages[..|messages|])|) && (forall i :: ok(i)) ==>
              sent
  {
    hide Encode, Stream, Fitting, Delivers;
    sent := true;
    var i := 0;
    ghost var fit := messages[..Fitting(messages)];
    StreamEnds(fit);
    ghost var delivers := Delivers(c.script, |Stream(fit)|) && forall r :: ok(r);
    while i < |messages|
      invariant 0 <= i <= |fit| && sent && c.out == Stream(fit[..i]) && |c.out| <= |Stream(fit)|
      invariant delivers ==> Delivers(c.script, |Stream(fit)| - |c.out|)
    {
      ghost var n;
      var ticked;
      if i < |fit| { StreamAt(fit, i); } else { assert fit[..i] == fit; }
      ghost var more := if i < |fit| then |Stream(fit)| - |Stream(fit[..i + 1])| else 0;
      sent, ticked, n := SendMessage(c, messages[i].message, messages[i].padding, ok, more);
      if !sent { return; }
      i := i + 1;
    }
    assert fit[..i] == fit;
  }

  lemma StreamEnds(messages: seq<Sent>)
    requires AllWellFormed(messages)
    ensures Stream(messages[..0]) == []
  {
  }

  /** The i-th message comes where the messages before it end. */
  lemma {:induction false} StreamAt(messages: seq<Sent>, i: nat)
    requires AllWellFormed(messages) && i < |messages|
    ensures var bytes := Encode(messages[i].message, messages[i].padding);
            && Stream(messages[..i + 1]) == Stream(messages[..i]) + bytes
            && Stream(messages[..i + 1]) <= Stream(messages)
            && forall n | 0 <= n <= |bytes| :: Stream(messages[..i]) + bytes[..n] <= Stream(messages)
  {
    hide Encode;
    var bytes, first := Encode(messages[i].message, messages[i].padding), Encode(messages[0].message, messages[0].padding);
    if i == 0 {
      StreamOfOne(messages);
      assert [] + bytes == bytes;
    } else {
      StreamAt(messages[1..], i - 1);
      StreamOfMore(messages, i);
      StreamOfMore(messages, i - 1);
      assert first + Stream(messages[1..][..i - 1]) + bytes == first + (Stream(messages[1..][..i - 1]) + bytes);
    }
    forall n | 0 <= n <= |bytes| ensures Stream(messages[..i]) + bytes[..n] <= Stream(messages) {
      assert Stream(messages[..i]) + bytes[..n] <= Stream(messages[..i]) + bytes;
    }
  }

  // ---------------------------------------------------------------- both sides

  /** However the stream is cut into readings and wherever it ends, the daemon performs exactly the
      operations of the first `k` messages, those whose last byte has arrived, in order and with the same
      paths and contents. */
  method Serve(c: Channel, events: nat, ghost messages: seq<Sent>) returns (d: Daemon.Connection, alive: bool, ghost k: nat)
    requires AllWellFormed(messages) && c.incoming <= Stream(messages)
    modifies c`incoming, c`script
    ensures fresh(d) && d.Valid() && d.Received() <= Stream(messages)
    ensures k <= |messages| && d.log == Operations(messages[..k])
    ensures |Stream(messages[..k])| <= |d.Received()| && (k < |messages| ==> |d.Received()| < |Stream(messages[..k + 1])|)
    ensures alive ==> d.Received() + c.incoming == old(c.incoming)
    ensures old(c.incoming) == Stream(messages) && Delivers(old(c.script), |old(c.incoming)|) && events >= |messages| ==>
              alive && d.Received() == Stream(messages) && d.log == Operations(messages)
  {
    hide Stream, Split, GoesOn;
    d := new Daemon.Connection();
    alive := true;
    ghost var all := c.incoming;
    assert [] + c.incoming == all;
    ghost var delivers := Delivers(c.script, |c.incoming|);
    var i := 0;
    while i < events && alive
      invariant i <= events && d.Valid() && fresh(d)
      invariant d.Received() <= all
      invariant alive ==> d.Received() + c.incoming == all
      invariant delivers ==> alive && Delivers(c.script, |c.incoming|) && (c.incoming != [] ==> |d.log| == i)
    {
      ghost var s, n := c.script, |c.incoming|;
      alive := d.OnReadable(c);
      i := i + 1;
      if delivers { EnoughMoves(s, c.script, n, |c.incoming|, alive, d.AtStart()); }
    }
    k := Performed(d, messages);
    if delivers && all == Stream(messages) && events >= |messages| {
      OperationCount(messages[..k]);
      EverythingRead(messages, k, d.Received(), c.incoming);
      AllPerformed(d, messages);
    }
  }

  lemma {:induction false} OperationCount(messages: seq<Sent>)
    ensures |Operations(messages)| == |messages|
  {
    if messages != [] {
      OperationCount(messages[1..]);
    }
  }

  /** Once every message has been counted, nothing is left in the stream. */
  lemma EverythingRead(messages: seq<Sent>, k: nat, received: seq<Byte>, left: seq<Byte>)
    requires AllWellFormed(messages) && k <= |messages| && received + left == Stream(messages)
    requires |Stream(messages[..k])| <= |received| && (left != [] ==> k >= |messages|)
    ensures left == [] && received == Stream(messages)
  {
    hide Stream;
    assert k == |messages| ==> messages[..k] == messages;
    if left == [] { assert received + left == received; }
  }

  lemma Performed(d: Daemon.Connection, messages: seq<Sent>) returns (k: nat)
    requires AllWellFormed(messages) && d.Valid() && d.Received() <= Stream(messages)
    ensures k <= |messages| && d.log == Operations(messages[..k])
    ensures |Stream(messages[..k])| <= |d.Received()| && (k < |messages| ==> |d.Received()| < |Stream(messages[..k + 1])|)
  {
    hide Stream, Split;
    d.LogIsDecoded();
    var n := |d.Received()|;
    assert Stream(messages)[..n] == d.Received();
    k := PrefixDecodes(messages, n);
  }

  /** Once the whole stream has arrived, every message has been performed and nothing is left over. */
  lemma AllPerformed(d: Daemon.Connection, messages: seq<Sent>)
    requires AllWellFormed(messages) && d.Valid() && d.Received() == Stream(messages)
    ensures d.log == Operations(messages) && d.rest == []
  {
    hide Stream, Split;
    d.LogIsDecoded();
    RoundTrip(messages);
  }

  /** The whole way: over streams that neither break nor end, however they cut the bytes, every message that is
      sent is performed, in order, with its path and contents. */
  method SendAndServe(messages: seq<Sent>, writing: seq<Result>, reading: seq<Result>, ok: nat -> bool, events: nat)
    returns (d: Daemon.Connection)
    requires AllWellFormed(messages) && events >= |messages| && forall i :: ok(i)
    requires Delivers(writing, |Stream(messages)|) && Delivers(reading, |Stream(messages)|)
    ensures d.Valid() && d.log == Operations(messages)
  {
    hide Stream, Delivers, Fitting;
    assert messages[..|messages|] == messages;
    var out := new Channel([], writing);
    AllFit(messages);
    var sent := SendAll(out, messages, ok);
    var incoming := new Channel(out.out, reading);
    var alive;
    ghost var k;
    d, alive, k := Serve(incoming, events, messages);
  }

  lemma {:induction false} AllFit(messages: seq<Sent>)
    requires AllWellFormed(messages)
    ensures AllSendable(messages) && Fitting(messages) == |messages|
  {
    if messages != [] {
      AllFit(messages[1..]);
    }
  }
}

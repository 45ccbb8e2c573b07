/** Length-prefixed framing (crates/daemon/src/protocol_wire.rs). */
module Wire {
  import opened Wrappers

  type Byte = b: nat | b < 256

  type Bytes = seq<Byte>

  const MAX_MESSAGE_SIZE: nat := 200 * 1024 * 1024

  datatype WireError = MessageTooLarge(size: nat) | ConnectionClosed | Io

  // The low 32 bits, as the cast to u32 keeps them.
  function ToU32(n: nat): (r: nat)
    ensures r < 0x1_0000_0000
  {
    n % 0x1_0000_0000
  }

  function BigEndian(n: nat): (r: Bytes)
    requires n < 0x1_0000_0000
    ensures |r| == 4
  {
    [n / 256 / 256 / 256, n / 256 / 256 % 256, n / 256 % 256, n % 256]
  }

  function FromBigEndian(b: Bytes): (n: nat)
    requires |b| == 4
    ensures n < 0x1_0000_0000
  {
    var (b0: int, b1: int, b2: int, b3: int) := (b[0], b[1], b[2], b[3]);
    ((b0 * 256 + b1) * 256 + b2) * 256 + b3
  }

  lemma BigEndianRoundTrip(n: nat, b: Bytes)
    requires n < 0x1_0000_0000 && |b| == 4
    ensures FromBigEndian(BigEndian(n)) == n && BigEndian(FromBigEndian(b)) == b
  {
    var m, k := n / 256, n / 256 / 256;
    assert n == 256 * m + n % 256 && m == 256 * k + m % 256 && k == 256 * (k / 256) + k % 256;
    var (b0: int, b1: int, b2: int, b3: int) := (b[0], b[1], b[2], b[3]);
    var f2 := b0 * 256 + b1;
    var f1 := f2 * 256 + b2;
    var f := f1 * 256 + b3;
    assert f / 256 == f1 && f % 256 == b3 && f1 / 256 == f2 && f1 % 256 == b2 && f2 / 256 == b0 && f2 % 256 == b1;
    assert BigEndian(f) == [b0, b1, b2, b3];
  }

  // At the first byte where they differ, `b` has the smaller one.
  predicate Before(b: Bytes, c: Bytes)
    requires |b| == 4 && |c| == 4
  {
    exists i :: 0 <= i < 4 && b[i] < c[i] && b[..i] == c[..i]
  }

  // The most significant byte comes first: lengths are ordered as their prefixes are.
  lemma BigEndianOrders(b: Bytes, c: Bytes)
    requires |b| == 4 && |c| == 4
    ensures FromBigEndian(b) < FromBigEndian(c) <==> Before(b, c)
  {
    assert b == [b[0], b[1], b[2], b[3]] && c == [c[0], c[1], c[2], c[3]];
    Digits(b, c);
    Digits(c, b);
    if b != c {
      var i := if b[0] != c[0] then 0 else if b[1] != c[1] then 1 else if b[2] != c[2] then 2 else 3;
      assert b[..i] == c[..i];
      if c[i] < b[i] { assert Before(c, b) && FromBigEndian(c) < FromBigEndian(b); }
    }
  }

  lemma Digits(b: Bytes, c: Bytes)
    requires |b| == 4 && |c| == 4
    ensures Before(b, c) ==> FromBigEndian(b) < FromBigEndian(c)
  {
    if i :| 0 <= i < 4 && b[i] < c[i] && b[..i] == c[..i] {
      assert forall k :: 0 <= k < i ==> b[k] == b[..i][k] && c[k] == c[..i][k];
    }
  }

  // The frame of a message.
  function Frame(data: Bytes): Bytes { BigEndian(ToU32(|data|)) + data }

  // Reading one message from the front of a stream that ends there.
  function ReadOne(stream: Bytes): Result<(Bytes, Bytes), WireError> {
    if |stream| < 4 then Err(ConnectionClosed)
    else
      var len := FromBigEndian(stream[..4]);
      if len > MAX_MESSAGE_SIZE then Err(MessageTooLarge(len))
      else if |stream| < 4 + len then Err(Io)
      else Ok((stream[4..4 + len], stream[4 + len..]))
  }

  // One direction of a connection: what was written and not yet read.
  class Stream {
    var bytes: Bytes

    constructor ()
      ensures bytes == []
    {
      bytes := [];
    }

    // Fills a buffer of `n` bytes; what there is of a shorter rest is consumed all the same.
    method ReadExact(n: nat) returns (buffer: Option<Bytes>)
      modifies this
      ensures if n <= |old(bytes)| then buffer == Some(old(bytes)[..n]) && bytes == old(bytes)[n..]
              else buffer == None && bytes == []
    {
      var i, read: Bytes := 0, [];
      while i < n && bytes != []
        invariant i <= n && i <= |old(bytes)| && read == old(bytes)[..i] && bytes == old(bytes)[i..]
      {
        read, bytes := read + [bytes[0]], bytes[1..];
        i := i + 1;
      }
      buffer := if i == n then Some(read) else None;
    }

    method ReadMessage() returns (r: Result<Bytes, WireError>)
      modifies this
      ensures match ReadOne(old(bytes))
              case Ok(m) => r == Ok(m.0) && bytes == m.1
              case Err(e) => r == Err(e)
    {
      var prefix := ReadExact(4);
      if prefix.None? {
        return Err(ConnectionClosed);
      }
      var len := FromBigEndian(prefix.value);
      if len > MAX_MESSAGE_SIZE {
        return Err(MessageTooLarge(len));
      }
      var payload := ReadExact(len);
      if payload.None? {
        return Err(Io);
      }
      assert old(bytes)[4..][..len] == old(bytes)[4..4 + len];
      assert old(bytes)[4..][len..] == old(bytes)[4 + len..];
      r := Ok(payload.value);
    }

    method WriteMessage(data: Bytes) returns (r: Result<(), WireError>)
      modifies this
      ensures if |data| > MAX_MESSAGE_SIZE then r == Err(MessageTooLarge(|data|)) && bytes == old(bytes)
              else r == Ok(()) && bytes == old(bytes) + Frame(data)
    {
      if |data| > MAX_MESSAGE_SIZE {
        return Err(MessageTooLarge(|data|));
      }
      bytes := bytes + BigEndian(ToU32(|data|));
      bytes := bytes + data;
      r := Ok(());
    }
  }

  // ------------------------------------------------------------- streams of messages

  function Frames(messages: seq<Bytes>): Bytes {
    if messages == [] then [] else Frame(messages[0]) + Frames(messages[1..])
  }

  // Reading until an error: the messages and that error.
  function ReadAll(stream: Bytes): (seq<Bytes>, WireError)
    decreases |stream|
  {
    match ReadOne(stream)
    case Err(e) => ([], e)
    case Ok(m) => var rest := ReadAll(m.1); ([m.0] + rest.0, rest.1)
  }

  // Below the limit the cast to 32 bits loses nothing, and one frame is read back as one message.
  lemma ReadOneOfFrame(data: Bytes, rest: Bytes)
    requires |data| <= MAX_MESSAGE_SIZE
    ensures ToU32(|data|) == |data| && ReadOne(Frame(data) + rest) == Ok((data, rest))
  {
    var stream := Frame(data) + rest;
    BigEndianRoundTrip(|data|, BigEndian(|data|));
    assert stream[..4] == BigEndian(|data|);
    assert stream[4..4 + |data|] == data && stream[4 + |data|..] == rest;
    hide BigEndian, FromBigEndian;
  }

  // Messages written one after the other are read back one after the other; then the connection
  // is found closed. A stream cut off inside a frame gives the messages before it, and a prefix
  // that is cut off counts as a closed connection.
  lemma {:induction false} StreamRoundTrip(messages: seq<Bytes>, cut: Bytes)
    requires forall i :: 0 <= i < |messages| ==> |messages[i]| <= MAX_MESSAGE_SIZE
    requires |cut| < 4
    ensures ReadAll(Frames(messages) + cut) == (messages, ConnectionClosed)
    decreases |messages|
  {
    if messages == [] {
      assert Frames(messages) + cut == cut;
    } else {
      hide ReadOne, Frame;
      var stream, rest := Frames(messages) + cut, Frames(messages[1..]) + cut;
      assert stream == Frame(messages[0]) + rest;
      ReadOneOfFrame(messages[0], rest);
      StreamRoundTrip(messages[1..], cut);
      assert messages == [messages[0]] + messages[1..];
    }
  }

  // A stream that is cut off inside a frame gives the messages before it; whether the prefix or the payload
  // is cut off makes the error.
  lemma {:induction false} CutOff(messages: seq<Bytes>, last: Bytes, k: nat)
    requires forall i :: 0 <= i < |messages| ==> |messages[i]| <= MAX_MESSAGE_SIZE
    requires |last| <= MAX_MESSAGE_SIZE && k < |Frame(last)|
    ensures ReadAll(Frames(messages) + Frame(last)[..k]) == (messages, if k < 4 then ConnectionClosed else Io)
    decreases |messages|
  {
    var cut := Frame(last)[..k];
    if messages == [] {
      assert Frames(messages) + cut == cut;
      if k >= 4 {
        assert cut[..4] == BigEndian(|last|);
        BigEndianRoundTrip(|last|, cut[..4]);
      }
      hide BigEndian, FromBigEndian;
    } else {
      hide ReadOne, Frame;
      var stream, rest := Frames(messages) + cut, Frames(messages[1..]) + cut;
      assert stream == Frame(messages[0]) + rest;
      ReadOneOfFrame(messages[0], rest);
      CutOff(messages[1..], last, k);
      assert messages == [messages[0]] + messages[1..];
    }
  }

  // A length above the limit is refused before its payload is looked at.
  lemma {:induction false} OversizeRefused(messages: seq<Bytes>, len: nat, junk: Bytes)
    requires forall i :: 0 <= i < |messages| ==> |messages[i]| <= MAX_MESSAGE_SIZE
    requires MAX_MESSAGE_SIZE < len < 0x1_0000_0000
    ensures ReadAll(Frames(messages) + (BigEndian(len) + junk)) == (messages, MessageTooLarge(len))
    decreases |messages|
  {
    var bad := BigEndian(len) + junk;
    if messages == [] {
      BigEndianRoundTrip(len, BigEndian(len));
      assert Frames(messages) + bad == bad && bad[..4] == BigEndian(len);
    } else {
      hide ReadOne, Frame, BigEndian;
      var stream, rest := Frames(messages) + bad, Frames(messages[1..]) + bad;
      assert stream == Frame(messages[0]) + rest;
      ReadOneOfFrame(messages[0], rest);
      OversizeRefused(messages[1..], len, junk);
      assert messages == [messages[0]] + messages[1..];
    }
  }
}

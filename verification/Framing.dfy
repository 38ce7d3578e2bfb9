/**
 The wake channel's framing: a four-byte big-endian length, then the body. The body codec is a
 parameter.
 */
module Framing {
  import opened Wrappers

  type Byte = x: int | 0 <= x < 256
  type Bytes = seq<Byte>

  const MAX_FRAME: nat := 65536
  const PREFIX: nat := 4

  function Pack(length: nat): (bytes: Bytes)
    requires length < 0x1_0000_0000
    ensures |bytes| == PREFIX
  {
    [length / 0x100_0000, length / 0x1_0000 % 256, length / 0x100 % 256, length % 256]
  }

  function Unpack(bytes: Bytes): nat
    requires |bytes| == PREFIX
  {
    var b0: int, b1: int, b2: int, b3: int := bytes[0], bytes[1], bytes[2], bytes[3];
    ((b0 * 256 + b1) * 256 + b2) * 256 + b3
  }

  lemma UnpackPack(length: nat)
    requires length < 0x1_0000_0000
    ensures Unpack(Pack(length)) == length
  {
    var high := length / 256;
    assert length / 0x1_0000 == high / 256 && length / 0x100_0000 == high / 256 / 256;
  }

  /** A body too long for the length field cannot be encoded. */
  predicate Encodable(body: Bytes) { |body| < 0x1_0000_0000 }

  function EncodeFrame(body: Bytes): Bytes
    requires Encodable(body)
  {
    Pack(|body|) + body
  }

  /** What one read of a closed stream yields, and what it leaves unread. */
  datatype Reading = Frame(body: Bytes, rest: Bytes) | Incomplete | Oversized

  function ReadFrame(stream: Bytes): Reading {
    if |stream| < PREFIX then Incomplete
    else
      var length := Unpack(stream[..PREFIX]);
      if length > MAX_FRAME then Oversized
      else if |stream| < PREFIX + length then Incomplete
      else Frame(stream[PREFIX..PREFIX + length], stream[PREFIX + length..])
  }

  /** The number that the first four bytes of a stream spell, most significant byte first. */
  function Spelled(stream: Bytes): int
    requires |stream| >= 4
  {
    var a: int, b: int, c: int, d: int := stream[0], stream[1], stream[2], stream[3];
    0x100_0000 * a + 0x1_0000 * b + 0x100 * c + d
  }

  /** On the wire a frame is the number of its body's bytes, spelled out, and then the body. */
  lemma FrameSpellsItsLength(body: Bytes)
    requires Encodable(body)
    ensures var frame := EncodeFrame(body);
            |frame| == 4 + |body| && Spelled(frame) == |body| && frame[4..] == body
  {
    UnpackPack(|body|);
    var frame := EncodeFrame(body);
    assert frame[..4] == Pack(|body|);
    assert Spelled(frame) == Unpack(frame[..4]);
  }

  /** And so it is read: too long from 64 KiB on, incomplete when less is there, and else the body and what follows. */
  lemma FrameIsReadAsSpelled(stream: Bytes)
    ensures ReadFrame(stream).Oversized? <==> |stream| >= 4 && Spelled(stream) > 65_536
    ensures ReadFrame(stream).Incomplete? <==>
              |stream| < 4 || (Spelled(stream) <= 65_536 && |stream| < 4 + Spelled(stream))
    ensures ReadFrame(stream).Frame? ==>
              && |ReadFrame(stream).body| == Spelled(stream)
              && stream == stream[..4] + ReadFrame(stream).body + ReadFrame(stream).rest
  {
    if |stream| >= 4 {
      assert Spelled(stream) == Unpack(stream[..4]);
    }
  }

  datatype Ending = PeerClosed | Desynchronized

  /** All frames of a stream, in order. */
  function Frames(stream: Bytes): seq<Bytes>
    decreases |stream|
  {
    match ReadFrame(stream)
    case Frame(body, rest) => [body] + Frames(rest)
    case _ => []
  }

  /** Why the reading stopped. */
  function EndOf(stream: Bytes): Ending
    decreases |stream|
  {
    match ReadFrame(stream)
    case Incomplete => PeerClosed
    case Oversized => Desynchronized
    case Frame(_, rest) => EndOf(rest)
  }

  predicate Sendable(bodies: seq<Bytes>) { forall b | b in bodies :: |b| <= MAX_FRAME }

  function EncodeAll(bodies: seq<Bytes>): Bytes
    requires Sendable(bodies)
  {
    if bodies == [] then [] else EncodeFrame(bodies[0]) + EncodeAll(bodies[1..])
  }

  // ---- Round trips ---------------------------------------------------------------------------

  /** A whole frame at the head of a stream is read back exactly, whatever follows it. */
  lemma ReadsWholeFrame(body: Bytes, rest: Bytes)
    requires |body| <= MAX_FRAME
    ensures ReadFrame(EncodeFrame(body) + rest) == Frame(body, rest)
  {
    var stream := EncodeFrame(body) + rest;
    UnpackPack(|body|);
    assert stream[..PREFIX] == Pack(|body|);
    assert stream[PREFIX..PREFIX + |body|] == body;
    assert stream[PREFIX + |body|..] == rest;
  }

  /** Part of a frame is never mistaken for one. */
  lemma PartOfFrameIsIncomplete(body: Bytes, n: nat)
    requires |body| <= MAX_FRAME && n < PREFIX + |body|
    ensures ReadFrame(EncodeFrame(body)[..n]) == Incomplete
  {
    if n >= PREFIX {
      UnpackPack(|body|);
      assert EncodeFrame(body)[..n][..PREFIX] == Pack(|body|);
    }
  }

  lemma SplitHead(bodies: seq<Bytes>, rest: Bytes)
    requires Sendable(bodies) && bodies != []
    ensures Sendable(bodies[1..]) && |bodies[0]| <= MAX_FRAME
    ensures EncodeAll(bodies) + rest == EncodeFrame(bodies[0]) + (EncodeAll(bodies[1..]) + rest)
  {
    assert bodies[0] in bodies && forall b | b in bodies[1..] :: b in bodies;
  }

  lemma JoinHead(bodies: seq<Bytes>, more: seq<Bytes>)
    requires bodies != []
    ensures [bodies[0]] + (bodies[1..] + more) == bodies + more
  {
  }

  /** Frames read from the front of any stream, then the rest of it. */
  lemma {:induction false} ReadsFramesThenRest(bodies: seq<Bytes>, rest: Bytes)
    requires Sendable(bodies)
    ensures Frames(EncodeAll(bodies) + rest) == bodies + Frames(rest)
    ensures EndOf(EncodeAll(bodies) + rest) == EndOf(rest)
  {
    if bodies == [] {
      assert EncodeAll(bodies) + rest == rest;
    } else {
      SplitHead(bodies, rest);
      ReadsWholeFrame(bodies[0], EncodeAll(bodies[1..]) + rest);
      ReadsFramesThenRest(bodies[1..], rest);
      JoinHead(bodies, Frames(rest));
    }
  }

  /** Any list of bodies of at most 64 KiB comes back exactly, ending in a clean close. */
  lemma RoundTrip(bodies: seq<Bytes>)
    requires Sendable(bodies)
    ensures Frames(EncodeAll(bodies)) == bodies && EndOf(EncodeAll(bodies)) == PeerClosed
  {
    ReadsFramesThenRest(bodies, []);
    assert EncodeAll(bodies) + [] == EncodeAll(bodies);
  }

  /** How many whole frames lie within the first `n` bytes. */
  function WholeFrames(bodies: seq<Bytes>, n: nat): (k: nat)
    ensures k <= |bodies|
  {
    if bodies == [] || n < PREFIX + |bodies[0]| then 0 else 1 + WholeFrames(bodies[1..], n - PREFIX - |bodies[0]|)
  }

  lemma CutWithinFrame(bodies: seq<Bytes>, n: nat)
    requires Sendable(bodies) && bodies != [] && n < PREFIX + |bodies[0]|
    ensures ReadFrame(EncodeAll(bodies)[..n]) == Incomplete
  {
    assert bodies[0] in bodies;
    assert EncodeAll(bodies)[..n] == EncodeFrame(bodies[0])[..n];
    PartOfFrameIsIncomplete(bodies[0], n);
  }

  lemma CutBehindFrame(bodies: seq<Bytes>, n: nat)
    requires Sendable(bodies) && bodies != [] && PREFIX + |bodies[0]| <= n <= |EncodeAll(bodies)|
    ensures Sendable(bodies[1..]) && n - PREFIX - |bodies[0]| <= |EncodeAll(bodies[1..])|
    ensures ReadFrame(EncodeAll(bodies)[..n]) == Frame(bodies[0], EncodeAll(bodies[1..])[..n - PREFIX - |bodies[0]|])
  {
    SplitHead(bodies, []);
    var tail := EncodeAll(bodies[1..])[..n - PREFIX - |bodies[0]|];
    assert EncodeAll(bodies)[..n] == EncodeFrame(bodies[0]) + tail;
    ReadsWholeFrame(bodies[0], tail);
  }

  lemma PrefixHead(bodies: seq<Bytes>, k: nat)
    requires k < |bodies|
    ensures bodies[..k + 1] == [bodies[0]] + bodies[1..][..k]
  {
  }

  lemma FramesOf(stream: Bytes, body: Bytes, rest: Bytes)
    requires ReadFrame(stream) == Frame(body, rest)
    ensures Frames(stream) == [body] + Frames(rest) && EndOf(stream) == EndOf(rest)
  {
  }

  lemma NoFrames(stream: Bytes)
    requires ReadFrame(stream) == Incomplete
    ensures Frames(stream) == [] && EndOf(stream) == PeerClosed
  {
  }

  /** Cutting the stream anywhere loses only whole frames from its end: the rest arrive unaltered, then a close. */
  lemma {:induction false} Truncation(bodies: seq<Bytes>, n: nat)
    requires Sendable(bodies) && n <= |EncodeAll(bodies)|
    ensures Frames(EncodeAll(bodies)[..n]) == bodies[..WholeFrames(bodies, n)]
    ensures EndOf(EncodeAll(bodies)[..n]) == PeerClosed
  {
    var cut := EncodeAll(bodies)[..n];
    if bodies == [] {
      NoFrames(cut);
    } else if n < PREFIX + |bodies[0]| {
      CutWithinFrame(bodies, n);
      NoFrames(cut);
    } else {
      var left := n - PREFIX - |bodies[0]|;
      CutBehindFrame(bodies, n);
      FramesOf(cut, bodies[0], EncodeAll(bodies[1..])[..left]);
      Truncation(bodies[1..], left);
      PrefixHead(bodies, WholeFrames(bodies[1..], left));
    }
  }

  /** The whole frames are all that fit: one more does not. */
  lemma {:induction false} WholeFramesAreAll(bodies: seq<Bytes>, n: nat)
    requires Sendable(bodies)
    ensures |EncodeAll(bodies[..WholeFrames(bodies, n)])| <= n
    ensures WholeFrames(bodies, n) < |bodies| ==>
              n < |EncodeAll(bodies[..WholeFrames(bodies, n)])| + PREFIX + |bodies[WholeFrames(bodies, n)]|
  {
    if bodies != [] && n >= PREFIX + |bodies[0]| {
      var others := bodies[1..];
      var k := WholeFrames(others, n - PREFIX - |bodies[0]|);
      assert forall b | b in others :: b in bodies;
      assert bodies[..k + 1][1..] == others[..k];
      WholeFramesAreAll(others, n - PREFIX - |bodies[0]|);
    }
  }

  /** A frame over 64 KiB ends the connection, after every frame before it and before anything behind it. */
  lemma OversizedFrameCloses(bodies: seq<Bytes>, large: Bytes, rest: Bytes)
    requires Sendable(bodies) && Encodable(large) && |large| > MAX_FRAME
    ensures var stream := EncodeAll(bodies) + (EncodeFrame(large) + rest);
            Frames(stream) == bodies && EndOf(stream) == Desynchronized
  {
    var tail := EncodeFrame(large) + rest;
    UnpackPack(|large|);
    assert tail[..PREFIX] == Pack(|large|);
    ReadsFramesThenRest(bodies, tail);
    assert bodies + [] == bodies;
  }

  // ---- The executor's read loop --------------------------------------------------------------

  datatype Ack = Accepted(correlation: string) | Rejected

  datatype Message = Message(correlation: string, payload: string)

  /** The messages among some bodies, in order. */
  function Decoded(bodies: seq<Bytes>, decode: Bytes -> Option<Message>): seq<Message> {
    if bodies == [] then []
    else
      var rest := Decoded(bodies[..|bodies| - 1], decode);
      var last := decode(bodies[|bodies| - 1]);
      if last.Some? then rest + [last.value] else rest
  }

  /** One acknowledgement for each body: accepted under the message's own correlation exactly when it decodes. */
  predicate Answers(acks: seq<Ack>, bodies: seq<Bytes>, decode: Bytes -> Option<Message>) {
    && |acks| == |bodies|
    && forall i | 0 <= i < |acks| ::
         && (acks[i].Accepted? <==> decode(bodies[i]).Some?)
         && (acks[i].Accepted? ==> acks[i].correlation == decode(bodies[i]).value.correlation)
  }

  lemma ReadOneMore(stream: Bytes, bodies: seq<Bytes>, left: Bytes)
    requires ReadFrame(left).Frame? && Frames(stream) == bodies + Frames(left)
    ensures Frames(stream) == (bodies + [ReadFrame(left).body]) + Frames(ReadFrame(left).rest)
  {
  }

  /**
   Read a connection to its end: every complete frame is acknowledged once and in order, a body that
   does not decode is refused without disturbing the frames behind it, and the rest are fired in order.
   */
  method HandleConnection(stream: Bytes, decode: Bytes -> Option<Message>)
    returns (acks: seq<Ack>, fired: seq<Message>, ending: Ending)
    ensures Answers(acks, Frames(stream), decode)
    ensures fired == Decoded(Frames(stream), decode) && ending == EndOf(stream)
  {
    acks, fired := [], [];
    var left := stream;
    ghost var bodies: seq<Bytes> := [];
    assert bodies + Frames(left) == Frames(left);
    while true
      invariant Frames(stream) == bodies + Frames(left) && EndOf(stream) == EndOf(left)
      invariant Answers(acks, bodies, decode) && fired == Decoded(bodies, decode)
      decreases |left|
    {
      var reading := ReadFrame(left);
      if reading.Incomplete? {
        assert bodies + [] == bodies;
        return acks, fired, PeerClosed;
      }
      if reading.Oversized? {
        assert bodies + [] == bodies;
        return acks, fired, Desynchronized;
      }
      ReadOneMore(stream, bodies, left);
      var message := decode(reading.body);
      if message.Some? {
        acks := acks + [Accepted(message.value.correlation)];
        fired := fired + [message.value];
      } else {
        acks := acks + [Rejected];
      }
      assert (bodies + [reading.body])[..|bodies|] == bodies;
      bodies := bodies + [reading.body];
      left := reading.rest;
    }
  }

  // ---- End to end ----------------------------------------------------------------------------

  function EncodeMessages(messages: seq<Message>, encode: Message -> Bytes): seq<Bytes> {
    if messages == [] then []
    else EncodeMessages(messages[..|messages| - 1], encode) + [encode(messages[|messages| - 1])]
  }

  lemma {:induction false} DecodesWhatWasEncoded(messages: seq<Message>, encode: Message -> Bytes,
                                                 decode: Bytes -> Option<Message>)
    requires forall m | m in messages :: decode(encode(m)) == Some(m)
    ensures Decoded(EncodeMessages(messages, encode), decode) == messages
  {
    if messages != [] {
      var rest := messages[..|messages| - 1];
      var last := messages[|messages| - 1];
      assert messages == rest + [last];
      DecodesWhatWasEncoded(rest, encode, decode);
      var bodies := EncodeMessages(messages, encode);
      assert bodies[..|bodies| - 1] == EncodeMessages(rest, encode);
      assert decode(encode(last)) == Some(last);
    }
  }

  /** With an invertible codec, exactly the messages written by one side are fired by the other, in order. */
  lemma MessagesSurviveTheWire(messages: seq<Message>, encode: Message -> Bytes, decode: Bytes -> Option<Message>)
    requires forall m | m in messages :: decode(encode(m)) == Some(m)
    requires Sendable(EncodeMessages(messages, encode))
    ensures Decoded(Frames(EncodeAll(EncodeMessages(messages, encode))), decode) == messages
  {
    RoundTrip(EncodeMessages(messages, encode));
    DecodesWhatWasEncoded(messages, encode, decode);
  }
}

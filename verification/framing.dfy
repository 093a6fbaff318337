/** Length-prefixed frames over a payload codec, and a connection that reassembles them from a chunked byte stream. */
module Framing {
  import opened Options

  newtype Byte = x: int | 0 <= x < 256

  type Bytes = seq<Byte>

  /** The payload serializer: both directions can refuse. */
  datatype Codec<!M> = Codec(encode: M -> Option<Bytes>, decode: Bytes -> Option<M>)

  /** Decoding gives back whatever was encoded. */
  ghost predicate Inverts<M(!new)>(c: Codec<M>) {
    forall m :: c.encode(m).Some? ==> c.decode(c.encode(m).value) == Some(m)
  }

  const MAX_U32: nat := 0x1_0000_0000

  // ---------- the header ----------

  function BigEndian(n: nat): (b: Bytes)
    requires n < MAX_U32
    ensures |b| == 4
  {
    [(n / 0x100_0000) as Byte, (n / 0x1_0000 % 256) as Byte, (n / 0x100 % 256) as Byte, (n % 256) as Byte]
  }

  function FromBigEndian(b: Bytes): (n: nat)
    requires |b| == 4
    ensures n < MAX_U32
  {
    b[0] as nat * 0x100_0000 + b[1] as nat * 0x1_0000 + b[2] as nat * 0x100 + b[3] as nat
  }

  lemma HeaderRoundTrip(n: nat)
    requires n < MAX_U32
    ensures FromBigEndian(BigEndian(n)) == n
  {
    assert n / 0x100 / 0x100 == n / 0x1_0000 && n / 0x1_0000 / 0x100 == n / 0x100_0000;
  }

  /** The number a string of digits to base 256 stands for, the most significant digit first. */
  function Value(digits: Bytes): nat {
    if digits == [] then 0 else 256 * Value(digits[..|digits| - 1]) + digits[|digits| - 1] as nat
  }

  /** The header is the payload length in four digits, the most significant first. */
  lemma HeaderValue(b: Bytes)
    requires |b| == 4
    ensures FromBigEndian(b) == Value(b)
    ensures BigEndian(Value(b)) == b
  {
    assert b[..3][..2] == b[..2] && b[..2][..1] == b[..1] && b[..1][..0] == [];
    assert Value(b[..1]) == b[0] as nat;
    assert Value(b[..2]) == 256 * b[0] as nat + b[1] as nat;
    assert Value(b[..3]) == 256 * Value(b[..2]) + b[2] as nat;
    Digits(b[0] as nat, b[1] as nat, b[2] as nat, b[3] as nat);
  }

  lemma Digits(a: nat, b: nat, c: nat, d: nat)
    requires a < 256 && b < 256 && c < 256 && d < 256
    ensures var n := a * 0x100_0000 + b * 0x1_0000 + c * 0x100 + d;
      n < MAX_U32 && n / 0x100_0000 == a && n / 0x1_0000 % 256 == b && n / 0x100 % 256 == c && n % 256 == d
  {
    var x := 256 * a + b;
    var y := 256 * x + c;
    var n := 256 * y + d;
    LastDigit(a, b);
    LastDigit(x, c);
    LastDigit(y, d);
    TwoSteps(n);
  }

  lemma LastDigit(q: nat, r: nat)
    requires r < 256
    ensures (256 * q + r) / 256 == q && (256 * q + r) % 256 == r
  {}

  lemma TwoSteps(n: nat)
    ensures n / 0x1_0000 == n / 256 / 256 && n / 0x100_0000 == n / 256 / 256 / 256
  {}

  // ---------- framing and parsing ----------

  datatype Parse<M> = Incomplete | Refused | Frame(msg: M, consumed: nat)

  function ParseFrame<M>(c: Codec<M>, buf: Bytes): (r: Parse<M>)
    ensures r.Frame? ==> 4 <= r.consumed <= |buf|
  {
    if |buf| < 4 then Incomplete
    else
      var len := FromBigEndian(buf[..4]);
      if |buf| < 4 + len then Incomplete
      else match c.decode(buf[4..4 + len])
           case None => Refused
           case Some(msg) => Frame(msg, 4 + len)
  }

  /** The header holds the payload length modulo 2^32. */
  function FrameOf(payload: Bytes): Bytes {
    BigEndian(|payload| % MAX_U32) + payload
  }

  method FrameMessage<M>(c: Codec<M>, msg: M) returns (frame: Option<Bytes>)
    ensures frame == match c.encode(msg) case None => None case Some(payload) => Some(FrameOf(payload))
  {
    var encoded := c.encode(msg);
    if encoded.None? {
      return None;
    }
    var payload := encoded.value;
    var len := |payload| % MAX_U32;
    var bytes: Bytes := [];
    bytes := bytes + BigEndian(len);
    bytes := bytes + payload;
    assert bytes == FrameOf(payload);
    frame := Some(bytes);
  }

  lemma HeaderOf(payload: Bytes, rest: Bytes)
    ensures |FrameOf(payload)| == 4 + |payload|
    ensures (FrameOf(payload) + rest)[..4] == BigEndian(|payload| % MAX_U32)
    ensures FromBigEndian((FrameOf(payload) + rest)[..4]) == |payload| % MAX_U32
    ensures (FrameOf(payload) + rest)[4..4 + |payload|] == payload
  {
    HeaderRoundTrip(|payload| % MAX_U32);
    assert (FrameOf(payload) + rest)[..4] == BigEndian(|payload| % MAX_U32);
  }

  /** A framed message parses back, whatever follows it, exactly when its payload length fits the header. */
  lemma RoundTripIff<M(!new)>(c: Codec<M>, msg: M, rest: Bytes)
    requires Inverts(c) && c.encode(msg).Some?
    ensures ParseFrame(c, FrameOf(c.encode(msg).value) + rest) == Frame(msg, |FrameOf(c.encode(msg).value)|)
            <==> |c.encode(msg).value| < MAX_U32
  {
    hide FrameOf, FromBigEndian, BigEndian;
    HeaderOf(c.encode(msg).value, rest);
    ShortLength(|c.encode(msg).value|);
  }

  lemma ShortLength(n: nat)
    ensures n % MAX_U32 == n <==> n < MAX_U32
    ensures n % MAX_U32 < MAX_U32
  {}

  /** The payload itself as its own encoding. */
  const RAW: Codec<Bytes> := Codec(m => Some(m), b => Some(b))

  /** The bound is met by actual messages: the frame of a payload of exactly 2^32 bytes parses as an empty message of
      four bytes. */
  lemma HugeFrameMisread(payload: Bytes, rest: Bytes)
    requires |payload| == MAX_U32
    ensures Inverts(RAW) && RAW.encode(payload) == Some(payload)
    ensures ParseFrame(RAW, FrameOf(payload) + rest) == Frame([], 4)
  {
    HeaderOf(payload, rest);
    hide FrameOf, FromBigEndian, BigEndian;
    var buf := FrameOf(payload) + rest;
    assert buf[4..4] == [];
  }

  lemma HugePayload() returns (payload: Bytes)
    ensures |payload| == MAX_U32
  {
    payload := seq(MAX_U32, _ => 0);
  }

  /** A frame cut short never parses, neither as a message nor as garbage. */
  lemma StrictPrefixIncomplete<M>(c: Codec<M>, payload: Bytes, k: nat)
    requires |payload| < MAX_U32 && k < |FrameOf(payload)|
    ensures ParseFrame(c, FrameOf(payload)[..k]) == Incomplete
  {
    HeaderOf(payload, []);
    assert FrameOf(payload) + [] == FrameOf(payload);
    if k >= 4 {
      assert FrameOf(payload)[..k][..4] == FrameOf(payload)[..4];
    }
  }

  /** A whole frame is never waited for, whatever follows it: it is refused if its payload does not decode, and
      otherwise gives the decoded message and is taken off whole. */
  lemma WholeFrame<M>(c: Codec<M>, payload: Bytes, rest: Bytes)
    requires |payload| < MAX_U32
    ensures ParseFrame(c, FrameOf(payload) + rest)
            == match c.decode(payload) case None => Refused case Some(msg) => Frame(msg, 4 + |payload|)
  {
    hide FrameOf, FromBigEndian, BigEndian;
    HeaderOf(payload, rest);
    ShortLength(|payload|);
  }

  /** Exactly the buffers that begin with no whole frame are waited for. */
  lemma IncompleteIff<M>(c: Codec<M>, buf: Bytes)
    ensures ParseFrame(c, buf).Incomplete? <==>
      forall payload: Bytes | |payload| < MAX_U32 :: !(FrameOf(payload) <= buf)
  {
    hide ParseFrame, FrameOf;
    if ParseFrame(c, buf).Incomplete? {
      forall payload: Bytes | |payload| < MAX_U32 ensures !(FrameOf(payload) <= buf) {
        if FrameOf(payload) <= buf {
          assert buf == FrameOf(payload) + buf[|FrameOf(payload)|..];
          WholeFrame(c, payload, buf[|FrameOf(payload)|..]);
        }
      }
    } else {
      ghost var payload := BeginsWhole(c, buf);
    }
  }

  lemma BeginsWhole<M>(c: Codec<M>, buf: Bytes) returns (payload: Bytes)
    requires !ParseFrame(c, buf).Incomplete?
    ensures |payload| < MAX_U32 && FrameOf(payload) <= buf
  {
    var head := buf[..4];
    HeaderValue(head);
    hide FromBigEndian, BigEndian;
    var len := FromBigEndian(head);
    ShortLength(len);
    payload := buf[4..4 + len];
    hide ParseFrame;
    assert buf[..4 + len] == head + payload;
  }

  /** Once something parses, later bytes do not change what parsed. */
  lemma ParseStable<M>(c: Codec<M>, buf: Bytes, more: Bytes)
    requires !ParseFrame(c, buf).Incomplete?
    ensures ParseFrame(c, buf + more) == ParseFrame(c, buf)
  {
    var len := FromBigEndian(buf[..4]);
    assert (buf + more)[..4] == buf[..4];
    assert (buf + more)[4..4 + len] == buf[4..4 + len];
  }

  // ---------- the connection ----------

  /** What one read of the socket gives; no bytes mean that the peer closed. */
  datatype Read = Data(bytes: Bytes) | Failed

  datatype Received<M> = Message(msg: M) | DecodeError | ConnectionClosed | IoError

  /** The bytes that arrive before the stream ends or fails. */
  function Flow(socket: seq<Read>): Bytes {
    if socket == [] || socket[0].Failed? || socket[0].bytes == [] then [] else socket[0].bytes + Flow(socket[1..])
  }

  /** Whether the stream ends with a failed read rather than with the peer closing. */
  predicate FailsAtEnd(socket: seq<Read>) {
    if socket == [] then false
    else if socket[0].Failed? then true
    else socket[0].bytes != [] && FailsAtEnd(socket[1..])
  }

  /** The reads still left once the stream has ended. */
  function AfterEnd(socket: seq<Read>): seq<Read> {
    if socket == [] then []
    else if socket[0].Failed? || socket[0].bytes == [] then socket[1..]
    else AfterEnd(socket[1..])
  }

  /** The first i reads give bytes, and the stream ends there: with a failure, by the peer closing, or with no read
      left. */
  ghost predicate EndsAt(socket: seq<Read>, i: nat) {
    && i <= |socket|
    && (forall j :: 0 <= j < i ==> socket[j].Data? && socket[j].bytes != [])
    && (i < |socket| ==> socket[i] in {Failed, Data([])})
  }

  /** Every stream ends at exactly one place; it carries the bytes read before, fails exactly if the read there does,
      and leaves exactly the reads behind that one. */
  lemma {:induction false} StreamExact(socket: seq<Read>) returns (i: nat)
    ensures EndsAt(socket, i) && forall k: nat :: EndsAt(socket, k) ==> k == i
    ensures Flow(socket) == Concat(seq(i, j requires 0 <= j < i => socket[j].bytes))
    ensures FailsAtEnd(socket) <==> i < |socket| && socket[i].Failed?
    ensures AfterEnd(socket) == if i < |socket| then socket[i + 1..] else []
  {
    if socket == [] || socket[0] in {Failed, Data([])} {
      i := 0;
    } else {
      var rest := socket[1..];
      i := StreamExact(rest);
      i := i + 1;
      forall k: nat | EndsAt(socket, k) ensures k == i { assert EndsAt(rest, k - 1); }
      var bytes := seq(i, j requires 0 <= j < i => socket[j].bytes);
      assert bytes[1..] == seq(i - 1, j requires 0 <= j < i - 1 => rest[j].bytes);
    }
  }

  /** The messages that receives give one after the other, until one of them gives none; what is left then. */
  function ReceiveAll<M>(c: Codec<M>, pending: Bytes): (seq<M>, Bytes)
    decreases |pending|
  {
    match ParseFrame(c, pending)
    case Frame(msg, consumed) =>
      var rest := ReceiveAll(c, pending[consumed..]);
      ([msg] + rest.0, rest.1)
    case _ => ([], pending)
  }

  class TcpConnection<M> {
    const codec: Codec<M>
    var readBuffer: Bytes
    var socket: seq<Read>

    constructor (codec: Codec<M>, socket: seq<Read>)
      ensures this.codec == codec && readBuffer == [] && this.socket == socket
    {
      this.codec := codec;
      readBuffer, this.socket := [], socket;
    }

    /** The bytes received but not yet parsed, together with those still to come. */
    ghost function Pending(): Bytes
      reads this
    {
      readBuffer + Flow(socket)
    }

    method ReadSocket() returns (read: Read)
      modifies this`socket
      ensures old(socket) == [] ==> read == Data([]) && socket == []
      ensures old(socket) != [] ==> read == old(socket)[0] && socket == old(socket)[1..]
    {
      if socket == [] {
        return Data([]);
      }
      read := socket[0];
      socket := socket[1..];
    }

    /** The outcome depends on the pending bytes alone, not on how they are cut into chunks: the first frame is taken
        off and returned; a refused payload leaves everything in place; without a complete frame all bytes are kept
        and the end of the stream is reported. */
    method RecvMessage() returns (r: Received<M>)
      modifies this
      ensures match ParseFrame(codec, old(Pending()))
        case Frame(msg, consumed) =>
          r == Message(msg) && Pending() == old(Pending())[consumed..]
          && FailsAtEnd(socket) == old(FailsAtEnd(socket)) && AfterEnd(socket) == old(AfterEnd(socket))
        case Refused =>
          r == DecodeError && Pending() == old(Pending())
          && FailsAtEnd(socket) == old(FailsAtEnd(socket)) && AfterEnd(socket) == old(AfterEnd(socket))
        case Incomplete =>
          r == (if old(FailsAtEnd(socket)) then IoError else ConnectionClosed)
          && readBuffer == old(Pending()) && socket == old(AfterEnd(socket))
    {
      while true
        invariant Pending() == old(Pending())
        invariant FailsAtEnd(socket) == old(FailsAtEnd(socket)) && AfterEnd(socket) == old(AfterEnd(socket))
        decreases |socket|
      {
        var parsed := ParseFrame(codec, readBuffer);
        if !parsed.Incomplete? {
          ParseStable(codec, readBuffer, Flow(socket));
        }
        match parsed {
          case Frame(msg, consumed) =>
            assert Pending()[consumed..] == readBuffer[consumed..] + Flow(socket);
            readBuffer := readBuffer[consumed..];
            return Message(msg);
          case Refused =>
            return DecodeError;
          case Incomplete =>
        }
        ghost var before := socket;
        var read := ReadSocket();
        match read {
          case Data(bytes) =>
            if bytes == [] {
              assert Flow(before) == [] && readBuffer + [] == readBuffer;
              return ConnectionClosed;
            }
            assert readBuffer + Flow(before) == readBuffer + bytes + Flow(socket);
            readBuffer := readBuffer + bytes;
          case Failed =>
            assert Flow(before) == [] && readBuffer + [] == readBuffer;
            return IoError;
        }
      }
    }

    /** Receives one message after the other and stops at the first receive that gives none, as the receiver loop of a
        connection does. */
    method RecvUntilError() returns (msgs: seq<M>, last: Received<M>)
      modifies this
      ensures var (given, tail) := ReceiveAll(codec, old(Pending()));
        && msgs == given
        && (last.DecodeError? <==> ParseFrame(codec, tail).Refused?)
        && if last.DecodeError? then Pending() == tail && FailsAtEnd(socket) == old(FailsAtEnd(socket))
           else last == (if old(FailsAtEnd(socket)) then IoError else ConnectionClosed)
                && readBuffer == tail && socket == old(AfterEnd(socket))
    {
      msgs := [];
      last := RecvMessage();
      ghost var pending := old(Pending());
      assert msgs + ReceiveAll(codec, pending).0 == ReceiveAll(codec, pending).0;
      while last.Message?
        invariant var (given, tail) := ReceiveAll(codec, pending);
          ReceiveAll(codec, old(Pending())) == (msgs + given, tail)
        invariant match ParseFrame(codec, pending)
          case Frame(msg, consumed) =>
            last == Message(msg) && Pending() == pending[consumed..]
            && FailsAtEnd(socket) == old(FailsAtEnd(socket)) && AfterEnd(socket) == old(AfterEnd(socket))
          case Refused =>
            last == DecodeError && Pending() == pending && FailsAtEnd(socket) == old(FailsAtEnd(socket))
          case Incomplete =>
            last == (if old(FailsAtEnd(socket)) then IoError else ConnectionClosed)
            && readBuffer == pending && socket == old(AfterEnd(socket))
        decreases |pending|
      {
        ghost var rest := pending[ParseFrame(codec, pending).consumed..];
        assert msgs + ([last.msg] + ReceiveAll(codec, rest).0) == msgs + [last.msg] + ReceiveAll(codec, rest).0;
        msgs := msgs + [last.msg];
        pending := rest;
        last := RecvMessage();
      }
      assert msgs + [] == msgs;
    }
  }

  // ---------- whole streams ----------

  function Frames<M>(c: Codec<M>, msgs: seq<M>): Bytes
    requires forall m :: m in msgs ==> c.encode(m).Some?
  {
    if msgs == [] then [] else FrameOf(c.encode(msgs[0]).value) + Frames(c, msgs[1..])
  }

  /** The chunks of a stream; no chunk is empty. */
  function Chunked(chunks: seq<Bytes>): seq<Read> {
    seq(|chunks|, i requires 0 <= i < |chunks| => Data(chunks[i]))
  }

  function Concat(chunks: seq<Bytes>): Bytes {
    if chunks == [] then [] else chunks[0] + Concat(chunks[1..])
  }

  lemma {:induction false} FlowIsConcat(chunks: seq<Bytes>)
    requires [] !in chunks
    ensures Flow(Chunked(chunks)) == Concat(chunks)
  {
    if chunks != [] {
      assert Chunked(chunks)[1..] == Chunked(chunks[1..]);
      FlowIsConcat(chunks[1..]);
    }
  }

  /** Receiving gives exactly the messages sent, in order, and leaves exactly what follows the last frame, provided that
      is not itself a frame that decodes: a cut frame, or one that is refused. */
  lemma {:induction false} ReceivesWhatWasSent<M(!new)>(c: Codec<M>, msgs: seq<M>, tail: Bytes)
    requires Inverts(c)
    requires forall m :: m in msgs ==> c.encode(m).Some? && |c.encode(m).value| < MAX_U32
    requires !ParseFrame(c, tail).Frame?
    ensures ReceiveAll(c, Frames(c, msgs) + tail) == (msgs, tail)
  {
    if msgs == [] {
      assert Frames(c, msgs) + tail == tail;
    } else {
      var frame := FrameOf(c.encode(msgs[0]).value);
      var rest := Frames(c, msgs[1..]) + tail;
      assert Frames(c, msgs) + tail == frame + rest;
      RoundTripIff(c, msgs[0], rest);
      assert (frame + rest)[|frame|..] == rest;
      ReceivesWhatWasSent(c, msgs[1..], tail);
      assert msgs == [msgs[0]] + msgs[1..];
    }
  }

  /** However the bytes of some frames are cut into non-empty chunks, and wherever the stream stops, a fresh connection
      has exactly those messages to give whose frames arrived whole. */
  lemma Reassembly<M(!new)>(c: Codec<M>, msgs: seq<M>, last: M, cut: nat, chunks: seq<Bytes>)
    requires Inverts(c) && [] !in chunks
    requires forall m :: m in msgs + [last] ==> c.encode(m).Some? && |c.encode(m).value| < MAX_U32
    requires cut < |FrameOf(c.encode(last).value)|
    requires Concat(chunks) == Frames(c, msgs) + FrameOf(c.encode(last).value)[..cut]
    ensures ReceiveAll(c, Flow(Chunked(chunks))) == (msgs, FrameOf(c.encode(last).value)[..cut])
  {
    FlowIsConcat(chunks);
    assert last in msgs + [last];
    StrictPrefixIncomplete(c, c.encode(last).value, cut);
    assert forall m :: m in msgs ==> m in msgs + [last];
    var tail := FrameOf(c.encode(last).value)[..cut];
    ReceivesWhatWasSent(c, msgs, tail);
    assert Flow(Chunked(chunks)) == Frames(c, msgs) + tail;
  }
}

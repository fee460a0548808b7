/** Frames on a byte stream: the two halves of a stream as mutable objects, the
    frame writer and the frame reader, and what a list of frames reads back as. */
module FrameStream {
  import opened Wire

  // ----- what one frame is, and what one read makes of a byte sequence -----

  const MODULUS_32 := 0x1_0000_0000

  /** `payload_len as u32` keeps the low 32 bits of the length. */
  function FrameHeader(kind: Method, option: byte, payload: seq<byte>): MessageHeader {
    MessageHeader(0, option, kind, |payload| % MODULUS_32)
  }

  function Frame(kind: Method, option: byte, payload: seq<byte>): (r: seq<byte>)
    ensures |r| == HEADER_SIZE + |payload|
  {
    PrintHeader(FrameHeader(kind, option, payload)) + payload
  }

  /** The stream ended before the bytes asked for had arrived. */
  const READ_EXACT_ERROR := Library([])

  // ----- what becomes of a frame that is written ---------------------------------

  /** How many bytes a stream takes before a write fails; `None` if it never does. */
  type Room = Option<nat>

  const WRITE_ERROR := Library([2])

  predicate Takes(room: Room, b: seq<byte>) {
    room.None? || |b| <= room.value
  }

  function Accepted(room: Room, b: seq<byte>): (r: seq<byte>)
    ensures r <= b && (r == b <==> Takes(room, b))
  {
    if Takes(room, b) then b else b[..room.value]
  }

  function RoomAfter(room: Room, b: seq<byte>): Room {
    if room.None? then None else if Takes(room, b) then Some(room.value - |b|) else Some(0)
  }

  /** Two writes, of which the second is made only if the first was taken, put the
      same on the stream as one. */
  lemma AcceptedInTwo(room: Room, a: seq<byte>, b: seq<byte>)
    ensures Takes(room, a + b) <==> Takes(room, a) && Takes(RoomAfter(room, a), b)
    ensures Accepted(room, a + b) == if Takes(room, a) then a + Accepted(RoomAfter(room, a), b) else Accepted(room, a)
    ensures RoomAfter(room, a + b) == if Takes(room, a) then RoomAfter(RoomAfter(room, a), b) else RoomAfter(room, a)
  {
  }

  /** What a write puts on the stream, how it ends and what room it leaves. */
  datatype Sent = Sent(result: Result<()>, bytes: seq<byte>, room: Room)

  function SendBytes(room: Room, b: seq<byte>): Sent {
    Sent(if Takes(room, b) then Ok(()) else Err(WRITE_ERROR), Accepted(room, b), RoomAfter(room, b))
  }

  /** A message the serialiser refuses is not written at all. */
  function SendFrame(room: Room, kind: Method, option: byte, payload: Option<seq<byte>>): Sent {
    match payload
    case None => Sent(Err(ErrorCode(IO_BAD_MESSAGE)), [], room)
    case Some(p) => SendBytes(room, Frame(kind, option, p))
  }

  /** What is read, and the bytes left in the stream. */
  datatype Read<+T> = Read(result: Result<T>, rest: seq<byte>)

  function ReadBytes(input: seq<byte>, n: nat): Read<seq<byte>> {
    if n <= |input| then Read(Ok(input[..n]), input[n..])
    else Read(Err(READ_EXACT_ERROR), [])
  }

  function ReadFrame<M>(input: seq<byte>, decode: seq<byte> -> Option<M>, decodeAck: seq<byte> -> Option<AckMessage>)
    : Read<(MessageHeader, M)>
  {
    var header := ReadBytes(input, HEADER_SIZE);
    if header.result.Err? then Read(Err(header.result.error), header.rest)
    else
      match ParseHeader(header.result.value)
      case None => Read(Err(ErrorCode(IO_BAD_MESSAGE)), header.rest)
      case Some(h) =>
        if h.length > MAX_PAYLOAD_SIZE then Read(Err(ErrorCode(PAYLOAD_TOO_LARGE)), header.rest)
        else
          var body := ReadBytes(header.rest, h.length);
          if body.result.Err? then Read(Err(body.result.error), body.rest)
          else Read(DecodePayload(h, body.result.value, decode, decodeAck), body.rest)
  }

  function DecodePayload<M>(h: MessageHeader, payload: seq<byte>, decode: seq<byte> -> Option<M>,
                            decodeAck: seq<byte> -> Option<AckMessage>): Result<(MessageHeader, M)>
  {
    if h.IsOk() then
      match decode(payload)
      case None => Err(ErrorCode(DESERIALIZATION_ERROR))
      case Some(m) => Ok((h, m))
    else
      match decodeAck(payload)
      case None => Err(ErrorCode(DESERIALIZATION_ERROR))
      case Some(ack) => Err(ErrorCode(ack.code))
  }

  // ----- the sending half -----------------------------------------------------

  class SendStream {
    /** Every byte accepted so far, in order. */
    var sent: seq<byte>
    /** How many more the connection will take. */
    var room: Room

    constructor (room: Room)
      ensures sent == [] && this.room == room
    {
      sent, this.room := [], room;
    }

    method WriteAll(b: seq<byte>) returns (r: Result<()>)
      modifies this
      ensures Sent(r, Accepted(old(room), b), room) == SendBytes(old(room), b)
      ensures sent == old(sent) + Accepted(old(room), b)
    {
      if room.None? {
        sent := sent + b;
        return Ok(());
      }
      if |b| <= room.value {
        sent, room := sent + b, Some(room.value - |b|);
        return Ok(());
      }
      sent, room := sent + b[..room.value], Some(0);
      return Err(WRITE_ERROR);
    }

    /** Serialises into a buffer that starts with room for the header, then
        fills the header in place and hands the whole buffer over. */
    method WriteMessage<M>(kind: Method, option: byte, encode: M -> Option<seq<byte>>, msg: M) returns (r: Result<()>)
      modifies this
      ensures var o := SendFrame(old(room), kind, option, encode(msg));
              r == o.result && sent == old(sent) + o.bytes && room == o.room
    {
      hide PrintHeader, Accepted, RoomAfter, Takes;
      var encoded := encode(msg);
      if encoded.None? {
        assert sent == sent + [];
        return Err(ErrorCode(IO_BAD_MESSAGE));
      }
      var payload := encoded.value;
      var buf := new byte[HEADER_SIZE + |payload|](_ => 0);
      forall i | 0 <= i < |payload| {
        buf[HEADER_SIZE + i] := payload[i];
      }
      assert buf[HEADER_SIZE..] == payload;
      var payloadLen := buf.Length - HEADER_SIZE;
      var header := MessageHeader(0, option, kind, payloadLen % MODULUS_32);
      WriteHeader(buf, header);
      assert buf[..] == buf[..HEADER_SIZE] + buf[HEADER_SIZE..] == Frame(kind, option, payload);
      r := WriteAll(buf[..]);
    }

    method WriteError(kind: Method, option: byte, encodeAck: AckMessage -> Option<seq<byte>>, err: CrabError)
      returns (r: Result<()>)
      modifies this
      ensures var o := SendFrame(old(room), kind, WithErrorBit(option), encodeAck(AckFromError(err)));
              r == o.result && sent == old(sent) + o.bytes && room == o.room
    {
      r := WriteMessage(kind, WithErrorBit(option), encodeAck, AckFromError(err));
    }

    /** The caller's own code has put `bytes` on the stream. */
    method Continue(bytes: seq<byte>, left: Room)
      modifies this
      ensures sent == old(sent) + bytes && room == left
    {
      sent, room := sent + bytes, left;
    }
  }

  method WriteHeader(buf: array<byte>, h: MessageHeader)
    requires buf.Length >= HEADER_SIZE
    modifies buf
    ensures buf[..HEADER_SIZE] == PrintHeader(h)
    ensures buf[HEADER_SIZE..] == old(buf[HEADER_SIZE..])
  {
    hide PrintHeader;
    var printed := PrintHeader(h);
    forall i | 0 <= i < HEADER_SIZE {
      buf[i] := printed[i];
    }
  }

  // ----- the receiving half ---------------------------------------------------

  function Flatten(chunks: seq<seq<byte>>): seq<byte> {
    if chunks == [] then [] else chunks[0] + Flatten(chunks[1..])
  }

  class RecvStream {
    /** Bytes not yet read, in the pieces the network delivers them; the peer
        has finished the stream after the last piece. */
    var chunks: seq<seq<byte>>

    constructor (chunks: seq<seq<byte>>)
      ensures this.chunks == chunks
    {
      this.chunks := chunks;
    }

    function Pending(): seq<byte>
      reads this
    {
      Flatten(chunks)
    }

    /** The caller's own code has left exactly `rest` to be read. */
    method Deliver(rest: seq<byte>)
      modifies this
      ensures Pending() == rest
    {
      chunks := [rest];
      assert Flatten(chunks[1..]) == [];
    }

    /** Takes up to `n` bytes out of the next piece. */
    method TakePiece(n: nat) returns (piece: seq<byte>)
      requires chunks != []
      modifies this
      ensures |piece| <= n
      ensures piece + Pending() == old(Pending())
      ensures |piece| == n || |chunks| < |old(chunks)|
    {
      var chunk := chunks[0];
      ghost var tail := Flatten(chunks[1..]);
      if n < |chunk| {
        piece := chunk[..n];
        chunks := [chunk[n..]] + chunks[1..];
        assert chunks[1..] == old(chunks)[1..];
        assert chunk[..n] + (chunk[n..] + tail) == chunk + tail;
      } else {
        piece := chunk;
        chunks := chunks[1..];
      }
    }

    /** Fills the first `n` places of `buf`, or drains the stream and fails. */
    method ReadExact(buf: array<byte>, n: nat) returns (ok: bool)
      requires n <= buf.Length
      modifies this, buf
      ensures ok <==> n <= |old(Pending())|
      ensures ok ==> buf[..n] == old(Pending())[..n] && Pending() == old(Pending())[n..]
      ensures !ok ==> Pending() == []
      ensures buf[n..] == old(buf[n..])
    {
      var at := 0;
      ghost var all := Pending();
      while at < n && chunks != []
        invariant 0 <= at <= n
        invariant buf[..at] + Pending() == all
        invariant buf[n..] == old(buf[n..])
        decreases n - at, |chunks|
      {
        ghost var before := buf[..at];
        var piece := TakePiece(n - at);
        forall i | 0 <= i < |piece| {
          buf[at + i] := piece[i];
        }
        assert buf[..at + |piece|] == before + piece;
        assert before + (piece + Pending()) == (before + piece) + Pending();
        at := at + |piece|;
      }
      ok := at == n;
    }

    method ReadMessage<M>(decode: seq<byte> -> Option<M>, decodeAck: seq<byte> -> Option<AckMessage>)
      returns (r: Result<(MessageHeader, M)>)
      modifies this
      ensures Read(r, Pending()) == ReadFrame(old(Pending()), decode, decodeAck)
    {
      var header := new byte[HEADER_SIZE];
      var ok := ReadExact(header, HEADER_SIZE);
      if !ok {
        return Err(READ_EXACT_ERROR);
      }
      assert header[..] == header[..HEADER_SIZE];
      match ParseHeader(header[..])
      case None =>
        return Err(ErrorCode(IO_BAD_MESSAGE));
      case Some(h) =>
        if h.length > MAX_PAYLOAD_SIZE {
          return Err(ErrorCode(PAYLOAD_TOO_LARGE));
        }
        var buf := new byte[h.length](_ => 0);
        ok := ReadExact(buf, h.length);
        if !ok {
          return Err(READ_EXACT_ERROR);
        }
        assert buf[..] == buf[..h.length];
        return DecodePayload(h, buf[..], decode, decodeAck);
    }

    method ReadAck(decodeAck: seq<byte> -> Option<AckMessage>) returns (r: Result<()>)
      modifies this
      ensures var ack := ReadFrame(old(Pending()), decodeAck, decodeAck);
              && Pending() == ack.rest
              && r == match ack.result
                      case Ok(pair) => AckIntoResult(pair.1)
                      case Err(e) => Err(e)
    {
      var ack := ReadMessage(decodeAck, decodeAck);
      match ack
      case Ok(pair) => return AckIntoResult(pair.1);
      case Err(e) => return Err(e);
    }
  }

  // ----- one frame ---------------------------------------------------------------

  lemma ReadAfterHeader<M>(h: MessageHeader, body: seq<byte>,
                           decode: seq<byte> -> Option<M>, decodeAck: seq<byte> -> Option<AckMessage>)
    ensures ReadFrame(PrintHeader(h) + body, decode, decodeAck) ==
            if h.length > MAX_PAYLOAD_SIZE then Read(Err(ErrorCode(PAYLOAD_TOO_LARGE)), body)
            else if h.length > |body| then Read(Err(READ_EXACT_ERROR), [])
            else Read(DecodePayload(h, body[..h.length], decode, decodeAck), body[h.length..])
  {
    HeaderRoundTrip(h);
    hide PrintHeader, ParseHeader, DecodePayload;
    var input := PrintHeader(h) + body;
    assert input[..HEADER_SIZE] == PrintHeader(h);
    assert input[HEADER_SIZE..] == body;
  }

  lemma LengthFieldBound(n: nat)
    ensures n % MODULUS_32 <= n
    ensures n % MODULUS_32 == n <==> n < MODULUS_32
  {
  }

  lemma SplitPayload(payload: seq<byte>, rest: seq<byte>, n: nat)
    requires n <= |payload|
    ensures (payload + rest)[..n] == payload[..n] && (payload + rest)[n..] == payload[n..] + rest
  {
  }

  lemma FrameFirst(kind: Method, option: byte, payload: seq<byte>, rest: seq<byte>)
    ensures Frame(kind, option, payload) + rest == PrintHeader(FrameHeader(kind, option, payload)) + (payload + rest)
  {
    hide PrintHeader;
  }

  /** What the peer reads from a frame whose payload has any length at all. */
  lemma FrameReadsAs<M>(kind: Method, option: byte, payload: seq<byte>, rest: seq<byte>,
                        decode: seq<byte> -> Option<M>, decodeAck: seq<byte> -> Option<AckMessage>)
    ensures FrameHeader(kind, option, payload).length <= |payload|
    ensures var h := FrameHeader(kind, option, payload);
            ReadFrame(Frame(kind, option, payload) + rest, decode, decodeAck) ==
            if h.length > MAX_PAYLOAD_SIZE then Read(Err(ErrorCode(PAYLOAD_TOO_LARGE)), payload + rest)
            else Read(DecodePayload(h, payload[..h.length], decode, decodeAck), payload[h.length..] + rest)
  {
    hide PrintHeader, ReadFrame, DecodePayload;
    LengthFieldBound(|payload|);
    var h := FrameHeader(kind, option, payload);
    SplitPayload(payload, rest, h.length);
    FrameFirst(kind, option, payload, rest);
    ReadAfterHeader(h, payload + rest, decode, decodeAck);
  }

  /** A frame without the error bit comes back as the payload that was written
      exactly when the payload is within the limit. Above it and below 2^32 it
      is refused; from 2^32 on the header announces the size modulo 2^32. */
  lemma FrameRoundTripIff(kind: Method, option: byte, payload: seq<byte>, rest: seq<byte>,
                          decodeAck: seq<byte> -> Option<AckMessage>)
    requires option % 2 == 0
    ensures var raw := (b: seq<byte>) => Some(b);
            var r := ReadFrame(Frame(kind, option, payload) + rest, raw, decodeAck);
            && (r == Read(Ok((MessageHeader(0, option, kind, |payload| % MODULUS_32), payload)), rest)
                <==> |payload| <= MAX_PAYLOAD_SIZE)
            && (MAX_PAYLOAD_SIZE < |payload| < MODULUS_32 ==>
                  r == Read(Err(ErrorCode(PAYLOAD_TOO_LARGE)), payload + rest))
            && (|payload| >= MODULUS_32 && |payload| % MODULUS_32 <= MAX_PAYLOAD_SIZE ==>
                  r.result.Ok? && r.result.value.1 == payload[..|payload| % MODULUS_32]
                  && r.rest == payload[|payload| % MODULUS_32..] + rest)
  {
    hide ReadFrame, Frame;
    var raw := (b: seq<byte>) => Some(b);
    FrameReadsAs(kind, option, payload, rest, raw, decodeAck);
    var n := |payload| % MODULUS_32;
    if |payload| < MODULUS_32 {
      assert payload[..n] == payload;
      assert payload[n..] + rest == rest;
    } else {
      assert |payload[..n]| < |payload|;
    }
  }

  /** A frame cut short anywhere never reads as a message: the reader reports
      the end of the stream. */
  lemma TruncatedFrame<M>(kind: Method, option: byte, payload: seq<byte>, cut: nat,
                          decode: seq<byte> -> Option<M>, decodeAck: seq<byte> -> Option<AckMessage>)
    requires |payload| <= MAX_PAYLOAD_SIZE
    requires cut < |Frame(kind, option, payload)|
    ensures ReadFrame(Frame(kind, option, payload)[..cut], decode, decodeAck) == Read(Err(READ_EXACT_ERROR), [])
  {
    hide PrintHeader, ParseHeader;
    var h := FrameHeader(kind, option, payload);
    var input := Frame(kind, option, payload)[..cut];
    if cut >= HEADER_SIZE {
      assert input[..HEADER_SIZE] == PrintHeader(h);
      HeaderRoundTrip(h);
    }
  }

  /** What a reader refuses, with the code and what is left to read: a header that is
      none, and a payload that does not decode. */
  lemma RefusedFrames<M>(header: seq<byte>, body: seq<byte>, decode: seq<byte> -> Option<M>,
                         decodeAck: seq<byte> -> Option<AckMessage>)
    requires |header| == HEADER_SIZE
    ensures var r := ReadFrame(header + body, decode, decodeAck);
            var length := FromLittleEndian32(header[8], header[9], header[10], header[11]);
            if header[..4] != MAGIC || header[6] > 4 || header[7] != 0
            then r == Read(Err(ErrorCode(IO_BAD_MESSAGE)), body)
            else if length <= MAX_PAYLOAD_SIZE && length <= |body| then
              var decodes :=
                if header[5] % 2 == 0 then decode(body[..length]).Some? else decodeAck(body[..length]).Some?;
              && (r.result.Ok? <==> header[5] % 2 == 0 && decodes)
              && (!decodes ==> r.result == Err(ErrorCode(DESERIALIZATION_ERROR)))
              && r.rest == body[length..]
            else r.result.Err?
  {
    HeaderAcceptedIff(header);
    assert (header + body)[..HEADER_SIZE] == header && (header + body)[HEADER_SIZE..] == body;
    if ParseHeader(header).Some? {
      AcceptedHeaderReprints(header);
      ReadAfterHeader(ParseHeader(header).value, body, decode, decodeAck);
      hide ReadFrame;
    }
  }

  // ----- a list of frames ------------------------------------------------------------

  datatype Message<+M> = Message(kind: Method, option: byte, body: M)

  /** Writes the messages one after the other, stopping at the first error. */
  function WriteAllFrames<M>(room: Room, msgs: seq<Message<M>>, encode: M -> Option<seq<byte>>): Sent
    decreases |msgs|
  {
    if msgs == [] then Sent(Ok(()), [], room)
    else
      var first := SendFrame(room, msgs[0].kind, msgs[0].option, encode(msgs[0].body));
      if first.result.Err? then first
      else
        var others := WriteAllFrames(first.room, msgs[1..], encode);
        others.(bytes := first.bytes + others.bytes)
  }

  /** Reads `n` frames one after the other, stopping at the first error. */
  function ReadAllFrames<M>(n: nat, input: seq<byte>, decode: seq<byte> -> Option<M>,
                            decodeAck: seq<byte> -> Option<AckMessage>): Read<seq<Message<M>>>
  {
    if n == 0 then Read(Ok([]), input)
    else
      var first := ReadFrame(input, decode, decodeAck);
      match first.result
      case Err(e) => Read(Err(e), first.rest)
      case Ok((h, body)) =>
        var others := ReadAllFrames(n - 1, first.rest, decode, decodeAck);
        match others.result
        case Err(e) => Read(Err(e), others.rest)
        case Ok(msgs) => Read(Ok([Message(h.kind, h.option, body)] + msgs), others.rest)
  }

  /** Any list of messages within the size limit that was written without an error
      reads back as exactly that list, whatever follows it in the stream. */
  lemma {:induction false} StreamRoundTrip<M(!new)>(room: Room, msgs: seq<Message<M>>, rest: seq<byte>, f: Format<M>,
                                                    decodeAck: seq<byte> -> Option<AckMessage>)
    requires Lawful(f) && WriteAllFrames(room, msgs, f.encode).result.Ok?
    requires forall m <- msgs :: m.option % 2 == 0 &&
               (f.encode(m.body).Some? ==> |f.encode(m.body).value| <= MAX_PAYLOAD_SIZE)
    ensures ReadAllFrames(|msgs|, WriteAllFrames(room, msgs, f.encode).bytes + rest, f.decode, decodeAck)
            == Read(Ok(msgs), rest)
    decreases |msgs|
  {
    hide ReadFrame, Frame, Takes, Accepted, RoomAfter;
    var all := WriteAllFrames(room, msgs, f.encode);
    if msgs == [] {
      assert all.bytes + rest == rest;
    } else {
      var m := msgs[0];
      assert m in msgs;
      var payload := f.encode(m.body).value;
      var first := SendFrame(room, m.kind, m.option, Some(payload));
      SentWhole(room, Frame(m.kind, m.option, payload));
      var tail := WriteAllFrames(first.room, msgs[1..], f.encode).bytes + rest;
      assert all.bytes + rest == Frame(m.kind, m.option, payload) + tail;
      FrameReadsAs(m.kind, m.option, payload, tail, f.decode, decodeAck);
      assert payload[..|payload|] == payload;
      assert payload[|payload|..] + tail == tail;
      StreamRoundTrip(first.room, msgs[1..], rest, f, decodeAck);
      assert msgs == [m] + msgs[1..];
    }
  }

  lemma SentWhole(room: Room, b: seq<byte>)
    ensures SendBytes(room, b).result.Ok? <==> SendBytes(room, b).bytes == b
    ensures SendBytes(room, b).bytes <= b
  {
  }

  /** A write that fails half way is never mistaken for a message: the peer reads
      one if and only if the write succeeded. */
  lemma PeerReadsIffWritten<M(!new)>(room: Room, kind: Method, option: byte, m: M, f: Format<M>,
                                     decodeAck: seq<byte> -> Option<AckMessage>)
    requires Lawful(f) && option % 2 == 0 && f.encode(m).Some? && |f.encode(m).value| <= MAX_PAYLOAD_SIZE
    ensures var o := SendFrame(room, kind, option, f.encode(m));
            var read := ReadFrame(o.bytes, f.decode, decodeAck);
            && (read.result.Ok? <==> o.result.Ok?)
            && (o.result.Ok? ==> read.result.value.1 == m && read.rest == [])
  {
    hide ReadFrame, Frame;
    var payload := f.encode(m).value;
    var frame := Frame(kind, option, payload);
    if Takes(room, frame) {
      FrameReadsAs(kind, option, payload, [], f.decode, decodeAck);
      assert frame + [] == frame && payload[..|payload|] == payload;
      assert payload[|payload|..] + [] == [];
    } else {
      TruncatedFrame(kind, option, payload, room.value, f.decode, decodeAck);
    }
  }

  // ----- error frames ------------------------------------------------------------------

  /** An error frame of any size, at any expected type: the peer's read is exactly
      the transported code, with nothing consumed beyond the frame, if and only if
      the acknowledgement fits a payload; above that and below 2^32 it is refused. */
  lemma ErrorTransport<M(!new)>(kind: Method, option: byte, err: CrabError, rest: seq<byte>,
                                decode: seq<byte> -> Option<M>, ack: Format<AckMessage>)
    requires Lawful(ack) && ack.encode(AckFromError(err)).Some?
    ensures var payload := ack.encode(AckFromError(err)).value;
            var r := ReadFrame(Frame(kind, WithErrorBit(option), payload) + rest, decode, ack.decode);
            && (r == Read(Err(ErrorCode(TransportedCode(err))), rest) <==> |payload| <= MAX_PAYLOAD_SIZE)
            && (MAX_PAYLOAD_SIZE < |payload| < MODULUS_32 ==>
                  r == Read(Err(ErrorCode(PAYLOAD_TOO_LARGE)), payload + rest))
  {
    hide ReadFrame, Frame;
    var payload := ack.encode(AckFromError(err)).value;
    var n := |payload| % MODULUS_32;
    FrameReadsAs(kind, WithErrorBit(option), payload, rest, decode, ack.decode);
    LengthFieldBound(|payload|);
    if |payload| < MODULUS_32 {
      assert payload[..n] == payload;
      assert payload[n..] + rest == rest;
      assert |payload + rest| > |rest| || payload == [];
    } else {
      assert |payload[n..] + rest| > |rest|;
      assert |payload + rest| > |rest|;
    }
  }

  // ----- a lawful acknowledgement format -------------------------------------------------

  function PlainEncode(a: AckMessage): seq<byte> {
    LittleEndian32(a.code) + match a.msg case None => [0] case Some(text) => [1] + text
  }

  function PlainDecode(b: seq<byte>): Option<AckMessage> {
    if |b| < 5 then None
    else
      var code := FromLittleEndian32(b[0], b[1], b[2], b[3]);
      if b[4] == 0 then Some(AckMessage(code, None))
      else if b[4] == 1 then Some(AckMessage(code, Some(b[5..])))
      else None
  }

  const PlainAck: Format<AckMessage> := Format(a => Some(PlainEncode(a)), PlainDecode)

  lemma PlainAckRoundTrip(a: AckMessage)
    ensures PlainDecode(PlainEncode(a)) == Some(a)
  {
    var b := PlainEncode(a);
    LittleEndian32Parses(a.code);
    hide LittleEndian32, FromLittleEndian32;
    assert b[..4] == LittleEndian32(a.code);
    assert b[0] == b[..4][0] && b[1] == b[..4][1] && b[2] == b[..4][2] && b[3] == b[..4][3];
    if a.msg.Some? {
      assert b[5..] == a.msg.value;
    }
  }

  lemma PlainAckIsLawful()
    ensures Lawful(PlainAck)
  {
    forall a: AckMessage
      ensures PlainAck.decode(PlainAck.encode(a).value) == Some(a)
    {
      PlainAckRoundTrip(a);
      hide PlainEncode, PlainDecode;
    }
  }

  /** With that format a bare code always fits, so it always arrives. */
  lemma BareCodesAlwaysArrive<M(!new)>(kind: Method, option: byte, code: u32, rest: seq<byte>,
                               decode: seq<byte> -> Option<M>)
    ensures ReadFrame(Frame(kind, WithErrorBit(option), PlainEncode(AckFromError(ErrorCode(code)))) + rest,
                      decode, PlainDecode)
            == Read(Err(ErrorCode(code)), rest)
  {
    PlainAckIsLawful();
    ErrorTransport(kind, option, ErrorCode(code), rest, decode, PlainAck);
  }
}

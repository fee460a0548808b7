/** The two halves of the handshake and of one heartbeat round, as they run on
    a stream of bytes, for any protocol with any callbacks. */
module Hooks {
  import opened Wire
  import opened FrameStream

  /** The callbacks of a protocol as seen by one call: what each would answer.
      `S` is the handshake packet, `B` the heartbeat packet. */
  datatype Protocol<!S, !B> = Protocol(
    makeHandshake: Result<S>,
    onHandshake: S -> Result<S>,
    nodeId: S -> Text,
    makeHeartbeat: Result<B>,
    onHeartbeat: B -> Result<B>)

  /** The payload formats, which both ends share. */
  datatype Formats<!S, !B> = Formats(handshakes: Format<S>, heartbeats: Format<B>, acks: Format<AckMessage>)

  datatype NodeMetadata = NodeMetadata(nodeId: Text, asClient: bool)

  /** What a call makes of the bytes it finds: its result, the bytes it sends, the
      bytes it leaves unread and the room it leaves for sending. */
  datatype Outcome<+T> = Outcome(result: Result<T>, output: seq<byte>, rest: seq<byte>, room: Room)

  function SendError<S, B>(room: Room, f: Formats<S, B>, kind: Method, err: CrabError): Sent {
    SendFrame(room, kind, WithErrorBit(OPTION_ERROR), f.acks.encode(AckFromError(err)))
  }

  // ----- specification of the four calls -----------------------------------

  function AcceptHandshake<S, B>(p: Protocol<S, B>, f: Formats<S, B>, input: seq<byte>, room: Room)
    : Outcome<(NodeMetadata, S)>
  {
    var read := ReadFrame(input, f.handshakes.decode, f.acks.decode);
    match read.result
    case Err(e) => Outcome(Err(e), [], read.rest, room)
    case Ok((header, packet)) =>
      if header.kind != Handshake then Outcome(Err(ErrorCode(BAD_MESSAGE_HEADER)), [], read.rest, room)
      else
        match p.onHandshake(packet)
        case Err(e) =>
          var o := SendError(room, f, Handshake, e);
          Outcome(Err(if o.result.Err? then o.result.error else e), o.bytes, read.rest, o.room)
        case Ok(answer) =>
          // Whatever the error of this write, it is reported as a bad message.
          var o := SendFrame(room, Handshake, header.option, f.handshakes.encode(answer));
          Outcome(if o.result.Err? then Err(ErrorCode(IO_BAD_MESSAGE))
                  else Ok((NodeMetadata(p.nodeId(packet), true), packet)), o.bytes, read.rest, o.room)
  }

  function DialHandshake<S, B>(p: Protocol<S, B>, f: Formats<S, B>, input: seq<byte>, room: Room)
    : Outcome<(NodeMetadata, S)>
  {
    match p.makeHandshake
    case Err(e) => Outcome(Err(e), [], input, room)
    case Ok(mine) =>
      var o := SendFrame(room, Handshake, OPTION_NONE, f.handshakes.encode(mine));
      if o.result.Err? then Outcome(Err(o.result.error), o.bytes, input, o.room)
      else
        var read := ReadFrame(input, f.handshakes.decode, f.acks.decode);
        match read.result
        case Err(e) => Outcome(Err(e), o.bytes, read.rest, o.room)
        case Ok((_, packet)) => Outcome(Ok((NodeMetadata(p.nodeId(packet), false), packet)), o.bytes, read.rest, o.room)
  }

  /** Reads the other side's beat and asks the protocol about it. */
  function TakeBeat<S, B>(p: Protocol<S, B>, f: Formats<S, B>, input: seq<byte>): Read<B> {
    var read := ReadFrame(input, f.heartbeats.decode, f.acks.decode);
    match read.result
    case Err(e) => Read(Err(e), read.rest)
    case Ok((_, beat)) => Read(p.onHeartbeat(beat), read.rest)
  }

  /** A beat, or in its place the error that prevented it. */
  function SendBeat<S, B>(room: Room, f: Formats<S, B>, beat: Result<B>): Sent {
    match beat
    case Err(e) => SendError(room, f, Heartbeat, e)
    case Ok(b) => SendFrame(room, Heartbeat, OPTION_NONE, f.heartbeats.encode(b))
  }

  function ReadBeatAck<S, B>(f: Formats<S, B>, input: seq<byte>): Read<()> {
    var ack := ReadFrame(input, f.acks.decode, f.acks.decode);
    Read(match ack.result
         case Err(e) => Err(e)
         case Ok((_, a)) => if a.code != NO_ERROR then Err(ErrorCode(a.code)) else Ok(()), ack.rest)
  }

  function ServerBeat<S, B>(p: Protocol<S, B>, f: Formats<S, B>, input: seq<byte>, room: Room): Outcome<()> {
    var taken := TakeBeat(p, f, input);
    var answer := if taken.result.Err? then taken.result else p.makeHeartbeat;
    var o := SendBeat(room, f, answer);
    if o.result.Err? || answer.Err? then Outcome(o.result, o.bytes, taken.rest, o.room)
    else
      var ack := ReadBeatAck(f, taken.rest);
      Outcome(ack.result, o.bytes, ack.rest, o.room)
  }

  function SendBeatAck<S, B>(room: Room, f: Formats<S, B>, taken: Result<B>): Sent {
    match taken
    case Err(e) => SendError(room, f, Heartbeat, e)
    case Ok(_) => SendFrame(room, Heartbeat, OPTION_NONE, f.acks.encode(AckSuccess))
  }

  function ClientBeat<S, B>(p: Protocol<S, B>, f: Formats<S, B>, input: seq<byte>, room: Room): Outcome<()> {
    var first := SendBeat(room, f, p.makeHeartbeat);
    if first.result.Err? then Outcome(first.result, first.bytes, input, first.room)
    else
      var taken := TakeBeat(p, f, input);
      var last := SendBeatAck(first.room, f, taken.result);
      Outcome(last.result, first.bytes + last.bytes, taken.rest, last.room)
  }

  // ----- the four calls --------------------------------------------------------

  class Stream {
    const writer: SendStream
    const reader: RecvStream

    constructor (writer: SendStream, reader: RecvStream)
      ensures this.writer == writer && this.reader == reader
    {
      this.writer := writer;
      this.reader := reader;
    }
  }

  method RunAcceptHandshake<S, B>(p: Protocol<S, B>, f: Formats<S, B>, session: Stream)
    returns (r: Result<(NodeMetadata, S)>)
    modifies session.writer, session.reader
    ensures var o := AcceptHandshake(p, f, old(session.reader.Pending()), old(session.writer.room));
            && r == o.result && session.writer.room == o.room
            && session.writer.sent == old(session.writer.sent) + o.output
            && session.reader.Pending() == o.rest
  {
    hide ReadFrame, SendFrame;
    var read := session.reader.ReadMessage(f.handshakes.decode, f.acks.decode);
    match read
    case Err(e) => return Err(e);
    case Ok((header, packet)) =>
      if header.kind != Handshake {
        return Err(ErrorCode(BAD_MESSAGE_HEADER));
      }
      var meta := NodeMetadata(p.nodeId(packet), true);
      match p.onHandshake(packet)
      case Err(e) =>
        var written := session.writer.WriteError(Handshake, OPTION_ERROR, f.acks.encode, e);
        return Err(if written.Err? then written.error else e);
      case Ok(answer) =>
        var written := session.writer.WriteMessage(Handshake, header.option, f.handshakes.encode, answer);
        return if written.Err? then Err(ErrorCode(IO_BAD_MESSAGE)) else Ok((meta, packet));
  }

  method RunDialHandshake<S, B>(p: Protocol<S, B>, f: Formats<S, B>, session: Stream)
    returns (r: Result<(NodeMetadata, S)>)
    modifies session.writer, session.reader
    ensures var o := DialHandshake(p, f, old(session.reader.Pending()), old(session.writer.room));
            && r == o.result && session.writer.room == o.room
            && session.writer.sent == old(session.writer.sent) + o.output
            && session.reader.Pending() == o.rest
  {
    hide ReadFrame, SendFrame;
    match p.makeHandshake
    case Err(e) => return Err(e);
    case Ok(mine) =>
      var written := session.writer.WriteMessage(Handshake, OPTION_NONE, f.handshakes.encode, mine);
      if written.Err? {
        return Err(written.error);
      }
      var read := session.reader.ReadMessage(f.handshakes.decode, f.acks.decode);
      match read
      case Err(e) => return Err(e);
      case Ok((_, packet)) => return Ok((NodeMetadata(p.nodeId(packet), false), packet));
  }

  method RunTakeBeat<S, B>(p: Protocol<S, B>, f: Formats<S, B>, reader: RecvStream) returns (r: Result<B>)
    modifies reader
    ensures Read(r, reader.Pending()) == TakeBeat(p, f, old(reader.Pending()))
  {
    hide ReadFrame;
    var read := reader.ReadMessage(f.heartbeats.decode, f.acks.decode);
    match read
    case Err(e) => return Err(e);
    case Ok((_, beat)) => return p.onHeartbeat(beat);
  }

  method RunServerBeat<S, B>(p: Protocol<S, B>, f: Formats<S, B>, stream: Stream) returns (r: Result<()>)
    modifies stream.writer, stream.reader
    ensures var o := ServerBeat(p, f, old(stream.reader.Pending()), old(stream.writer.room));
            && r == o.result && stream.writer.room == o.room
            && stream.writer.sent == old(stream.writer.sent) + o.output
            && stream.reader.Pending() == o.rest
  {
    hide ReadFrame, SendFrame, TakeBeat;
    var taken := RunTakeBeat(p, f, stream.reader);
    var answer := if taken.Err? then taken else p.makeHeartbeat;
    match answer
    case Err(e) =>
      r := stream.writer.WriteError(Heartbeat, OPTION_ERROR, f.acks.encode, e);
    case Ok(mine) =>
      r := stream.writer.WriteMessage(Heartbeat, OPTION_NONE, f.heartbeats.encode, mine);
      if r.Err? {
        return;
      }
      var ack := stream.reader.ReadMessage(f.acks.decode, f.acks.decode);
      match ack
      case Err(e) => return Err(e);
      case Ok((_, a)) =>
        if a.code != NO_ERROR {
          return Err(ErrorCode(a.code));
        }
        return Ok(());
  }

  method RunClientBeat<S, B>(p: Protocol<S, B>, f: Formats<S, B>, stream: Stream) returns (r: Result<()>)
    modifies stream.writer, stream.reader
    ensures var o := ClientBeat(p, f, old(stream.reader.Pending()), old(stream.writer.room));
            && r == o.result && stream.writer.room == o.room
            && stream.writer.sent == old(stream.writer.sent) + o.output
            && stream.reader.Pending() == o.rest
  {
    hide ReadFrame, SendFrame, TakeBeat;
    match p.makeHeartbeat {
      case Err(e) =>
        r := stream.writer.WriteError(Heartbeat, OPTION_ERROR, f.acks.encode, e);
      case Ok(mine) =>
        r := stream.writer.WriteMessage(Heartbeat, OPTION_NONE, f.heartbeats.encode, mine);
    }
    ghost var first := SendBeat(old(stream.writer.room), f, p.makeHeartbeat);
    assert stream.writer.sent == old(stream.writer.sent) + first.bytes
        && r == first.result && stream.writer.room == first.room;
    if r.Err? {
      return;
    }
    var taken := RunTakeBeat(p, f, stream.reader);
    if taken.Err? {
      r := stream.writer.WriteError(Heartbeat, OPTION_ERROR, f.acks.encode, taken.error);
    } else {
      r := stream.writer.WriteMessage(Heartbeat, OPTION_NONE, f.acks.encode, AckSuccess);
    }
  }

  // ----- the two ends against each other ------------------------------------------

  ghost predicate LawfulFormats<S(!new), B(!new)>(f: Formats<S, B>) {
    Lawful(f.handshakes) && Lawful(f.heartbeats) && Lawful(f.acks)
  }

  /** The serialiser takes the message and a frame can carry it. */
  predicate Fits(payload: Option<seq<byte>>) {
    payload.Some? && |payload.value| <= MAX_PAYLOAD_SIZE
  }

  predicate ErrorFits<S, B>(f: Formats<S, B>, e: CrabError) {
    Fits(f.acks.encode(AckFromError(e)))
  }

  predicate BeatFits<S, B>(f: Formats<S, B>, beat: Result<B>) {
    match beat
    case Err(e) => ErrorFits(f, e)
    case Ok(b) => Fits(f.heartbeats.encode(b))
  }

  lemma ReadsBack<M(!new)>(kind: Method, option: byte, m: M, rest: seq<byte>, f: Format<M>,
                           decodeAck: seq<byte> -> Option<AckMessage>)
    requires Lawful(f) && Fits(f.encode(m)) && option % 2 == 0
    ensures var r := ReadFrame(SendFrame(None, kind, option, f.encode(m)).bytes + rest, f.decode, decodeAck);
            r.rest == rest && r.result.Ok? && r.result.value.0.kind == kind && r.result.value.0.option == option
            && r.result.value.1 == m
    ensures SendFrame(None, kind, option, f.encode(m)).result == Ok(())
            && SendFrame(None, kind, option, f.encode(m)).room == None
  {
    hide ReadFrame, Frame;
    var payload := f.encode(m).value;
    FrameReadsAs(kind, option, payload, rest, f.decode, decodeAck);
    assert payload[..|payload|] == payload;
    assert payload[|payload|..] + rest == rest;
  }

  lemma ReadsError<S(!new), B(!new), M(!new)>(f: Formats<S, B>, kind: Method, err: CrabError, rest: seq<byte>,
                                              decode: seq<byte> -> Option<M>)
    requires LawfulFormats(f) && ErrorFits(f, err)
    ensures ReadFrame(SendError(None, f, kind, err).bytes + rest, decode, f.acks.decode)
            == Read(Err(ErrorCode(TransportedCode(err))), rest)
    ensures SendError(None, f, kind, err).result == Ok(()) && SendError(None, f, kind, err).room == None
  {
    hide ReadFrame, Frame;
    ErrorTransport(kind, OPTION_ERROR, err, rest, decode, f.acks);
  }

  /** What the accepting side answers to the dialler's packet. */
  function HandshakeAnswer<S, B>(accepting: Protocol<S, B>, f: Formats<S, B>, packet: S, room: Room): Sent {
    match accepting.onHandshake(packet)
    case Err(e) => SendError(room, f, Handshake, e)
    case Ok(answer) => SendFrame(room, Handshake, OPTION_NONE, f.handshakes.encode(answer))
  }

  predicate AnswerFits<S, B>(accepting: Protocol<S, B>, f: Formats<S, B>, packet: S) {
    match accepting.onHandshake(packet)
    case Err(e) => ErrorFits(f, e)
    case Ok(answer) => Fits(f.handshakes.encode(answer))
  }

  /** The two halves of the handshake are dual for every pair of protocols whose
      two messages a frame can carry, on a connection that holds: each reads all
      the other wrote and no more; either both succeed with opposite roles and each
      other's packets, or both fail and the dialler learns the code of the
      acceptor's refusal. */
  lemma HandshakesAreDual<S(!new), B(!new)>(dialling: Protocol<S, B>, accepting: Protocol<S, B>, f: Formats<S, B>,
                                            restA: seq<byte>, restD: seq<byte>)
    requires LawfulFormats(f) && dialling.makeHandshake.Ok?
    requires Fits(f.handshakes.encode(dialling.makeHandshake.value))
             && AnswerFits(accepting, f, dialling.makeHandshake.value)
    ensures var packet := dialling.makeHandshake.value;
            var d := DialHandshake(dialling, f, HandshakeAnswer(accepting, f, packet, None).bytes + restD, None);
            var a := AcceptHandshake(accepting, f, d.output + restA, None);
            && a.output == HandshakeAnswer(accepting, f, packet, None).bytes
            && a.rest == restA && d.rest == restD
            && match accepting.onHandshake(packet)
               case Ok(answer) =>
                 && a.result == Ok((NodeMetadata(accepting.nodeId(packet), true), packet))
                 && d.result == Ok((NodeMetadata(dialling.nodeId(answer), false), answer))
               case Err(e) => a.result == Err(e) && d.result == Err(ErrorCode(TransportedCode(e)))
  {
    hide ReadFrame, SendFrame, Lawful;
    var packet := dialling.makeHandshake.value;
    ReadsBack(Handshake, OPTION_NONE, packet, restA, f.handshakes, f.acks.decode);
    match accepting.onHandshake(packet) {
      case Ok(answer) => ReadsBack(Handshake, OPTION_NONE, answer, restD, f.handshakes, f.acks.decode);
      case Err(e) => ReadsError(f, Handshake, e, restD, f.handshakes.decode);
    }
  }

  /** A written frame that is read as a message with nothing left over was within
      the limit, and one within the limit is so read, whatever its size. */
  lemma ReadsCleanIff<M(!new)>(room: Room, kind: Method, option: byte, m: M, f: Format<M>,
                               decodeAck: seq<byte> -> Option<AckMessage>)
    requires Lawful(f) && option % 2 == 0 && SendFrame(room, kind, option, f.encode(m)).result.Ok?
    ensures var o := SendFrame(room, kind, option, f.encode(m));
            var r := ReadFrame(o.bytes, f.decode, decodeAck);
            && (r.result.Ok? && r.rest == [] <==> Fits(f.encode(m)))
            && (Fits(f.encode(m)) ==> r.result.value.1 == m && r.result.value.0.kind == kind
                                      && r.result.value.0.option == option)
  {
    hide ReadFrame, Frame;
    var payload := f.encode(m).value;
    FrameReadsAs(kind, option, payload, [], f.decode, decodeAck);
    LengthFieldBound(|payload|);
    var n := |payload| % MODULUS_32;
    assert SendFrame(room, kind, option, f.encode(m)).bytes == Frame(kind, option, payload) + [];
    if |payload| < MODULUS_32 {
      assert payload[..n] == payload;
      assert payload[n..] + [] == [];
    } else {
      assert |payload[n..] + []| > 0;
    }
  }

  /** Everything that has to go well in a handshake. */
  predicate HandshakeGoesWell<S, B>(dialling: Protocol<S, B>, accepting: Protocol<S, B>, f: Formats<S, B>,
                                    roomD: Room, roomA: Room)
  {
    && dialling.makeHandshake.Ok?
    && var packet := dialling.makeHandshake.value;
       && Fits(f.handshakes.encode(packet))
       && SendFrame(roomD, Handshake, OPTION_NONE, f.handshakes.encode(packet)).result.Ok?
       && accepting.onHandshake(packet).Ok?
       && Fits(f.handshakes.encode(accepting.onHandshake(packet).value))
       && HandshakeAnswer(accepting, f, packet, roomA).result.Ok?
  }

  /** For messages of any size, on connections that may fail anywhere: the two sides
      end up with each other's packets and opposite roles, and nothing unread, if
      and only if both callbacks agree, a frame can carry both packets and both
      writes are taken whole. */
  lemma HandshakeSucceedsIff<S(!new), B(!new)>(dialling: Protocol<S, B>, accepting: Protocol<S, B>, f: Formats<S, B>,
                                               roomD: Room, roomA: Room, d: Outcome<(NodeMetadata, S)>,
                                               a: Outcome<(NodeMetadata, S)>)
    requires LawfulFormats(f) && dialling.makeHandshake.Ok?
    requires d == DialHandshake(dialling, f, a.output, roomD) && a == AcceptHandshake(accepting, f, d.output, roomA)
    ensures var packet := dialling.makeHandshake.value;
            HandshakeGoesWell(dialling, accepting, f, roomD, roomA) <==>
              && a.result == Ok((NodeMetadata(accepting.nodeId(packet), true), packet)) && a.rest == []
              && d.result.Ok? && d.result.value.0.asClient == false && d.rest == []
              && accepting.onHandshake(packet) == Ok(d.result.value.1)
  {
    hide ReadFrame, SendFrame, Lawful, Fits;
    var packet := dialling.makeHandshake.value;
    var mine := SendFrame(roomD, Handshake, OPTION_NONE, f.handshakes.encode(packet));
    if mine.result.Ok? {
      ReadsCleanIff(roomD, Handshake, OPTION_NONE, packet, f.handshakes, f.acks.decode);
      if Fits(f.handshakes.encode(packet)) && accepting.onHandshake(packet).Ok? && a.result.Ok? {
        ReadsCleanIff(roomA, Handshake, OPTION_NONE, accepting.onHandshake(packet).value, f.handshakes, f.acks.decode);
      }
    }
  }

  /** What the server half answers to the client half's first frame: its own
      beat, or the first failure among receiving, asking and making. */
  function ServerAnswer<S, B>(client: Protocol<S, B>, server: Protocol<S, B>): Result<B> {
    match client.makeHeartbeat
    case Err(e) => Err(ErrorCode(TransportedCode(e)))
    case Ok(beat) =>
      match server.onHeartbeat(beat)
      case Err(e) => Err(e)
      case Ok(_) => server.makeHeartbeat
  }

  /** What the client half makes of that answer. */
  function ClientVerdict<S, B>(client: Protocol<S, B>, answer: Result<B>): Result<B> {
    match answer
    case Err(e) => Err(ErrorCode(TransportedCode(e)))
    case Ok(beat) => client.onHeartbeat(beat)
  }

  /** A frame can carry each of the three messages of a round. */
  predicate RoundFits<S, B>(client: Protocol<S, B>, server: Protocol<S, B>, f: Formats<S, B>) {
    var answer := ServerAnswer(client, server);
    && BeatFits(f, client.makeHeartbeat) && BeatFits(f, answer)
    && (match ClientVerdict(client, answer)
        case Err(e) => ErrorFits(f, e) case Ok(_) => Fits(f.acks.encode(AckSuccess)))
  }

  /** One heartbeat round between any two protocols, callbacks failing or not, on a
      connection that holds. The client half always reports success. If nothing
      failed before the answer and the client accepts it, the server half succeeds
      and both streams are empty again. If the client refuses the answer, the
      server half fails with the code of the refusal. But if the client's or the
      server's own callbacks failed earlier, the server half reports success too,
      and leaves the client's last frame unread: the next round starts one frame
      late. */
  lemma HeartbeatRound<S(!new), B(!new)>(client: Protocol<S, B>, server: Protocol<S, B>, f: Formats<S, B>,
                                         restC: seq<byte>, restS: seq<byte>)
    requires LawfulFormats(f) && RoundFits(client, server, f)
    ensures var answer := ServerAnswer(client, server);
            var c := ClientBeat(client, f, SendBeat(None, f, answer).bytes + restC, None);
            var s := ServerBeat(server, f, c.output + restS, None);
            && c.result == Ok(()) && c.rest == restC
            && s.output == SendBeat(None, f, answer).bytes
            && match answer
               case Err(e) =>
                 && s.result == Ok(())
                 && s.rest == SendError(None, f, Heartbeat, ErrorCode(TransportedCode(e))).bytes + restS
               case Ok(beat) =>
                 && s.rest == restS
                 && s.result == match client.onHeartbeat(beat)
                                case Ok(_) => Ok(())
                                case Err(e) => Err(ErrorCode(TransportedCode(e)))
  {
    hide ReadFrame, SendFrame, Lawful;
    var answer := ServerAnswer(client, server);
    match answer {
      case Err(e) => ReadsError(f, Heartbeat, e, restC, f.heartbeats.decode);
      case Ok(beat) => ReadsBack(Heartbeat, OPTION_NONE, beat, restC, f.heartbeats, f.acks.decode);
    }
    var verdict := ClientVerdict(client, answer);
    var first := SendBeat(None, f, client.makeHeartbeat).bytes;
    var last := SendBeatAck(None, f, verdict).bytes;
    if verdict.Err? {
      ReadsError(f, Heartbeat, verdict.error, restS, f.acks.decode);
    } else {
      ReadsBack(Heartbeat, OPTION_NONE, AckSuccess, restS, f.acks, f.acks.decode);
    }
    assert first + last + restS == first + (last + restS);
    match client.makeHeartbeat {
      case Err(e) => ReadsError(f, Heartbeat, e, last + restS, f.heartbeats.decode);
      case Ok(beat) => ReadsBack(Heartbeat, OPTION_NONE, beat, last + restS, f.heartbeats, f.acks.decode);
    }
  }

  // ----- a round on a connection that may fail ------------------------------------------

  /** No message the formats take reaches the 2^32 bytes a header cannot announce. */
  ghost predicate Announceable<S, B(!new)>(f: Formats<S, B>) {
    && (forall b: B :: f.heartbeats.encode(b).Some? ==> |f.heartbeats.encode(b).value| < MODULUS_32)
    && (forall a: AckMessage :: f.acks.encode(a).Some? ==> |f.acks.encode(a).value| < MODULUS_32)
  }

  lemma ReadsOrRefuses<M(!new)>(room: Room, kind: Method, m: M, rest: seq<byte>, f: Format<M>,
                                decodeAck: seq<byte> -> Option<AckMessage>)
    requires Lawful(f) && SendFrame(room, kind, OPTION_NONE, f.encode(m)).result.Ok?
    requires |f.encode(m).value| < MODULUS_32
    ensures f.encode(m).Some?
    ensures var r := ReadFrame(SendFrame(room, kind, OPTION_NONE, f.encode(m)).bytes + rest, f.decode, decodeAck);
            if Fits(f.encode(m)) then r.result.Ok? && r.result.value.1 == m && r.rest == rest
            else r.result.Err? && |r.rest| > |rest|
  {
    hide ReadFrame, Frame;
    var payload := f.encode(m).value;
    FrameReadsAs(kind, OPTION_NONE, payload, rest, f.decode, decodeAck);
    LengthFieldBound(|payload|);
    assert payload[..|payload|] == payload;
    assert payload[|payload|..] + rest == rest;
  }

  lemma ReadsAnError<S(!new), B(!new), M(!new)>(room: Room, f: Formats<S, B>, err: CrabError, rest: seq<byte>,
                                                decode: seq<byte> -> Option<M>)
    requires LawfulFormats(f) && Announceable(f) && SendError(room, f, Heartbeat, err).result.Ok?
    ensures var r := ReadFrame(SendError(room, f, Heartbeat, err).bytes + rest, decode, f.acks.decode);
            r.result.Err? && |r.rest| >= |rest|
    ensures |SendError(room, f, Heartbeat, err).bytes| > 0
  {
    hide ReadFrame, Lawful;
    ErrorTransport(Heartbeat, OPTION_ERROR, err, rest, decode, f.acks);
  }

  /** The server half can make something of the client half's first frame only if it
      is a beat that fits; whatever follows it is left alone. */
  lemma ServerReadsFirst<S(!new), B(!new)>(client: Protocol<S, B>, server: Protocol<S, B>,
                                           f: Formats<S, B>, roomC: Room,
                                           tail: seq<byte>)
    requires LawfulFormats(f) && Announceable(f) && SendBeat(roomC, f, client.makeHeartbeat).result.Ok?
    ensures var taken := TakeBeat(server, f, SendBeat(roomC, f, client.makeHeartbeat).bytes + tail);
            if client.makeHeartbeat.Ok? && Fits(f.heartbeats.encode(client.makeHeartbeat.value))
            then taken == Read(server.onHeartbeat(client.makeHeartbeat.value), tail)
            else taken.result.Err? && |taken.rest| >= |tail|
  {
    hide ReadFrame, SendFrame, Fits;
    match client.makeHeartbeat {
      case Ok(beat) =>
        SerialisedIsSome(roomC, Heartbeat, f.heartbeats.encode(beat));
        ReadsOrRefuses(roomC, Heartbeat, beat, tail, f.heartbeats, f.acks.decode);
      case Err(e) => ReadsAnError(roomC, f, e, tail, f.heartbeats.decode);
    }
  }

  lemma SerialisedIsSome(room: Room, kind: Method, payload: Option<seq<byte>>)
    requires SendFrame(room, kind, OPTION_NONE, payload).result.Ok?
    ensures payload.Some? && |SendFrame(room, kind, OPTION_NONE, payload).bytes| > 0
  {
    hide PrintHeader;
  }

  lemma ClientReadsAnswer<S(!new), B(!new)>(client: Protocol<S, B>, f: Formats<S, B>, roomS: Room, beat: B)
    requires LawfulFormats(f) && Announceable(f) && SendBeat(roomS, f, Ok(beat)).result.Ok?
    ensures var taken := TakeBeat(client, f, SendBeat(roomS, f, Ok(beat)).bytes);
            if Fits(f.heartbeats.encode(beat)) then taken == Read(client.onHeartbeat(beat), [])
            else taken.result.Err? && taken.rest != []
  {
    hide ReadFrame, SendFrame, Fits;
    SerialisedIsSome(roomS, Heartbeat, f.heartbeats.encode(beat));
    ReadsOrRefuses(roomS, Heartbeat, beat, [], f.heartbeats, f.acks.decode);
    assert SendBeat(roomS, f, Ok(beat)).bytes + [] == SendBeat(roomS, f, Ok(beat)).bytes;
  }

  lemma ServerReadsLast<S(!new), B(!new)>(f: Formats<S, B>, room: Room, taken: Result<B>)
    requires LawfulFormats(f) && Announceable(f) && SendBeatAck(room, f, taken).result.Ok?
    ensures var last := SendBeatAck(room, f, taken).bytes;
            && last != []
            && (ReadBeatAck(f, last).result.Ok? <==> taken.Ok? && Fits(f.acks.encode(AckSuccess)))
            && (ReadBeatAck(f, last).result.Ok? ==> ReadBeatAck(f, last).rest == [])
  {
    hide ReadFrame, SendFrame, Fits;
    var last := SendBeatAck(room, f, taken).bytes;
    match taken {
      case Ok(_) =>
        SerialisedIsSome(room, Heartbeat, f.acks.encode(AckSuccess));
        ReadsOrRefuses(room, Heartbeat, AckSuccess, [], f.acks, f.acks.decode);
      case Err(e) => ReadsAnError(room, f, e, [], f.acks.decode);
    }
    assert last + [] == last;
  }

  /** Everything that has to go well in a round. */
  predicate RoundGoesWell<S, B>(client: Protocol<S, B>, server: Protocol<S, B>, f: Formats<S, B>,
                                roomC: Room, roomS: Room) {
    && client.makeHeartbeat.Ok? && Fits(f.heartbeats.encode(client.makeHeartbeat.value))
    && server.onHeartbeat(client.makeHeartbeat.value).Ok?
    && server.makeHeartbeat.Ok? && Fits(f.heartbeats.encode(server.makeHeartbeat.value))
    && client.onHeartbeat(server.makeHeartbeat.value).Ok? && Fits(f.acks.encode(AckSuccess))
    && var first := SendBeat(roomC, f, client.makeHeartbeat);
       && first.result.Ok? && SendBeat(roomS, f, server.makeHeartbeat).result.Ok?
       && SendFrame(first.room, Heartbeat, OPTION_NONE, f.acks.encode(AckSuccess)).result.Ok?
  }

  /** On connections that may fail anywhere: both halves succeed and leave nothing
      unread if and only if all four callbacks agree, a frame can carry both beats
      and the acknowledgement, and all three are taken whole. */
  lemma HeartbeatSucceedsIff<S(!new), B(!new)>(client: Protocol<S, B>, server: Protocol<S, B>, f: Formats<S, B>,
                                               roomC: Room, roomS: Room, c: Outcome<()>, s: Outcome<()>)
    requires LawfulFormats(f) && Announceable(f)
    requires c == ClientBeat(client, f, s.output, roomC) && s == ServerBeat(server, f, c.output, roomS)
    ensures RoundGoesWell(client, server, f, roomC, roomS) <==>
            c.result.Ok? && c.rest == [] && s.result.Ok? && s.rest == []
  {
    hide ReadFrame, SendFrame, Fits, SendBeatAck, TakeBeat, ReadBeatAck;
    var first := SendBeat(roomC, f, client.makeHeartbeat);
    if first.result.Ok? {
      var taken := TakeBeat(client, f, s.output).result;
      var last := SendBeatAck(first.room, f, taken);
      assert c.output == first.bytes + last.bytes && c.result == last.result;
      ServerReadsFirst(client, server, f, roomC, last.bytes);
      if last.result.Ok? {
        ServerReadsLast(f, first.room, taken);
      }
      if server.makeHeartbeat.Ok? && SendBeat(roomS, f, server.makeHeartbeat).result.Ok? {
        ClientReadsAnswer(client, f, roomS, server.makeHeartbeat.value);
      }
      if taken.Ok? {
        AckOfSuccess(first.room, f, taken);
      }
    }
  }

  lemma AckOfSuccess<S, B>(room: Room, f: Formats<S, B>, taken: Result<B>)
    requires taken.Ok?
    ensures SendBeatAck(room, f, taken) == SendFrame(room, Heartbeat, OPTION_NONE, f.acks.encode(AckSuccess))
  {
  }

  // ----- what the halves refuse, and where they stop ---------------------------------------

  /** The accepting half takes no other frame for a handshake, however well it decodes:
      it is refused without asking the protocol and without an answer. */
  lemma OtherKindsAreRefused<S(!new), B(!new)>(p: Protocol<S, B>, f: Formats<S, B>, kind: Method, option: byte,
                                               packet: S, rest: seq<byte>, room: Room)
    requires LawfulFormats(f) && Fits(f.handshakes.encode(packet)) && option % 2 == 0 && kind != Handshake
    ensures AcceptHandshake(p, f, SendFrame(None, kind, option, f.handshakes.encode(packet)).bytes + rest, room)
            == Outcome(Err(ErrorCode(BAD_MESSAGE_HEADER)), [], rest, room)
  {
    hide ReadFrame, SendFrame, Lawful;
    ReadsBack(kind, option, packet, rest, f.handshakes, f.acks.decode);
  }

  /** An error in place of a packet ends either half with the error's code; the
      accepting half answers nothing. */
  lemma ErrorsEndTheHandshake<S(!new), B(!new)>(p: Protocol<S, B>, f: Formats<S, B>, e: CrabError, rest: seq<byte>,
                                                 room: Room)
    requires LawfulFormats(f) && ErrorFits(f, e)
    ensures AcceptHandshake(p, f, SendError(None, f, Handshake, e).bytes + rest, room)
            == Outcome(Err(ErrorCode(TransportedCode(e))), [], rest, room)
    ensures p.makeHandshake.Ok? &&
            SendFrame(room, Handshake, OPTION_NONE, f.handshakes.encode(p.makeHandshake.value)).result.Ok? ==>
              var o := DialHandshake(p, f, SendError(None, f, Handshake, e).bytes + rest, room);
              o.result == Err(ErrorCode(TransportedCode(e))) && o.rest == rest
  {
    hide ReadFrame, SendFrame, Lawful, TransportedCode, SendError;
    ReadsError(f, Handshake, e, rest, f.handshakes.decode);
  }

  /** A packet whose answer cannot be written: an acceptance is reported as a bad
      message, a refusal as the error of the write; what was taken is a prefix. */
  lemma UnwrittenHandshakeAnswer<S(!new), B(!new)>(p: Protocol<S, B>, f: Formats<S, B>, packet: S, rest: seq<byte>,
                                                    room: Room)
    requires LawfulFormats(f) && Fits(f.handshakes.encode(packet)) && HandshakeAnswer(p, f, packet, room).result.Err?
    ensures var sent := HandshakeAnswer(p, f, packet, room);
            var input := SendFrame(None, Handshake, OPTION_NONE, f.handshakes.encode(packet)).bytes + rest;
            AcceptHandshake(p, f, input, room)
            == Outcome(Err(if p.onHandshake(packet).Ok? then ErrorCode(IO_BAD_MESSAGE) else sent.result.error),
                       sent.bytes, rest, sent.room)
  {
    hide ReadFrame, SendFrame, Lawful;
    ReadsBack(Handshake, OPTION_NONE, packet, rest, f.handshakes, f.acks.decode);
  }

  /** A dialler that has no packet, or cannot write it, reads nothing. */
  lemma UnsentHandshakeReadsNothing<S, B>(p: Protocol<S, B>, f: Formats<S, B>, input: seq<byte>, room: Room)
    ensures p.makeHandshake.Err? ==>
              DialHandshake(p, f, input, room) == Outcome(Err(p.makeHandshake.error), [], input, room)
    ensures p.makeHandshake.Ok? ==>
              var sent := SendFrame(room, Handshake, OPTION_NONE, f.handshakes.encode(p.makeHandshake.value));
              sent.result.Err? ==>
                DialHandshake(p, f, input, room) == Outcome(Err(sent.result.error), sent.bytes, input, sent.room)
  {
    hide ReadFrame, SendFrame;
  }

  /** The server half goes by the code of the last frame, in whichever form it comes:
      an acknowledgement with a code ends the round with that code. */
  lemma BeatAckCodeDecides<S(!new), B(!new)>(f: Formats<S, B>, kind: Method, a: AckMessage, rest: seq<byte>)
    requires LawfulFormats(f) && Fits(f.acks.encode(a))
    ensures ReadBeatAck(f, SendFrame(None, kind, OPTION_NONE, f.acks.encode(a)).bytes + rest)
            == Read(if a.code == NO_ERROR then Ok(()) else Err(ErrorCode(a.code)), rest)
  {
    hide ReadFrame, SendFrame, Lawful;
    ReadsBack(kind, OPTION_NONE, a, rest, f.acks, f.acks.decode);
  }

  /** Where a round stops when a write fails: the server half does not wait for an
      acknowledgement, the client half does not wait for a beat, and each ends with
      the error of its write. */
  lemma UnwrittenBeatStopsTheRound<S, B>(p: Protocol<S, B>, f: Formats<S, B>, input: seq<byte>, room: Room)
    ensures var taken := TakeBeat(p, f, input);
            var sent := SendBeat(room, f, if taken.result.Err? then taken.result else p.makeHeartbeat);
            sent.result.Err? ==>
              ServerBeat(p, f, input, room) == Outcome(sent.result, sent.bytes, taken.rest, sent.room)
    ensures var sent := SendBeat(room, f, p.makeHeartbeat);
            sent.result.Err? ==>
              ClientBeat(p, f, input, room) == Outcome(sent.result, sent.bytes, input, sent.room)
  {
    hide ReadFrame, SendFrame, TakeBeat;
  }
}

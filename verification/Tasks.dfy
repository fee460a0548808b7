/** The client programs of a command and the server program that answers the
    simple ones, run on streams of bytes. */
module Tasks {
  import opened Wire
  import opened FrameStream
  import opened Hooks

  const TASK_ACK_FAILED: u32 := 23

  datatype Slot<+T> = Unused | Holds(value: T)

  /** A oneshot channel; `listening` says that its receiver still exists. */
  class Oneshot<T> {
    var slot: Slot<T>
    const listening: bool

    constructor (listening: bool)
      ensures slot == Unused && this.listening == listening
    {
      this.slot, this.listening := Unused, listening;
    }

    /** The sender is used up; a value nobody listens for comes back. */
    method Send(value: T) returns (ok: bool)
      requires slot.Unused?
      modifies this
      ensures ok == listening && slot == if listening then Holds(value) else Unused
    {
      if listening {
        slot := Holds(value);
      }
      ok := listening;
    }
  }

  /** The caller's code that goes on with the stream: what it makes of the bytes
      it finds there and of the room it has for sending. */
  type Executor<!T> = (seq<byte>, Room) -> Outcome<T>

  method RunExecutor<T>(executor: Executor<T>, stream: Stream) returns (r: Result<T>)
    modifies stream.writer, stream.reader
    ensures var o := executor(old(stream.reader.Pending()), old(stream.writer.room));
            && r == o.result && stream.writer.room == o.room
            && stream.writer.sent == old(stream.writer.sent) + o.output && stream.reader.Pending() == o.rest
  {
    var o := executor(stream.reader.Pending(), stream.writer.room);
    stream.writer.Continue(o.output, o.room);
    stream.reader.Deliver(o.rest);
    r := o.result;
  }

  // ----- what each program makes of the bytes it finds -----------------------------

  function AckRead(input: seq<byte>, acks: Format<AckMessage>): Read<()> {
    var ack := ReadFrame(input, acks.decode, acks.decode);
    match ack.result
    case Ok(pair) => Read(AckIntoResult(pair.1), ack.rest)
    case Err(e) => Read(Err(e), ack.rest)
  }

  function SendCommand(command: Option<seq<byte>>, room: Room): Sent {
    SendFrame(room, Command, OPTION_NONE, command)
  }

  /** After the command: acknowledgement, executor. */
  function AfterCommand<T>(acks: Format<AckMessage>, executor: Executor<T>, input: seq<byte>, room: Room): Outcome<T> {
    var ack := AckRead(input, acks);
    match ack.result
    case Err(e) => Outcome(Err(e), [], ack.rest, room)
    case Ok(_) => executor(ack.rest, room)
  }

  /** Command, acknowledgement, executor: `AsyncJob` and `BaseAsyncTask`. */
  function JobRun<T>(command: Option<seq<byte>>, acks: Format<AckMessage>, executor: Executor<T>, input: seq<byte>,
                     room: Room): Outcome<T>
  {
    var o := SendCommand(command, room);
    if o.result.Err? then Outcome(Err(o.result.error), o.bytes, input, o.room)
    else
      var then_ := AfterCommand(acks, executor, input, o.room);
      then_.(output := o.bytes + then_.output)
  }

  /** What the caller of a two-stage task does once it has the first value. */
  datatype Answer<!T> = DropsSender | Declines(error: CrabError) | Agrees(executor: Executor<T>)

  datatype StagedOutcome<+I> = StagedOutcome(first: Result<I>, end: Outcome<()>)

  function SendAnswer(acks: Format<AckMessage>, answer: Result<()>, room: Room): Sent {
    match answer
    case Ok(_) => SendFrame(room, Command, OPTION_NONE, acks.encode(AckSuccess))
    case Err(e) => SendFrame(room, Command, WithErrorBit(OPTION_NONE), acks.encode(AckFromError(e)))
  }

  /** The second stage of a two-stage task, with `rest` to read. */
  function SecondStage<T>(acks: Format<AckMessage>, answer: Answer<T>, rest: seq<byte>, room: Room): Outcome<()> {
    match answer
    case DropsSender => Outcome(Err(ErrorCode(CANCELED_ERROR)), [], rest, room)
    case Declines(e) =>
      var o := SendAnswer(acks, Err(e), room);
      Outcome(Err(if o.result.Err? then o.result.error else e), o.bytes, rest, o.room)
    case Agrees(executor) =>
      var o := SendAnswer(acks, Ok(()), room);
      if o.result.Err? then Outcome(Err(o.result.error), o.bytes, rest, o.room)
      else
        var x := executor(rest, o.room);
        Outcome(if x.result.Ok? then Ok(()) else Err(x.result.error), o.bytes + x.output, x.rest, x.room)
  }

  /** After the command: what the caller is sent first, and how the task ends. */
  function FirstStage<I, T>(decode: seq<byte> -> Option<I>, acks: Format<AckMessage>, listening: bool,
                            answer: Answer<T>,
                            input: seq<byte>, room: Room): StagedOutcome<I>
  {
    var ack := AckRead(input, acks);
    match ack.result
    case Err(e) => StagedOutcome(Err(e), Outcome(Ok(()), [], ack.rest, room))
    case Ok(_) =>
      var initial := ReadFrame(ack.rest, decode, acks.decode);
      var first := if initial.result.Ok? then Ok(initial.result.value.1) else Err(initial.result.error);
      if !listening then StagedOutcome(first, Outcome(Err(ErrorCode(CANCELED_ERROR)), [], initial.rest, room))
      else if first.Err? then StagedOutcome(first, Outcome(Err(ErrorCode(TASK_ACK_FAILED)), [], initial.rest, room))
      else StagedOutcome(first, SecondStage(acks, answer, initial.rest, room))
  }

  function StagedRun<I, T>(command: Option<seq<byte>>, decode: seq<byte> -> Option<I>, acks: Format<AckMessage>,
                           listening: bool, answer: Answer<T>, input: seq<byte>, room: Room): StagedOutcome<I>
  {
    var o := SendCommand(command, room);
    if o.result.Err? then StagedOutcome(Err(o.result.error), Outcome(Ok(()), o.bytes, input, o.room))
    else
      var then_ := FirstStage(decode, acks, listening, answer, input, o.room);
      StagedOutcome(then_.first, then_.end.(output := o.bytes + then_.end.output))
  }

  /** `SimpleCommandHandler`: an acknowledgement, then the response or its error. */
  function SimpleReply<R>(h: MessageHeader, acks: Format<AckMessage>, responses: Format<R>, response: Result<R>,
                          room: Room): Sent
  {
    var ack := SendFrame(room, h.kind, h.option, acks.encode(AckSuccess));
    if ack.result.Err? then ack
    else
      var o := SendResponse(h, acks, responses, response, ack.room);
      o.(bytes := ack.bytes + o.bytes)
  }

  function SendResponse<R>(h: MessageHeader, acks: Format<AckMessage>, responses: Format<R>, response: Result<R>,
                           room: Room): Sent
  {
    match response
    case Ok(resp) => SendFrame(room, h.kind, h.option, responses.encode(resp))
    case Err(e) => SendFrame(room, h.kind, WithErrorBit(h.option), acks.encode(AckFromError(e)))
  }

  // ----- the programs ------------------------------------------------------------------

  /** A command that cannot be written drops the sender unused; every other way the
      caller hears the acknowledgement's error or the executor's result. */
  method ExecuteJob<C, T>(cmd: C, encode: C -> Option<seq<byte>>, acks: Format<AckMessage>, executor: Executor<T>,
                          tx: Oneshot<Result<T>>, stream: Stream) returns (r: Result<()>)
    requires tx.slot.Unused?
    modifies tx, stream.writer, stream.reader
    ensures var o := JobRun(encode(cmd), acks, executor, old(stream.reader.Pending()), old(stream.writer.room));
            var sent := SendCommand(encode(cmd), old(stream.writer.room)).result;
            && r == sent
            && tx.slot == (if sent.Ok? && tx.listening then Holds(o.result) else Unused)
            && stream.writer.room == o.room
            && stream.writer.sent == old(stream.writer.sent) + o.output && stream.reader.Pending() == o.rest
  {
    hide ReadFrame, SendFrame;
    r := stream.writer.WriteMessage(Command, OPTION_NONE, encode, cmd);
    if r.Err? {
      return;
    }
    var ack := stream.reader.ReadAck(acks.decode);
    if ack.Err? {
      var _ := tx.Send(Err(ack.error));
      return;
    }
    var ret := RunExecutor(executor, stream);
    var _ := tx.Send(ret);
  }

  method ExecuteSpawned<C>(cmd: C, encode: C -> Option<seq<byte>>, acks: Format<AckMessage>, executor: Executor<()>,
                           stream: Stream) returns (r: Result<()>)
    modifies stream.writer, stream.reader
    ensures var o := JobRun(encode(cmd), acks, executor, old(stream.reader.Pending()), old(stream.writer.room));
            && r == o.result && stream.writer.room == o.room
            && stream.writer.sent == old(stream.writer.sent) + o.output && stream.reader.Pending() == o.rest
  {
    hide ReadFrame, SendFrame;
    r := stream.writer.WriteMessage(Command, OPTION_NONE, encode, cmd);
    if r.Err? {
      return;
    }
    var ack := stream.reader.ReadAck(acks.decode);
    if ack.Err? {
      return Err(ack.error);
    }
    r := RunExecutor(executor, stream);
  }

  method AfterFirstValue<T>(acks: Format<AckMessage>, answer: Answer<T>, stream: Stream) returns (r: Result<()>)
    modifies stream.writer, stream.reader
    ensures var o := SecondStage(acks, answer, old(stream.reader.Pending()), old(stream.writer.room));
            && r == o.result && stream.writer.room == o.room
            && stream.writer.sent == old(stream.writer.sent) + o.output && stream.reader.Pending() == o.rest
  {
    hide SendFrame;
    match answer
    case DropsSender => return Err(ErrorCode(CANCELED_ERROR));
    case Declines(e) =>
      r := stream.writer.WriteError(Command, OPTION_NONE, acks.encode, e);
      if r.Ok? {
        r := Err(e);
      }
    case Agrees(executor) =>
      r := stream.writer.WriteMessage(Command, OPTION_NONE, acks.encode, AckSuccess);
      if r.Ok? {
        var ret := RunExecutor(executor, stream);
        r := if ret.Ok? then Ok(()) else Err(ret.error);
      }
  }

  method ReadFirstValue<I, T>(decode: seq<byte> -> Option<I>, acks: Format<AckMessage>, answer: Answer<T>,
                              initialTx: Oneshot<Result<I>>, stream: Stream) returns (r: Result<()>)
    requires initialTx.slot.Unused?
    modifies initialTx, stream.writer, stream.reader
    ensures var o := FirstStage(decode, acks, initialTx.listening, answer, old(stream.reader.Pending()),
                                old(stream.writer.room));
            && r == o.end.result && initialTx.slot == (if initialTx.listening then Holds(o.first) else Unused)
            && stream.writer.room == o.end.room
            && stream.writer.sent == old(stream.writer.sent) + o.end.output && stream.reader.Pending() == o.end.rest
  {
    hide ReadFrame, SecondStage;
    var ack := stream.reader.ReadAck(acks.decode);
    if ack.Err? {
      var _ := initialTx.Send(Err(ack.error));
      return Ok(());
    }
    var initial := stream.reader.ReadMessage(decode, acks.decode);
    if initial.Err? {
      var heard := initialTx.Send(Err(initial.error));
      return Err(ErrorCode(if heard then TASK_ACK_FAILED else CANCELED_ERROR));
    }
    var heard := initialTx.Send(Ok(initial.value.1));
    if !heard {
      return Err(ErrorCode(CANCELED_ERROR));
    }
    r := AfterFirstValue(acks, answer, stream);
  }

  /** `answer` is what arrives on the second channel while this program waits. */
  method ExecuteStaged<C, I, T>(cmd: C, encode: C -> Option<seq<byte>>, decode: seq<byte> -> Option<I>,
                                acks: Format<AckMessage>, answer: Answer<T>,
                                initialTx: Oneshot<Result<I>>, stream: Stream)
    returns (r: Result<()>)
    requires initialTx.slot.Unused?
    modifies initialTx, stream.writer, stream.reader
    ensures var o := StagedRun(encode(cmd), decode, acks, initialTx.listening, answer, old(stream.reader.Pending()),
                               old(stream.writer.room));
            && r == o.end.result && initialTx.slot == (if initialTx.listening then Holds(o.first) else Unused)
            && stream.writer.room == o.end.room
            && stream.writer.sent == old(stream.writer.sent) + o.end.output && stream.reader.Pending() == o.end.rest
  {
    hide SendFrame, FirstStage;
    r := stream.writer.WriteMessage(Command, OPTION_NONE, encode, cmd);
    if r.Err? {
      var _ := initialTx.Send(Err(r.error));
      return Ok(());
    }
    r := ReadFirstValue(decode, acks, answer, initialTx, stream);
  }

  method HandleSimple<R>(h: MessageHeader, acks: Format<AckMessage>, responses: Format<R>, response: Result<R>,
                         writer: SendStream) returns (r: Result<()>)
    modifies writer
    ensures var o := SimpleReply(h, acks, responses, response, old(writer.room));
            r == o.result && writer.sent == old(writer.sent) + o.bytes && writer.room == o.room
  {
    hide SendFrame;
    r := writer.WriteMessage(h.kind, h.option, acks.encode, AckSuccess);
    if r.Err? {
      return;
    }
    match response
    case Ok(resp) => r := writer.WriteMessage(h.kind, h.option, responses.encode, resp);
    case Err(e) => r := writer.WriteError(h.kind, h.option, acks.encode, e);
  }

  // ----- simple commands, end to end ---------------------------------------------------

  /** The executor of `read_dir`: reads one message of the response type. */
  function ReadsResponse<R>(responses: Format<R>, acks: Format<AckMessage>): Executor<R> {
    (input: seq<byte>, room: Room) =>
      var read := ReadFrame(input, responses.decode, acks.decode);
      Outcome(match read.result case Ok(pair) => Ok(pair.1) case Err(e) => Err(e), [], read.rest, room)
  }

  /** The executor of `ping` and of `delete`: reads nothing. */
  function ReadsNothing(): Executor<()> {
    (input: seq<byte>, room: Room) => Outcome(Ok(()), [], input, room)
  }

  /** The executor `delete` would need: reads the second acknowledgement. */
  function ReadsSecondAck(acks: Format<AckMessage>): Executor<()> {
    (input: seq<byte>, room: Room) =>
      var read := AckRead(input, acks);
      Outcome(read.result, [], read.rest, room)
  }

  predicate ReplyFits<R>(acks: Format<AckMessage>, responses: Format<R>, response: Result<R>) {
    && Fits(acks.encode(AckSuccess))
    && Fits(match response case Ok(resp) => responses.encode(resp) case Err(e) => acks.encode(AckFromError(e)))
  }

  lemma ReadsBackAck(h: MessageHeader, acks: Format<AckMessage>, a: AckMessage, rest: seq<byte>)
    requires Lawful(acks) && Fits(acks.encode(a)) && h.IsOk()
    ensures var o := SendFrame(None, h.kind, h.option, acks.encode(a));
            && AckRead(o.bytes + rest, acks) == Read(AckIntoResult(a), rest)
            && o.result == Ok(()) && o.room == None
  {
    hide ReadFrame, SendFrame;
    ReadsBack(h.kind, h.option, a, rest, acks, acks.decode);
  }

  lemma ReadsBackSuccess(h: MessageHeader, acks: Format<AckMessage>, rest: seq<byte>)
    requires Lawful(acks) && Fits(acks.encode(AckSuccess)) && h.IsOk()
    ensures var o := SendFrame(None, h.kind, h.option, acks.encode(AckSuccess));
            && AckRead(o.bytes + rest, acks) == Read(Ok(()), rest)
            && o.result == Ok(()) && o.room == None
  {
    hide AckRead, SendFrame;
    ReadsBackAck(h, acks, AckSuccess, rest);
  }

  /** The reply of a simple handler is an acknowledgement and the response. */
  lemma ReplyStarts<R(!new)>(h: MessageHeader, acks: Format<AckMessage>, responses: Format<R>, response: Result<R>,
                             rest: seq<byte>)
    requires Lawful(acks) && Fits(acks.encode(AckSuccess)) && h.IsOk()
    ensures AckRead(SimpleReply(h, acks, responses, response, None).bytes + rest, acks)
            == Read(Ok(()), SendResponse(h, acks, responses, response, None).bytes + rest)
  {
    hide AckRead, SendFrame;
    var first := SendFrame(None, h.kind, h.option, acks.encode(AckSuccess));
    var second := SendResponse(h, acks, responses, response, None);
    ReadsBackSuccess(h, acks, second.bytes + rest);
    assert first.bytes + second.bytes + rest == first.bytes + (second.bytes + rest);
  }

  lemma ReadsBackResponse<R(!new)>(h: MessageHeader, acks: Format<AckMessage>, responses: Format<R>,
                                   response: Result<R>,
                                   rest: seq<byte>, room: Room)
    requires Lawful(acks) && Lawful(responses) && ReplyFits(acks, responses, response) && h.IsOk()
    ensures ReadsResponse(responses, acks)(SendResponse(h, acks, responses, response, None).bytes + rest, room)
            == Outcome(match response case Ok(resp) => Ok(resp) case Err(e) => Err(ErrorCode(TransportedCode(e))),
                       [], rest, room)
  {
    hide ReadFrame, Frame, AckFromError, TransportedCode, Display;
    match response {
      case Ok(resp) => ReadsBack(h.kind, h.option, resp, rest, responses, acks.decode);
      case Err(e) => ErrorTransport(h.kind, h.option, e, rest, responses.decode, acks);
    }
  }

  /** A command whose executor reads the response, `read_dir`, gets exactly what
      the handler made, or the code of its error, and reads all of the reply. */
  lemma SimpleCommandDelivers<R(!new)>(h: MessageHeader, acks: Format<AckMessage>, responses: Format<R>,
                                       response: Result<R>, rest: seq<byte>, room: Room)
    requires Lawful(acks) && Lawful(responses) && ReplyFits(acks, responses, response) && h.IsOk()
    ensures AfterCommand(acks, ReadsResponse(responses, acks),
                         SimpleReply(h, acks, responses, response, None).bytes + rest, room)
            == Outcome(match response case Ok(resp) => Ok(resp) case Err(e) => Err(ErrorCode(TransportedCode(e))),
                       [], rest, room)
  {
    hide ReadFrame, SendFrame, AckRead, ReadsResponse, SimpleReply, SendResponse;
    ReplyStarts(h, acks, responses, response, rest);
    ReadsBackResponse(h, acks, responses, response, rest, room);
  }

  /** What the delete handler answers: always a response, which is the
      acknowledgement of the removal's own outcome. */
  function DeleteResponse(removal: Result<()>): Result<AckMessage> {
    Ok(AckFromResult(removal))
  }

  /** As written, `delete` reports success whatever became of the removal, and
      leaves the frame that tells the outcome unread. */
  lemma DeleteIgnoresTheOutcome(h: MessageHeader, acks: Format<AckMessage>, removal: Result<()>, rest: seq<byte>,
                                room: Room)
    requires Lawful(acks) && Fits(acks.encode(AckSuccess)) && h.IsOk()
    ensures AfterCommand(acks, ReadsNothing(),
                         SimpleReply(h, acks, acks, DeleteResponse(removal), None).bytes + rest, room)
            == Outcome(Ok(()), [], SendResponse(h, acks, acks, DeleteResponse(removal), None).bytes + rest, room)
  {
    hide ReadFrame, SendFrame, AckRead, SimpleReply, SendResponse;
    ReplyStarts(h, acks, acks, DeleteResponse(removal), rest);
  }

  lemma ConvertedOutcome(removal: Result<()>)
    ensures var r := AckIntoResult(AckFromResult(removal));
            && (r.Ok? <==> removal.Ok? || removal == Err(ErrorCode(NO_ERROR)))
            && (removal.Err? && removal.error.Library? ==>
                  r == Err(ErrorCodeWithMessage(UNKNOWN_ERROR, removal.error.display)))
  {
    AckConversions(removal);
  }

  /** With the second acknowledgement read, `delete` succeeds exactly when the
      removal did, for every outcome that is not the bare code zero. */
  lemma DeleteWithSecondAckIff(h: MessageHeader, acks: Format<AckMessage>, removal: Result<()>, rest: seq<byte>,
                               room: Room)
    requires Lawful(acks) && ReplyFits(acks, acks, DeleteResponse(removal)) && h.IsOk()
    ensures var o := AfterCommand(acks, ReadsSecondAck(acks),
                                  SimpleReply(h, acks, acks, DeleteResponse(removal), None).bytes + rest, room);
            && o.rest == rest
            && (o.result.Ok? <==> removal.Ok? || removal == Err(ErrorCode(NO_ERROR)))
            && (removal.Err? && removal.error.Library? ==>
                  o.result == Err(ErrorCodeWithMessage(UNKNOWN_ERROR, removal.error.display)))
  {
    hide ReadFrame, SendFrame, AckFromError, AckFromResult, AckIntoResult, Display, AckRead, ReadsSecondAck,
         SimpleReply, SendResponse;
    ConvertedOutcome(removal);
    ReplyStarts(h, acks, acks, DeleteResponse(removal), rest);
    SecondAckReads(h, acks, removal, rest, room);
  }

  lemma SecondAckReads(h: MessageHeader, acks: Format<AckMessage>, removal: Result<()>, rest: seq<byte>, room: Room)
    requires Lawful(acks) && ReplyFits(acks, acks, DeleteResponse(removal)) && h.IsOk()
    ensures ReadsSecondAck(acks)(SendResponse(h, acks, acks, DeleteResponse(removal), None).bytes + rest, room)
            == Outcome(AckIntoResult(AckFromResult(removal)), [], rest, room)
  {
    hide ReadFrame, SendFrame, AckFromError, AckFromResult, AckIntoResult, Display;
    ReadsBackAck(h, acks, AckFromResult(removal), rest);
  }

  // ----- two-stage tasks, end to end ------------------------------------------------------

  /** Against a handler that acknowledges and sends its first value, the task
      hands that value over, and the handler then reads a success if the caller
      agreed and the code of the caller's error if it declined; if the caller
      dropped the sender or had gone, the handler is sent nothing more. The
      executor starts on exactly the bytes after the first value. */
  lemma StagedTaskIsDual<I(!new), T(!new)>(acks: Format<AckMessage>, initials: Format<I>, v: I, listening: bool,
                                           answer: Answer<T>, h: MessageHeader, rest: seq<byte>)
    requires Lawful(acks) && Lawful(initials) && ReplyFits(acks, initials, Ok(v)) && h.IsOk()
    requires answer.Declines? ==> Fits(acks.encode(AckFromError(answer.error)))
    ensures var o := FirstStage(initials.decode, acks, listening, answer,
                                SimpleReply(h, acks, initials, Ok(v), None).bytes + rest, None);
            && o.first == Ok(v)
            && (if !listening || answer.DropsSender?
                then o.end == Outcome(Err(ErrorCode(CANCELED_ERROR)), [], rest, None)
                else if answer.Declines?
                then AckRead(o.end.output, acks) == Read(Err(ErrorCode(TransportedCode(answer.error))), [])
                     && o.end.result == Err(answer.error) && o.end.rest == rest
                else AckRead(o.end.output, acks) == Read(Ok(()), answer.executor(rest, None).output)
                     && o.end.rest == answer.executor(rest, None).rest
                     && (o.end.result.Ok? <==> answer.executor(rest, None).result.Ok?)
                     && (o.end.result.Err? ==> o.end.result.error == answer.executor(rest, None).result.error))
  {
    hide ReadFrame, SendFrame, AckRead, SimpleReply, SecondStage;
    ReplyStarts(h, acks, initials, Ok(v), rest);
    ReadsBack(h.kind, h.option, v, rest, initials, acks.decode);
    if listening {
      AnswerIsHeard(acks, answer, rest);
    }
  }

  lemma AnswerIsHeard<T(!new)>(acks: Format<AckMessage>, answer: Answer<T>, rest: seq<byte>)
    requires Lawful(acks) && Fits(acks.encode(AckSuccess))
    requires answer.Declines? ==> Fits(acks.encode(AckFromError(answer.error)))
    ensures var o := SecondStage(acks, answer, rest, None);
            if answer.DropsSender? then o == Outcome(Err(ErrorCode(CANCELED_ERROR)), [], rest, None)
            else if answer.Declines?
            then AckRead(o.output, acks) == Read(Err(ErrorCode(TransportedCode(answer.error))), [])
                 && o.result == Err(answer.error) && o.rest == rest
            else AckRead(o.output, acks) == Read(Ok(()), answer.executor(rest, None).output)
                 && o.rest == answer.executor(rest, None).rest
                 && (o.result.Ok? <==> answer.executor(rest, None).result.Ok?)
                 && (o.result.Err? ==> o.result.error == answer.executor(rest, None).result.error)
  {
    hide ReadFrame, Frame, AckFromError, TransportedCode;
    if answer.Declines? {
      ErrorTransport(Command, OPTION_NONE, answer.error, [], acks.decode, acks);
      var payload := acks.encode(AckFromError(answer.error)).value;
      assert Frame(Command, WithErrorBit(OPTION_NONE), payload) + []
          == Frame(Command, WithErrorBit(OPTION_NONE), payload);
    } else if answer.Agrees? {
      ReadsBack(Command, OPTION_NONE, AckSuccess, answer.executor(rest, None).output, acks, acks.decode);
    }
  }

  // ----- what goes wrong before and between the stages ---------------------------------------

  /** A handler whose first phase failed, a missing file for one, ends the task: the
      caller gets the code of the error, whatever it would have answered, nothing
      more is sent, and nobody's code is run. */
  lemma FirstPhaseErrorEnds<I(!new), T(!new)>(acks: Format<AckMessage>, initials: Format<I>, e: CrabError,
                                              listening: bool, answer: Answer<T>, h: MessageHeader,
                                              rest: seq<byte>, room: Room)
    requires Lawful(acks) && Lawful(initials) && ReplyFits(acks, initials, Err(e)) && h.IsOk()
    ensures var o := FirstStage(initials.decode, acks, listening, answer,
                                SimpleReply(h, acks, initials, Err(e), None).bytes + rest, room);
            && o.first == Err(ErrorCode(TransportedCode(e)))
            && o.end == Outcome(Err(ErrorCode(if listening then TASK_ACK_FAILED else CANCELED_ERROR)), [], rest, room)
  {
    hide ReadFrame, SendFrame, AckRead, SimpleReply, SecondStage, TransportedCode;
    ReplyStarts(h, acks, initials, Err(e), rest);
    ErrorIsRead(h, acks, initials, e, rest);
  }

  lemma ErrorIsRead<I(!new)>(h: MessageHeader, acks: Format<AckMessage>, initials: Format<I>, e: CrabError,
                             rest: seq<byte>)
    requires Lawful(acks) && Fits(acks.encode(AckFromError(e)))
    ensures ReadFrame(SendResponse(h, acks, initials, Err(e), None).bytes + rest, initials.decode, acks.decode)
            == Read(Err(ErrorCode(TransportedCode(e))), rest)
  {
    hide ReadFrame, Frame, AckFromError, TransportedCode;
    ErrorTransport(h.kind, h.option, e, rest, initials.decode, acks);
  }

  /** A command that is refused outright, by an error frame or by an acknowledgement
      that carries an error, gives every caller that error and ends the task: a
      two-stage task reports no failure of its own, and no executor is run. */
  lemma RefusalEnds<I(!new), T(!new)>(acks: Format<AckMessage>, decode: seq<byte> -> Option<I>, refusal: seq<byte>,
                                      e: CrabError, rest: seq<byte>, listening: bool, answer: Answer<T>,
                                      executor: Executor<T>, room: Room)
    requires AckRead(refusal + rest, acks) == Read(Err(e), rest)
    ensures AfterCommand(acks, executor, refusal + rest, room) == Outcome(Err(e), [], rest, room)
    ensures FirstStage(decode, acks, listening, answer, refusal + rest, room)
            == StagedOutcome(Err(e), Outcome(Ok(()), [], rest, room))
  {
    hide AckRead;
  }

  /** The two forms such a refusal takes. */
  lemma RefusalsAreRead(h: MessageHeader, acks: Format<AckMessage>, e: CrabError, a: AckMessage, rest: seq<byte>)
    requires Lawful(acks) && h.IsOk()
    ensures Fits(acks.encode(AckFromError(e))) ==>
              AckRead(SendFrame(None, h.kind, WithErrorBit(h.option), acks.encode(AckFromError(e))).bytes + rest, acks)
              == Read(Err(ErrorCode(TransportedCode(e))), rest)
    ensures Fits(acks.encode(a)) && a.code != NO_ERROR ==>
              AckRead(SendFrame(None, h.kind, h.option, acks.encode(a)).bytes + rest, acks)
              == Read(Err(if a.msg.None? then ErrorCode(a.code) else ErrorCodeWithMessage(a.code, a.msg.value)), rest)
  {
    hide ReadFrame, Frame, AckFromError, TransportedCode;
    if Fits(acks.encode(AckFromError(e))) {
      ErrorTransport(h.kind, h.option, e, rest, acks.decode, acks);
    }
    if Fits(acks.encode(a)) {
      ReadsBackAck(h, acks, a, rest);
    }
  }

  /** The command is the first thing on the stream: the handler reads it back, and
      then what the rest of the program sends. If it cannot be written the program
      ends with that error, having read nothing and sent nothing the handler could
      take for a command. */
  lemma CommandComesFirst<C(!new), T>(cmd: C, commands: Format<C>, acks: Format<AckMessage>, executor: Executor<T>,
                                      input: seq<byte>, room: Room)
    requires Lawful(commands) && Fits(commands.encode(cmd))
    ensures var o := JobRun(commands.encode(cmd), acks, executor, input, room);
            var sent := SendCommand(commands.encode(cmd), room);
            var read := ReadFrame(o.output, commands.decode, acks.decode);
            if sent.result.Ok?
            then var then_ := AfterCommand(acks, executor, input, sent.room);
                 && read.result.Ok? && read.result.value.1 == cmd && read.result.value.0.kind == Command
                 && read.rest == then_.output && o.result == then_.result && o.rest == then_.rest
            else read.result.Err? && o.result == Err(sent.result.error) && o.rest == input
  {
    hide ReadFrame, AfterCommand;
    var sent := SendCommand(commands.encode(cmd), room);
    PeerReadsIffWritten(room, Command, OPTION_NONE, cmd, commands, acks.decode);
    if sent.result.Ok? {
      SameBytes(room, Command, OPTION_NONE, commands.encode(cmd));
      var more := AfterCommand(acks, executor, input, sent.room).output;
      ReadsBack(Command, OPTION_NONE, cmd, more, commands, acks.decode);
    }
    hide SendFrame;
  }

  lemma SameBytes(room: Room, kind: Method, option: byte, payload: Option<seq<byte>>)
    requires SendFrame(room, kind, option, payload).result.Ok?
    ensures SendFrame(room, kind, option, payload).bytes == SendFrame(None, kind, option, payload).bytes
  {
    hide Frame;
  }

  /** The two-stage task begins the same way; a command it cannot write is answered to
      its caller with that error. */
  lemma StagedCommandComesFirst<C(!new), I, T>(cmd: C, commands: Format<C>, decode: seq<byte> -> Option<I>,
                                               acks: Format<AckMessage>, listening: bool, answer: Answer<T>,
                                               input: seq<byte>, room: Room)
    requires Lawful(commands) && Fits(commands.encode(cmd))
    ensures var o := StagedRun(commands.encode(cmd), decode, acks, listening, answer, input, room);
            var sent := SendCommand(commands.encode(cmd), room);
            var read := ReadFrame(o.end.output, commands.decode, acks.decode);
            if sent.result.Ok?
            then var then_ := FirstStage(decode, acks, listening, answer, input, sent.room);
                 && read.result.Ok? && read.result.value.1 == cmd && read.result.value.0.kind == Command
                 && read.rest == then_.end.output && o.first == then_.first
                 && o.end.result == then_.end.result && o.end.rest == then_.end.rest
            else read.result.Err? && o.first == Err(sent.result.error) && o.end.result == Ok(()) && o.end.rest == input
  {
    hide ReadFrame, FirstStage;
    var sent := SendCommand(commands.encode(cmd), room);
    PeerReadsIffWritten(room, Command, OPTION_NONE, cmd, commands, acks.decode);
    if sent.result.Ok? {
      SameBytes(room, Command, OPTION_NONE, commands.encode(cmd));
      var more := FirstStage(decode, acks, listening, answer, input, sent.room).end.output;
      ReadsBack(Command, OPTION_NONE, cmd, more, commands, acks.decode);
    }
    hide SendFrame;
  }

  /** An answer that cannot be written ends the task with the error of the write, and
      no executor is run. */
  lemma UnwrittenAnswerEnds<T>(acks: Format<AckMessage>, answer: Answer<T>, rest: seq<byte>, room: Room)
    requires !answer.DropsSender?
    requires SendAnswer(acks, if answer.Declines? then Err(answer.error) else Ok(()), room).result.Err?
    ensures var sent := SendAnswer(acks, if answer.Declines? then Err(answer.error) else Ok(()), room);
            SecondStage(acks, answer, rest, room) == Outcome(Err(sent.result.error), sent.bytes, rest, sent.room)
  {
    hide SendFrame;
  }

  /** A handler's reply succeeds exactly if acknowledgement and response, or its error,
      are both serialised and the connection takes both frames whole; what it sends
      then is these two, and without an acknowledgement it sends nothing. */
  lemma ReplySucceedsIff<R>(h: MessageHeader, acks: Format<AckMessage>, responses: Format<R>, response: Result<R>,
                            room: Room)
    ensures var o, ack := SimpleReply(h, acks, responses, response, room), acks.encode(AckSuccess);
            var payload := match response case Ok(r) => responses.encode(r) case Err(e) => acks.encode(AckFromError(e));
            var option := if response.Ok? then h.option else WithErrorBit(h.option);
            && (ack.None? ==> o == Sent(Err(ErrorCode(IO_BAD_MESSAGE)), [], room))
            && (o.result.Ok? <==>
                  && ack.Some? && payload.Some?
                  && Takes(room, Frame(h.kind, h.option, ack.value) + Frame(h.kind, option, payload.value)))
            && (o.result.Ok? ==> o.bytes == Frame(h.kind, h.option, ack.value) + Frame(h.kind, option, payload.value))
  {
    var ack := acks.encode(AckSuccess);
    var payload := match response case Ok(r) => responses.encode(r) case Err(e) => acks.encode(AckFromError(e));
    var option := if response.Ok? then h.option else WithErrorBit(h.option);
    if ack.Some? && payload.Some? {
      AcceptedInTwo(room, Frame(h.kind, h.option, ack.value), Frame(h.kind, option, payload.value));
    }
    hide Frame;
  }
}

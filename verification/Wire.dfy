/** The values that cross the wire: the 12-byte `CRAB` header, error values and
    the acknowledgement message that carries them. */
module Wire {

  type byte = b: int | 0 <= b < 0x100
  type u16 = n: int | 0 <= n < 0x1_0000
  type u32 = n: int | 0 <= n < 0x1_0000_0000

  datatype Option<+T> = None | Some(value: T)

  datatype Result<+T> = Ok(value: T) | Err(error: CrabError)

  /** Text is kept as its UTF-8 bytes. */
  type Text = seq<byte>

  /** `Library` stands for every variant that wraps an error of another crate;
      all that ever leaves the process of such an error is its display text. */
  datatype CrabError =
    | ErrorCode(code: u32)
    | ErrorCodeWithMessage(messageCode: u32, msg: Text)
    | Library(display: Text)

  const NO_ERROR: u32 := 0
  const IO_BAD_MESSAGE: u32 := 7
  const CANCELED_ERROR: u32 := 14
  const PAYLOAD_TOO_LARGE: u32 := 15
  const BAD_MESSAGE_HEADER: u32 := 16
  const DESERIALIZATION_ERROR: u32 := 17
  const NO_ENOUGH_SPACE: u32 := 26
  const ENCODING_ERROR: u32 := 28
  const UNKNOWN_ERROR: u32 := 0xffff_ffff

  const HEADER_SIZE := 12
  const MAX_PAYLOAD_SIZE := 16 * 1024 * 1024

  const OPTION_NONE: byte := 0
  const OPTION_ERROR: byte := 1

  const MAGIC: seq<byte> := [0x43, 0x52, 0x41, 0x42]

  datatype Method = Handshake | Heartbeat | Ack | Error | Command

  function MethodCode(m: Method): u16 {
    match m
    case Handshake => 0
    case Heartbeat => 1
    case Ack => 2
    case Error => 3
    case Command => 4
  }

  function MethodOf(code: u16): Option<Method> {
    if code == 0 then Some(Handshake)
    else if code == 1 then Some(Heartbeat)
    else if code == 2 then Some(Ack)
    else if code == 3 then Some(Error)
    else if code == 4 then Some(Command)
    else None
  }

  datatype MessageHeader = MessageHeader(version: byte, option: byte, kind: Method, length: u32) {
    /** The lowest option bit marks an error reply. */
    predicate IsOk() {
      option % 2 == 0
    }
  }

  /** `option | OPTION_ERROR` */
  function WithErrorBit(option: byte): (r: byte)
    ensures r % 2 == 1 && r / 2 == option / 2
  {
    if option % 2 == 1 then option else option + 1
  }

  // ----- integers ----------------------------------------------------------

  function LittleEndian16(v: u16): (r: seq<byte>)
    ensures |r| == 2
  {
    [v % 0x100, v / 0x100]
  }

  function LittleEndian32(v: u32): (r: seq<byte>)
    ensures |r| == 4
  {
    [v % 0x100, v / 0x100 % 0x100, v / 0x1_0000 % 0x100, v / 0x100_0000]
  }

  function FromLittleEndian16(b0: byte, b1: byte): u16 {
    b0 + 0x100 * b1
  }

  function FromLittleEndian32(b0: byte, b1: byte, b2: byte, b3: byte): u32 {
    b0 + 0x100 * b1 + 0x1_0000 * b2 + 0x100_0000 * b3
  }

  // ----- header ------------------------------------------------------------

  function PrintHeader(h: MessageHeader): (r: seq<byte>)
    ensures |r| == HEADER_SIZE
  {
    MAGIC + [h.version, h.option] + LittleEndian16(MethodCode(h.kind)) + LittleEndian32(h.length)
  }

  function ParseHeader(b: seq<byte>): Option<MessageHeader>
    requires |b| == HEADER_SIZE
  {
    if b[..4] != MAGIC then None
    else
      match MethodOf(FromLittleEndian16(b[6], b[7]))
      case None => None
      case Some(m) => Some(MessageHeader(b[4], b[5], m, FromLittleEndian32(b[8], b[9], b[10], b[11])))
  }

  lemma DivideTwice(v: nat, k: nat)
    requires k == 0x100 || k == 0x1_0000
    ensures v / (0x100 * k) == v / k / 0x100
  {
  }

  lemma LittleEndian32Parses(v: u32)
    ensures var b := LittleEndian32(v); FromLittleEndian32(b[0], b[1], b[2], b[3]) == v
  {
    var v1 := v / 0x100;
    var v2 := v1 / 0x100;
    DivideTwice(v, 0x100);
    DivideTwice(v, 0x1_0000);
    assert v == v % 0x100 + 0x100 * v1;
    assert v1 == v1 % 0x100 + 0x100 * v2;
    assert v2 == v2 % 0x100 + 0x100 * (v2 / 0x100);
  }

  lemma LittleEndian16Parses(m: Method)
    ensures var b := LittleEndian16(MethodCode(m)); MethodOf(FromLittleEndian16(b[0], b[1])) == Some(m)
  {
  }

  lemma HeaderRoundTrip(h: MessageHeader)
    ensures ParseHeader(PrintHeader(h)) == Some(h)
  {
    hide LittleEndian16, LittleEndian32, FromLittleEndian16, FromLittleEndian32, MethodCode, MethodOf;
    LittleEndian16Parses(h.kind);
    LittleEndian32Parses(h.length);
    var b := PrintHeader(h);
    var code, length := LittleEndian16(MethodCode(h.kind)), LittleEndian32(h.length);
    assert b[..4] == MAGIC;
    assert b[6] == code[0] && b[7] == code[1];
    assert b[8] == length[0] && b[9] == length[1] && b[10] == length[2] && b[11] == length[3];
  }

  /** A header byte for byte: the four letters, version, option, the method's number
      and the payload length, numbers with their low byte first. */
  lemma HeaderOnTheWire(h: MessageHeader)
    ensures var b := PrintHeader(h);
            && b[..4] == ['C' as byte, 'R' as byte, 'A' as byte, 'B' as byte]
            && b[4] == h.version && b[5] == h.option && b[7] == 0
            && (b[6] == 0 <==> h.kind.Handshake?) && (b[6] == 1 <==> h.kind.Heartbeat?)
            && (b[6] == 2 <==> h.kind.Ack?) && (b[6] == 3 <==> h.kind.Error?) && (b[6] == 4 <==> h.kind.Command?)
            && b[8] as int + 0x100 * b[9] as int + 0x1_0000 * b[10] as int + 0x100_0000 * b[11] as int
               == h.length as int
  {
    hide LittleEndian32;
    LittleEndian32Parses(h.length);
    var b, length := PrintHeader(h), LittleEndian32(h.length);
    assert b[..4] == MAGIC;
    assert b[8..] == length;
    assert b[8] == b[8..][0] && b[9] == b[8..][1] && b[10] == b[8..][2] && b[11] == b[8..][3];
  }

  lemma SplitByte(b: byte, rest: nat)
    ensures (b + 0x100 * rest) % 0x100 == b && (b + 0x100 * rest) / 0x100 == rest
  {
  }

  lemma LittleEndian32Reprints(b0: byte, b1: byte, b2: byte, b3: byte)
    ensures LittleEndian32(FromLittleEndian32(b0, b1, b2, b3)) == [b0, b1, b2, b3]
  {
    var v := FromLittleEndian32(b0, b1, b2, b3);
    SplitByte(b0, b1 + 0x100 * (b2 + 0x100 * b3));
    SplitByte(b1, b2 + 0x100 * b3);
    SplitByte(b2, b3);
    assert v / 0x100 == b1 + 0x100 * (b2 + 0x100 * b3);
    assert v / 0x1_0000 == v / 0x100 / 0x100 == b2 + 0x100 * b3;
    assert v / 0x100_0000 == v / 0x1_0000 / 0x100 == b3;
  }

  /** The parser accepts nothing but printed headers: what it accepts prints
      back to the very same bytes. */
  lemma AcceptedHeaderReprints(b: seq<byte>)
    requires |b| == HEADER_SIZE && ParseHeader(b).Some?
    ensures PrintHeader(ParseHeader(b).value) == b
  {
    var h := ParseHeader(b).value;
    HeaderAcceptedIff(b);
    LittleEndian32Reprints(b[8], b[9], b[10], b[11]);
    assert LittleEndian16(MethodCode(h.kind)) == [b[6], b[7]];
    assert b == b[..4] + [b[4], b[5]] + [b[6], b[7]] + [b[8], b[9], b[10], b[11]];
  }

  /** Which headers are refused: a wrong magic, or a method number above 4. */
  lemma HeaderAcceptedIff(b: seq<byte>)
    requires |b| == HEADER_SIZE
    ensures ParseHeader(b).Some? <==> b[..4] == MAGIC && b[6] <= 4 && b[7] == 0
  {
  }

  // ----- acknowledgements ----------------------------------------------------

  datatype AckMessage = AckMessage(code: u32, msg: Option<Text>)

  function Digits(n: nat): (r: Text)
    ensures |r| >= 1
  {
    if n < 10 then [48 + n] else Digits(n / 10) + [48 + n % 10]
  }

  /** The display text of an error that is not a bare code. */
  function Display(e: CrabError): Text
    requires !e.ErrorCode?
  {
    match e
    case Library(text) => text
    case ErrorCodeWithMessage(code, msg) =>
      // "Error code {code}: {msg}"
      [69, 114, 114, 111, 114, 32, 99, 111, 100, 101, 32] + Digits(code) + [58, 32] + msg
  }

  function AckFromError(e: CrabError): AckMessage {
    match e
    case ErrorCode(code) => AckMessage(code, None)
    case _ => AckMessage(UNKNOWN_ERROR, Some(Display(e)))
  }

  const AckSuccess := AckMessage(NO_ERROR, None)

  function AckIntoResult(a: AckMessage): Result<()> {
    if a.code == NO_ERROR then Ok(())
    else
      match a.msg
      case None => Err(ErrorCode(a.code))
      case Some(text) => Err(ErrorCodeWithMessage(a.code, text))
  }

  function AckFromResult(r: Result<()>): AckMessage {
    match r
    case Ok(_) => AckFromError(ErrorCode(NO_ERROR))
    case Err(e) => AckFromError(e)
  }

  /** The code that survives the trip through an acknowledgement. */
  function TransportedCode(e: CrabError): u32 {
    match e
    case ErrorCode(code) => code
    case _ => UNKNOWN_ERROR
  }

  /** Turning a result into an acknowledgement and back keeps success, keeps
      bare codes other than zero, and turns the code zero into success. */
  lemma AckConversions(r: Result<()>)
    ensures AckIntoResult(AckFromResult(r)) ==
            match r
            case Ok(_) => Ok(())
            case Err(ErrorCode(c)) => if c == NO_ERROR then Ok(()) else Err(ErrorCode(c))
            case Err(e) => Err(ErrorCodeWithMessage(UNKNOWN_ERROR, Display(e)))
  {
  }

  // ----- payload serialisation -------------------------------------------------

  /** A payload format: how a message becomes bytes, if the serialiser takes it,
      and back. The serialiser is a library, so every result below holds for any
      lawful format. */
  datatype Format<!M> = Format(encode: M -> Option<seq<byte>>, decode: seq<byte> -> Option<M>)

  ghost predicate Lawful<M(!new)>(f: Format<M>) {
    forall m: M :: f.encode(m).Some? ==> f.decode(f.encode(m).value) == Some(m)
  }
}

/** UDP packets in the tunnel: a two-byte length, a SOCKS5 UDP request header
    (section 7 of RFC 1928) and the payload. The writer and the reader each
    differ from the evident intent in one place; `tagged` and `cut` say whether
    that place is corrected. */
module Udp {
  import opened Wire
  import opened FrameStream

  const MTU := 1500

  type Octets4 = s: seq<byte> | |s| == 4 witness [0, 0, 0, 0]
  type Octets16 = s: seq<byte> | |s| == 16 witness [0, 0, 0, 0, 0, 0, 0, 0, 0, 0, 0, 0, 0, 0, 0, 0]

  datatype SocketAddr = V4(ip4: Octets4, port: u16) | V6(ip6: Octets16, port: u16)

  datatype Address = SocketAddress(addr: SocketAddr) | DomainAddress(host: Text, port: u16)

  datatype PackageHost = Ipv4(ip4: Octets4) | Ipv6(ip6: Octets16) | Domain(data: seq<byte>)

  datatype PacketHeader = PacketHeader(rsv: u16, frag: byte, addr: PackageHost, port: u16)

  // ----- header codec -------------------------------------------------------

  function BigEndian16(v: u16): (r: seq<byte>)
    ensures |r| == 2
  {
    [v / 0x100, v % 0x100]
  }

  function FromBigEndian16(hi: byte, lo: byte): u16 {
    0x100 * hi + lo
  }

  function Tag(h: PackageHost): byte {
    match h
    case Ipv4(_) => 1
    case Ipv6(_) => 4
    case Domain(_) => 3
  }

  /** As written (`tagged` false) the address type is not printed at all. */
  function PrintHost(h: PackageHost, tagged: bool): seq<byte> {
    (if tagged then [Tag(h)] else []) +
    match h
    case Ipv4(ip) => ip
    case Ipv6(ip) => ip
    case Domain(data) => [|data| % 0x100] + data
  }

  function PrintPacketHeader(h: PacketHeader, tagged: bool): seq<byte> {
    BigEndian16(h.rsv) + [h.frag] + PrintHost(h.addr, tagged) + BigEndian16(h.port)
  }

  /** The host at the front of `b`, and how many bytes it takes. */
  function UnpackHost(b: seq<byte>): (r: Option<(PackageHost, nat)>)
    ensures r.Some? ==> r.value.1 <= |b|
  {
    if |b| >= 5 && b[0] == 1 then Some((Ipv4(b[1..5]), 5))
    else if |b| >= 17 && b[0] == 4 then Some((Ipv6(b[1..17]), 17))
    else if |b| >= 2 && b[0] == 3 then
      var end := b[1] as nat + 2;
      if |b| >= end then Some((Domain(b[2..end]), end)) else None
    else None
  }

  function Unpack(b: seq<byte>): (r: Option<(PacketHeader, nat)>)
    ensures r.Some? ==> r.value.1 <= |b|
  {
    if |b| < 3 || FromBigEndian16(b[0], b[1]) != 0 then None
    else
      match UnpackHost(b[3..])
      case None => None
      case Some((host, n)) =>
        if |b| < 3 + n + 2 then None
        else Some((PacketHeader(0, b[2], host, FromBigEndian16(b[3 + n], b[4 + n])), n + 5))
  }

  predicate WellFormed(h: PacketHeader) {
    h.rsv == 0 && (h.addr.Domain? ==> |h.addr.data| < 0x100)
  }

  lemma HostReprints(b: seq<byte>)
    requires UnpackHost(b).Some?
    ensures var (host, n) := UnpackHost(b).value;
            PrintHost(host, true) == b[..n] && (host.Domain? ==> |host.data| < 0x100)
  {
    var (host, n) := UnpackHost(b).value;
    if host.Domain? {
      assert |host.data| == b[1];
      assert b[..n] == [b[0]] + ([b[1]] + b[2..n]);
    } else {
      assert b[..n] == [b[0]] + b[1..n];
    }
  }

  lemma HostParses(h: PackageHost, rest: seq<byte>)
    requires h.Domain? ==> |h.data| < 0x100
    ensures UnpackHost(PrintHost(h, true) + rest) == Some((h, |PrintHost(h, true)|))
  {
    var b := PrintHost(h, true) + rest;
    match h
    case Ipv4(ip) => assert b[1..5] == ip;
    case Ipv6(ip) => assert b[1..17] == ip;
    case Domain(data) => assert b[2..2 + |data|] == data;
  }

  /** What `Unpack` accepts, printed with its tag, is the prefix it consumed. */
  lemma UnpackedReprints(b: seq<byte>)
    requires Unpack(b).Some?
    ensures var (h, n) := Unpack(b).value;
            n <= |b| && WellFormed(h) && PrintPacketHeader(h, true) == b[..n]
  {
    var (h, n) := Unpack(b).value;
    var m := UnpackHost(b[3..]).value.1;
    HostReprints(b[3..]);
    assert b[3..][..m] == b[3..3 + m];
    assert BigEndian16(h.port) == [b[3 + m], b[4 + m]];
    assert b[..n] == [b[0], b[1]] + [b[2]] + b[3..3 + m] + [b[3 + m], b[4 + m]];
  }

  lemma BigEndianParses(v: u16)
    ensures var b := BigEndian16(v); FromBigEndian16(b[0], b[1]) == v
  {
  }

  lemma PiecesUnpack(frag: byte, host: PackageHost, hostBytes: seq<byte>, port: u16, rest: seq<byte>)
    requires UnpackHost(hostBytes + (BigEndian16(port) + rest)) == Some((host, |hostBytes|))
    ensures Unpack([0, 0, frag] + (hostBytes + (BigEndian16(port) + rest)))
            == Some((PacketHeader(0, frag, host, port), |hostBytes| + 5))
  {
    BigEndianParses(port);
    hide BigEndian16, UnpackHost;
    var tail := hostBytes + (BigEndian16(port) + rest);
    var b := [0, 0, frag] + tail;
    assert b[3..] == tail;
    assert b[3 + |hostBytes|] == tail[|hostBytes|] && b[4 + |hostBytes|] == tail[|hostBytes| + 1];
  }

  lemma PrintedUnpacks(h: PacketHeader, rest: seq<byte>)
    requires WellFormed(h)
    ensures Unpack(PrintPacketHeader(h, true) + rest) == Some((h, |PrintPacketHeader(h, true)|))
  {
    ZeroPrefix(h);
    hide PrintHost, UnpackHost, Unpack, BigEndian16, PrintPacketHeader;
    var host, port := PrintHost(h.addr, true), BigEndian16(h.port);
    HostParses(h.addr, port + rest);
    PiecesUnpack(h.frag, h.addr, host, h.port, rest);
    Reassociate([0, 0, h.frag], host, port, rest);
  }

  lemma ZeroPrefix(h: PacketHeader)
    requires h.rsv == 0
    ensures PrintPacketHeader(h, true) == [0, 0, h.frag] + PrintHost(h.addr, true) + BigEndian16(h.port)
  {
    hide PrintHost;
    assert BigEndian16(0) == [0, 0];
  }

  lemma Reassociate(a: seq<byte>, b: seq<byte>, c: seq<byte>, d: seq<byte>)
    ensures a + b + c + d == a + (b + (c + d))
  {
  }

  /** Over all byte strings: `Unpack` succeeds exactly on those that start with
      a printed header, and the answer depends on that prefix alone. */
  lemma UnpackIsPrefixParsing(b: seq<byte>)
    ensures Unpack(b).Some? <==> exists h :: WellFormed(h) && PrintPacketHeader(h, true) <= b
    ensures Unpack(b).Some? ==>
              var n := Unpack(b).value.1;
              forall b' :: n <= |b'| && b'[..n] == b[..n] ==> Unpack(b') == Unpack(b)
  {
    hide Unpack, PrintPacketHeader, WellFormed;
    if Unpack(b).Some? {
      var (h, n) := Unpack(b).value;
      UnpackedReprints(b);
      forall b' | n <= |b'| && b'[..n] == b[..n]
        ensures Unpack(b') == Unpack(b)
      {
        PrintedUnpacks(h, b'[n..]);
        assert b' == b[..n] + b'[n..];
      }
    }
    forall h | WellFormed(h) && PrintPacketHeader(h, true) <= b
      ensures Unpack(b).Some?
    {
      var p := PrintPacketHeader(h, true);
      PrintedUnpacks(h, b[|p|..]);
      assert b == p + b[|p|..];
    }
  }

  // ----- packets ------------------------------------------------------------------

  function HostOf(a: SocketAddr): PackageHost {
    match a
    case V4(ip, _) => Ipv4(ip)
    case V6(ip, _) => Ipv6(ip)
  }

  function HeaderOf(a: SocketAddr): PacketHeader {
    PacketHeader(0, 0, HostOf(a), a.port)
  }

  /** The names the packet code asks the outside world about: which byte strings
      are text, and what a host name resolves to. */
  datatype World = World(isText: seq<byte> -> bool, lookup: (Text, u16) -> Option<SocketAddr>)

  function AddressOf(h: PacketHeader, w: World): Result<Address> {
    match h.addr
    case Ipv4(ip) => Ok(SocketAddress(V4(ip, h.port)))
    case Ipv6(ip) => Ok(SocketAddress(V6(ip, h.port)))
    case Domain(data) =>
      if w.isText(data) then Ok(DomainAddress(data, h.port)) else Err(ErrorCode(ENCODING_ERROR))
  }

  function Resolve(a: Address, w: World): Option<SocketAddr> {
    match a
    case SocketAddress(addr) => Some(addr)
    case DomainAddress(host, port) => w.lookup(host, port)
  }

  /** The length field keeps the low 16 bits of the total. */
  function LengthField(total: nat): (r: seq<byte>)
    ensures |r| == 2
  {
    BigEndian16(total % 0x1_0000)
  }

  /** The reader masks off the top bit of the field. */
  function FieldSize(hi: byte, lo: byte): nat {
    FromBigEndian16(hi, lo) % 0x8000
  }

  /** The size the reader takes a packet of `total` bytes to have. */
  function SeenSize(total: nat): (size: nat)
    ensures size <= total && size < 0x8000 && (size == total <==> total < 0x8000)
  {
    total % 0x8000
  }

  lemma FieldSizeOfTotal(total: nat)
    ensures var b := LengthField(total); FieldSize(b[0], b[1]) == SeenSize(total)
  {
    LowBits(total);
    BigEndianParses(total % 0x1_0000);
    hide BigEndian16, FromBigEndian16;
  }

  lemma LowBits(n: nat)
    ensures n % 0x1_0000 % 0x8000 == n % 0x8000
  {
    assert n == 0x8000 * (2 * (n / 0x1_0000)) + n % 0x1_0000;
  }

  function PacketOf(header: seq<byte>, data: seq<byte>): seq<byte> {
    LengthField(|header| + |data|) + (header + data)
  }

  function Packet(a: SocketAddr, data: seq<byte>, tagged: bool): seq<byte> {
    PacketOf(PrintPacketHeader(HeaderOf(a), tagged), data)
  }

  function Total(a: SocketAddr, data: seq<byte>, tagged: bool): nat {
    |PrintPacketHeader(HeaderOf(a), tagged)| + |data|
  }

  /** A packet byte for byte: the length, two reserved octets and a fragment number
      of zero, the address type if it is printed, 1 for IPv4 and 4 for IPv6, the
      address, the port and the payload, numbers with their high octet first. */
  lemma PacketOnTheWire(a: SocketAddr, data: seq<byte>, tagged: bool)
    ensures var p, t, n := Packet(a, data, tagged), if tagged then 1 else 0, if a.V4? then 4 else 16;
            && |p| == 7 + t + n + |data|
            && 0x100 * p[0] as int + p[1] as int == (|p| - 2) % 0x1_0000
            && p[2..5] == [0, 0, 0]
            && (tagged ==> p[5] == if a.V4? then 1 else 4)
            && p[5 + t..5 + t + n] == (if a.V4? then a.ip4 else a.ip6)
            && 0x100 * p[5 + t + n] as int + p[6 + t + n] as int == a.port as int
            && p[7 + t + n..] == data
  {
    var ip := if a.V4? then a.ip4 else a.ip6;
    var tag := if !tagged then [] else [if a.V4? then 1 else 4];
    PrintedHost(a, tagged);
    BigEndianParses(a.port);
    hide PrintHost, BigEndian16, LengthField;
    PacketJoins(a, data, tagged, tag, ip);
    var total := |PrintPacketHeader(HeaderOf(a), tagged)| + |data|;
    LengthTells(total);
    hide Packet, PrintPacketHeader;
    LayOut(LengthField(total), tag, ip, BigEndian16(a.port), data);
    var p, t, n := Packet(a, data, tagged), |tag|, |ip|;
    assert p[0] == p[..2][0] && p[1] == p[..2][1];
    assert tagged ==> p[5] == p[5..5 + t][0];
    assert p[5 + t + n] == p[5 + t + n..7 + t + n][0] && p[6 + t + n] == p[5 + t + n..7 + t + n][1];
  }

  lemma LengthTells(total: nat)
    ensures var b := LengthField(total); 0x100 * b[0] as int + b[1] as int == total % 0x1_0000
  {
  }

  lemma PacketJoins(a: SocketAddr, data: seq<byte>, tagged: bool, tag: seq<byte>, ip: seq<byte>)
    requires PrintHost(HostOf(a), tagged) == tag + ip
    ensures |PrintPacketHeader(HeaderOf(a), tagged)| == 5 + |tag| + |ip|
    ensures Packet(a, data, tagged)
            == LengthField(|PrintPacketHeader(HeaderOf(a), tagged)| + |data|) + [0, 0, 0] + tag + ip
               + BigEndian16(a.port) + data
  {
    assert BigEndian16(0) == [0, 0];
    hide PrintHost, LengthField, BigEndian16;
    assert PrintPacketHeader(HeaderOf(a), tagged) == [0, 0, 0] + (tag + ip) + BigEndian16(a.port);
  }

  lemma LayOut(field: seq<byte>, tag: seq<byte>, ip: seq<byte>, port: seq<byte>, data: seq<byte>)
    requires |field| == 2 && |port| == 2
    ensures var p, t, n := field + [0, 0, 0] + tag + ip + port + data, |tag|, |ip|;
            && p[..2] == field && p[2..5] == [0, 0, 0] && p[5..5 + t] == tag && p[5 + t..5 + t + n] == ip
            && p[5 + t + n..7 + t + n] == port && p[7 + t + n..] == data
  {
  }

  lemma PrintedHost(a: SocketAddr, tagged: bool)
    ensures PrintHost(HostOf(a), tagged)
            == (if !tagged then [] else [if a.V4? then 1 else 4]) + (if a.V4? then a.ip4 else a.ip6)
  {
  }

  datatype PacketRead = PacketRead(result: Result<(Address, seq<byte>)>, rest: seq<byte>, buf: seq<byte>)

  /** One read into a buffer of which only the first `size` bytes are new. As
      written (`cut` false) the slice handed on runs to the end of the buffer. */
  function ReadPacket(input: seq<byte>, buf: seq<byte>, cut: bool, w: World): (r: PacketRead)
    ensures r.result.Ok? ==> |r.rest| < |input| && |r.buf| == |buf|
  {
    var flag := ReadBytes(input, 2);
    if flag.result.Err? then PacketRead(Err(flag.result.error), flag.rest, buf)
    else
      var size := FieldSize(flag.result.value[0], flag.result.value[1]);
      if size == 0 then PacketRead(Err(ErrorCode(BAD_MESSAGE_HEADER)), flag.rest, buf)
      else if |buf| < size then PacketRead(Err(ErrorCode(NO_ENOUGH_SPACE)), flag.rest, buf)
      else
        var body := ReadBytes(flag.rest, size);
        if body.result.Err? then PacketRead(Err(body.result.error), body.rest, buf)
        else
          var filled := body.result.value + buf[size..];
          PacketRead(OpenPacket(filled, size, cut, w), body.rest, filled)
  }

  function OpenPacket(filled: seq<byte>, size: nat, cut: bool, w: World): Result<(Address, seq<byte>)>
    requires size <= |filled|
  {
    match Unpack(filled[..size])
    case None => Err(ErrorCode(BAD_MESSAGE_HEADER))
    case Some((h, position)) =>
      match AddressOf(h, w)
      case Err(e) => Err(e)
      case Ok(a) => Ok((a, if cut then filled[position..size] else filled[position..]))
  }

  /** The 24 bytes hold the length and the largest header, with its tag. */
  method PackHeader(dataLen: nat, addr: SocketAddr, tagged: bool) returns (headerBuf: array<byte>, used: nat)
    ensures fresh(headerBuf) && used <= headerBuf.Length == 24
    ensures headerBuf[..used] == LengthField(Total(addr, [], tagged) + dataLen)
            + PrintPacketHeader(HeaderOf(addr), tagged)
  {
    hide PrintPacketHeader, LengthField;
    HeaderSize(addr, tagged);
    headerBuf := new byte[24](_ => 0);
    var printed := PrintPacketHeader(HeaderOf(addr), tagged);
    var headerLen := |printed|;
    forall i | 0 <= i < headerLen {
      headerBuf[2 + i] := printed[i];
    }
    var totalLen := dataLen + headerLen;
    headerBuf[0] := totalLen / 0x100 % 0x100;
    headerBuf[1] := totalLen % 0x100;
    LengthBytes(totalLen);
    used := 2 + headerLen;
  }

  /** The second write is made only if the first was taken. */
  method WriteBoth(stream: SendStream, front: seq<byte>, data: seq<byte>) returns (r: Result<()>)
    modifies stream
    ensures var room := old(stream.room);
            && r == (if Takes(room, front + data) then Ok(()) else Err(WRITE_ERROR))
            && stream.sent == old(stream.sent) + Accepted(room, front + data)
            && stream.room == RoomAfter(room, front + data)
  {
    AcceptedInTwo(stream.room, front, data);
    hide Takes, Accepted, RoomAfter;
    r := stream.WriteAll(front);
    if r.Ok? {
      r := stream.WriteAll(data);
    }
  }

  /** Header and payload are written one after the other; on an error the packet is
      cut short where the connection stopped taking it. */
  method SendTo(stream: SendStream, data: seq<byte>, addr: SocketAddr, tagged: bool) returns (r: Result<nat>)
    modifies stream
    ensures var packet, room := Packet(addr, data, tagged), old(stream.room);
            && r == (if Takes(room, packet) then Ok(|data|) else Err(WRITE_ERROR))
            && stream.sent == old(stream.sent) + Accepted(room, packet) && stream.room == RoomAfter(room, packet)
  {
    hide PrintPacketHeader, LengthField, HeaderOf, Takes, Accepted, RoomAfter, Packet;
    var headerBuf, used := PackHeader(|data|, addr, tagged);
    PacketInTwo(addr, data, tagged, headerBuf[..used]);
    var written := WriteBoth(stream, headerBuf[..used], data);
    r := if written.Ok? then Ok(|data|) else Err(written.error);
  }

  lemma PacketInTwo(addr: SocketAddr, data: seq<byte>, tagged: bool, front: seq<byte>)
    requires front == LengthField(Total(addr, [], tagged) + |data|) + PrintPacketHeader(HeaderOf(addr), tagged)
    ensures Packet(addr, data, tagged) == front + data
  {
    hide PrintPacketHeader, LengthField;
    TotalSplit(addr, data, tagged);
  }

  lemma HeaderSize(a: SocketAddr, tagged: bool)
    ensures |PrintPacketHeader(HeaderOf(a), tagged)| == (if a.V4? then 9 else 21) + (if tagged then 1 else 0)
  {
  }

  lemma LengthBytes(n: nat)
    ensures LengthField(n) == [n / 0x100 % 0x100, n % 0x100]
  {
    assert n == 0x1_0000 * (n / 0x1_0000) + n % 0x1_0000;
    assert n / 0x100 == 0x100 * (n / 0x1_0000) + n % 0x1_0000 / 0x100;
  }

  method ReadPacketInto(reader: RecvStream, buf: array<byte>, cut: bool, w: World)
    returns (r: Result<(Address, seq<byte>)>)
    modifies reader, buf
    ensures var o := ReadPacket(old(reader.Pending()), old(buf[..]), cut, w);
            r == o.result && reader.Pending() == o.rest && (r.Ok? ==> buf[..] == o.buf)
  {
    hide Unpack, AddressOf;
    var flag := new byte[2];
    var ok := reader.ReadExact(flag, 2);
    if !ok {
      return Err(READ_EXACT_ERROR);
    }
    assert flag[..2][0] == flag[0] && flag[..2][1] == flag[1];
    var size := FieldSize(flag[0], flag[1]);
    if size == 0 {
      return Err(ErrorCode(BAD_MESSAGE_HEADER));
    }
    if buf.Length < size {
      return Err(ErrorCode(NO_ENOUGH_SPACE));
    }
    ok := reader.ReadExact(buf, size);
    if !ok {
      return Err(READ_EXACT_ERROR);
    }
    assert buf[..] == buf[..size] + buf[size..];
    r := OpenPacket(buf[..], size, cut, w);
  }

  // ----- one packet, read back ------------------------------------------------------

  lemma ReadAfterLength(total: nat, body: seq<byte>, buf: seq<byte>, cut: bool, w: World)
    ensures var size := SeenSize(total);
            ReadPacket(LengthField(total) + body, buf, cut, w) ==
            if size == 0 then PacketRead(Err(ErrorCode(BAD_MESSAGE_HEADER)), body, buf)
            else if |buf| < size then PacketRead(Err(ErrorCode(NO_ENOUGH_SPACE)), body, buf)
            else if |body| < size then PacketRead(Err(READ_EXACT_ERROR), [], buf)
            else PacketRead(OpenPacket(body[..size] + buf[size..], size, cut, w),
                            body[size..], body[..size] + buf[size..])
  {
    FieldSizeOfTotal(total);
    hide LengthField, FieldSize, OpenPacket, SeenSize;
    var input := LengthField(total) + body;
    assert input[..2] == LengthField(total) && input[2..] == body;
  }

  /** What the reader makes of a packet of any size: the size it sees is the
      total modulo 2^15. */
  lemma ReadOfPacket(header: seq<byte>, data: seq<byte>, rest: seq<byte>, buf: seq<byte>, cut: bool, w: World)
    ensures var body := header + data;
            var size := SeenSize(|body|);
            && size <= |body|
            && ReadPacket(PacketOf(header, data) + rest, buf, cut, w) ==
               if size == 0 then PacketRead(Err(ErrorCode(BAD_MESSAGE_HEADER)), body + rest, buf)
               else if |buf| < size then PacketRead(Err(ErrorCode(NO_ENOUGH_SPACE)), body + rest, buf)
               else PacketRead(OpenPacket(body[..size] + buf[size..], size, cut, w),
                               body[size..] + rest, body[..size] + buf[size..])
  {
    var body := header + data;
    var size := SeenSize(|body|);
    ReadAfterLength(|body|, body + rest, buf, cut, w);
    hide OpenPacket, LengthField, ReadPacket, SeenSize;
    assert PacketOf(header, data) + rest == LengthField(|body|) + (body + rest);
    if 0 < size <= |buf| {
      assert (body + rest)[..size] == body[..size];
      assert (body + rest)[size..] == body[size..] + rest;
    }
  }

  lemma OpenUnpacked(h: PacketHeader, a: Address, header: seq<byte>,
                     data: seq<byte>, stale: seq<byte>, cut: bool, w: World)
    requires Unpack(header + data) == Some((h, |header|)) && AddressOf(h, w) == Ok(a)
    ensures OpenPacket(header + data + stale, |header + data|, cut, w) == Ok((a, if cut then data else data + stale))
  {
    hide Unpack, AddressOf;
    var total := |header + data|;
    var filled := header + data + stale;
    assert filled[..total] == header + data;
    assert filled[|header|..total] == data;
    assert filled[|header|..] == data + stale;
  }

  lemma HeadedPacketDelivered(h: PacketHeader, a: Address, header: seq<byte>, data: seq<byte>, rest: seq<byte>,
                              buf: seq<byte>, cut: bool, w: World)
    requires Unpack(header + data) == Some((h, |header|)) && AddressOf(h, w) == Ok(a)
    requires 0 < |header| + |data| <= |buf| && |buf| < 0x8000
    ensures var stale := buf[|header| + |data|..];
            ReadPacket(PacketOf(header, data) + rest, buf, cut, w)
            == PacketRead(Ok((a, if cut then data else data + stale)), rest, header + data + stale)
  {
    hide OpenPacket, ReadPacket, PacketOf, Unpack, AddressOf, SeenSize;
    var body := header + data;
    ReadOfPacket(header, data, rest, buf, cut, w);
    OpenUnpacked(h, a, header, data, buf[|body|..], cut, w);
    assert body[..|body|] == body && body[|body|..] == [] && [] + rest == rest;
  }

  lemma HeaderIsGood(a: SocketAddr, w: World)
    ensures WellFormed(HeaderOf(a)) && AddressOf(HeaderOf(a), w) == Ok(SocketAddress(a))
  {
  }

  /** With the tag printed: what the reader delivers for a packet that fits. */
  lemma TaggedPacketDelivered(a: SocketAddr, data: seq<byte>, rest: seq<byte>, buf: seq<byte>, cut: bool, w: World)
    requires |buf| == MTU && Total(a, data, true) <= MTU
    ensures var total := Total(a, data, true);
            var r := ReadPacket(Packet(a, data, true) + rest, buf, cut, w);
            && r.result == Ok((SocketAddress(a), if cut then data else data + buf[total..]))
            && r.rest == rest && |r.buf| == MTU
  {
    hide PrintPacketHeader, ReadPacket, PacketOf, Unpack, AddressOf, HeaderOf, WellFormed;
    HeaderSize(a, true);
    HeaderIsGood(a, w);
    PrintedUnpacks(HeaderOf(a), data);
    HeadedPacketDelivered(HeaderOf(a), SocketAddress(a), PrintPacketHeader(HeaderOf(a), true), data, rest, buf, cut, w);
  }

  /** With both corrections, a packet of any size at all comes back as the
      address and payload that were sent if and only if it fits the buffer. */
  lemma PacketRoundTripIff(a: SocketAddr, data: seq<byte>, rest: seq<byte>, buf: seq<byte>, w: World)
    requires |buf| == MTU
    ensures ReadPacket(Packet(a, data, true) + rest, buf, true, w).result == Ok((SocketAddress(a), data))
            <==> Total(a, data, true) <= MTU
  {
    var total := Total(a, data, true);
    hide PrintPacketHeader, ReadPacket, PacketOf, SeenSize;
    if total <= MTU {
      TaggedPacketDelivered(a, data, rest, buf, true, w);
    } else if total < 0x8000 {
      ReadOfPacket(PrintPacketHeader(HeaderOf(a), true), data, rest, buf, true, w);
    } else {
      TruncatedLengthLosesData(a, data, rest, buf, w);
    }
  }

  /** From 2^15 on the reader sees the total modulo 2^15, and whatever it then
      makes of the packet is not what was sent. */
  lemma TruncatedLengthLosesData(a: SocketAddr, data: seq<byte>, rest: seq<byte>, buf: seq<byte>, w: World)
    requires |buf| == MTU && Total(a, data, true) >= 0x8000
    ensures ReadPacket(Packet(a, data, true) + rest, buf, true, w).result != Ok((SocketAddress(a), data))
  {
    var total := Total(a, data, true);
    HeaderSize(a, true);
    hide PrintPacketHeader, Unpack, ReadPacket, PacketOf, SeenSize;
    ReadOfPacket(PrintPacketHeader(HeaderOf(a), true), data, rest, buf, true, w);
  }

  /** A packet is refused for want of space exactly if the size the reader sees,
      the total modulo 2^15, exceeds the buffer; below 2^15 that is a payload of
      more than 1490 bytes for IPv4 and 1478 for IPv6. */
  lemma RefusedForSpaceIff(a: SocketAddr, data: seq<byte>, rest: seq<byte>, buf: seq<byte>, cut: bool, w: World)
    requires |buf| == MTU
    ensures var refused :=
              ReadPacket(Packet(a, data, true) + rest, buf, cut, w).result == Err(ErrorCode(NO_ENOUGH_SPACE));
            && (refused <==> SeenSize(Total(a, data, true)) > MTU)
            && (Total(a, data, true) < 0x8000 ==> (refused <==> |data| > if a.V4? then 1490 else 1478))
  {
    HeaderSize(a, true);
    hide PrintPacketHeader, ReadPacket, PacketOf, SeenSize, Unpack;
    ReadOfPacket(PrintPacketHeader(HeaderOf(a), true), data, rest, buf, cut, w);
  }

  /** A packet cut short anywhere, its length included, is never delivered: the
      reader reports the end of the stream. */
  lemma CutPacketIsRefused(header: seq<byte>, data: seq<byte>, at: nat, buf: seq<byte>, cut: bool, w: World)
    requires 0 < |header| + |data| <= |buf| && |buf| < 0x8000 && at < |PacketOf(header, data)|
    ensures ReadPacket(PacketOf(header, data)[..at], buf, cut, w) == PacketRead(Err(READ_EXACT_ERROR), [], buf)
  {
    hide LengthField, OpenPacket, FieldSize;
    var body := header + data;
    var input := PacketOf(header, data)[..at];
    if at >= 2 {
      assert input == LengthField(|body|) + body[..at - 2];
      ReadAfterLength(|body|, body[..at - 2], buf, cut, w);
    }
  }

  /** As written, the delivered slice carries the buffer's stale bytes: it has
      the length 1500 minus the header whatever was sent, so the payload is right
      if and only if the packet fills the buffer. */
  lemma StaleTailDelivered(a: SocketAddr, data: seq<byte>, rest: seq<byte>, buf: seq<byte>, w: World)
    requires |buf| == MTU && Total(a, data, true) <= MTU
    ensures var r := ReadPacket(Packet(a, data, true) + rest, buf, false, w).result;
            && r.Ok? && r.value.0 == SocketAddress(a)
            && |r.value.1| == MTU - (Total(a, data, true) - |data|)
            && r.value.1[..|data|] == data
            && (r.value.1 == data <==> Total(a, data, true) == MTU)
  {
    TaggedPacketDelivered(a, data, rest, buf, false, w);
    hide ReadPacket, Packet, PrintPacketHeader;
  }

  // ----- the copy loop ------------------------------------------------------------------

  datatype Datagram = Datagram(dest: SocketAddr, data: seq<byte>)

  /** The error of a socket that refuses to send. */
  const SEND_ERROR := Library([1])

  class UdpSocket {
    var sent: seq<Datagram>
    /** How many more sends the system will accept. */
    var quota: nat

    constructor (quota: nat)
      ensures sent == [] && this.quota == quota
    {
      sent, this.quota := [], quota;
    }

    method SendTo(data: seq<byte>, dest: SocketAddr) returns (ok: bool)
      modifies this
      ensures ok == (old(quota) > 0)
      ensures ok ==> sent == old(sent) + [Datagram(dest, data)] && quota == old(quota) - 1
      ensures !ok ==> sent == old(sent) && quota == old(quota)
    {
      ok := quota > 0;
      if ok {
        sent, quota := sent + [Datagram(dest, data)], quota - 1;
      }
    }
  }

  /** What the loop has passed on when it ends, and the error that ends it. */
  datatype Relayed = Relayed(forwarded: seq<Datagram>, error: CrabError)

  /** Packets whose name does not resolve are skipped; any other failure ends the
      loop, and so does a cancellation, which comes after `rounds` packets if at
      all. The buffer is reused from one packet to the next. */
  function Relay(input: seq<byte>, buf: seq<byte>, cut: bool, w: World, quota: nat, rounds: Option<nat>): Relayed
    decreases |input|
  {
    if rounds == Some(0) then Relayed([], ErrorCode(CANCELED_ERROR))
    else
      var left := Less(rounds);
      var r := ReadPacket(input, buf, cut, w);
      match r.result
      case Err(e) => Relayed([], e)
      case Ok((address, data)) =>
        match Resolve(address, w)
        case None => Relay(r.rest, r.buf, cut, w, quota, left)
        case Some(dest) =>
          if quota == 0 then Relayed([], SEND_ERROR)
          else
            var more := Relay(r.rest, r.buf, cut, w, quota - 1, left);
            Relayed([Datagram(dest, data)] + more.forwarded, more.error)
  }

  function Less(rounds: Option<nat>): Option<nat>
    requires rounds != Some(0)
  {
    if rounds.None? then None else Some(rounds.value - 1)
  }

  lemma RelayStep(input: seq<byte>, buf: seq<byte>, cut: bool, w: World, quota: nat, rounds: Option<nat>)
    requires rounds != Some(0)
    ensures var r := ReadPacket(input, buf, cut, w);
            var o := Relay(input, buf, cut, w, quota, rounds);
            match r.result
            case Err(e) => o == Relayed([], e)
            case Ok((address, data)) =>
              match Resolve(address, w)
              case None => o == Relay(r.rest, r.buf, cut, w, quota, Less(rounds))
              case Some(dest) =>
                if quota == 0 then o == Relayed([], SEND_ERROR)
                else
                  var more := Relay(r.rest, r.buf, cut, w, quota - 1, Less(rounds));
                  o.forwarded == [Datagram(dest, data)] + more.forwarded && o.error == more.error
  {
    hide ReadPacket, Resolve;
  }

  /** A cancellation, whenever it comes, leaves a prefix of what would have been
      passed on, and never passes on anything else. */
  lemma {:induction false} CancelledRelayIsPrefix(input: seq<byte>, buf: seq<byte>, cut: bool, w: World, quota: nat,
                                                  rounds: nat)
    ensures var o, whole := Relay(input, buf, cut, w, quota, Some(rounds)), Relay(input, buf, cut, w, quota, None);
            o.forwarded <= whole.forwarded && (o == whole || o.error == ErrorCode(CANCELED_ERROR))
    decreases rounds
  {
    hide ReadPacket, Resolve, Relay;
    if rounds == 0 {
      CancelledAtOnce(input, buf, cut, w, quota);
    } else {
      RelayStep(input, buf, cut, w, quota, Some(rounds));
      RelayStep(input, buf, cut, w, quota, None);
      var r := ReadPacket(input, buf, cut, w);
      if r.result.Ok? {
        if Resolve(r.result.value.0, w).None? {
          CancelledRelayIsPrefix(r.rest, r.buf, cut, w, quota, rounds - 1);
        } else if quota > 0 {
          CancelledRelayIsPrefix(r.rest, r.buf, cut, w, quota - 1, rounds - 1);
        }
      }
    }
  }

  lemma CancelledAtOnce(input: seq<byte>, buf: seq<byte>, cut: bool, w: World, quota: nat)
    ensures Relay(input, buf, cut, w, quota, Some(0)) == Relayed([], ErrorCode(CANCELED_ERROR))
  {
  }

  method CopyPackets(reader: RecvStream, socket: UdpSocket, cut: bool, w: World, rounds: Option<nat>)
    returns (error: CrabError)
    modifies reader, socket
    ensures var o := Relay(old(reader.Pending()), seq(MTU, _ => 0), cut, w, old(socket.quota), rounds);
            error == o.error && socket.sent == old(socket.sent) + o.forwarded
  {
    hide ReadPacket, Resolve, Relay;
    var buf := new byte[MTU](_ => 0);
    assert buf[..] == seq(MTU, _ => 0);
    var left := rounds;
    ghost var before := socket.sent;
    ghost var whole := Relay(reader.Pending(), buf[..], cut, w, socket.quota, left);
    while left != Some(0)
      invariant fresh(buf) && buf.Length == MTU
      invariant var o := Relay(reader.Pending(), buf[..], cut, w, socket.quota, left);
                o.error == whole.error && socket.sent + o.forwarded == before + whole.forwarded
      decreases |reader.Pending()|
    {
      RelayStep(reader.Pending(), buf[..], cut, w, socket.quota, left);
      ghost var o, sentBefore := Relay(reader.Pending(), buf[..], cut, w, socket.quota, left), socket.sent;
      left := Less(left);
      var packet := ReadPacketInto(reader, buf, cut, w);
      match packet
      case Err(e) =>
        assert socket.sent + [] == socket.sent;
        return e;
      case Ok((address, data)) =>
        match Resolve(address, w)
        case None =>
        case Some(dest) =>
          var ok := socket.SendTo(data, dest);
          if !ok {
            assert socket.sent + [] == socket.sent;
            return SEND_ERROR;
          }
          ghost var more := Relay(reader.Pending(), buf[..], cut, w, socket.quota, left);
          assert sentBefore + ([Datagram(dest, data)] + more.forwarded) == socket.sent + more.forwarded;
    }
    CancelledAtOnce(reader.Pending(), buf[..], cut, w, socket.quota);
    assert socket.sent + [] == socket.sent;
    return ErrorCode(CANCELED_ERROR);
  }

  // ----- packets for a named host --------------------------------------------------------

  lemma NamedHeader(frag: byte, host: seq<byte>, port: u16, w: World)
    requires |host| < 0x100
    ensures var h := PacketHeader(0, frag, Domain(host), port);
            && WellFormed(h)
            && AddressOf(h, w) == if w.isText(host) then Ok(DomainAddress(host, port))
                                  else Err(ErrorCode(ENCODING_ERROR))
  {
  }

  /** A packet whose header names a host, with its length octet, is delivered under that
      name and its port; a name that is no text is refused as such. */
  lemma NamedPacketDelivered(frag: byte, host: seq<byte>, port: u16, data: seq<byte>, rest: seq<byte>, buf: seq<byte>,
                             cut: bool, w: World)
    requires |host| < 0x100 && |buf| == MTU && |host| + |data| + 7 <= MTU
    ensures var header := PrintPacketHeader(PacketHeader(0, frag, Domain(host), port), true);
            var r := ReadPacket(PacketOf(header, data) + rest, buf, cut, w);
            && |header| == |host| + 7 && r.rest == rest && |r.buf| == MTU
            && r.result == if w.isText(host)
                           then Ok((DomainAddress(host, port), if cut then data else data + buf[|host| + |data| + 7..]))
                           else Err(ErrorCode(ENCODING_ERROR))
  {
    hide ReadPacket, PacketOf, Unpack, AddressOf, WellFormed;
    var h := PacketHeader(0, frag, Domain(host), port);
    var header := PrintPacketHeader(h, true);
    NamedHeader(frag, host, port, w);
    PrintedUnpacks(h, data);
    hide PrintPacketHeader;
    if w.isText(host) {
      HeadedPacketDelivered(h, DomainAddress(host, port), header, data, rest, buf, cut, w);
    } else {
      ReadOfPacket(header, data, rest, buf, cut, w);
      NotTextRefused(h, header, data, buf[|header| + |data|..], cut, w);
    }
  }

  lemma NotTextRefused(h: PacketHeader, header: seq<byte>, data: seq<byte>, stale: seq<byte>, cut: bool, w: World)
    requires Unpack(header + data) == Some((h, |header|)) && AddressOf(h, w) == Err(ErrorCode(ENCODING_ERROR))
    ensures var body := header + data;
            OpenPacket(body[..|body|] + stale, |body|, cut, w) == Err(ErrorCode(ENCODING_ERROR))
  {
    hide Unpack, AddressOf;
    var body := header + data;
    assert (body[..|body|] + stale)[..|body|] == body;
  }

  /** The loop sends it to the address the name resolves to, skips it if it resolves to
      none, and ends if the name is no text. */
  lemma NamedPacketIsRelayed(frag: byte, host: seq<byte>, port: u16, data: seq<byte>, rest: seq<byte>, buf: seq<byte>,
                             cut: bool, w: World, quota: nat)
    requires |host| < 0x100 && |buf| == MTU && |host| + |data| + 7 <= MTU && quota > 0
    ensures var packet := PacketOf(PrintPacketHeader(PacketHeader(0, frag, Domain(host), port), true), data);
            var left := ReadPacket(packet + rest, buf, cut, w).buf;
            var payload := if cut then data else data + buf[|host| + |data| + 7..];
            var o := Relay(packet + rest, buf, cut, w, quota, None);
            if !w.isText(host) then o == Relayed([], ErrorCode(ENCODING_ERROR))
            else if w.lookup(host, port).None? then o == Relay(rest, left, cut, w, quota, None)
            else
              var more := Relay(rest, left, cut, w, quota - 1, None);
              o == Relayed([Datagram(w.lookup(host, port).value, payload)] + more.forwarded, more.error)
  {
    hide ReadPacket, PacketOf, PrintPacketHeader, Relay;
    var packet := PacketOf(PrintPacketHeader(PacketHeader(0, frag, Domain(host), port), true), data);
    NamedPacketDelivered(frag, host, port, data, rest, buf, cut, w);
    RelayStep(packet + rest, buf, cut, w, quota, None);
  }

  /** The bytes a sender puts into the tunnel for a list of datagrams. */
  function Tunnel(ds: seq<Datagram>, tagged: bool): seq<byte> {
    if ds == [] then [] else Packet(ds[0].dest, ds[0].data, tagged) + Tunnel(ds[1..], tagged)
  }

  /** Each datagram of `got` is the one of `sent` in its place with stale bytes
      behind it, filled up to the end of the buffer. */
  ghost predicate PaddedCopies(sent: seq<Datagram>, got: seq<Datagram>) {
    && |got| == |sent|
    && forall i | 0 <= i < |sent| ::
         && got[i].dest == sent[i].dest
         && sent[i].data <= got[i].data
         && |got[i].data| == MTU - Total(sent[i].dest, [], true)
  }

  /** Any list of datagrams that fit the buffer crosses the tunnel: with both
      corrections unchanged and in order, with the tag alone padded with stale
      bytes. The loop then ends because the stream does. */
  lemma {:induction false} TunnelDelivers(ds: seq<Datagram>, buf: seq<byte>, cut: bool, w: World, quota: nat)
    requires |buf| == MTU && quota >= |ds|
    requires forall d <- ds :: Total(d.dest, d.data, true) <= MTU
    ensures var o := Relay(Tunnel(ds, true), buf, cut, w, quota, None);
            && o.error == READ_EXACT_ERROR
            && (if cut then o.forwarded == ds else PaddedCopies(ds, o.forwarded))
  {
    hide ReadPacket, Packet, Total, Relay, Resolve;
    RelayStep(Tunnel(ds, true), buf, cut, w, quota, None);
    if ds == [] {
      EmptyInput(buf, cut, w);
    } else {
      var d := ds[0];
      TaggedPacketDelivered(d.dest, d.data, Tunnel(ds[1..], true), buf, cut, w);
      var r := ReadPacket(Tunnel(ds, true), buf, cut, w);
      TunnelDelivers(ds[1..], r.buf, cut, w, quota - 1);
      assert Resolve(SocketAddress(d.dest), w) == Some(d.dest) by {
        ResolveSocketAddress(d.dest, w);
      }
      var more := Relay(Tunnel(ds[1..], true), r.buf, cut, w, quota - 1, None);
      var e := Datagram(d.dest, r.result.value.1);
      assert Relay(Tunnel(ds, true), buf, cut, w, quota, None).forwarded == [e] + more.forwarded;
      assert ds == [d] + ds[1..];
      if !cut {
        TotalSplit(d.dest, d.data, true);
        PaddedCons(d, e, ds[1..], more.forwarded);
      }
    }
  }

  /** How far a list gets when the socket takes `quota` datagrams and a cancellation
      comes after `rounds` packets, if at all, and which of the two, or the end of
      the stream, the loop ends with. */
  lemma {:induction false} InterruptedTunnel(ds: seq<Datagram>, buf: seq<byte>, w: World, quota: nat,
                                             rounds: Option<nat>)
    requires |buf| == MTU && forall d <- ds :: Total(d.dest, d.data, true) <= MTU
    ensures var o := Relay(Tunnel(ds, true), buf, true, w, quota, rounds);
            if rounds.Some? && rounds.value <= quota && rounds.value <= |ds|
            then o == Relayed(ds[..rounds.value], ErrorCode(CANCELED_ERROR))
            else if |ds| <= quota then o == Relayed(ds, READ_EXACT_ERROR)
            else o == Relayed(ds[..quota], SEND_ERROR)
  {
    hide ReadPacket, Packet, Total, Relay, Resolve;
    if rounds == Some(0) {
      CancelledAtOnce(Tunnel(ds, true), buf, true, w, quota);
    } else {
      RelayStep(Tunnel(ds, true), buf, true, w, quota, rounds);
      if ds == [] {
        EmptyInput(buf, true, w);
      } else {
        var d := ds[0];
        TaggedPacketDelivered(d.dest, d.data, Tunnel(ds[1..], true), buf, true, w);
        ResolveSocketAddress(d.dest, w);
        assert Datagram(d.dest, d.data) == d && ds == [d] + ds[1..];
        if quota > 0 {
          var r := ReadPacket(Tunnel(ds, true), buf, true, w);
          InterruptedTunnel(ds[1..], r.buf, w, quota - 1, Less(rounds));
        }
      }
    }
  }

  lemma EmptyInput(buf: seq<byte>, cut: bool, w: World)
    ensures ReadPacket([], buf, cut, w).result == Err(READ_EXACT_ERROR)
  {
  }

  lemma ResolveSocketAddress(a: SocketAddr, w: World)
    ensures Resolve(SocketAddress(a), w) == Some(a)
  {
  }

  lemma TotalSplit(a: SocketAddr, data: seq<byte>, tagged: bool)
    ensures Total(a, data, tagged) == Total(a, [], tagged) + |data|
  {
    hide PrintPacketHeader;
  }

  lemma PaddedCons(d: Datagram, e: Datagram, ds: seq<Datagram>, es: seq<Datagram>)
    requires PaddedCopies(ds, es)
    requires e.dest == d.dest && d.data <= e.data && |e.data| == MTU - Total(d.dest, [], true)
    ensures PaddedCopies([d] + ds, [e] + es)
  {
    hide Total;
  }

  // ----- the missing tag ------------------------------------------------------------------

  function Octets(a: SocketAddr): seq<byte> {
    match a
    case V4(ip, _) => ip
    case V6(ip, _) => ip
  }

  predicate AllAre(s: seq<byte>, v: byte) {
    forall i :: 0 <= i < |s| ==> s[i] == v
  }

  /** A sequence that starts with `v` and equals itself shifted by one place,
      with `last` moved in, is `v` throughout. */
  lemma {:induction false} ShiftFixpoint(s: seq<byte>, last: byte, v: byte)
    requires |s| > 0
    ensures s[0] == v && s[1..] + [last] == s <==> AllAre(s, v) && last == v
  {
    if s[0] == v && s[1..] + [last] == s {
      forall i | 0 <= i < |s|
        ensures s[i] == v
      {
        ShiftPrefix(s, last, i);
      }
      assert s[|s| - 1] == (s[1..] + [last])[|s| - 1];
    }
    if AllAre(s, v) && last == v {
      assert s[1..] + [last] == s;
    }
  }

  lemma {:induction false} ShiftPrefix(s: seq<byte>, last: byte, i: nat)
    requires i < |s| && s[1..] + [last] == s
    ensures s[i] == s[0]
  {
    if i > 0 {
      assert (s[1..] + [last])[i - 1] == s[i];
      ShiftPrefix(s, last, i - 1);
    }
  }

  /** The bytes of an untagged packet that the reader takes for a header. */
  function UntaggedBytes(octets: seq<byte>, hi: byte, lo: byte, data: seq<byte>): seq<byte> {
    [0, 0, 0] + (octets + [hi, lo] + data)
  }

  lemma UntaggedBody(a: SocketAddr, data: seq<byte>)
    ensures PrintPacketHeader(HeaderOf(a), false) + data
            == UntaggedBytes(Octets(a), a.port / 0x100, a.port % 0x100, data)
  {
    var h := HeaderOf(a);
    assert PrintHost(h.addr, false) == Octets(a);
    assert BigEndian16(0) == [0, 0];
    hide PrintHost;
  }

  lemma ReadPort(hi: byte, lo: byte, port: u16)
    ensures FromBigEndian16(hi, lo) == port <==> hi == port / 0x100 && lo == port % 0x100
  {
  }

  lemma UntaggedHost(a: SocketAddr, hi: byte, lo: byte, data: seq<byte>)
    ensures var t, o := Tag(HostOf(a)), Octets(a);
            var u := UnpackHost(o + [hi, lo] + data);
            && ((u.Some? && u.value.0 == HostOf(a)) <==> (AllAre(o, t) && hi == t))
            && (u.Some? && u.value.0 == HostOf(a) ==> u.value.1 == |o| + 1)
  {
    var o, k := Octets(a), |Octets(a)|;
    var tail := o + [hi, lo] + data;
    assert tail[1..k + 1] == o[1..] + [hi];
    assert tail[0] == o[0];
    ShiftFixpoint(o, hi, Tag(HostOf(a)));
    hide AllAre;
  }

  lemma AddressNamesSenderIff(h: PacketHeader, a: SocketAddr, w: World)
    ensures AddressOf(h, w) == Ok(SocketAddress(a)) <==> h.addr == HostOf(a) && h.port == a.port
  {
  }

  lemma ZeroBytesAreZero()
    ensures FromBigEndian16(0, 0) == 0
  {
  }

  lemma UnpackAfterZeros(tail: seq<byte>)
    ensures Unpack([0, 0, 0] + tail) ==
            match UnpackHost(tail)
            case None => None
            case Some((host, n)) =>
              if |tail| < n + 2 then None
              else Some((PacketHeader(0, 0, host, FromBigEndian16(tail[n], tail[n + 1])), n + 5))
  {
    hide UnpackHost, FromBigEndian16;
    ZeroBytesAreZero();
    var b := [0, 0, 0] + tail;
    assert b[3..] == tail;
    assert b[0] == 0 && b[1] == 0 && b[2] == 0;
    var u := UnpackHost(tail);
    if u.Some? && |tail| >= u.value.1 + 2 {
      var n := u.value.1;
      assert b[3 + n] == tail[n] && b[4 + n] == tail[n + 1];
    }
  }

  /** When does the header read from an untagged packet name the sender's
      address? Only if every octet of it, both bytes of the port and the first
      byte of the payload are the tag of its own family. */
  lemma UntaggedNamesSenderIff(a: SocketAddr, hi: byte, lo: byte, data: seq<byte>, w: World)
    requires hi == a.port / 0x100 && lo == a.port % 0x100
    ensures var u := Unpack(UntaggedBytes(Octets(a), hi, lo, data));
            var t := Tag(HostOf(a));
            && ((u.Some? && AddressOf(u.value.0, w) == Ok(SocketAddress(a)))
                <==> (AllAre(Octets(a), t) && hi == t && lo == t && |data| > 0 && data[0] == t))
            && (u.Some? && AddressOf(u.value.0, w) == Ok(SocketAddress(a)) ==> u.value.1 == |Octets(a)| + 6)
  {
    hide AllAre, AddressOf, UnpackHost, HostOf, Octets, Tag, FromBigEndian16, Unpack;
    var tail := Octets(a) + [hi, lo] + data;
    var k := |Octets(a)|;
    UnpackAfterZeros(tail);
    UntaggedHost(a, hi, lo, data);
    var u := Unpack(UntaggedBytes(Octets(a), hi, lo, data));
    if u.Some? {
      AddressNamesSenderIff(u.value.0, a, w);
    }
    assert tail[k + 1] == lo;
    if |data| > 0 {
      assert tail[k + 2] == data[0];
      ReadPort(lo, data[0], a.port);
    }
  }

  /** The packets that survive the code as written: all bytes equal to the tag,
      one byte short of the buffer, and the stale byte the same. */
  predicate SurvivesAsWritten(a: SocketAddr, data: seq<byte>, stale: byte) {
    var t := Tag(HostOf(a));
    && AllAre(Octets(a), t) && a.port == 0x101 * t
    && |data| == MTU - |Octets(a)| - 6 && AllAre(data, t) && stale == t
  }

  lemma UntaggedTail(o: seq<byte>, hi: byte, lo: byte, data: seq<byte>, stale: seq<byte>)
    requires |data| > 0
    ensures var filled := UntaggedBytes(o, hi, lo, data) + stale;
            filled[|o| + 6..] == data[1..] + stale
  {
  }

  /** What the reader opens when an untagged packet came in whole. */
  lemma OpenUntaggedIff(a: SocketAddr, body: seq<byte>, data: seq<byte>, stale: seq<byte>, w: World)
    requires body == UntaggedBytes(Octets(a), a.port / 0x100, a.port % 0x100, data)
    ensures var t := Tag(HostOf(a));
            OpenPacket(body + stale, |body|, false, w) == Ok((SocketAddress(a), data))
            <==> AllAre(Octets(a), t) && a.port / 0x100 == t && a.port % 0x100 == t
                 && |data| > 0 && data[0] == t && data[1..] + stale == data
  {
    UntaggedNamesSenderIff(a, a.port / 0x100, a.port % 0x100, data, w);
    hide Unpack, AddressOf, HostOf, Octets, Tag, AllAre, UntaggedBytes;
    assert (body + stale)[..|body|] == body;
    if |data| > 0 {
      UntaggedTail(Octets(a), a.port / 0x100, a.port % 0x100, data, stale);
    }
  }

  /** As written, with no tag and no cut, no packet comes back as it was sent
      except those. */
  lemma AsWrittenRoundTripIff(a: SocketAddr, data: seq<byte>, rest: seq<byte>, buf: seq<byte>, w: World)
    requires |buf| == MTU
    ensures ReadPacket(Packet(a, data, false) + rest, buf, false, w).result == Ok((SocketAddress(a), data))
            <==> SurvivesAsWritten(a, data, buf[MTU - 1])
  {
    HeaderSize(a, false);
    UntaggedBody(a, data);
    PortIsTagTwice(a.port, Tag(HostOf(a)));
    hide PrintPacketHeader, ReadPacket, PacketOf, OpenPacket, SeenSize, HostOf, Tag, AllAre, UntaggedBytes;
    var header := PrintPacketHeader(HeaderOf(a), false);
    var body := header + data;
    ReadOfPacket(header, data, rest, buf, false, w);
    var size := SeenSize(|body|);
    if size == |body| <= MTU {
      var stale := buf[size..];
      assert body[..size] == body;
      OpenUntaggedIff(a, body, data, stale, w);
      if |data| > 0 && |stale| == 1 {
        assert stale == [buf[MTU - 1]];
        ShiftFixpoint(data, buf[MTU - 1], Tag(HostOf(a)));
      }
    } else if 0 < size <= MTU {
      SlicesAreShort(body[..size] + buf[size..], size, w);
    }
  }

  lemma PortIsTagTwice(port: u16, t: byte)
    ensures port == 0x101 * t <==> port / 0x100 == t && port % 0x100 == t
  {
  }

  lemma SlicesAreShort(filled: seq<byte>, size: nat, w: World)
    requires size <= |filled| <= MTU
    ensures var r := OpenPacket(filled, size, false, w); r.Ok? ==> |r.value.1| <= MTU
  {
    hide Unpack, AddressOf;
  }

  /** An IPv4 packet sent as written is refused unless its first octet happens
      to be a tag; the loop then ends with nothing passed on. */
  lemma AsWrittenTunnelDies(ds: seq<Datagram>, buf: seq<byte>, cut: bool, w: World, quota: nat)
    requires |buf| == MTU && ds != [] && Total(ds[0].dest, ds[0].data, false) <= MTU
    requires Octets(ds[0].dest)[0] != 1 && Octets(ds[0].dest)[0] != 3 && Octets(ds[0].dest)[0] != 4
    ensures Relay(Tunnel(ds, false), buf, cut, w, quota, None) == Relayed([], ErrorCode(BAD_MESSAGE_HEADER))
  {
    hide PrintPacketHeader, Unpack, PacketOf, ReadPacket, Relay, UntaggedBytes, Octets, HeaderOf, SeenSize;
    var d := ds[0];
    var header := PrintPacketHeader(HeaderOf(d.dest), false);
    var body := header + d.data;
    HeaderSize(d.dest, false);
    UntaggedBody(d.dest, d.data);
    assert |Octets(d.dest)| > 0 by {
      OctetsNonempty(d.dest);
    }
    UntaggedRefused(Octets(d.dest), d.dest.port / 0x100, d.dest.port % 0x100, d.data);
    ReadOfPacket(header, d.data, Tunnel(ds[1..], false), buf, cut, w);
    RelayStep(Tunnel(ds, false), buf, cut, w, quota, None);
    assert (body[..|body|] + buf[|body|..])[..|body|] == body;
  }

  /** If the first octet happens to be the IPv4 tag, the packet is misread and its
      datagram goes astray: to the address and port made of the seven bytes behind
      the tag, which for IPv4 are the last three octets and the high byte of the
      port, then the low byte of the port and the first byte of the payload. As
      written it also carries the buffer's stale bytes. */
  lemma MisreadAsIpv4(a: SocketAddr, data: seq<byte>, rest: seq<byte>, buf: seq<byte>, cut: bool, w: World)
    requires |buf| == MTU && Octets(a)[0] == 1 && (a.V4? ==> data != []) && Total(a, data, false) <= MTU
    ensures var tail := Octets(a) + [a.port / 0x100, a.port % 0x100] + data;
            && |tail| >= 7
            && var astray := V4(tail[1..5], FromBigEndian16(tail[5], tail[6]));
               ReadPacket(Packet(a, data, false) + rest, buf, cut, w).result ==
               Ok((SocketAddress(astray), tail[7..] + if cut then [] else buf[Total(a, data, false)..]))
    ensures a.V4? ==> var tail := Octets(a) + [a.port / 0x100, a.port % 0x100] + data;
                      && tail[1..5] == a.ip4[1..] + [a.port / 0x100]
                      && tail[5] == a.port % 0x100 && tail[6] == data[0] && tail[7..] == data[1..]
  {
    HeaderSize(a, false);
    UntaggedBody(a, data);
    hide PrintPacketHeader, ReadPacket, PacketOf, SeenSize, Unpack, UntaggedBytes;
    var header := PrintPacketHeader(HeaderOf(a), false);
    var body := header + data;
    var tail := Octets(a) + [a.port / 0x100, a.port % 0x100] + data;
    ReadOfPacket(header, data, rest, buf, cut, w);
    assert body[..|body|] == body;
    OpensAsIpv4(a, data, tail, buf[|body|..], cut, w);
  }

  lemma OpensAsIpv4(a: SocketAddr, data: seq<byte>, tail: seq<byte>, stale: seq<byte>, cut: bool, w: World)
    requires Octets(a)[0] == 1 && (a.V4? ==> data != [])
    requires tail == Octets(a) + [a.port / 0x100, a.port % 0x100] + data
    ensures |tail| >= 7
    ensures var body := UntaggedBytes(Octets(a), a.port / 0x100, a.port % 0x100, data);
            var astray := V4(tail[1..5], FromBigEndian16(tail[5], tail[6]));
            OpenPacket(body + stale, |body|, cut, w) ==
            Ok((SocketAddress(astray), tail[7..] + if cut then [] else stale))
    ensures a.V4? ==> && tail[1..5] == a.ip4[1..] + [a.port / 0x100]
                      && tail[5] == a.port % 0x100 && tail[6] == data[0] && tail[7..] == data[1..]
  {
    hide Unpack, FromBigEndian16, BigEndian16;
    UnpackAfterZeros(tail);
    var body := [0, 0, 0] + tail;
    assert (body + stale)[..|body|] == body;
    assert (body + stale)[10..|body|] == tail[7..];
    assert (body + stale)[10..] == tail[7..] + stale;
    assert tail[7..] + [] == tail[7..];
    assert tail[0] == 1;
  }

  lemma OctetsNonempty(a: SocketAddr)
    ensures |Octets(a)| > 0
  {
  }

  lemma UntaggedRefused(o: seq<byte>, hi: byte, lo: byte, data: seq<byte>)
    requires |o| > 0 && o[0] != 1 && o[0] != 3 && o[0] != 4
    ensures Unpack(UntaggedBytes(o, hi, lo, data)) == None
  {
    var tail := o + [hi, lo] + data;
    UnpackAfterZeros(tail);
    hide Unpack;
    assert tail[0] == o[0];
  }
}

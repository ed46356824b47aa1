/** Buffered and streaming framers, and what they make of a byte stream. */
module Framing {
  import opened Types
  import opened Streams
  import opened Varint
  import opened Primitives
  import opened Encode
  import opened Decode
  import opened PacketRoundTrip

  /** What the front of a buffer holds; `rest` is what stays in the buffer. */
  datatype Decoded =
    | NeedMore
    | Got(packet: Packet, rest: seq<byte>)
    | Bad(error: MqttError, rest: seq<byte>)

  /** The front of a buffer cut into one body and the bytes behind it. */
  datatype Split = Wait | Refused(error: MqttError) | Whole(body: seq<byte>, rest: seq<byte>)

  function SplitFront(buf: seq<byte>, cap: nat): (s: Split)
    ensures s.Whole? ==> |buf| >= 2 && 1 <= buf[0] / 16 <= 14 && |s.rest| < |buf|
  {
    if |buf| < 2 then Wait
    else if !(1 <= buf[0] / 16 <= 14) then Refused(Codec(InvalidPacketType(buf[0] / 16)))
    else match LengthOf(buf[1..], 4)
      case Incomplete => Wait
      case Malformed => Refused(Codec(MalformedLength))
      case Complete(n, used) =>
        if n > cap then Refused(Protocol(PacketTooLarge(n, cap)))
        else if |buf| < 1 + used + n then Wait
        else Whole(buf[1 + used..1 + used + n], buf[1 + used + n..])
  }

  /** A parse error still consumes its frame; the earlier refusals do not. */
  function DecodedFront(buf: seq<byte>, cap: nat): (d: Decoded)
    ensures d.Got? ==> |d.rest| < |buf|
  {
    match SplitFront(buf, cap)
    case Wait => NeedMore
    case Refused(e) => Bad(e, buf)
    case Whole(body, rest) =>
      match Parsed(buf[0], body)
      case Ok(p) => Got(p, rest)
      case Err(e) => Bad(e, rest)
  }

  class Buffer {
    var bytes: seq<byte>

    method DecodePacketFromBytes(cap: nat) returns (r: Result<Option<Packet>>)
      modifies this
      ensures match DecodedFront(old(bytes), cap)
              case NeedMore => r == Ok(None) && bytes == old(bytes)
              case Got(p, rest) => r == Ok(Some(p)) && bytes == rest
              case Bad(e, rest) => r == Err(e) && bytes == rest
    {
      if |bytes| < 2 {
        return Ok(None);
      }
      var first := bytes[0];
      if !(1 <= first / 16 <= 14) {
        return Err(Codec(InvalidPacketType(first / 16)));
      }
      var length := DecodeRemainingLengthFromSlice(bytes[1..]);
      match length {
        case Incomplete => return Ok(None);
        case Malformed => return Err(Codec(MalformedLength));
        case Complete(remaining, used) =>
          if remaining > cap {
            return Err(Protocol(PacketTooLarge(remaining, cap)));
          }
          var headerLen := 1 + used;
          var total := headerLen + remaining;
          if |bytes| < total {
            return Ok(None);
          }
          var packetBytes := bytes[..total];
          bytes := bytes[total..];
          assert packetBytes[headerLen..] == old(bytes)[headerLen..total];
          var packet :- ParsePacket(first, packetBytes[headerLen..]);
          return Ok(Some(packet));
      }
    }
  }

  /** The streaming reader sees what the buffered one sees: the same packet and
      the same bytes consumed, or the same error, and end of input exactly where
      the buffered one would wait. Only a lone first byte is judged sooner. */
  method ReadPacket(reader: ByteReader, cap: nat) returns (r: Result<Packet>)
    requires reader.Valid()
    modifies reader
    ensures reader.Valid()
    ensures |old(reader.Remaining())| >= 2 ==>
              match DecodedFront(old(reader.Remaining()), cap)
              case NeedMore => r == Err(Io)
              case Got(p, rest) => r == Ok(p) && reader.Remaining() == rest
              case Bad(e, _) => r == Err(e)
    ensures |old(reader.Remaining())| == 1 ==>
              r == Err(if 1 <= old(reader.Remaining())[0] / 16 <= 14 then Io
                       else Codec(InvalidPacketType(old(reader.Remaining())[0] / 16)))
    ensures |old(reader.Remaining())| == 0 ==> r == Err(Io)
  {
    var frame :- ReadFrame(reader, cap);
    r := ParsePacket(frame.0, frame.1);
  }

  /** First byte and body of the next frame. */
  method ReadFrame(reader: ByteReader, cap: nat) returns (r: Result<(byte, seq<byte>)>)
    requires reader.Valid()
    modifies reader
    ensures reader.Valid()
    ensures var all := old(reader.Remaining());
            match SplitFront(all, cap)
            case Whole(body, rest) => r == Ok((all[0], body)) && reader.Remaining() == rest
            case Refused(e) => r == Err(e)
            case Wait =>
              r == Err(if |all| == 1 && !(1 <= all[0] / 16 <= 14) then Codec(InvalidPacketType(all[0] / 16)) else Io)
  {
    ghost var all := reader.Remaining();
    var header :- reader.ReadExact(1);
    var first := header[0];
    if !(1 <= first / 16 <= 14) {
      return Err(Codec(InvalidPacketType(first / 16)));
    }
    var remaining :- ReadRemainingLength(reader);
    ghost var used := LengthOf(all[1..], 4).used;
    if remaining > cap {
      return Err(Protocol(PacketTooLarge(remaining, cap)));
    }
    SplitPoints(all, used, remaining);
    var body :- reader.ReadExact(remaining);
    return Ok((first, body));
  }

  lemma SplitPoints(all: seq<byte>, used: nat, n: nat)
    requires 1 + used <= |all|
    ensures all[1..][used..] == all[1 + used..]
    ensures 1 + used + n <= |all| ==>
              && all[1 + used..][..n] == all[1 + used..1 + used + n]
              && all[1 + used..][n..] == all[1 + used + n..]
  {
  }

  // ---- one frame --------------------------------------------------------------

  /** A whole frame at the front of a buffer is judged by its body alone. */
  lemma FrameDecodes(first: byte, body: seq<byte>, suffix: seq<byte>, cap: nat)
    requires 1 <= first / 16 <= 14
    ensures DecodedFront(Frame(first, body) + suffix, cap)
         == if |body| > SPEC_MAX_PACKET_SIZE then Bad(Codec(MalformedLength), Frame(first, body) + suffix)
            else if |body| > cap then Bad(Protocol(PacketTooLarge(|body|, cap)), Frame(first, body) + suffix)
            else match Parsed(first, body)
                 case Ok(p) => Got(p, suffix)
                 case Err(e) => Bad(e, suffix)
  {
    WholeSplits(Frame(first, body) + suffix, first, EncodedLength(|body|), body, suffix, cap);
  }

  lemma WholeSplits(buf: seq<byte>, first: byte, len: seq<byte>, body: seq<byte>, suffix: seq<byte>, cap: nat)
    requires 1 <= first / 16 <= 14 && len == EncodedLength(|body|)
    requires buf == [first] + len + body + suffix
    ensures buf[0] == first
    ensures SplitFront(buf, cap)
         == if |body| > SPEC_MAX_PACKET_SIZE then Refused(Codec(MalformedLength))
            else if |body| > cap then Refused(Protocol(PacketTooLarge(|body|, cap)))
            else Whole(body, suffix)
  {
    WholeCuts(buf, first, len, body, suffix);
    FourByteLength(|body|, body + suffix);
    SplitVerdict(buf, cap, |body|, |len|, body, suffix);
  }

  lemma WholeCuts(buf: seq<byte>, first: byte, len: seq<byte>, body: seq<byte>, suffix: seq<byte>)
    requires buf == [first] + len + body + suffix
    ensures buf[0] == first
    ensures buf[1..] == len + (body + suffix)
    ensures buf[1 + |len|..1 + |len| + |body|] == body
    ensures buf[1 + |len| + |body|..] == suffix
  {
  }

  /** The verdict on a buffer follows from its length field. */
  lemma SplitVerdict(buf: seq<byte>, cap: nat, n: nat, used: nat, body: seq<byte>, rest: seq<byte>)
    requires |buf| >= 2 && 1 <= buf[0] / 16 <= 14 && 1 + used + n <= |buf|
    requires LengthOf(buf[1..], 4) == if n <= SPEC_MAX_PACKET_SIZE then Complete(n, used) else Malformed
    requires body == buf[1 + used..1 + used + n] && rest == buf[1 + used + n..]
    ensures SplitFront(buf, cap)
         == if n > SPEC_MAX_PACKET_SIZE then Refused(Codec(MalformedLength))
            else if n > cap then Refused(Protocol(PacketTooLarge(n, cap)))
            else Whole(body, rest)
  {
  }

  /** Every strict prefix of a frame the cap allows asks for more bytes. */
  lemma FramePrefix(first: byte, body: seq<byte>, k: nat, cap: nat)
    requires 1 <= first / 16 <= 14
    requires |body| <= cap && |body| <= SPEC_MAX_PACKET_SIZE
    requires k < |Frame(first, body)|
    ensures DecodedFront(Frame(first, body)[..k], cap) == NeedMore
  {
    PrefixWaits(first, EncodedLength(|body|), body, k, cap);
  }

  lemma PrefixWaits(first: byte, len: seq<byte>, body: seq<byte>, k: nat, cap: nat)
    requires 1 <= first / 16 <= 14 && len == EncodedLength(|body|)
    requires |body| <= cap && |body| <= SPEC_MAX_PACKET_SIZE
    requires k < 1 + |len| + |body|
    ensures SplitFront(([first] + len + body)[..k], cap) == Wait
  {
    var buf := ([first] + len + body)[..k];
    assert Pow128(4) == 268_435_456;
    if 2 <= k < 1 + |len| {
      CutInLength(first, len, body, k);
      PrefixIsIncomplete(|body|, k - 1, 4);
      assert LengthOf(buf[1..], 4) == Incomplete;
    } else if 2 <= k {
      CutInBody(first, len, body, k);
      FourByteLength(|body|, body[..k - 1 - |len|]);
    }
  }

  lemma CutInLength(first: byte, len: seq<byte>, body: seq<byte>, k: nat)
    requires 1 <= k < 1 + |len|
    ensures ([first] + len + body)[..k][0] == first
    ensures ([first] + len + body)[..k][1..] == len[..k - 1]
  {
    var whole := [first] + len + body;
    assert whole == [first] + (len + body);
    forall i | 0 <= i < k - 1 ensures whole[..k][1..][i] == len[i] {
      assert whole[i + 1] == (len + body)[i];
    }
  }

  lemma CutInBody(first: byte, len: seq<byte>, body: seq<byte>, k: nat)
    requires 1 + |len| <= k <= 1 + |len| + |body|
    ensures ([first] + len + body)[..k][0] == first
    ensures ([first] + len + body)[..k][1..] == len + body[..k - 1 - |len|]
  {
    var whole := [first] + len + body;
    assert whole == [first] + (len + body);
    forall i | 0 <= i < k - 1 ensures whole[..k][1..][i] == (len + body[..k - 1 - |len|])[i] {
      assert whole[i + 1] == (len + body)[i];
    }
  }

  /** A verdict other than "more bytes" stands when bytes are appended. */
  lemma FrontIsStable(buf: seq<byte>, more: seq<byte>, cap: nat)
    requires !DecodedFront(buf, cap).NeedMore?
    ensures DecodedFront(buf + more, cap) == match DecodedFront(buf, cap)
              case Got(p, rest) => Got(p, rest + more)
              case Bad(e, rest) => Bad(e, rest + more)
  {
    SplitIsStable(buf, more, cap);
  }

  lemma SplitIsStable(buf: seq<byte>, more: seq<byte>, cap: nat)
    requires !SplitFront(buf, cap).Wait?
    ensures SplitFront(buf + more, cap) == match SplitFront(buf, cap)
              case Refused(e) => Refused(e)
              case Whole(body, rest) => Whole(body, rest + more)
  {
    if 1 <= buf[0] / 16 <= 14 {
      assert (buf + more)[1..] == buf[1..] + more;
      LengthIsStable(buf[1..], more, 4);
      var length := LengthOf(buf[1..], 4);
      if length.Complete? && length.value <= cap {
        var at, end := 1 + length.used, 1 + length.used + length.value;
        assert (buf + more)[at..end] == buf[at..end];
        assert (buf + more)[end..] == buf[end..] + more;
      }
    }
  }

  /** Exactly the packets the format can carry, within the cap and the four-byte
      length, come back from their own encoding. */
  lemma PacketComesBack(p: Packet, suffix: seq<byte>, cap: nat)
    requires Encoded(p).Ok?
    ensures DecodedFront(Encoded(p).value + suffix, cap) == Got(AsDecoded(p), suffix)
       <==> WellFormed(p) && |Body(p)| <= cap && |Body(p)| <= SPEC_MAX_PACKET_SIZE
  {
    EncodedIsFrame(p);
    FrameDecodes(FirstByte(p), Body(p), suffix, cap);
    if WellFormed(p) {
      BodyRoundTrip(p);
    } else if Parsed(FirstByte(p), Body(p)) == Ok(AsDecoded(p)) {
      ParsedIsWellFormed(FirstByte(p), Body(p));
      assert false;
    }
  }

  /** For one that does not: a SUBACK without codes encodes and is refused. */
  lemma EmptySubackIsRefused(id: u16, cap: nat)
    requires cap >= 2
    ensures Encoded(Suback(id, [])).Ok?
    ensures DecodedFront(Encoded(Suback(id, [])).value, cap) == Bad(Codec(UnexpectedEof), [])
  {
    var p := Suback(id, []);
    assert Body(p) == U16Bytes(id);
    EncodedIsFrame(p);
    FrameDecodes(FirstByte(p), Body(p), [], cap);
    assert Encoded(p).value + [] == Encoded(p).value;
  }

  lemma EncodedIsFrame(p: Packet)
    ensures 1 <= FirstByte(p) / 16 <= 14
    ensures Encoded(p).Ok? ==> Encoded(p) == Ok(Frame(FirstByte(p), Body(p)))
  {
    if p.Publish? {
      PublishFlagBits(p.publish);
    }
  }

  // ---- a whole stream -----------------------------------------------------------

  /** The outcome of decoding until the buffer asks for more or fails. */
  datatype Drained = Drained(packets: seq<Packet>, rest: seq<byte>, failure: Option<MqttError>) {
    function After(earlier: seq<Packet>): Drained {
      this.(packets := earlier + packets)
    }
  }

  function Drain(buf: seq<byte>, cap: nat): Drained
    decreases |buf|
  {
    match DecodedFront(buf, cap)
    case NeedMore => Drained([], buf, None)
    case Bad(e, rest) => Drained([], rest, Some(e))
    case Got(p, rest) => Drain(rest, cap).After([p])
  }

  /** Append each chunk to the buffer and drain it, until the first failure. */
  function Feed(buf: seq<byte>, chunks: seq<seq<byte>>, cap: nat): Drained
    decreases |chunks|
  {
    if chunks == [] then Drained([], buf, None)
    else
      var d := Drain(buf + chunks[0], cap);
      if d.failure.Some? then d else Feed(d.rest, chunks[1..], cap).After(d.packets)
  }

  function Flatten(chunks: seq<seq<byte>>): seq<byte> {
    if chunks == [] then [] else chunks[0] + Flatten(chunks[1..])
  }

  lemma {:induction false} DrainAppend(a: seq<byte>, b: seq<byte>, cap: nat)
    ensures var d := Drain(a, cap);
            Drain(a + b, cap) == if d.failure.Some? then d.(rest := d.rest + b)
                                 else Drain(d.rest + b, cap).After(d.packets)
    decreases |a|
  {
    var front := DecodedFront(a, cap);
    if front.NeedMore? {
      assert Drain(a + b, cap).After([]) == Drain(a + b, cap);
    } else {
      FrontIsStable(a, b, cap);
      if front.Got? {
        DrainAppend(front.rest, b, cap);
        var d := Drain(front.rest, cap);
        if d.failure.None? {
          AfterAfter(Drain(d.rest + b, cap), d.packets, [front.packet]);
        }
      }
    }
  }

  lemma AfterAfter(d: Drained, first: seq<Packet>, before: seq<Packet>)
    ensures d.After(first).After(before) == d.After(before + first)
  {
    assert before + (first + d.packets) == before + first + d.packets;
  }

  /** Chopping is invisible: for every byte stream, well formed or not, and every
      way of cutting it, the packets and the first failure are those of the whole;
      without a failure so is what is left over. */
  lemma {:induction false} ChoppingIsInvisible(buf: seq<byte>, chunks: seq<seq<byte>>, cap: nat)
    requires DecodedFront(buf, cap).NeedMore?
    ensures var fed, whole := Feed(buf, chunks, cap), Drain(buf + Flatten(chunks), cap);
            && fed.packets == whole.packets
            && fed.failure == whole.failure
            && (fed.failure.None? ==> fed.rest == whole.rest)
    decreases |chunks|
  {
    if chunks == [] {
      assert buf + Flatten(chunks) == buf;
    } else {
      var tail := Flatten(chunks[1..]);
      assert buf + Flatten(chunks) == buf + chunks[0] + tail;
      DrainAppend(buf + chunks[0], tail, cap);
      var d := Drain(buf + chunks[0], cap);
      if d.failure.None? {
        DrainStops(buf + chunks[0], cap);
        ChoppingIsInvisible(d.rest, chunks[1..], cap);
      }
    }
  }

  lemma {:induction false} DrainStops(buf: seq<byte>, cap: nat)
    requires Drain(buf, cap).failure.None?
    ensures DecodedFront(Drain(buf, cap).rest, cap).NeedMore?
    decreases |buf|
  {
    var front := DecodedFront(buf, cap);
    if front.Got? {
      DrainStops(front.rest, cap);
    }
  }

  predicate Sendable(p: Packet, cap: nat) {
    Encoded(p).Ok? && WellFormed(p) && |Body(p)| <= cap && |Body(p)| <= SPEC_MAX_PACKET_SIZE
  }

  function StreamOf(ps: seq<Packet>, cap: nat): seq<byte>
    requires forall i :: 0 <= i < |ps| ==> Sendable(ps[i], cap)
  {
    if ps == [] then [] else assert Sendable(ps[0], cap); Encoded(ps[0]).value + StreamOf(ps[1..], cap)
  }

  function AllDecoded(ps: seq<Packet>): seq<Packet> {
    seq(|ps|, i requires 0 <= i < |ps| => AsDecoded(ps[i]))
  }

  lemma {:induction false} DrainStream(ps: seq<Packet>, cap: nat)
    requires forall i :: 0 <= i < |ps| ==> Sendable(ps[i], cap)
    ensures Drain(StreamOf(ps, cap), cap) == Drained(AllDecoded(ps), [], None)
  {
    if ps != [] {
      StreamFront(ps, cap);
      DrainStream(ps[1..], cap);
      DrainOne(StreamOf(ps, cap), StreamOf(ps[1..], cap), AsDecoded(ps[0]), AllDecoded(ps[1..]), cap);
      AllDecodedFront(ps);
    }
  }

  lemma StreamFront(ps: seq<Packet>, cap: nat)
    requires ps != [] && forall i :: 0 <= i < |ps| ==> Sendable(ps[i], cap)
    ensures DecodedFront(StreamOf(ps, cap), cap) == Got(AsDecoded(ps[0]), StreamOf(ps[1..], cap))
  {
    assert Sendable(ps[0], cap);
    PacketComesBack(ps[0], StreamOf(ps[1..], cap), cap);
  }

  lemma AllDecodedFront(ps: seq<Packet>)
    requires ps != []
    ensures [AsDecoded(ps[0])] + AllDecoded(ps[1..]) == AllDecoded(ps)
  {
  }

  lemma DrainOne(buf: seq<byte>, tail: seq<byte>, p: Packet, more: seq<Packet>, cap: nat)
    requires DecodedFront(buf, cap) == Got(p, tail)
    requires Drain(tail, cap) == Drained(more, [], None)
    ensures Drain(buf, cap) == Drained([p] + more, [], None)
  {
  }

  /** Any list of sendable packets, concatenated and cut anywhere, arrives as that
      list, in order, with no error and nothing left over. */
  lemma StreamFraming(ps: seq<Packet>, chunks: seq<seq<byte>>, cap: nat)
    requires forall i :: 0 <= i < |ps| ==> Sendable(ps[i], cap)
    requires Flatten(chunks) == StreamOf(ps, cap)
    ensures Feed([], chunks, cap) == Drained(AllDecoded(ps), [], None)
  {
    assert [] + Flatten(chunks) == StreamOf(ps, cap);
    ChoppingIsInvisible([], chunks, cap);
    DrainStream(ps, cap);
  }
}

/** The wire layer (oem/nvidia/types.hpp, erot_time_manager.cpp, request.hpp, socket_handler.cpp, handler.hpp):
    the message that carries the timestamp, a Vendor Defined - IANA message of section 13.2 of DMTF DSP0236,
    its daemon frame, and the recovery of the request key from a response. Buffers are sequences of bytes. */
module Wire {
  import opened Common
  import opened InstanceIds
  import opened RequestEngine

  const MESSAGE_TYPE: Byte := 0x7F
  const NVIDIA_IANA: nat := 5703
  const NVIDIA_MSG_TYPE: Byte := 1
  const NVIDIA_MSG_VERSION: Byte := 1
  const ADD_EXT_TIMESTAMP: Byte := 0x13
  const HEADER_BYTES: nat := 8
  const REQUEST_BYTES: nat := 16

  function Pow256(n: nat): nat {
    if n == 0 then 1 else 256 * Pow256(n - 1)
  }

  // ---------------------------------------------------------------- byte order

  /** The lowest `width` bytes of a number, the highest of them first. */
  function BigEndian(value: nat, width: nat): (bytes: seq<Byte>)
    ensures |bytes| == width
  {
    if width == 0 then [] else BigEndian(value / 256, width - 1) + [value % 256]
  }

  function FromBigEndian(bytes: seq<Byte>): nat {
    if bytes == [] then 0 else 256 * FromBigEndian(bytes[..|bytes|-1]) + bytes[|bytes|-1]
  }

  lemma {:induction false} BigEndianRoundTrip(value: nat, width: nat)
    requires value < Pow256(width)
    ensures FromBigEndian(BigEndian(value, width)) == value
  {
    if width > 0 {
      BigEndianRoundTrip(value / 256, width - 1);
      var bytes := BigEndian(value, width);
      assert bytes[..|bytes|-1] == BigEndian(value / 256, width - 1);
    }
  }

  lemma {:induction false} FromBigEndianRoundTrip(bytes: seq<Byte>)
    ensures FromBigEndian(bytes) < Pow256(|bytes|)
    ensures BigEndian(FromBigEndian(bytes), |bytes|) == bytes
  {
    if bytes != [] {
      FromBigEndianRoundTrip(bytes[..|bytes|-1]);
      assert bytes == bytes[..|bytes|-1] + [bytes[|bytes|-1]];
    }
  }

  // ---------------------------------------------------------------- header and message

  /** The header's bit fields and bytes. */
  datatype Header = Header(iana: nat, request: bool, datagram: bool, reserved: bool, instanceId: Id,
                           msgType: Byte, command: Byte, version: Byte)

  predicate ValidHeader(h: Header) {
    h.iana < Pow256(4)
  }

  function Bit(b: bool, weight: nat): nat {
    if b then weight else 0
  }

  /** The request bit is the highest, the identifier takes the lowest five, in either bit-field layout. */
  function PackFlags(h: Header): Byte {
    Bit(h.request, 128) + Bit(h.datagram, 64) + Bit(h.reserved, 32) + h.instanceId
  }

  function EncodeHeader(h: Header): (bytes: seq<Byte>)
    ensures |bytes| == HEADER_BYTES
  {
    BigEndian(h.iana, 4) + [PackFlags(h), h.msgType, h.command, h.version]
  }

  function DecodeHeader(bytes: seq<Byte>): Header
    requires |bytes| >= HEADER_BYTES
  {
    var flags := bytes[4];
    Header(FromBigEndian(bytes[..4]), flags / 128 == 1, flags / 64 % 2 == 1, flags / 32 % 2 == 1, flags % 32,
           bytes[5], bytes[6], bytes[7])
  }

  lemma HeaderRoundTrip(h: Header, payload: seq<Byte>)
    requires ValidHeader(h)
    ensures DecodeHeader(EncodeHeader(h) + payload) == h
  {
    var bytes := EncodeHeader(h) + payload;
    assert bytes[..4] == BigEndian(h.iana, 4);
    BigEndianRoundTrip(h.iana, 4);
  }

  /** Every eight bytes are the encoding of the header read from them. */
  lemma HeaderIsLossless(bytes: seq<Byte>)
    requires |bytes| == HEADER_BYTES
    ensures ValidHeader(DecodeHeader(bytes)) && EncodeHeader(DecodeHeader(bytes)) == bytes
  {
    FromBigEndianRoundTrip(bytes[..4]);
    assert bytes == bytes[..4] + [bytes[4], bytes[5], bytes[6], bytes[7]];
  }

  function TimestampHeader(instanceId: Id): Header {
    Header(NVIDIA_IANA, true, false, false, instanceId, NVIDIA_MSG_TYPE, ADD_EXT_TIMESTAMP, NVIDIA_MSG_VERSION)
  }

  /** The request to set the external timestamp. */
  function TimestampRequest(instanceId: Id, timestamp: nat): (bytes: seq<Byte>)
    ensures |bytes| == REQUEST_BYTES
  {
    EncodeHeader(TimestampHeader(instanceId)) + BigEndian(timestamp, 8)
  }

  /** Fills a zeroed request buffer field by field, as the sync driver does. */
  method BuildTimestampRequest(instanceId: Id, timestamp: nat) returns (request: array<Byte>)
    ensures fresh(request) && request[..] == TimestampRequest(instanceId, timestamp)
  {
    request := new Byte[REQUEST_BYTES](_ => 0);
    CopyBigEndian(request, 0, NVIDIA_IANA, 4);
    request[4] := request[4] % 128 + 128;
    request[4] := request[4] / 32 * 32 + instanceId;
    request[5] := NVIDIA_MSG_TYPE;
    request[6] := ADD_EXT_TIMESTAMP;
    request[7] := NVIDIA_MSG_VERSION;
    ghost var header := request[..8];
    assert header[..4] == BigEndian(NVIDIA_IANA, 4);
    assert header == EncodeHeader(TimestampHeader(instanceId));
    CopyBigEndian(request, 8, timestamp, 8);
    assert request[..] == request[..8] + request[8..];
    assert request[..8] == header;
  }

  /** Writes a number of the given width at an offset, lowest byte last. */
  method CopyBigEndian(buffer: array<Byte>, offset: nat, value: nat, width: nat)
    requires offset + width <= buffer.Length
    modifies buffer
    ensures buffer[offset..offset + width] == BigEndian(value, width)
    ensures forall i :: 0 <= i < buffer.Length && !(offset <= i < offset + width) ==> buffer[i] == old(buffer[i])
  {
    var rest: nat, left: nat := value, width;
    assert BigEndian(value, width) == BigEndian(rest, left) + [];
    while left > 0
      invariant left <= width
      invariant BigEndian(value, width) == BigEndian(rest, left) + buffer[offset + left..offset + width]
      invariant forall i :: 0 <= i < buffer.Length && !(offset + left <= i < offset + width) ==>
                  buffer[i] == old(buffer[i])
    {
      left := left - 1;
      ghost var done := buffer[offset + left + 1..offset + width];
      buffer[offset + left] := rest % 256;
      assert buffer[offset + left..offset + width] == [rest % 256] + done;
      assert BigEndian(rest, left + 1) + done == BigEndian(rest / 256, left) + ([rest % 256] + done);
      rest := rest / 256;
    }
  }

  /** Decoding the message returns every field and the timestamp, for every identifier and 64-bit timestamp. */
  lemma RequestRoundTrip(instanceId: Id, timestamp: nat)
    requires timestamp < Pow256(8)
    ensures var bytes := TimestampRequest(instanceId, timestamp);
            && DecodeHeader(bytes) == TimestampHeader(instanceId)
            && FromBigEndian(bytes[HEADER_BYTES..]) == timestamp
  {
    var bytes := TimestampRequest(instanceId, timestamp);
    assert NVIDIA_IANA < 256 * 256 * 256 * 256 == Pow256(4);
    HeaderRoundTrip(TimestampHeader(instanceId), BigEndian(timestamp, 8));
    BigEndianRoundTrip(timestamp, 8);
    assert bytes[HEADER_BYTES..] == BigEndian(timestamp, 8);
  }

  // ---------------------------------------------------------------- frames and responses

  /** The daemon's frame: tag byte, endpoint and message type before the message. */
  function Frame(tag: Byte, eid: Byte, message: seq<Byte>): seq<Byte> {
    [tag, eid, MESSAGE_TYPE] + message
  }

  /** What the request handler is told of a response. */
  datatype Received = Received(key: Key, reply: Reply)

  /** Requests are ignored; a response is told by the fields of its header and the length of its payload. */
  function ProcessRxMsg(eid: Byte, message: seq<Byte>): Option<Received>
    requires |message| > HEADER_BYTES
  {
    var h := DecodeHeader(message);
    if h.request then None
    else Some(Received(Key(eid, h.instanceId, h.msgType, h.command),
                       Reply(|message| - HEADER_BYTES, message[HEADER_BYTES])))
  }

  /** Frames of another message type are skipped. */
  function HandleReceivedMsg(frame: seq<Byte>): Option<Received>
    requires |frame| > 3 + HEADER_BYTES
  {
    if frame[2] != MESSAGE_TYPE then None else ProcessRxMsg(frame[1], frame[3..])
  }

  /** The key under which registerRequest files a request, read from its bytes. */
  function KeyOfRequest(eid: Byte, message: seq<Byte>): Key
    requires |message| >= HEADER_BYTES
  {
    var h := DecodeHeader(message);
    Key(eid, h.instanceId, h.msgType, h.command)
  }

  /** A response reaches the handler with the key of the registered request if and only if it comes from that
      endpoint, is not itself a request, and echoes identifier, type and command. */
  lemma KeyRecovery(tag: Byte, eid: Byte, instanceId: Id, timestamp: nat, from: Byte, h: Header, payload: seq<Byte>)
    requires ValidHeader(h) && payload != []
    ensures var key := KeyOfRequest(eid, TimestampRequest(instanceId, timestamp));
            var got := HandleReceivedMsg(Frame(tag, from, EncodeHeader(h) + payload));
            && key == Key(eid, instanceId, NVIDIA_MSG_TYPE, ADD_EXT_TIMESTAMP)
            && (got.Some? <==> !h.request)
            && (got.Some? && got.value.key == key <==>
                 !h.request && from == eid && h.instanceId == instanceId &&
                 h.msgType == NVIDIA_MSG_TYPE && h.command == ADD_EXT_TIMESTAMP)
            && (got.Some? ==> got.value.reply == Reply(|payload|, payload[0]))
  {
    assert NVIDIA_IANA < 256 * 256 * 256 * 256 == Pow256(4);
    HeaderRoundTrip(TimestampHeader(instanceId), BigEndian(timestamp, 8));
    HeaderRoundTrip(h, payload);
    var message := EncodeHeader(h) + payload;
    var frame := Frame(tag, from, message);
    assert frame[3..] == message;
  }

  /** The bytes of a request: the number 5703, the request bit with the identifier, type, command and version. */
  lemma RequestBytes(instanceId: Id, timestamp: nat)
    ensures TimestampRequest(instanceId, timestamp)[..8] == [0, 0, 0x16, 0x47, 0x80 + instanceId, 1, 0x13, 1]
  {
    assert BigEndian(5703, 4) == BigEndian(22, 3) + [0x47];
    assert BigEndian(22, 3) == BigEndian(0, 2) + [0x16];
    assert BigEndian(0, 2) == BigEndian(0, 1) + [0] == [0, 0];
    assert BigEndian(5703, 4) == [0, 0, 0x16, 0x47];
    assert TimestampRequest(instanceId, timestamp)[..8] == EncodeHeader(TimestampHeader(instanceId));
  }

  /** The bytes of its daemon frame before it. */
  lemma FrameBytes(tag: Byte, eid: Byte, message: seq<Byte>)
    ensures Frame(tag, eid, message)[..3] == [tag, eid, 0x7F] && Frame(tag, eid, message)[3..] == message
  {
  }

  /** Which frames are delivered, by their bytes alone: those of type 0x7F whose message has the request bit clear;
      and under which key and with what reply. */
  lemma DeliveredExactly(frame: seq<Byte>)
    requires |frame| > 11
    ensures var got := HandleReceivedMsg(frame);
            && (got.Some? <==> frame[2] == 0x7F && frame[7] < 128)
            && (got.Some? ==> got.value == Received(Key(frame[1], frame[7] % 32, frame[8], frame[9]),
                                                    Reply(|frame| - 11, frame[11])))
  {
    var message := frame[3..];
    assert message[4] == frame[7] && message[5] == frame[8] && message[6] == frame[9] && message[8] == frame[11];
  }

  // ---------------------------------------------------------------- the hash of a key

  const TWO_TO_31: nat := 0x8000_0000
  const TWO_TO_32: nat := 0x1_0000_0000
  const TWO_TO_64: nat := 0x1_0000_0000_0000_0000

  function Shifted(k: Key): nat {
    k.eid * 0x100_0000 + k.instanceId * 0x1_0000 + k.msgType * 0x100 + k.command
  }

  /** The shifts are done in a signed 32-bit integer, which is then converted to an unsigned 64-bit one:
      endpoints from 128 on give a negative value. */
  function Hash(k: Key): nat {
    if Shifted(k) < TWO_TO_31 then Shifted(k) else Shifted(k) - TWO_TO_32 + TWO_TO_64
  }

  lemma ShiftedIsBigEndian(k: Key)
    ensures FromBigEndian([k.eid, k.instanceId, k.msgType, k.command]) == Shifted(k)
  {
    FromBigEndianAppends([], k.eid);
    FromBigEndianAppends([k.eid], k.instanceId);
    FromBigEndianAppends([k.eid, k.instanceId], k.msgType);
    FromBigEndianAppends([k.eid, k.instanceId, k.msgType], k.command);
    assert [] + [k.eid] == [k.eid] && [k.eid] + [k.instanceId] == [k.eid, k.instanceId];
    assert [k.eid, k.instanceId] + [k.msgType] == [k.eid, k.instanceId, k.msgType];
    assert [k.eid, k.instanceId, k.msgType] + [k.command] == [k.eid, k.instanceId, k.msgType, k.command];
  }

  lemma FromBigEndianAppends(bytes: seq<Byte>, low: Byte)
    ensures FromBigEndian(bytes + [low]) == 256 * FromBigEndian(bytes) + low
  {
    assert (bytes + [low])[..|bytes|] == bytes;
  }

  lemma HashIsInjective(k: Key, l: Key)
    ensures Hash(k) < TWO_TO_64 && Hash(k) % TWO_TO_32 == FromBigEndian([k.eid, k.instanceId, k.msgType, k.command])
    ensures if k.eid < 128 then Hash(k) < TWO_TO_31 else Hash(k) >= TWO_TO_64 - TWO_TO_31
    ensures Hash(k) == Hash(l) <==> k == l
  {
    var bytes, cytes := [k.eid, k.instanceId, k.msgType, k.command], [l.eid, l.instanceId, l.msgType, l.command];
    ShiftedIsBigEndian(k);
    ShiftedIsBigEndian(l);
    FromBigEndianRoundTrip(bytes);
    FromBigEndianRoundTrip(cytes);
    assert Shifted(k) == Shifted(l) ==> bytes == cytes;
    assert bytes == cytes ==>
             bytes[0] == cytes[0] && bytes[1] == cytes[1] && bytes[2] == cytes[2] && bytes[3] == cytes[3];
  }
}

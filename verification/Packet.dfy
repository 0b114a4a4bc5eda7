/** The packet format of LAB_8: one type byte, a little-endian 16-bit payload size and the
    payload, in frames of a fixed length whose tail is whatever malloc left there. */
module Packets {
  import opened Base

  const BUFFER_SIZE := 4096
  const PACKET_BUFFER_SIZE := BUFFER_SIZE + 6
  const HEADER := 3

  type UInt16 = n: int | 0 <= n < 0x1_0000
  type UInt32 = n: int | 0 <= n < 0x1_0000_0000

  /** The last of the five values of enum PACKET_TYPE, which start at 0. */
  const DISCOVERY_RESP: UInt32 := 4

  /** What a packet says: its type and the bytes of data that its size covers. */
  datatype Message = Message(ptype: UInt32, payload: seq<Byte>)

  predicate Fits(m: Message) {
    |m.payload| <= BUFFER_SIZE
  }

  /** The meaningful bytes of a serialized packet. */
  function Encode(m: Message): (bytes: seq<Byte>)
    requires Fits(m)
    ensures |bytes| == HEADER + |m.payload|
  {
    [m.ptype % 256, |m.payload| % 256, |m.payload| / 256] + m.payload
  }

  /** A uint16_t as it lies in memory. */
  function LittleEndian(low: int, high: int): UInt16
    requires 0 <= low < 256 && 0 <= high < 256
  {
    low + 256 * high
  }

  function SizeField(bytes: seq<Byte>): UInt16
    requires |bytes| >= HEADER
  {
    LittleEndian(bytes[1], bytes[2])
  }

  /** What deserializing these bytes gives; None where the copy would leave the received bytes
      or the packet's data. */
  function Decode(bytes: seq<Byte>): Option<Message> {
    if |bytes| < HEADER || SizeField(bytes) > BUFFER_SIZE || HEADER + SizeField(bytes) > |bytes| then None
    else Some(Message(bytes[0], bytes[HEADER..HEADER + SizeField(bytes)]))
  }

  /** The type field is cut to one byte. */
  function Narrowed(m: Message): Message {
    m.(ptype := m.ptype % 256)
  }

  /** Round trip, whatever follows the payload in the buffer; it is exact just for the types
      that fit in a byte, so for every value of the enumeration. */
  lemma RoundTrip(m: Message, junk: seq<Byte>)
    requires Fits(m)
    ensures Decode(Encode(m) + junk) == Some(Narrowed(m))
    ensures Decode(Encode(m) + junk) == Some(m) <==> m.ptype < 256
    ensures m.ptype <= DISCOVERY_RESP ==> Decode(Encode(m) + junk) == Some(m)
  {
    var bytes := Encode(m) + junk;
    assert bytes[1] == |m.payload| % 256 && bytes[2] == |m.payload| / 256;
    assert bytes[HEADER..HEADER + |m.payload|] == m.payload;
  }

  /** The other way round: what decodes is the encoding of what it decodes to. */
  lemma EncodingIsCanonical(bytes: seq<Byte>)
    requires Decode(bytes).Some?
    ensures Fits(Decode(bytes).value) && Encode(Decode(bytes).value) <= bytes
  {
    var m := Decode(bytes).value;
    assert |m.payload| == SizeField(bytes);
    assert |m.payload| % 256 == bytes[1] && |m.payload| / 256 == bytes[2];
  }

  /** Decoding looks at the header and the payload only. */
  lemma DecodeNeedsOnlyPrefix(bytes: seq<Byte>, other: seq<Byte>)
    requires Decode(bytes).Some?
    ensures Decode(other) == Decode(bytes) <==>
      HEADER + |Decode(bytes).value.payload| <= |other| &&
      other[..HEADER + |Decode(bytes).value.payload|] == bytes[..HEADER + |Decode(bytes).value.payload|]
  {
    var n := HEADER + |Decode(bytes).value.payload|;
    if n <= |other| && other[..n] == bytes[..n] {
      assert forall i | 0 <= i < n :: other[i] == other[..n][i] == bytes[..n][i] == bytes[i];
      assert SizeField(other) == SizeField(bytes);
      assert other[HEADER..n] == other[..n][HEADER..] == bytes[HEADER..n];
    }
    if Decode(other) == Decode(bytes) {
      EncodingIsCanonical(bytes);
      EncodingIsCanonical(other);
    }
  }

  // ------------------------------------------------------------------ framing

  /** A buffer made by Serialize for this message. */
  predicate IsFrame(frame: seq<Byte>, m: Message) {
    Fits(m) && |frame| == PACKET_BUFFER_SIZE && Encode(m) <= frame
  }

  lemma FieldsMakeFrame(frame: seq<Byte>, m: Message)
    requires Fits(m) && |frame| == PACKET_BUFFER_SIZE
    requires frame[0] == m.ptype % 256
    requires frame[1] == |m.payload| % 256 && frame[2] == |m.payload| / 256
    requires frame[HEADER..HEADER + |m.payload|] == m.payload
    ensures IsFrame(frame, m)
  {
    var n := HEADER + |m.payload|;
    assert frame[..n] == frame[..HEADER] + frame[HEADER..n];
    assert frame[..HEADER] == [frame[0], frame[1], frame[2]];
    assert Encode(m) == frame[..n];
  }

  lemma FrameDecodes(frame: seq<Byte>, m: Message)
    requires IsFrame(frame, m)
    ensures Decode(frame) == Some(Narrowed(m))
  {
    RoundTrip(m, frame[|Encode(m)|..]);
    assert Encode(m) + frame[|Encode(m)|..] == frame;
  }

  /** The discovery sockets receive only the first BUFFER_SIZE bytes of a frame: that is
      enough just for payloads of at most BUFFER_SIZE - 3 bytes. */
  lemma CutFrameDecodes(frame: seq<Byte>, m: Message)
    requires IsFrame(frame, m)
    ensures Decode(frame[..BUFFER_SIZE]) ==
      if |m.payload| <= BUFFER_SIZE - HEADER then Some(Narrowed(m)) else None
  {
    FrameDecodes(frame, m);
    if |m.payload| <= BUFFER_SIZE - HEADER {
      var n := HEADER + |m.payload|;
      assert frame[..BUFFER_SIZE][..n] == frame[..n];
      DecodeNeedsOnlyPrefix(frame, frame[..BUFFER_SIZE]);
    } else {
      assert SizeField(frame[..BUFFER_SIZE]) == SizeField(frame) == |m.payload|;
    }
  }

  function Concat(frames: seq<seq<Byte>>): seq<Byte> {
    if frames == [] then [] else frames[0] + Concat(frames[1..])
  }

  /** A receiver that reads whole frames off a byte stream. */
  function DecodeStream(stream: seq<Byte>): seq<Option<Message>> {
    if |stream| < PACKET_BUFFER_SIZE then []
    else [Decode(stream[..PACKET_BUFFER_SIZE])] + DecodeStream(stream[PACKET_BUFFER_SIZE..])
  }

  /** Frames sent one after the other are received as the messages sent, in order; a frame
      that is not complete yet is not seen. */
  lemma {:induction false} StreamDecodes(ms: seq<Message>, frames: seq<seq<Byte>>, rest: seq<Byte>)
    requires |frames| == |ms| && |rest| < PACKET_BUFFER_SIZE
    requires forall i | 0 <= i < |ms| :: IsFrame(frames[i], ms[i])
    ensures DecodeStream(Concat(frames) + rest) == seq(|ms|, i requires 0 <= i < |ms| => Some(Narrowed(ms[i])))
  {
    hide Decode, Encode, Narrowed;
    if ms == [] {
      assert Concat(frames) + rest == rest;
    } else {
      var stream := Concat(frames) + rest;
      FrameDecodes(frames[0], ms[0]);
      assert stream[..PACKET_BUFFER_SIZE] == frames[0];
      assert stream[PACKET_BUFFER_SIZE..] == Concat(frames[1..]) + rest;
      StreamDecodes(ms[1..], frames[1..], rest);
    }
  }

  // ------------------------------------------------------------------ strings

  /** strlen, or the length of the memory looked at if there is no terminator in it. */
  function StrLen(s: seq<Byte>): (n: nat)
    ensures n <= |s|
    ensures forall i | 0 <= i < n :: s[i] != 0
    ensures n < |s| ==> s[n] == 0
  {
    if s == [] || s[0] == 0 then 0 else 1 + StrLen(s[1..])
  }

  /** The C string that starts an array, or the whole array if nothing ends it there. */
  function StringAt(s: seq<Byte>): seq<Byte> {
    s[..StrLen(s)]
  }

  /** The data array of a packet that malloc left with the given bytes and that then got this
      payload. */
  function Filled(payload: seq<Byte>, garbage: seq<Byte>): (data: seq<Byte>)
    requires |payload| <= |garbage|
    ensures |data| == |garbage|
  {
    payload + garbage[|payload|..]
  }

  /** Strings on their way: the terminator is not sent, so from whatever bytes the packet
      decodes, the string found at the receiver is the one set at the sender just when
      malloc left a 0 at the place behind it. */
  lemma StringArrivesIff(text: seq<Byte>, bytes: seq<Byte>, t: UInt32, garbage: seq<Byte>)
    requires |garbage| == BUFFER_SIZE && StrLen(text) < BUFFER_SIZE
    requires Decode(bytes) == Some(Message(t, StringAt(text)))
    ensures StringAt(Filled(Decode(bytes).value.payload, garbage)) == StringAt(text)
      <==> garbage[StrLen(text)] == 0
  {
    var sent := StringAt(text);
    var data := Filled(sent, garbage);
    assert forall i | 0 <= i < |sent| :: data[i] == sent[i] == text[i];
    assert data[|sent|] == garbage[|sent|];
    assert StrLen(data) >= |sent|;
    assert data[..|sent|] == sent;
  }

  /** With garbage of ones no string whatever arrives, by stream or by datagram. */
  lemma NoStringArrives(text: seq<Byte>, frame: seq<Byte>, t: UInt32)
    requires StrLen(text) <= BUFFER_SIZE - HEADER && IsFrame(frame, Message(t, StringAt(text)))
    ensures var ones := seq(BUFFER_SIZE, _ => 1);
      && Decode(frame) == Decode(frame[..BUFFER_SIZE]) == Some(Message(t % 256, StringAt(text)))
      && StringAt(Filled(Decode(frame).value.payload, ones)) != StringAt(text)
  {
    FrameDecodes(frame, Message(t, StringAt(text)));
    CutFrameDecodes(frame, Message(t, StringAt(text)));
    StringArrivesIff(text, frame, t % 256, seq(BUFFER_SIZE, _ => 1));
  }

  // --------------------------------------------------------------- the program

  /** packet_t. */
  class Packet {
    var ptype: UInt32
    const data: array<Byte>
    var size: UInt16

    /** malloc, or a local variable: every field holds some garbage. */
    constructor (someType: UInt32, garbage: seq<Byte>, someSize: UInt16)
      requires |garbage| == BUFFER_SIZE
      ensures fresh(data) && data.Length == BUFFER_SIZE && data[..] == garbage
    {
      ptype, size := someType, someSize;
      data := new Byte[BUFFER_SIZE](i requires 0 <= i < BUFFER_SIZE => garbage[i]);
    }

    ghost predicate Valid()
      reads this
    {
      data.Length == BUFFER_SIZE && size <= BUFFER_SIZE
    }

    ghost function Says(): (m: Message)
      requires Valid()
      reads this, data
      ensures Fits(m)
    {
      Message(ptype, data[..size])
    }

    /** set_payload_string, of a string that ends inside the data array. */
    method SetPayloadString(text: array<Byte>)
      requires data.Length == BUFFER_SIZE && text != data
      requires StrLen(text[..]) < text.Length && StrLen(text[..]) < BUFFER_SIZE
      modifies this`size, data
      ensures Valid() && Says() == Message(ptype, StringAt(text[..]))
      ensures data[size] == 0 && forall k | size < k < BUFFER_SIZE :: data[k] == old(data[k])
    {
      ghost var n := StrLen(text[..]);
      var i := 0;
      while text[i] != 0
        invariant i <= n && forall k | 0 <= k < i :: data[k] == text[k]
        invariant forall k | i <= k < BUFFER_SIZE :: data[k] == old(data[k])
        decreases n - i
      {
        data[i] := text[i];
        i := i + 1;
      }
      data[i] := 0;
      size := i;
      assert data[..size] == text[..n];
    }

    /** serialize_packet, for a size that stays inside the data array. */
    method Serialize() returns (buffer: array<Byte>)
      requires Valid()
      ensures fresh(buffer) && IsFrame(buffer[..], Says())
    {
      buffer := new Byte[PACKET_BUFFER_SIZE];
      buffer[0] := ptype % 256;
      var dest := 1;
      buffer[dest], buffer[dest + 1] := size % 256, size / 256;
      dest := dest + 2;
      forall i | 0 <= i < size {
        buffer[dest + i] := data[i];
      }
      assert buffer[HEADER..HEADER + size] == data[..size];
      FieldsMakeFrame(buffer[..], Says());
    }
  }

  /** deserialize_packet into malloced memory with the given garbage; null stands for a copy
      that leaves the buffer or the data array. */
  method Deserialize(buffer: array<Byte>, someType: UInt32, garbage: seq<Byte>, someSize: UInt16)
    returns (packet: Packet?)
    requires |garbage| == BUFFER_SIZE
    ensures packet == null <==> Decode(buffer[..]).None?
    ensures packet != null ==>
      fresh(packet) && fresh(packet.data) && packet.Valid() && Decode(buffer[..]) == Some(packet.Says())
      && packet.data[..] == Filled(packet.Says().payload, garbage)
  {
    if buffer.Length < HEADER {
      return null;
    }
    var made := new Packet(someType, garbage, someSize);
    made.ptype := buffer[0];
    var src := 1;
    made.size := LittleEndian(buffer[src], buffer[src + 1]);
    src := src + 2;
    if made.size > BUFFER_SIZE || src + made.size > buffer.Length {
      return null;
    }
    forall i | 0 <= i < made.size {
      made.data[i] := buffer[src + i];
    }
    assert made.data[..made.size] == buffer[..][HEADER..HEADER + made.size];
    return made;
  }

  /** A string through the whole path: set in one packet, serialized, and looked up in the
      packet the receiver makes of the frame. */
  method SendString(text: array<Byte>, from: Packet, someType: UInt32, garbage: seq<Byte>, someSize: UInt16)
    returns (received: Packet?)
    requires from.data.Length == BUFFER_SIZE && text != from.data && |garbage| == BUFFER_SIZE
    requires StrLen(text[..]) < text.Length && StrLen(text[..]) < BUFFER_SIZE
    modifies from`size, from.data
    ensures received != null && fresh(received) && fresh(received.data) && received.Valid()
    ensures StringAt(received.data[..]) == StringAt(text[..]) <==> garbage[StrLen(text[..])] == 0
  {
    ghost var was := text[..];
    from.SetPayloadString(text);
    var frame := from.Serialize();
    FrameDecodes(frame[..], from.Says());
    received := Deserialize(frame, someType, garbage, someSize);
    StringArrivesIff(was, frame[..], received.ptype, garbage);
  }
}

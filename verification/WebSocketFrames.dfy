/** The WebSocket connection of the control plane (src/remote/websocket.ts): an incremental reader and a
    writer of the frames of RFC 6455, section 5.2. */
module WebSocketFrames {
  import opened ByteStrings

  const MAX_FRAME_BYTES := 1_048_576

  // ---- Numbers as bytes ----

  function Power(base: nat, n: nat): nat { if n == 0 then 1 else base * Power(base, n - 1) }

  function BigEndian(bytes: Bytes): nat {
    if bytes == [] then 0 else 256 * BigEndian(bytes[..|bytes| - 1]) + bytes[|bytes| - 1]
  }

  function ToBigEndian(n: nat, size: nat): (bytes: Bytes)
    ensures |bytes| == size
  {
    if size == 0 then [] else ToBigEndian(n / 256, size - 1) + [n % 256]
  }

  lemma {:induction false} BigEndianRoundTrip(n: nat, size: nat)
    requires n < Power(256, size)
    ensures BigEndian(ToBigEndian(n, size)) == n
  {
    if size > 0 {
      BigEndianRoundTrip(n / 256, size - 1);
      var bytes := ToBigEndian(n, size);
      assert bytes[..|bytes| - 1] == ToBigEndian(n / 256, size - 1);
    }
  }

  /** Exclusive or of the low `bits` bits. */
  function Xor(a: nat, b: nat, bits: nat): nat {
    if bits == 0 then 0 else (a % 2 + b % 2) % 2 + 2 * Xor(a / 2, b / 2, bits - 1)
  }

  lemma {:induction false} XorBound(a: nat, b: nat, bits: nat)
    ensures Xor(a, b, bits) < Power(2, bits)
  {
    if bits > 0 {
      XorBound(a / 2, b / 2, bits - 1);
    }
  }

  lemma {:induction false} XorTwice(a: nat, b: nat, bits: nat)
    requires a < Power(2, bits)
    ensures Xor(Xor(a, b, bits), b, bits) == a
  {
    if bits > 0 {
      XorTwice(a / 2, b / 2, bits - 1);
      BitTwice(a % 2, b % 2);
      Halve((a % 2 + b % 2) % 2, Xor(a / 2, b / 2, bits - 1));
    }
  }

  lemma BitTwice(x: int, y: int)
    requires 0 <= x < 2 && 0 <= y < 2
    ensures ((x + y) % 2 + y) % 2 == x
  {}

  lemma Halve(bit: int, n: nat)
    requires 0 <= bit < 2
    ensures (bit + 2 * n) % 2 == bit && (bit + 2 * n) / 2 == n
  {}

  lemma Power8()
    ensures Power(2, 8) == 256 && Power(256, 2) == 0x1_0000 && Power(256, 8) == 0x1_0000_0000_0000_0000
  {
    assert Power(2, 2) == 4;
    assert Power(2, 4) == 16;
    assert Power(2, 6) == 64;
    assert Power(256, 1) == 256;
    assert Power(256, 3) == 0x100_0000;
    assert Power(256, 4) == 0x1_0000_0000;
    assert Power(256, 6) == 0x1_0000_0000_0000;
  }

  function XorByte(a: Byte, b: Byte): Byte {
    XorBound(a, b, 8);
    Power8();
    Xor(a, b, 8)
  }

  /** A payload masked, or unmasked, with a four-byte key. */
  function Masked(payload: Bytes, key: Bytes): (r: Bytes)
    requires |key| == 4
    ensures |r| == |payload|
  {
    seq(|payload|, i requires 0 <= i < |payload| => XorByte(payload[i], key[i % 4]))
  }

  lemma MaskTwice(payload: Bytes, key: Bytes)
    requires |key| == 4
    ensures Masked(Masked(payload, key), key) == payload
  {
    Power8();
    forall i | 0 <= i < |payload| ensures Masked(Masked(payload, key), key)[i] == payload[i] {
      XorTwice(payload[i], key[i % 4], 8);
    }
  }

  // ---- One frame ----

  datatype Parsed = NeedMore | TooLong | Frame(opcode: int, payload: Bytes, size: nat)

  function LengthBytes(second: Byte): nat {
    if second % 128 == 126 then 2 else if second % 128 == 127 then 8 else 0
  }

  datatype Header = Incomplete | Oversized | Header(length: nat, offset: nat)

  /** How long the payload is and where its key or its first byte is. */
  function ReadHeader(b: Bytes): (h: Header)
    ensures h.Header? ==> h.length <= MAX_FRAME_BYTES && 2 <= h.offset <= |b|
  {
    if |b| < 2 || |b| < 2 + LengthBytes(b[1]) then Incomplete
    else
      var head := 2 + LengthBytes(b[1]);
      var length := if b[1] % 128 < 126 then b[1] % 128 else BigEndian(b[2..head]);
      if length > MAX_FRAME_BYTES then Oversized else Header(length, head)
  }

  /** The first frame of a buffer, if all of it is there. */
  function ParseFrame(b: Bytes): (p: Parsed)
    ensures p.Frame? ==> 2 <= p.size <= |b| && |p.payload| <= MAX_FRAME_BYTES
  {
    match ReadHeader(b)
    case Incomplete => NeedMore
    case Oversized => TooLong
    case Header(length, head) =>
      var offset := head + if b[1] >= 128 then 4 else 0;
      if |b| < offset + length then NeedMore
      else
        var raw := b[offset..offset + length];
        Frame(b[0] % 16, if b[1] >= 128 then Masked(raw, b[head..offset]) else raw, offset + length)
  }

  function CreateFrameHeader(length: nat, opcode: int): Bytes
    requires 0 <= opcode < 16
  {
    if length < 126 then [128 + opcode, length]
    else if length <= 0xffff then [128 + opcode, 126] + ToBigEndian(length, 2)
    else [128 + opcode, 127] + ToBigEndian(length, 8)
  }

  /** What the writer puts on the wire: never masked. */
  function WriteFrame(payload: Bytes, opcode: int): Bytes
    requires 0 <= opcode < 16
  {
    CreateFrameHeader(|payload|, opcode) + payload
  }

  /** The same frame as a client must send it (section 5.3): mask bit set, key, masked payload. */
  function WriteMasked(payload: Bytes, opcode: int, key: Bytes): Bytes
    requires 0 <= opcode < 16 && |key| == 4
  {
    var header := CreateFrameHeader(|payload|, opcode);
    header[1 := header[1] + 128] + key + Masked(payload, key)
  }

  /** The header says its length: reading it back needs no more than its own bytes. */
  lemma HeaderReadsBack(length: nat, opcode: int)
    requires 0 <= opcode < 16 && length <= MAX_FRAME_BYTES
    ensures var header := CreateFrameHeader(length, opcode);
            && |header| == 2 + LengthBytes(header[1]) && header[0] % 16 == opcode && header[1] < 128
            && length == if header[1] < 126 then header[1] else BigEndian(header[2..])
  {
    hide BigEndian, ToBigEndian, Power;
    Power8();
    if 126 <= length <= 0xffff {
      BigEndianRoundTrip(length, 2);
      assert CreateFrameHeader(length, opcode)[2..] == ToBigEndian(length, 2);
    } else if length > 0xffff {
      BigEndianRoundTrip(length, 8);
      assert CreateFrameHeader(length, opcode)[2..] == ToBigEndian(length, 8);
    }
  }

  lemma FrameReadsBack(payload: Bytes, opcode: int, rest: Bytes)
    requires 0 <= opcode < 16 && |payload| <= MAX_FRAME_BYTES
    ensures ParseFrame(WriteFrame(payload, opcode) + rest) == Frame(opcode, payload, |WriteFrame(payload, opcode)|)
  {
    HeaderReadsBack(|payload|, opcode);
    var header := CreateFrameHeader(|payload|, opcode);
    var b := WriteFrame(payload, opcode) + rest;
    assert b[0] == header[0] && b[1] == header[1];
    assert b[2..|header|] == header[2..];
    assert b[|header|..|header| + |payload|] == payload;
  }

  lemma MaskedReadsBack(payload: Bytes, opcode: int, key: Bytes, rest: Bytes)
    requires 0 <= opcode < 16 && |key| == 4 && |payload| <= MAX_FRAME_BYTES
    ensures ParseFrame(WriteMasked(payload, opcode, key) + rest)
         == Frame(opcode, payload, |WriteMasked(payload, opcode, key)|)
  {
    hide ParseFrame, CreateFrameHeader, Masked, BigEndian;
    HeaderReadsBack(|payload|, opcode);
    MaskTwice(payload, key);
    var header := CreateFrameHeader(|payload|, opcode);
    var head, raw := header[1 := header[1] + 128], Masked(payload, key);
    SameAfterFlag(header);
    MaskedShape(head, key, raw, rest);
    Nest(head, key, raw, rest);
  }

  lemma SameAfterFlag(header: Bytes)
    requires |header| >= 2 && header[1] < 128
    ensures header[1 := header[1] + 128][2..] == header[2..]
  {}

  lemma Nest(a: Bytes, b: Bytes, c: Bytes, d: Bytes)
    ensures a + b + c + d == a + (b + (c + d))
  {}

  lemma MaskedShape(head: Bytes, key: Bytes, raw: Bytes, rest: Bytes)
    requires |head| >= 2 && |head| == 2 + LengthBytes(head[1]) && head[1] >= 128 && |key| == 4
    requires |raw| == if head[1] % 128 < 126 then head[1] % 128 else BigEndian(head[2..])
    requires |raw| <= MAX_FRAME_BYTES
    ensures ParseFrame(head + (key + (raw + rest))) == Frame(head[0] % 16, Masked(raw, key), |head| + 4 + |raw|)
  {
    hide Masked;
    var b := head + (key + (raw + rest));
    assert b[..|head|] == head && b[|head|..] == key + (raw + rest);
    assert b[2..|head|] == head[2..];
    assert ReadHeader(b) == Header(|raw|, |head|);
    TwoSlices(head, key, raw, rest);
  }

  lemma TwoSlices(a: Bytes, b: Bytes, c: Bytes, d: Bytes)
    ensures var all := a + (b + (c + d));
            all[|a|..|a| + |b|] == b && all[|a| + |b|..|a| + |b| + |c|] == c
  {}

  function Joined(high: nat, low: nat): nat { high * 0x100 + low }

  function FourJoined(a: nat, b: nat, c: nat, d: nat): nat { Joined(Joined(Joined(a, b), c), d) }

  /** The base framing of section 5.2 of RFC 6455: the opcode is the low half of the first byte, the mask bit the
      highest of the second, and the length in its other seven bits, or in the next two bytes, or in the next eight,
      the most significant first; then come the key, if there is one, and the payload. */
  lemma FramesAreLaidOut(b: Bytes)
    requires ParseFrame(b).Frame?
    ensures var f, short, masked := ParseFrame(b), b[1] % 128, b[1] >= 128;
            var head := if short == 126 then 4 else if short == 127 then 10 else 2;
            var start := head + if masked then 4 else 0;
            f.opcode == b[0] % 16 && |b| >= f.size == start + |f.payload|
            && |f.payload|
               == (if short == 126 then Joined(b[2], b[3])
                   else if short == 127 then
                     FourJoined(b[2], b[3], b[4], b[5]) * 0x1_0000_0000 + FourJoined(b[6], b[7], b[8], b[9])
                   else short)
            && forall i :: 0 <= i < |f.payload| ==>
                 f.payload[i] == if masked then XorByte(b[start + i], b[head + i % 4]) else b[start + i]
  {
    hide XorByte;
    if b[1] % 128 == 126 {
      TwoBytes(b[2..4]);
    } else if b[1] % 128 == 127 {
      EightBytes(b[2..10]);
    }
  }

  lemma TwoBytes(bytes: Bytes)
    requires |bytes| == 2
    ensures BigEndian(bytes) == Joined(bytes[0], bytes[1])
  {
    assert bytes[..1][..0] == [];
    assert BigEndian(bytes[..1]) == bytes[0];
  }

  lemma FourBytes(bytes: Bytes, k: nat)
    requires 4 <= k <= |bytes|
    ensures BigEndian(bytes[..k])
            == BigEndian(bytes[..k - 4]) * 0x1_0000_0000
               + FourJoined(bytes[k - 4], bytes[k - 3], bytes[k - 2], bytes[k - 1])
  {
    OneByte(bytes, k);
    OneByte(bytes, k - 1);
    OneByte(bytes, k - 2);
    OneByte(bytes, k - 3);
  }

  lemma OneByte(bytes: Bytes, k: nat)
    requires 1 <= k <= |bytes|
    ensures BigEndian(bytes[..k]) == Joined(BigEndian(bytes[..k - 1]), bytes[k - 1])
  {
    assert bytes[..k][..k - 1] == bytes[..k - 1];
  }

  lemma EightBytes(bytes: Bytes)
    requires |bytes| == 8
    ensures BigEndian(bytes)
            == FourJoined(bytes[0], bytes[1], bytes[2], bytes[3]) * 0x1_0000_0000
               + FourJoined(bytes[4], bytes[5], bytes[6], bytes[7])
  {
    hide BigEndian;
    assert bytes[..8] == bytes;
    FourBytes(bytes, 8);
    FourBytes(bytes, 4);
    assert bytes[..0] == [];
    NoBytes();
  }

  lemma NoBytes()
    ensures BigEndian([]) == 0
  {}

  /** The writer's frame is the shortest of all byte strings that read as a frame with that payload. */
  lemma WriterIsMinimal(b: Bytes, opcode: int)
    requires ParseFrame(b).Frame? && 0 <= opcode < 16
    ensures |WriteFrame(ParseFrame(b).payload, opcode)| <= ParseFrame(b).size
  {
    var head := 2 + LengthBytes(b[1]);
    Power8();
    if LengthBytes(b[1]) == 2 {
      BigEndianBound(b[2..head]);
    }
  }

  lemma {:induction false} BigEndianBound(bytes: Bytes)
    ensures BigEndian(bytes) < Power(256, |bytes|)
  {
    if bytes != [] {
      BigEndianBound(bytes[..|bytes| - 1]);
    }
  }

  // ---- Draining a buffer ----

  datatype Output = Delivered(text: Bytes) | Written(bytes: Bytes)

  /** Everything one draining of `b` puts out, what it leaves, and whether it ends with a close. */
  datatype Drained = Drained(outputs: seq<Output>, rest: Bytes, closed: bool)

  function OutputsOf(opcode: int, payload: Bytes): seq<Output> {
    if opcode == 0x9 then [Written(WriteFrame(payload, 0xa))]
    else if opcode == 0x1 then [Delivered(payload)]
    else []
  }

  function Drain(b: Bytes): (d: Drained)
    ensures |d.rest| <= |b|
    decreases |b|
  {
    match ParseFrame(b)
    case NeedMore => Drained([], b, false)
    case TooLong => Drained([], b, true)
    case Frame(opcode, payload, size) =>
      if opcode == 0x8 then Drained([], b[size..], true)
      else
        var more := Drain(b[size..]);
        more.(outputs := OutputsOf(opcode, payload) + more.outputs)
  }

  datatype Effect = Put(output: Output) | Ended

  function Effects(outputs: seq<Output>): (r: seq<Effect>)
    ensures |r| == |outputs|
  {
    seq(|outputs|, i requires 0 <= i < |outputs| => Put(outputs[i]))
  }

  /** The observable state: the unread bytes, whether it is closed, and what it has put out so far. */
  datatype State = State(buffer: Bytes, closed: bool, effects: seq<Effect>)

  const OPEN := State([], false, [])

  function Close(s: State): State {
    if s.closed then s else s.(closed := true, effects := s.effects + [Ended])
  }

  /** Draining does not look at `closed`: it puts out what it finds, and closes if it must. */
  function Draining(s: State): State {
    var d := Drain(s.buffer);
    var after := State(d.rest, s.closed, s.effects + Effects(d.outputs));
    if d.closed then Close(after) else after
  }

  function Feed(s: State, chunk: Bytes): State {
    if |s.buffer| + |chunk| > MAX_FRAME_BYTES then Close(s)
    else Draining(s.(buffer := s.buffer + chunk))
  }

  class MinimalWebSocketConnection {
    var buffer: Bytes
    var closed: bool
    var effects: seq<Effect>

    function Observed(): State
      reads this
    {
      State(buffer, closed, effects)
    }

    /** An initial buffer over the limit is thrown away (and the socket destroyed). */
    constructor (initialBuffer: Bytes)
      ensures Observed() == State(if |initialBuffer| > MAX_FRAME_BYTES then [] else initialBuffer, false, [])
    {
      closed, effects := false, [];
      if |initialBuffer| > MAX_FRAME_BYTES {
        buffer := [];
      } else {
        buffer := initialBuffer;
      }
    }

    method CloseConnection()
      modifies this
      ensures Observed() == Close(old(Observed()))
    {
      if closed {
        return;
      }
      closed := true;
      effects := effects + [Ended];
    }

    method HandleData(chunk: Bytes)
      modifies this
      ensures Observed() == Feed(old(Observed()), chunk)
    {
      if |buffer| + |chunk| > MAX_FRAME_BYTES {
        CloseConnection();
        return;
      }
      buffer := buffer + chunk;
      DrainFrames();
    }

    method Unmask(payload: array<Byte>, mask: Bytes)
      requires |mask| == 4
      modifies payload
      ensures payload[..] == Masked(old(payload[..]), mask)
    {
      for index := 0 to payload.Length
        invariant forall k :: 0 <= k < index ==> payload[k] == XorByte(old(payload[k]), mask[k % 4])
        invariant forall k :: index <= k < payload.Length ==> payload[k] == old(payload[k])
      {
        payload[index] := XorByte(payload[index], mask[index % 4]);
      }
    }

    /** A copy of the payload bytes, unmasked in place. */
    method TakePayload(raw: Bytes, masked: bool, mask: Bytes) returns (value: Bytes)
      requires |mask| == 4
      ensures value == if masked then Masked(raw, mask) else raw
    {
      var payload := new Byte[|raw|](i requires 0 <= i < |raw| => raw[i]);
      assert payload[..] == raw;
      if masked {
        Unmask(payload, mask);
      }
      value := payload[..];
    }

    method TakeHeader(b: Bytes) returns (h: Header)
      requires |b| >= 2
      ensures h == ReadHeader(b)
    {
      var second := b[1];
      var length, offset := second % 128, 2;
      if length == 126 {
        if |b| < 4 {
          return Incomplete;
        }
        length, offset := BigEndian(b[2..4]), 4;
      } else if length == 127 {
        if |b| < 10 {
          return Incomplete;
        }
        length, offset := BigEndian(b[2..10]), 10;
        if length > 9_007_199_254_740_991 {
          return Oversized;
        }
      }
      if length > MAX_FRAME_BYTES {
        return Oversized;
      }
      return Header(length, offset);
    }

    method ReadFrame(b: Bytes) returns (p: Parsed)
      requires |b| >= 2
      ensures p == ParseFrame(b)
    {
      hide ReadHeader, Masked;
      var header := TakeHeader(b);
      if header.Incomplete? {
        return NeedMore;
      }
      if header.Oversized? {
        return TooLong;
      }
      var masked, length, offset := b[1] >= 128, header.length, header.offset;
      if |b| < offset + (if masked then 4 else 0) + length {
        return NeedMore;
      }
      var mask := [0, 0, 0, 0];
      if masked {
        mask := b[offset..offset + 4];
        offset := offset + 4;
      }
      var payload := TakePayload(b[offset..offset + length], masked, mask);
      return Frame(b[0] % 16, payload, offset + length);
    }

    /** Each turn that goes on has consumed at least the two bytes of a header. */
    method DrainFrames()
      modifies this
      ensures Observed() == Draining(old(Observed()))
    {
      hide Drain, Draining, ParseFrame, CreateFrameHeader, Effects;
      while |buffer| >= 2
        invariant Draining(Observed()) == Draining(old(Observed()))
        decreases |buffer|
      {
        DrainingEnds(Observed());
        DrainingStep(Observed());
        var frame := ReadFrame(buffer);
        if frame.NeedMore? {
          return;
        }
        if frame.TooLong? {
          CloseConnection();
          return;
        }
        EffectsOf(Observed(), frame.opcode, frame.payload);
        buffer := buffer[frame.size..];
        if frame.opcode == 0x8 {
          CloseConnection();
          return;
        }
        if frame.opcode == 0x9 {
          effects := effects + [Put(Written(CreateFrameHeader(|frame.payload|, 0xa) + frame.payload))];
        } else if frame.opcode == 0x1 {
          effects := effects + [Put(Delivered(frame.payload))];
        }
      }
      DrainingEnds(Observed());
      ShortBuffer(buffer);
    }
  }

  lemma ShortBuffer(b: Bytes)
    ensures |b| < 2 ==> ParseFrame(b) == NeedMore
  {}

  /** The state after a frame that does not close has been taken off the buffer. */
  function AfterFrame(s: State): State
    requires ParseFrame(s.buffer).Frame?
  {
    var f := ParseFrame(s.buffer);
    State(s.buffer[f.size..], s.closed, s.effects + Effects(OutputsOf(f.opcode, f.payload)))
  }

  lemma EffectsOf(s: State, opcode: int, payload: Bytes)
    ensures s.effects + Effects(OutputsOf(opcode, payload))
         == if opcode == 0x9 then s.effects + [Put(Written(WriteFrame(payload, 0xa)))]
            else if opcode == 0x1 then s.effects + [Put(Delivered(payload))]
            else s.effects
  {}

  /** Where draining stops: nothing complete is left, or the first frame closes. */
  lemma DrainingEnds(s: State)
    ensures match ParseFrame(s.buffer)
            case NeedMore => Draining(s) == s
            case TooLong => Draining(s) == Close(s)
            case Frame(opcode, _, size) => opcode == 0x8 ==> Draining(s) == Close(s.(buffer := s.buffer[size..]))
  {
    assert s.effects + [] == s.effects;
  }

  lemma DrainingStep(s: State)
    ensures ParseFrame(s.buffer).Frame? && ParseFrame(s.buffer).opcode != 0x8 ==>
              Draining(AfterFrame(s)) == Draining(s)
  {
    if ParseFrame(s.buffer).Frame? && ParseFrame(s.buffer).opcode != 0x8 {
      DrainingSplits(s);
    }
  }

  lemma DrainingSplits(s: State)
    requires ParseFrame(s.buffer).Frame? && ParseFrame(s.buffer).opcode != 0x8
    ensures Draining(AfterFrame(s)) == Draining(s)
  {
    hide ParseFrame, OutputsOf, Effects, Drain;
    DrainStep(s.buffer);
    var f := ParseFrame(s.buffer);
    assert s.effects + (Effects(OutputsOf(f.opcode, f.payload)) + Effects(Drain(s.buffer[f.size..]).outputs))
        == s.effects + Effects(OutputsOf(f.opcode, f.payload)) + Effects(Drain(s.buffer[f.size..]).outputs);
  }

  lemma DrainStep(b: Bytes)
    requires ParseFrame(b).Frame? && ParseFrame(b).opcode != 0x8
    ensures var f := ParseFrame(b);
            && Drain(b).rest == Drain(b[f.size..]).rest
            && Drain(b).closed == Drain(b[f.size..]).closed
            && Effects(Drain(b).outputs)
               == Effects(OutputsOf(f.opcode, f.payload)) + Effects(Drain(b[f.size..]).outputs)
  {
    hide ParseFrame, OutputsOf;
    var f, more := ParseFrame(b), Drain(b[ParseFrame(b).size..]);
    assert Drain(b).outputs == OutputsOf(f.opcode, f.payload) + more.outputs;
  }

  // ---- Any chunking gives the same messages ----

  /** More bytes behind a frame do not change how it reads. */
  lemma MoreBytes(b: Bytes, more: Bytes)
    ensures match ParseFrame(b)
            case NeedMore => true
            case TooLong => ParseFrame(b + more) == TooLong
            case Frame(_, _, size) => ParseFrame(b + more) == ParseFrame(b) && (b + more)[size..] == b[size..] + more
  {
    hide Masked, ReadHeader;
    MoreHeader(b, more);
    if ParseFrame(b).Frame? {
      var length, head := ReadHeader(b).length, ReadHeader(b).offset;
      var offset := head + if b[1] >= 128 then 4 else 0;
      SameSlice(b, more, offset, offset + length);
      SameSlice(b, more, head, offset);
    }
  }

  lemma SameSlice(b: Bytes, more: Bytes, i: nat, j: nat)
    requires i <= j <= |b|
    ensures (b + more)[i..j] == b[i..j] && (b + more)[j..] == b[j..] + more
  {}

  lemma MoreHeader(b: Bytes, more: Bytes)
    ensures ReadHeader(b).Incomplete? || ReadHeader(b + more) == ReadHeader(b)
  {
    hide BigEndian;
    if |b| >= 2 && |b| >= 2 + LengthBytes(b[1]) {
      SameSlice(b, more, 2, 2 + LengthBytes(b[1]));
    }
  }

  /** Draining more bytes at once is draining them in two steps, up to the first close. */
  lemma {:induction false} DrainInTwoSteps(b: Bytes, more: Bytes)
    ensures var first, all := Drain(b), Drain(b + more);
            if first.closed then all.closed && all.outputs == first.outputs
            else
              var second := Drain(first.rest + more);
              all == Drained(first.outputs + second.outputs, second.rest, second.closed)
    decreases |b|
  {
    MoreBytes(b, more);
    hide ParseFrame, OutputsOf;
    if ParseFrame(b).Frame? && ParseFrame(b).opcode != 0x8 {
      var f := ParseFrame(b);
      DrainInTwoSteps(b[f.size..], more);
      var first, second := Drain(b[f.size..]), Drain(Drain(b).rest + more);
      assert Drain(b).rest == first.rest;
      assert OutputsOf(f.opcode, f.payload) + (first.outputs + second.outputs)
          == OutputsOf(f.opcode, f.payload) + first.outputs + second.outputs;
    } else if ParseFrame(b).NeedMore? {
      assert [] + Drain(b + more).outputs == Drain(b + more).outputs;
    }
  }

  function Join(chunks: seq<Bytes>): Bytes {
    if chunks == [] then [] else Join(chunks[..|chunks| - 1]) + chunks[|chunks| - 1]
  }

  function FeedAll(chunks: seq<Bytes>): State {
    if chunks == [] then OPEN else Feed(FeedAll(chunks[..|chunks| - 1]), chunks[|chunks| - 1])
  }

  /** The effects up to and including the first close. */
  function UpToClose(effects: seq<Effect>): seq<Effect> {
    if effects == [] then []
    else if effects[0].Ended? then [Ended]
    else [effects[0]] + UpToClose(effects[1..])
  }

  /** What a drained stream must have shown: its outputs, then the close if there is one. */
  function Shown(d: Drained): seq<Effect> {
    Effects(d.outputs) + if d.closed then [Ended] else []
  }

  lemma {:induction false} UpToCloseOfOutputs(outputs: seq<Output>, rest: seq<Effect>)
    ensures UpToClose(Effects(outputs) + rest) == Effects(outputs) + UpToClose(rest)
  {
    if outputs == [] {
      assert Effects(outputs) + rest == rest;
    } else {
      var all := Effects(outputs) + rest;
      assert all[1..] == Effects(outputs[1..]) + rest;
      UpToCloseOfOutputs(outputs[1..], rest);
      assert Effects(outputs) == [Put(outputs[0])] + Effects(outputs[1..]);
    }
  }

  lemma {:induction false} UpToCloseIsStable(effects: seq<Effect>, more: seq<Effect>)
    requires Ended in effects
    ensures UpToClose(effects + more) == UpToClose(effects)
  {
    if !effects[0].Ended? {
      assert (effects + more)[1..] == effects[1..] + more;
      UpToCloseIsStable(effects[1..], more);
    }
  }

  /** After any chunks within the limit: the effects up to the first close are those of the whole stream,
      and without a close so is the unread rest. */
  predicate MatchesWhole(s: State, whole: Drained) {
    && |s.buffer| <= 1_048_576
    && UpToClose(s.effects) == Shown(whole)
    && s.closed == whole.closed
    && (whole.closed ==> Ended in s.effects)
    && (!whole.closed ==> s.effects == Shown(whole) && s.buffer == whole.rest)
  }

  lemma OneMoreChunk(s: State, stream: Bytes, chunk: Bytes)
    requires MatchesWhole(s, Drain(stream)) && |s.buffer| + |chunk| <= 1_048_576
    ensures MatchesWhole(Feed(s, chunk), Drain(stream + chunk))
    ensures |Feed(s, chunk).buffer| <= |s.buffer| + |chunk|
  {
    DrainInTwoSteps(stream, chunk);
    hide ParseFrame, Drain, UpToClose;
    var d := Drain(s.buffer + chunk);
    FeedAdds(s, chunk);
    if Drain(stream).closed {
      UpToCloseIsStable(s.effects, Added(s, d));
    } else {
      var outputs, end := Drain(stream).outputs, if d.closed then [Ended] else [];
      AfterOutputs(outputs, d);
      UpToCloseOfOutputs(outputs + d.outputs, end);
      UpToCloseOfEnd(d.closed);
      assert Effects(outputs) + [] == Effects(outputs);
    }
  }

  /** The effects one more chunk adds. */
  function Added(s: State, d: Drained): seq<Effect> {
    Effects(d.outputs) + if d.closed && !s.closed then [Ended] else []
  }

  lemma FeedAdds(s: State, chunk: Bytes)
    requires |s.buffer| + |chunk| <= 1_048_576
    ensures var d := Drain(s.buffer + chunk);
            && Feed(s, chunk) == State(d.rest, s.closed || d.closed, s.effects + Added(s, d))
            && |d.rest| <= |s.buffer| + |chunk|
  {
    var d := Drain(s.buffer + chunk);
    assert s.effects + Effects(d.outputs) + [Ended] == s.effects + (Effects(d.outputs) + [Ended]);
    assert Effects(d.outputs) + [] == Effects(d.outputs);
  }

  lemma AfterOutputs(outputs: seq<Output>, d: Drained)
    ensures var end := if d.closed then [Ended] else [];
            Effects(outputs) + (Effects(d.outputs) + end) == Effects(outputs + d.outputs) + end
  {}

  lemma UpToCloseOfEnd(closed: bool)
    ensures var end := if closed then [Ended] else []; UpToClose(end) == end
  {}

  /** Feeding a stream in any chunks, up to the buffer limit in all, shows the same text messages and
      pongs as feeding it at once, up to and including the first close. */
  lemma {:induction false} ChunkingIsInvisible(chunks: seq<Bytes>)
    requires |Join(chunks)| <= 1_048_576
    ensures MatchesWhole(FeedAll(chunks), Drain(Join(chunks)))
    ensures |FeedAll(chunks).buffer| <= |Join(chunks)|
  {
    if chunks == [] {
      assert ParseFrame([]) == NeedMore;
      assert Effects([]) == [];
    } else {
      ChunkingIsInvisible(chunks[..|chunks| - 1]);
      OneMoreChunk(FeedAll(chunks[..|chunks| - 1]), Join(chunks[..|chunks| - 1]), chunks[|chunks| - 1]);
    }
  }

  lemma {:induction false} AnyTwoChunkingsAgree(a: seq<Bytes>, b: seq<Bytes>)
    requires Join(a) == Join(b) && |Join(a)| <= 1_048_576
    ensures UpToClose(FeedAll(a).effects) == UpToClose(FeedAll(b).effects)
    ensures FeedAll(a).closed == FeedAll(b).closed
  {
    ChunkingIsInvisible(a);
    ChunkingIsInvisible(b);
  }

  /** Whatever arrives, the buffer never exceeds the limit; and after a chunk was taken in, a connection
      that was not told to close has no complete frame left. */
  lemma {:induction false} BufferIsBounded(chunks: seq<Bytes>)
    ensures |FeedAll(chunks).buffer| <= 1_048_576
    ensures !FeedAll(chunks).closed ==> ParseFrame(FeedAll(chunks).buffer) == NeedMore
  {
    if chunks != [] {
      BufferIsBounded(chunks[..|chunks| - 1]);
      DrainLeavesNothing(FeedAll(chunks[..|chunks| - 1]).buffer + chunks[|chunks| - 1]);
    }
  }

  lemma {:induction false} DrainLeavesNothing(b: Bytes)
    ensures !Drain(b).closed ==> ParseFrame(Drain(b).rest) == NeedMore
    decreases |b|
  {
    if ParseFrame(b).Frame? && ParseFrame(b).opcode != 0x8 {
      DrainLeavesNothing(b[ParseFrame(b).size..]);
    }
  }

  // ---- Printing then reading ----

  /** A frame with any opcode, masked or not. */
  datatype Sent = Unmasked(opcode: int, payload: Bytes) | Keyed(opcode: int, payload: Bytes, key: Bytes)

  predicate ValidSent(m: Sent) {
    0 <= m.opcode < 16 && |m.payload| <= 1_048_576 && (m.Keyed? ==> |m.key| == 4)
  }

  predicate AllValid(ms: seq<Sent>) { forall i :: 0 <= i < |ms| ==> ValidSent(ms[i]) }

  function Wire(m: Sent): Bytes
    requires ValidSent(m)
  {
    match m
    case Unmasked(opcode, payload) => WriteFrame(payload, opcode)
    case Keyed(opcode, payload, key) => WriteMasked(payload, opcode, key)
  }

  function WireAll(ms: seq<Sent>): Bytes
    requires AllValid(ms)
  {
    if ms == [] then [] else Wire(ms[0]) + WireAll(ms[1..])
  }

  /** What a connection makes of these frames: text (1) is delivered, a ping (9) is answered with a pong (10) of the
      same payload, a close (8) ends it with the rest unread, and all others are passed over. */
  function Understood(ms: seq<Sent>): Drained
    requires AllValid(ms)
  {
    if ms == [] then Drained([], [], false)
    else if ms[0].opcode == 8 then Drained([], WireAll(ms[1..]), true)
    else
      var more := Understood(ms[1..]);
      if ms[0].opcode == 1 then more.(outputs := [Delivered(ms[0].payload)] + more.outputs)
      else if ms[0].opcode == 9 then more.(outputs := [Written(Wire(Unmasked(10, ms[0].payload)))] + more.outputs)
      else more
  }

  /** Frames written one after the other, masked with any keys or not at all, are read back as exactly those frames, up
      to the first close. */
  lemma {:induction false} FramesReadBack(ms: seq<Sent>)
    requires AllValid(ms)
    ensures Drain(WireAll(ms)) == Understood(ms)
  {
    if ms == [] {
      ShortBuffer([]);
    } else {
      FramesReadBack(ms[1..]);
      OneFrame(ms[0], WireAll(ms[1..]));
    }
  }

  lemma OneFrame(m: Sent, rest: Bytes)
    requires ValidSent(m)
    ensures var more := Drain(rest);
            Drain(Wire(m) + rest)
            == if m.opcode == 8 then Drained([], rest, true)
               else more.(outputs := OutputsOf(m.opcode, m.payload) + more.outputs)
  {
    match m {
      case Unmasked(opcode, payload) => FrameReadsBack(payload, opcode, rest);
      case Keyed(opcode, payload, key) => MaskedReadsBack(payload, opcode, key, rest);
    }
    hide ParseFrame, WriteFrame, WriteMasked;
    assert (Wire(m) + rest)[|Wire(m)|..] == rest;
  }

  /** A frame that announces more than the limit ends the connection as soon as its header is there, with nothing put
      out; so does a chunk that does not fit into the buffer. */
  lemma OversizedCloses(length: nat, opcode: int, rest: Bytes, s: State, chunk: Bytes)
    requires 0 <= opcode < 16 && 1_048_576 < length < 0x1_0000_0000_0000_0000
    ensures Drain(CreateFrameHeader(length, opcode) + rest)
            == Drained([], CreateFrameHeader(length, opcode) + rest, true)
    ensures |s.buffer| + |chunk| > 1_048_576 ==>
              Feed(s, chunk) == State(s.buffer, true, if s.closed then s.effects else s.effects + [Ended])
  {
    hide BigEndian, ToBigEndian, Power;
    Power8();
    BigEndianRoundTrip(length, 8);
    var header := CreateFrameHeader(length, opcode);
    var b := header + rest;
    assert header[2..] == ToBigEndian(length, 8);
    assert b[0] == header[0] && b[1] == header[1] && b[2..10] == header[2..];
  }
}

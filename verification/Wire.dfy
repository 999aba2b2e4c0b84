/** Wire frames and the addressing header they carry. Values are turned into bytes by
    a codec that is given; all that is asked of it is that it reads back the header and
    the payload it wrote. */
module Wire {
  import opened Values

  type Byte = n: nat | n < 256

  type Word64 = n: nat | n <= U64_MAX

  const U32_MAX: nat := 0xFFFF_FFFF
  const FIXED_HEADER_SIZE: nat := 18
  const MAX_FRAME_SIZE: nat := 64 * 1024 * 1024

  datatype Codec = Codec(enc: Value -> seq<Byte>, dec: seq<Byte> -> Option<Value>)

  /** The codec reads back what it writes for this value. */
  predicate Carries(c: Codec, v: Value)
  {
    c.dec(c.enc(v)) == Some(v)
  }

  predicate CarriesFrame(c: Codec, f: Frame)
  {
    Carries(c, f.header) && Carries(c, f.payload)
  }

  datatype MsgType =
    | SendMsg | Monitor | Demonitor | Link | Unlink | Exit | ProcessDown | NameLookup | NameRegister | NameUnregister
    | Heartbeat | HeartbeatAck | NodeInfo | Swim

  datatype Frame = Frame(version: Byte, msgType: MsgType, requestId: Word64, header: Value, payload: Value)

  datatype FrameError =
    | InvalidMsgType(b: Byte)
    | TooShort(expected: nat, actual: nat)
    | TooLarge(declared: nat)
    | BadValue

  datatype Decoded = Ok(frame: Frame) | Err(error: FrameError)

  function ToByte(t: MsgType): Byte
  {
    match t
    case SendMsg => 0x01 case Monitor => 0x02 case Demonitor => 0x03 case Link => 0x04
    case Unlink => 0x05 case Exit => 0x06 case ProcessDown => 0x07 case NameLookup => 0x08
    case NameRegister => 0x09 case NameUnregister => 0x0A case Heartbeat => 0x0B
    case HeartbeatAck => 0x0C case NodeInfo => 0x0D case Swim => 0x0E
  }

  function FromByte(b: Byte): (t: Option<MsgType>)
    ensures t.Some? <==> 0x01 <= b <= 0x0E
    ensures t.Some? ==> ToByte(t.value) == b
  {
    match b
    case 0x01 => Some(SendMsg) case 0x02 => Some(Monitor) case 0x03 => Some(Demonitor) case 0x04 => Some(Link)
    case 0x05 => Some(Unlink) case 0x06 => Some(Exit) case 0x07 => Some(ProcessDown) case 0x08 => Some(NameLookup)
    case 0x09 => Some(NameRegister) case 0x0A => Some(NameUnregister) case 0x0B => Some(Heartbeat)
    case 0x0C => Some(HeartbeatAck) case 0x0D => Some(NodeInfo) case 0x0E => Some(Swim)
    case _ => None
  }

  /** The message types in the order of their numbers on the wire, from one. */
  const TYPES: seq<MsgType> := [
    SendMsg, Monitor, Demonitor, Link, Unlink, Exit, ProcessDown, NameLookup, NameRegister, NameUnregister,
    Heartbeat, HeartbeatAck, NodeInfo, Swim]

  lemma TypesAreNumbered(i: nat)
    requires i < |TYPES|
    ensures ToByte(TYPES[i]) == i + 1 && FromByte(i + 1) == Some(TYPES[i])
  {
    assert i in {0, 1, 2, 3, 4, 5, 6, 7, 8, 9, 10, 11, 12, 13};
  }

  // ---------------------------------------------------------------------------
  // Big-endian integers
  // ---------------------------------------------------------------------------

  function Span(width: nat): (r: nat)
    ensures r >= 1
  {
    if width == 0 then 1 else 256 * Span(width - 1)
  }

  /** The last `width` base-256 digits of `n`, most significant first. */
  function ToBe(n: nat, width: nat): (r: seq<Byte>)
    ensures |r| == width
  {
    if width == 0 then [] else ToBe(n / 256, width - 1) + [n % 256]
  }

  function FromBe(bs: seq<Byte>): (n: nat)
    ensures n < Span(|bs|)
  {
    if bs == [] then 0 else FromBe(bs[..|bs| - 1]) * 256 + bs[|bs| - 1]
  }

  lemma {:induction false} BeRoundTrip(n: nat, width: nat)
    requires n < Span(width)
    ensures FromBe(ToBe(n, width)) == n
    decreases width
  {
    if width > 0 {
      BeRoundTrip(n / 256, width - 1);
      var init := ToBe(n / 256, width - 1);
      assert (init + [n % 256])[..width - 1] == init;
    }
  }

  /** Earlier bytes weigh more: each byte after them scales them by 256. */
  lemma {:induction false} BePlaces(a: seq<Byte>, b: seq<Byte>)
    ensures FromBe(a + b) == FromBe(a) * Span(|b|) + FromBe(b)
    ensures |a| == 1 ==> FromBe(a) == a[0]
    decreases |b|
  {
    if |a| == 1 { assert a[..0] == []; }
    if b == [] {
      assert a + b == a;
    } else {
      var init, n := b[..|b| - 1], |b| - 1;
      BePlaces(a, init);
      assert (a + b)[..|a + b| - 1] == a + init;
      Scaled(FromBe(a), Span(n));
    }
  }

  lemma Scaled(x: nat, y: nat)
    ensures x * y * 256 == x * (256 * y)
  {
  }

  lemma Widths()
    ensures Span(4) == U32_MAX + 1 && Span(8) == U64_MAX + 1
  {
    assert Span(2) == 0x1_0000;
    assert Span(4) == 0x1_0000_0000;
    assert Span(6) == 0x1_0000_0000_0000;
  }

  // ---------------------------------------------------------------------------
  // Encoding and decoding
  // ---------------------------------------------------------------------------

  predicate Encodable(c: Codec, f: Frame)
  {
    |c.enc(f.header)| <= U32_MAX && |c.enc(f.payload)| <= U32_MAX
  }

  function Prefix(version: Byte, msgType: Byte, requestId: Word64, headerLen: nat, payloadLen: nat): (r: seq<Byte>)
    ensures |r| == FIXED_HEADER_SIZE
  {
    [version, msgType] + ToBe(requestId, 8) + ToBe(headerLen, 4) + ToBe(payloadLen, 4)
  }

  function Layout(c: Codec, f: Frame): seq<Byte>
  {
    Prefix(f.version, ToByte(f.msgType), f.requestId, |c.enc(f.header)|, |c.enc(f.payload)|)
    + c.enc(f.header) + c.enc(f.payload)
  }

  function Decode(c: Codec, bs: seq<Byte>): Decoded
  {
    if |bs| < FIXED_HEADER_SIZE then Err(TooShort(FIXED_HEADER_SIZE, |bs|)) else
      var msgType := FromByte(bs[1]);
      if msgType.None? then Err(InvalidMsgType(bs[1])) else
        Widths();
        var requestId: Word64 := FromBe(bs[2..10]);
        var headerLen, payloadLen := FromBe(bs[10..14]), FromBe(bs[14..18]);
        var declared := FIXED_HEADER_SIZE + headerLen + payloadLen;
        if declared > MAX_FRAME_SIZE then Err(TooLarge(declared))
        else if |bs| < declared then Err(TooShort(declared, |bs|)) else
          var start := FIXED_HEADER_SIZE + headerLen;
          var header := c.dec(bs[FIXED_HEADER_SIZE..start]);
          if header.None? then Err(BadValue) else
            var payload := c.dec(bs[start..start + payloadLen]);
            if payload.None? then Err(BadValue)
            else Ok(Frame(bs[0], msgType.value, requestId, header.value, payload.value))
  }

  /** Write a frame section by section. A section that does not fit its length field
      makes the original panic; here there is then no result. */
  method Encode(c: Codec, f: Frame) returns (out: Option<seq<Byte>>)
    ensures out == if Encodable(c, f) then Some(Layout(c, f)) else None
  {
    var header := c.enc(f.header);
    var payload := c.enc(f.payload);
    if |header| > U32_MAX || |payload| > U32_MAX {
      return None;
    }
    var buffer: seq<Byte> := [];
    buffer := buffer + [f.version];
    buffer := buffer + [ToByte(f.msgType)];
    buffer := buffer + ToBe(f.requestId, 8);
    buffer := buffer + ToBe(|header|, 4);
    buffer := buffer + ToBe(|payload|, 4);
    assert buffer == Prefix(f.version, ToByte(f.msgType), f.requestId, |header|, |payload|);
    buffer := buffer + header;
    buffer := buffer + payload;
    return Some(buffer);
  }

  lemma PrefixFields(version: Byte, msgType: Byte, requestId: Word64, headerLen: nat, payloadLen: nat, rest: seq<Byte>)
    requires headerLen <= U32_MAX && payloadLen <= U32_MAX
    ensures var bs := Prefix(version, msgType, requestId, headerLen, payloadLen) + rest;
            && bs[0] == version && bs[1] == msgType && FromBe(bs[2..10]) == requestId
            && FromBe(bs[10..14]) == headerLen && FromBe(bs[14..18]) == payloadLen
  {
    var bs := Prefix(version, msgType, requestId, headerLen, payloadLen) + rest;
    Widths();
    assert bs[2..10] == ToBe(requestId, 8);
    assert bs[10..14] == ToBe(headerLen, 4);
    assert bs[14..18] == ToBe(payloadLen, 4);
    BeRoundTrip(requestId, 8);
    BeRoundTrip(headerLen, 4);
    BeRoundTrip(payloadLen, 4);
  }

  /** Where everything sits in a frame's bytes. */
  lemma LayoutBytes(c: Codec, f: Frame)
    requires Encodable(c, f)
    ensures var bs, header, payload := Layout(c, f), c.enc(f.header), c.enc(f.payload);
            && |bs| == 18 + |header| + |payload| && bs[0] == f.version && bs[1] == ToByte(f.msgType)
            && FromBe(bs[2..10]) == f.requestId && FromBe(bs[10..14]) == |header| && FromBe(bs[14..18]) == |payload|
            && bs[18..18 + |header|] == header && bs[18 + |header|..] == payload
  {
    hide ToBe, FromBe, Prefix;
    var header, payload := c.enc(f.header), c.enc(f.payload);
    var prefix := Prefix(f.version, ToByte(f.msgType), f.requestId, |header|, |payload|);
    assert Layout(c, f) == prefix + (header + payload);
    PrefixFields(f.version, ToByte(f.msgType), f.requestId, |header|, |payload|, header + payload);
  }

  /** Decoding the bytes of a frame, whatever follows them, gives the frame back if and
      only if the frame is within the size limit. */
  lemma FrameRoundTrip(c: Codec, f: Frame, rest: seq<Byte>)
    requires CarriesFrame(c, f) && Encodable(c, f)
    ensures var size := |Layout(c, f)|;
            Decode(c, Layout(c, f) + rest) == if size <= MAX_FRAME_SIZE then Ok(f) else Err(TooLarge(size))
  {
    hide ToBe, FromBe, Prefix, FromByte, ToByte;
    var header, payload := c.enc(f.header), c.enc(f.payload);
    var prefix := Prefix(f.version, ToByte(f.msgType), f.requestId, |header|, |payload|);
    var bs := Layout(c, f) + rest;
    assert bs == prefix + (header + payload + rest);
    PrefixFields(f.version, ToByte(f.msgType), f.requestId, |header|, |payload|, header + payload + rest);
    TypeRoundTrip(f.msgType);
    var start := FIXED_HEADER_SIZE + |header|;
    assert bs[FIXED_HEADER_SIZE..start] == header;
    assert bs[start..start + |payload|] == payload;
  }

  lemma TypeRoundTrip(t: MsgType)
    ensures FromByte(ToByte(t)) == Some(t)
  {
  }

  /** Once there are enough bytes for a verdict, further bytes do not change it. */
  lemma TrailingBytesIgnored(c: Codec, bs: seq<Byte>, rest: seq<Byte>)
    requires !(Decode(c, bs).Err? && Decode(c, bs).error.TooShort?)
    ensures Decode(c, bs + rest) == Decode(c, bs)
  {
    hide FromBe, FromByte;
    var all := bs + rest;
    assert all[2..10] == bs[2..10] && all[10..14] == bs[10..14] && all[14..18] == bs[14..18];
    var headerLen, payloadLen := FromBe(bs[10..14]), FromBe(bs[14..18]);
    var start := FIXED_HEADER_SIZE + headerLen;
    if start + payloadLen <= |bs| {
      assert all[FIXED_HEADER_SIZE..start] == bs[FIXED_HEADER_SIZE..start];
      assert all[start..start + payloadLen] == bs[start..start + payloadLen];
    }
  }

  /** A frame cut short is never mistaken for a whole one. */
  lemma CutFrameIsTooShort(c: Codec, f: Frame, n: nat)
    requires Encodable(c, f) && |Layout(c, f)| <= MAX_FRAME_SIZE && n < |Layout(c, f)|
    ensures var cut := Decode(c, Layout(c, f)[..n]); cut.Err? && cut.error.TooShort?
  {
    hide ToBe, FromBe, Prefix, FromByte, ToByte;
    var header, payload, bs := c.enc(f.header), c.enc(f.payload), Layout(c, f);
    var prefix := Prefix(f.version, ToByte(f.msgType), f.requestId, |header|, |payload|);
    if n >= FIXED_HEADER_SIZE {
      var rest := (header + payload)[..n - FIXED_HEADER_SIZE];
      assert bs == prefix + (header + payload);
      assert bs[..n] == prefix + rest;
      PrefixFields(f.version, ToByte(f.msgType), f.requestId, |header|, |payload|, rest);
      TypeRoundTrip(f.msgType);
    }
  }

  /** Two frames whose bytes start the same stream are the same frame. */
  lemma StreamsDetermineFrames(c: Codec, f: Frame, g: Frame, x: seq<Byte>, y: seq<Byte>)
    requires CarriesFrame(c, f) && CarriesFrame(c, g) && Encodable(c, f) && Encodable(c, g)
    requires |Layout(c, f)| <= MAX_FRAME_SIZE && |Layout(c, g)| <= MAX_FRAME_SIZE
    requires Layout(c, f) + x == Layout(c, g) + y
    ensures f == g && x == y
  {
    hide Layout, Decode;
    FrameRoundTrip(c, f, x);
    FrameRoundTrip(c, g, y);
    var n := |Layout(c, f)|;
    assert (Layout(c, f) + x)[n..] == x && (Layout(c, g) + y)[n..] == y;
  }

  // ---------------------------------------------------------------------------
  // Addressing
  // ---------------------------------------------------------------------------

  datatype ProcessId = ProcessId(node: Word64, local: Word64)

  /** What reaches the destination's mailbox. */
  datatype Delivery = Deliver(from: ProcessId, to: ProcessId, payload: Value) | Malformed

  function SendFrame(from: ProcessId, to: ProcessId, payload: Value): Frame
  {
    Frame(1, SendMsg, 0,
          Table([(Text("from_node"), Integer(from.node)), (Text("from_local"), Integer(from.local)),
                 (Text("to_node"), Integer(to.node)), (Text("to_local"), Integer(to.local))]),
          payload)
  }

  predicate IsWord(v: Value)
  {
    v.Integer? && v.n <= U64_MAX
  }

  predicate IsAddressKey(v: Value)
  {
    v in {Text("from_node"), Text("from_local"), Text("to_node"), Text("to_local")}
  }

  /** Some addressing field does not hold an unsigned word. */
  ghost predicate BadAddress(pairs: seq<(Value, Value)>)
  {
    exists i :: 0 <= i < |pairs| && IsAddressKey(pairs[i].0) && !IsWord(pairs[i].1)
  }

  /** The last value given for a key, and zero if there is none. */
  function Field(pairs: seq<(Value, Value)>, key: string): Word64
  {
    if pairs == [] then 0
    else
      var (k, v) := pairs[|pairs| - 1];
      if k == Text(key) && IsWord(v) then v.n else Field(pairs[..|pairs| - 1], key)
  }

  /** Read the addresses off a frame's header. */
  method DeliverInbound(f: Frame) returns (d: Delivery)
    ensures d.Malformed? <==> !f.header.Table? || BadAddress(f.header.pairs)
    ensures d.Deliver? ==>
              && d.from == ProcessId(Field(f.header.pairs, "from_node"), Field(f.header.pairs, "from_local"))
              && d.to == ProcessId(Field(f.header.pairs, "to_node"), Field(f.header.pairs, "to_local"))
              && d.payload == f.payload
  {
    if !f.header.Table? {
      return Malformed;
    }
    var pairs := f.header.pairs;
    var fromNode, fromLocal, toNode, toLocal: Word64 := 0, 0, 0, 0;
    for i := 0 to |pairs|
      invariant forall j :: 0 <= j < i && IsAddressKey(pairs[j].0) ==> IsWord(pairs[j].1)
      invariant fromNode == Field(pairs[..i], "from_node") && fromLocal == Field(pairs[..i], "from_local")
      invariant toNode == Field(pairs[..i], "to_node") && toLocal == Field(pairs[..i], "to_local")
    {
      assert pairs[..i + 1][..i] == pairs[..i];
      var (key, value) := pairs[i];
      if !IsAddressKey(key) {
        continue;
      }
      if !IsWord(value) {
        return Malformed;
      }
      match key.s {
        case "from_node" => fromNode := value.n;
        case "from_local" => fromLocal := value.n;
        case "to_node" => toNode := value.n;
        case _ => toLocal := value.n;
      }
    }
    assert pairs[..|pairs|] == pairs;
    return Deliver(ProcessId(fromNode, fromLocal), ProcessId(toNode, toLocal), f.payload);
  }

  lemma SendFrameFields(from: ProcessId, to: ProcessId, payload: Value)
    ensures var f := SendFrame(from, to, payload); f.msgType == SendMsg && f.version == 1 && f.requestId == 0 && f.payload == payload
    ensures var pairs := SendFrame(from, to, payload).header.pairs;
            && !BadAddress(pairs)
            && Field(pairs, "from_node") == from.node && Field(pairs, "from_local") == from.local
            && Field(pairs, "to_node") == to.node && Field(pairs, "to_local") == to.local
  {
    var p1 := [(Text("from_node"), Integer(from.node))];
    var p2 := p1 + [(Text("from_local"), Integer(from.local))];
    var p3 := p2 + [(Text("to_node"), Integer(to.node))];
    var p4 := p3 + [(Text("to_local"), Integer(to.local))];
    assert p4 == SendFrame(from, to, payload).header.pairs;
    assert p4[..3] == p3 && p3[..2] == p2 && p2[..1] == p1;
    assert |"from_node"| == 9 && |"from_local"| == 10 && |"to_node"| == 7 && |"to_local"| == 8;
    assert Field(p2, "from_node") == from.node && Field(p2, "from_local") == from.local;
    assert Field(p3, "from_node") == from.node && Field(p3, "from_local") == from.local;
  }

  /** Sending a message through the wire: built, encoded, decoded from a stream and
      delivered, it arrives with the same sender, destination and payload. */
  method SendOverWire(c: Codec, from: ProcessId, to: ProcessId, payload: Value, rest: seq<Byte>) returns (d: Delivery)
    requires CarriesFrame(c, SendFrame(from, to, payload)) && Encodable(c, SendFrame(from, to, payload))
    requires |Layout(c, SendFrame(from, to, payload))| <= MAX_FRAME_SIZE
    ensures d == Deliver(from, to, payload)
  {
    hide Layout, Decode, Field;
    var f := SendFrame(from, to, payload);
    var bytes := Encode(c, f);
    FrameRoundTrip(c, f, rest);
    var decoded := Decode(c, bytes.value + rest);
    SendFrameFields(from, to, payload);
    d := DeliverInbound(decoded.frame);
  }
}

/** The 20-byte network header, the frames of the six opcodes, and the classifier that tells
    them from other traffic. */
module L3Codec {
  import opened Prelude
  import opened Frames
  import opened WireCalls

  const HEADER_LEN := 20

  /** None stands for the exception on a callsign with a malformed SSID. The last address of the
      header carries the end-of-address bit. */
  function EncodeHeader(h: L3Header): (w: Option<seq<byte>>)
    ensures w.Some? ==> |w.value| == HEADER_LEN
  {
    match (EncodeWireCall(h.originCall), EncodeWireCall(h.destCall))
    case (Some(origin), Some(dest)) =>
      Some(origin + dest[..6] + [dest[6] / 2 * 2 + 1]
           + [h.ttl, h.circuitIdx, h.circuitId, h.txSeq, h.rxSeq, h.opcodeFlags])
    case _ => None
  }

  method EncodeL3Header(h: L3Header) returns (w: Option<seq<byte>>)
    ensures w == EncodeHeader(h)
  {
    hide EncodeWireCall;
    var origin := EncodeWireCall(h.originCall);
    if origin.None? {
      return None;
    }
    var out := origin.value;
    var dest := EncodeWireCall(h.destCall);
    if dest.None? {
      return None;
    }
    out := out + dest.value;
    out := out[13 := out[13] / 2 * 2 + 1];
    ghost var addresses := out;
    assert addresses == origin.value + dest.value[..6] + [dest.value[6] / 2 * 2 + 1];
    out := out + [h.ttl];
    out := out + [h.circuitIdx];
    out := out + [h.circuitId];
    out := out + [h.txSeq];
    out := out + [h.rxSeq];
    out := out + [h.opcodeFlags];
    assert out == addresses + [h.ttl, h.circuitIdx, h.circuitId, h.txSeq, h.rxSeq, h.opcodeFlags];
    w := Some(out);
  }

  function DecodeHeader(data: seq<byte>): Option<L3Header>
  {
    if |data| < HEADER_LEN then None
    else Some(L3Header(DecodeWireCall(data[0..7]), DecodeWireCall(data[7..14]),
                       data[14], data[15], data[16], data[17], data[18], data[19]))
  }

  function ConnectRequestTail(window: byte, user: string, origin: string): Option<seq<byte>>
  {
    match (EncodeWireCall(user), EncodeWireCall(origin))
    case (Some(u), Some(o)) => Some([window] + u + o)
    case _ => None
  }

  /** The bytes the node sends for a frame: the header, then the tail of its opcode. */
  function EncodeFrame(f: L3Frame): Option<seq<byte>>
  {
    var tail := match f
      case ConnectRequest(_, window, user, origin) => ConnectRequestTail(window, user, origin)
      case ConnectAck(_, window, _) => Some([window])
      case Information(_, info) => Some(info)
      case Disconnect(_) => Some([])
      case InformationAck(_) => Some([]);
    match (EncodeHeader(f.header), tail)
    case (Some(h), Some(t)) => Some(h + t)
    case _ => None
  }

  function DecodeRequest(h: L3Header, rest: seq<byte>): Option<L3Frame>
  {
    if |rest| < 1 + ADDR_LEN + ADDR_LEN then None
    else if !(WireCallIsValid(rest[1..8]) && WireCallIsValid(rest[8..15])) then None
    else Some(ConnectRequest(h, rest[0], DecodeWireCall(rest[1..8]), DecodeWireCall(rest[8..15])))
  }

  function DecodeFrame(data: seq<byte>): Option<L3Frame>
  {
    match DecodeHeader(data)
    case None => None
    case Some(h) =>
      var rest := data[HEADER_LEN..];
      var op := h.Opcode();
      if op == OPCODE_CONNECT_REQ then DecodeRequest(h, rest)
      else if op == OPCODE_CONNECT_ACK then
        if |rest| < 1 then None else Some(ConnectAck(h, rest[0], h.Choke()))
      else if op == OPCODE_INFORMATION then Some(Information(h, rest))
      else if op == OPCODE_INFORMATION_ACK then Some(InformationAck(h))
      else if op == OPCODE_DISCONNECT_REQ || op == OPCODE_DISCONNECT_ACK then Some(Disconnect(h))
      else None
  }

  /** Callsign characters in both addresses, reserved SSID bits clear, a plausible hop count and
      a known opcode. */
  predicate LooksLikeL3(data: seq<byte>)
  {
    && |data| >= HEADER_LEN
    && WireCallIsValid(data[..7])
    && data[6] % 2 == 0 && data[6] < 0x20
    && WireCallIsValid(data[7..14])
    && data[13] < 0x20
    && 1 <= data[14] <= 64
    && 1 <= data[19] % 8 <= 6
  }

  method LooksLikeNetromL3(data: seq<byte>) returns (ok: bool)
    ensures ok == LooksLikeL3(data)
  {
    if |data| < HEADER_LEN {
      return false;
    }
    for i := 0 to 6
      invariant forall k :: 0 <= k < i ==> IsNetromChar(data[k] / 2)
    {
      if !IsNetromChar(data[i] / 2) {
        assert !WireCallIsValid(data[..7]) by { assert data[..7][i] == data[i]; }
        return false;
      }
    }
    if data[6] % 2 != 0 || data[6] >= 0x20 {
      return false;
    }
    for i := 7 to 13
      invariant forall k :: 7 <= k < i ==> IsNetromChar(data[k] / 2)
    {
      if !IsNetromChar(data[i] / 2) {
        assert !WireCallIsValid(data[7..14]) by { assert data[7..14][i - 7] == data[i]; }
        return false;
      }
    }
    return data[13] < 0x20 && 1 <= data[14] <= 64 && 1 <= data[19] % 8 <= 6;
  }

  // ---------- Round trips ----------

  ghost predicate CanonicalHeader(h: L3Header)
  {
    Canonical(h.originCall) && Canonical(h.destCall)
  }

  /** The variant, and its refusal mark, are what the header's opcode byte says. */
  predicate Tagged(f: L3Frame)
  {
    var op := f.header.Opcode();
    match f
    case ConnectRequest(_, _, _, _) => op == OPCODE_CONNECT_REQ
    case ConnectAck(h, _, refused) => op == OPCODE_CONNECT_ACK && refused == h.Choke()
    case Disconnect(_) => op == OPCODE_DISCONNECT_REQ || op == OPCODE_DISCONNECT_ACK
    case Information(_, _) => op == OPCODE_INFORMATION
    case InformationAck(_) => op == OPCODE_INFORMATION_ACK
  }

  ghost predicate CanonicalFrame(f: L3Frame)
  {
    && CanonicalHeader(f.header) && Tagged(f)
    && (f.ConnectRequest? ==> Canonical(f.userCall) && Canonical(f.originNodeCall))
  }

  /** The end-of-address bit does not disturb the callsign. */
  lemma EndBitIgnored(w: seq<byte>)
    requires |w| == ADDR_LEN && w[6] % 2 == 0
    ensures DecodeWireCall(w[..6] + [w[6] / 2 * 2 + 1]) == DecodeWireCall(w)
    ensures WireCallIsValid(w[..6] + [w[6] / 2 * 2 + 1]) == WireCallIsValid(w)
  {
    assert (w[..6] + [w[6] / 2 * 2 + 1])[..6] == w[..6];
    assert (w[6] / 2 * 2 + 1) / 2 == w[6] / 2;
  }

  lemma HeaderRoundTrip(h: L3Header, tail: seq<byte>)
    requires CanonicalHeader(h)
    ensures EncodeHeader(h).Some?
    ensures var w := EncodeHeader(h).value + tail;
      DecodeHeader(w) == Some(h) && w[HEADER_LEN..] == tail
      && WireCallIsValid(w[..7]) && WireCallIsValid(w[7..14]) && w[6] % 2 == 0 && w[6] < 0x20 && w[13] < 0x20
      && w[14] == h.ttl && w[19] == h.opcodeFlags
  {
    CallRoundTrip(h.originCall);
    CallRoundTrip(h.destCall);
    var origin, dest := EncodeWireCall(h.originCall).value, EncodeWireCall(h.destCall).value;
    EndBitIgnored(dest);
    hide Canonical, EncodeWireCall, DecodeWireCall, WireCallIsValid;
    var w := EncodeHeader(h).value + tail;
    assert w[0..7] == origin && w[..7] == origin;
    assert w[7..14] == dest[..6] + [dest[6] / 2 * 2 + 1];
  }

  lemma RequestRoundTrip(h: L3Header, window: byte, user: string, origin: string)
    requires Canonical(user) && Canonical(origin)
    ensures ConnectRequestTail(window, user, origin).Some?
    ensures DecodeRequest(h, ConnectRequestTail(window, user, origin).value)
            == Some(ConnectRequest(h, window, user, origin))
  {
    CallRoundTrip(user);
    CallRoundTrip(origin);
    var u, o := EncodeWireCall(user).value, EncodeWireCall(origin).value;
    hide Canonical, EncodeWireCall, DecodeWireCall, WireCallIsValid;
    var rest := [window] + u + o;
    assert rest[1..8] == u && rest[8..15] == o;
  }

  /** The header decides the variant; the tail fills it. */
  lemma DecodeParts(f: L3Frame, tail: seq<byte>)
    requires CanonicalFrame(f) && EncodeHeader(f.header).Some?
    requires match f
      case ConnectRequest(h, window, user, origin) => Some(tail) == ConnectRequestTail(window, user, origin)
      case ConnectAck(_, window, _) => tail == [window]
      case Information(_, info) => tail == info
      case _ => tail == []
    ensures DecodeFrame(EncodeHeader(f.header).value + tail) == Some(f)
  {
    hide EncodeHeader, DecodeHeader, ConnectRequestTail, DecodeRequest, Canonical;
    HeaderRoundTrip(f.header, tail);
    if f.ConnectRequest? {
      RequestRoundTrip(f.header, f.proposedWindow, f.userCall, f.originNodeCall);
    }
  }

  /** Every frame of the six opcodes, under every flag combination, comes back as it was. */
  lemma FrameRoundTrip(f: L3Frame)
    requires CanonicalFrame(f)
    ensures EncodeFrame(f).Some? && DecodeFrame(EncodeFrame(f).value) == Some(f)
  {
    hide EncodeHeader, DecodeFrame, Canonical, ConnectRequestTail, Tagged;
    HeaderRoundTrip(f.header, []);
    match f
    case ConnectRequest(h, window, user, origin) =>
      RequestRoundTrip(h, window, user, origin);
      DecodeParts(f, ConnectRequestTail(window, user, origin).value);
    case ConnectAck(_, window, _) => DecodeParts(f, [window]);
    case Information(_, info) => DecodeParts(f, info);
    case _ => DecodeParts(f, []);
  }

  /** The classifier accepts a frame the node sent exactly when its hop count is plausible. */
  lemma OwnFramesAreRecognised(f: L3Frame)
    requires CanonicalFrame(f)
    ensures EncodeFrame(f).Some?
    ensures LooksLikeL3(EncodeFrame(f).value) <==> 1 <= f.header.ttl <= 64
  {
    hide EncodeHeader, DecodeHeader, Canonical, ConnectRequestTail, DecodeFrame, WireCallIsValid;
    FrameRoundTrip(f);
    HeaderRoundTrip(f.header, EncodeFrame(f).value[HEADER_LEN..]);
    var w := EncodeFrame(f).value;
    assert w == EncodeHeader(f.header).value + w[HEADER_LEN..];
  }

  /** Text that only looks like a connect request opens no circuit: a decoded request always
      carries callsign characters alone. */
  lemma OnlyCallsignsConnect(data: seq<byte>)
    requires DecodeFrame(data).Some? && DecodeFrame(data).value.ConnectRequest?
    ensures |data| >= 35 && WireCallIsValid(data[21..28]) && WireCallIsValid(data[28..35])
    ensures DecodeFrame(data).value.userCall == DecodeWireCall(data[21..28])
  {
    var rest := data[HEADER_LEN..];
    assert rest[1..8] == data[21..28] && rest[8..15] == data[28..35];
  }
}

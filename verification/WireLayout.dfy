/** The bytes on the wire, one by one: where each field of a NODES broadcast, of a NET/ROM frame, of
    an AX.25 UI frame and of a KISS frame stands, and what the classifier lets through. */
module WireLayout {
  import opened Prelude
  import opened Frames
  import opened WireCalls
  import opened RouterTables
  import Nodes = NodesCodec
  import L3 = L3Codec
  import Ax = Ax25Ui
  import Kiss = KissFrame

  // ---------- Callsigns and aliases ----------

  /** Six characters of a callsign from `at` on, each shifted left by one and padded with spaces. */
  predicate CharsAt(w: seq<byte>, at: nat, base: string)
  {
    && at + 6 <= |w| && |base| <= 6
    && forall j :: 0 <= j < 6 ==> w[at + j] as int == 2 * if j < |base| then base[j] as int else 32
  }

  /** A NET/ROM callsign: the characters, then the SSID shifted, and in bit 0 whether it is the last
      address; the bits above are clear. */
  ghost predicate CallAt(w: seq<byte>, at: nat, call: string, last: bool)
  {
    exists base, ssid: nat ::
      && HasParts(call, base, ssid) && CharsAt(w, at, base)
      && at + 7 <= |w| && w[at + 6] as int == 2 * ssid + if last then 1 else 0
  }

  predicate AliasAt(w: seq<byte>, at: nat, alias: string)
  {
    && at + 6 <= |w| && |alias| <= 6
    && forall j :: 0 <= j < 6 ==> w[at + j] as int == if j < |alias| then alias[j] as int else 32
  }

  lemma EncodedCallAt(call: string) returns (w: seq<byte>)
    requires Canonical(call)
    ensures EncodeWireCall(call) == Some(w) && |w| == 7 && CallAt(w, 0, call, false)
  {
    hide EncodeWireCall, WireAddress, CallText, BaseOk, CharsAt, Decimal;
    var base, ssid :| HasParts(call, base, ssid);
    EncodedParts(base, ssid);
    w := WireAddress(base, ssid);
    AddressIs(base, ssid);
    assert HasParts(call, base, ssid);
  }

  lemma AddressIs(base: string, ssid: nat)
    requires BaseOk(base) && ssid < 16
    ensures var w := WireAddress(base, ssid); CharsAt(w, 0, base) && w[6] == 2 * ssid
  {
    var w := WireAddress(base, ssid);
    assert w[..6] == WireChars(Padded(base, 6));
    CharsOf(base, w);
    hide CharsAt, WireChars, Padded, BaseOk;
  }

  lemma CharsOf(base: string, w: seq<byte>)
    requires BaseOk(base) && |w| >= 6 && w[..6] == WireChars(Padded(base, 6))
    ensures CharsAt(w, 0, base)
  {
    forall j | 0 <= j < 6 ensures w[j] as int == 2 * if j < |base| then base[j] as int else 32 {
      assert w[j] == w[..6][j] == WireChar(Padded(base, 6)[j]);
    }
  }

  lemma EncodedAliasAt(alias: string)
    requires AliasOk(alias)
    ensures AliasAt(EncodeAlias(alias), 0, alias)
  {
    UpperKeeps(alias);
  }

  lemma CallMoves(w: seq<byte>, v: seq<byte>, at: nat, call: string)
    requires |w| == 7 && CallAt(w, 0, call, false) && at + 7 <= |v| && v[at..at + 7] == w
    ensures CallAt(v, at, call, false)
  {
    var base, ssid: nat :| HasParts(call, base, ssid) && CharsAt(w, 0, base) && w[6] as int == 2 * ssid;
    SliceAt(w, v, at);
    hide HasParts;
    assert CharsAt(v, at, base);
  }

  lemma SliceAt(w: seq<byte>, v: seq<byte>, at: nat)
    requires at + |w| <= |v| && v[at..at + |w|] == w
    ensures forall j :: 0 <= j < |w| ==> w[j] == v[at + j]
  {
    forall j | 0 <= j < |w| ensures w[j] == v[at + j] {
      assert v[at..at + |w|][j] == v[at + j];
    }
  }

  lemma AliasMoves(w: seq<byte>, v: seq<byte>, at: nat, alias: string)
    requires |w| == 6 && AliasAt(w, 0, alias) && at + 6 <= |v| && v[at..at + 6] == w
    ensures AliasAt(v, at, alias)
  {
    SliceAt(w, v, at);
  }

  /** What the decoder makes of a callsign's characters: it leaves out NULs and spaces and keeps every
      other, in order. */
  lemma {:induction false} DecodedChars(a: seq<byte>, b: seq<byte>)
    ensures CallChars(a + b) == CallChars(a) + CallChars(b)
    ensures |a| == 1 ==> CallChars(a) == if a[0] as int in {0, 1, 64, 65} then [] else [(a[0] / 2) as char]
  {
    if a == [] {
      assert a + b == b;
    } else {
      assert (a + b)[1..] == a[1..] + b;
      DecodedChars(a[1..], b);
    }
  }

  /** What a callsign on the wire reads as: its characters, and an SSID after a dash unless that is 0. */
  lemma DecodedCall(w: seq<byte>)
    requires |w| == 7
    ensures var ssid := w[6] / 2 % 16;
      DecodeWireCall(w) == if ssid == 0 then CallChars(w[..6]) else CallChars(w[..6]) + "-" + Decimal(ssid)
  {
    hide CallChars, Decimal;
  }

  /** One to six of A-Z 0-9, alone or with a dash and an SSID of 1 to 15. */
  predicate SpeltAs(s: string, base: string, ssid: nat)
  {
    && 1 <= |base| <= 6 && (forall i :: 0 <= i < |base| ==> 'A' <= base[i] <= 'Z' || '0' <= base[i] <= '9')
    && (if ssid == 0 then s == base else 1 <= ssid <= 15 && s == base + "-" + Decimal(ssid))
  }

  /** Canonical callsigns, spelled out. */
  lemma CanonicalIff(s: string)
    ensures Canonical(s) <==> exists base, ssid: nat :: SpeltAs(s, base, ssid)
  {
    hide Decimal;
    if Canonical(s) {
      var base, ssid: nat :| HasParts(s, base, ssid);
      assert SpeltAs(s, base, ssid);
    }
    if base, ssid: nat :| SpeltAs(s, base, ssid) {
      assert HasParts(s, base, ssid);
    }
  }

  /** Numbers are written without leading zeros. */
  lemma {:induction false} NoLeadingZero(n: nat)
    ensures Decimal(n)[0] == '0' <==> n == 0
    ensures n < 10 ==> |Decimal(n)| == 1
  {
    if n >= 10 {
      NoLeadingZero(n / 10);
    }
  }

  /** Any alias on the wire: in upper case, cut or padded to six, a question mark for what is no ASCII. */
  lemma EncodedAliasBytes(alias: string, j: nat)
    requires j < 6
    ensures EncodeAlias(alias)[j] as int ==
      if j >= |alias| then 32 else if Upper(alias)[j] as int < 128 then Upper(alias)[j] as int else 63
  {
  }

  /** Any six bytes read as an alias: character by character, the replacement character for what is no
      ASCII, and no white space at the end. */
  lemma DecodedAlias(data: seq<byte>) returns (back: string)
    requires |data| == 6
    ensures |DecodeAlias(data)| + |back| == 6 && (DecodeAlias(data) != [] ==> !IsSpace(DecodeAlias(data)[|DecodeAlias(data)| - 1]))
    ensures forall i :: 0 <= i < |DecodeAlias(data)| ==>
      DecodeAlias(data)[i] == if data[i] < 128 then data[i] as char else '\U{FFFD}'
    ensures forall i :: 0 <= i < |back| ==>
      IsSpace(back[i]) && |DecodeAlias(data)| + i < 6 && back[i] == data[|DecodeAlias(data)| + i] as char
  {
    var text := AsciiText(data);
    RStripIs(text);
    back := text[|RStrip(text)|..];
    RStripDropsSpaces(text);
  }

  lemma {:induction false} RStripDropsSpaces(s: string)
    ensures |RStrip(s)| <= |s| && forall i :: |RStrip(s)| <= i < |s| ==> IsSpace(s[i])
  {
    if s != [] && IsSpace(s[|s| - 1]) {
      RStripDropsSpaces(s[..|s| - 1]);
    }
  }

  /** An encoder fails on a callsign if and only if it has a dash and what follows the last one is no
      number. */
  lemma EncodeFailsIff(addr: string)
    ensures EncodeWireCall(addr) == None <==>
      exists d :: 0 <= d < |addr| && addr[d] == '-' && (forall j :: d < j < |addr| ==> addr[j] != '-')
                  && (d + 1 == |addr| || exists j :: d < j < |addr| && !IsDigit(addr[j]))
  {
    var up := Upper(addr);
    LastDashIs(up);
    var d := LastDash(up);
    hide LastDash, ParseInt, WireAddress;
    assert forall i :: 0 <= i < |addr| ==> (up[i] == '-' <==> addr[i] == '-') && (IsDigit(up[i]) <==> IsDigit(addr[i]));
    if d < |up| {
      ParseFailsIff(up[d + 1..]);
      assert forall j :: d < j < |addr| ==> up[d + 1..][j - d - 1] == up[j];
      if EncodeWireCall(addr) == None {
        assert addr[d] == '-';
      }
    }
  }

  lemma {:induction false} LastDashIs(s: string)
    ensures forall j :: LastDash(s) < j < |s| ==> s[j] != '-'
    ensures LastDash(s) == |s| ==> '-' !in s
  {
    if s != [] {
      LastDashIs(s[..|s| - 1]);
      assert s == s[..|s| - 1] + [s[|s| - 1]];
    }
  }

  lemma {:induction false} ParseFailsIff(s: string)
    ensures ParseInt(s) == None <==> s == [] || exists j :: 0 <= j < |s| && !IsDigit(s[j])
  {
    if |s| > 1 {
      var n := |s| - 1;
      ParseFailsIff(s[..n]);
      if j :| 0 <= j < |s| && !IsDigit(s[j]) {
        if j < n {
          assert s[..n][j] == s[j];
        }
      }
    }
  }

  // ---------- NODES broadcasts ----------

  /** Entry i of a broadcast, 21 bytes after the 7 of the header: destination, alias, next hop,
      quality. */
  ghost predicate EntryAt(w: seq<byte>, i: nat, e: NodeEntry)
  {
    var at := 7 + 21 * i;
    && at + 21 <= |w| && CallAt(w, at, e.destCall, false) && AliasAt(w, at + 7, e.alias)
    && CallAt(w, at + 13, e.neighborCall, false) && w[at + 20] == e.quality
  }

  lemma {:induction false} EntriesAt(es: seq<NodeEntry>, i: nat)
    requires Nodes.EncodeEntries(es).Some? && i < |es|
    ensures Nodes.EncodeEntry(es[i]).Some?
    ensures Nodes.EncodeEntries(es).value[21 * i..21 * i + 21] == Nodes.EncodeEntry(es[i]).value
  {
    hide Nodes.EncodeEntry, Nodes.EncodeEntries;
    var n := |es| - 1;
    EntriesSplit(es);
    var front, last := Nodes.EncodeEntries(es[..n]).value, Nodes.EncodeEntry(es[n]).value;
    if i < n {
      EntriesAt(es[..n], i);
      assert (front + last)[21 * i..21 * i + 21] == front[21 * i..21 * i + 21];
    } else {
      assert (front + last)[21 * n..21 * n + 21] == last;
    }
  }

  lemma EntriesSplit(es: seq<NodeEntry>)
    requires es != [] && Nodes.EncodeEntries(es).Some?
    ensures var n := |es| - 1;
      && Nodes.EncodeEntries(es[..n]).Some? && Nodes.EncodeEntry(es[n]).Some?
      && Nodes.EncodeEntries(es).value == Nodes.EncodeEntries(es[..n]).value + Nodes.EncodeEntry(es[n]).value
  {
    hide Nodes.EncodeEntry;
  }

  lemma SubSlice(w: seq<byte>, at: nat, v: seq<byte>, lo: nat, hi: nat)
    requires at + |v| <= |w| && w[at..at + |v|] == v && lo <= hi <= |v|
    ensures w[at + lo..at + hi] == v[lo..hi]
  {
    SliceAt(v, w, at);
    forall k | 0 <= k < hi - lo ensures w[at + lo..at + hi][k] == v[lo..hi][k] {
      assert v[lo + k] == w[at + (lo + k)];
    }
  }

  lemma EncodedEntry(e: NodeEntry, w: seq<byte>, i: nat)
    requires Nodes.CanonicalEntry(e) && Nodes.EncodeEntry(e).Some?
    requires 28 + 21 * i <= |w| && w[7 + 21 * i..28 + 21 * i] == Nodes.EncodeEntry(e).value
    ensures EntryAt(w, i, e)
  {
    hide EncodeWireCall, CallAt, Canonical, EncodeAlias, AliasAt;
    var at := 7 + 21 * i;
    var dest := EncodedCallAt(e.destCall);
    var neighbor := EncodedCallAt(e.neighborCall);
    EncodedAliasAt(e.alias);
    var v := Nodes.EncodeEntry(e).value;
    assert v == dest + EncodeAlias(e.alias) + neighbor + [e.quality];
    assert v[0..7] == dest && v[7..13] == EncodeAlias(e.alias) && v[13..20] == neighbor && v[20] == e.quality;
    SubSlice(w, at, v, 0, 7);
    SubSlice(w, at, v, 7, 13);
    SubSlice(w, at, v, 13, 20);
    SliceAt(v, w, at);
    CallMoves(dest, w, at, e.destCall);
    AliasMoves(EncodeAlias(e.alias), w, at + 7, e.alias);
    CallMoves(neighbor, w, at + 13, e.neighborCall);
  }

  /** A broadcast, byte by byte. */
  lemma NodesBytes(alias: string, es: seq<NodeEntry>, i: nat)
    requires AliasOk(alias) && Nodes.AllCanonical(es)
    ensures Nodes.EncodeNodes(alias, es).Some?
    ensures var w := Nodes.EncodeNodes(alias, es).value;
      |w| == 7 + 21 * |es| && w[0] == 0xFF && AliasAt(w, 1, alias) && (i < |es| ==> EntryAt(w, i, es[i]))
  {
    hide EncodeAlias, AliasAt, EntryAt, Nodes.EncodeEntries, Nodes.EncodeEntry, Nodes.CanonicalEntry, Nodes.DecodeNodes, AliasOk,
         Nodes.EncodeNodes;
    Nodes.NodesRoundTrip("", alias, es);
    var w := Nodes.EncodeNodes(alias, es).value;
    NodesParts(alias, es);
    EncodedAliasAt(alias);
    AliasMoves(EncodeAlias(alias), w, 1, alias);
    if i < |es| {
      EntriesAt(es, i);
      OneEntryOf(w, Nodes.EncodeEntries(es).value, i);
      assert Nodes.CanonicalEntry(es[i]);
      EncodedEntry(es[i], w, i);
    }
  }

  lemma OneEntryOf(w: seq<byte>, body: seq<byte>, i: nat)
    requires |w| >= 7 && w[7..] == body && 21 * i + 21 <= |body|
    ensures w[7 + 21 * i..28 + 21 * i] == body[21 * i..21 * i + 21]
  {
  }

  lemma NodesParts(alias: string, es: seq<NodeEntry>)
    requires Nodes.EncodeNodes(alias, es).Some?
    ensures Nodes.EncodeEntries(es).Some?
    ensures var w := Nodes.EncodeNodes(alias, es).value;
      |w| >= 7 && w[0] == 0xFF && w[1..7] == EncodeAlias(alias) && w[7..] == Nodes.EncodeEntries(es).value
  {
    hide EncodeAlias, Nodes.EncodeEntries;
  }

  /** What is taken for a broadcast: seven bytes or more, the first of them 0xFF. */
  lemma NodesRecognisedIff(src: string, payload: seq<byte>)
    ensures Nodes.DecodeNodes(src, payload).Some? <==> |payload| >= 7 && payload[0] == 0xFF
  {
  }

  /** ... and each full 21 bytes of it are one entry, unless its destination is blank. */
  lemma {:induction false} NodesDecodedAt(payload: seq<byte>, n: nat)
    requires |payload| >= 21 * n + 21
    ensures var c := payload[21 * n..21 * n + 21];
      var e := NodeEntry(DecodeWireCall(c[0..7]), DecodeAlias(c[7..13]), DecodeWireCall(c[13..20]), c[20]);
      Nodes.DecodeEntries(payload[21 * n..])
      == (if e.destCall == [] then [] else [e]) + Nodes.DecodeEntries(payload[21 * n + 21..])
  {
    hide DecodeWireCall, DecodeAlias;
    var rest := payload[21 * n..];
    assert rest[..21] == payload[21 * n..21 * n + 21] && rest[21..] == payload[21 * n + 21..];
    assert rest[..21][..7] == rest[..21][0..7];
  }

  // ---------- NET/ROM frames ----------

  ghost predicate HeaderAt(w: seq<byte>, h: L3Header)
  {
    && |w| >= 20 && CallAt(w, 0, h.originCall, false) && CallAt(w, 7, h.destCall, true)
    && w[14] == h.ttl && w[15] == h.circuitIdx && w[16] == h.circuitId
    && w[17] == h.txSeq && w[18] == h.rxSeq && w[19] == h.opcodeFlags
  }

  lemma LastCall(w: seq<byte>, v: seq<byte>, at: nat, call: string)
    requires |w| == 7 && CallAt(w, 0, call, false) && at + 7 <= |v|
    requires v[at..at + 7] == w[..6] + [w[6] / 2 * 2 + 1]
    ensures CallAt(v, at, call, true)
  {
    var base, ssid: nat :| HasParts(call, base, ssid) && CharsAt(w, 0, base) && w[6] as int == 2 * ssid;
    SliceAt(w[..6] + [w[6] / 2 * 2 + 1], v, at);
    hide HasParts;
    assert CharsAt(v, at, base);
  }

  lemma EncodedHeader(h: L3Header, tail: seq<byte>)
    requires L3.CanonicalHeader(h)
    ensures L3.EncodeHeader(h).Some? && HeaderAt(L3.EncodeHeader(h).value + tail, h)
  {
    hide EncodeWireCall, CallAt, Canonical;
    var origin := EncodedCallAt(h.originCall);
    var dest := EncodedCallAt(h.destCall);
    var w := L3.EncodeHeader(h).value + tail;
    assert w[0..7] == origin;
    assert w[7..14] == dest[..6] + [dest[6] / 2 * 2 + 1];
    CallMoves(origin, w, 0, h.originCall);
    LastCall(dest, w, 7, h.destCall);
  }

  /** A frame, byte by byte: origin, destination with the end-of-address bit, hop count, the peer's key,
      the two sequence numbers, opcode and flags; then what the opcode calls for. */
  lemma FrameBytes(f: L3Frame)
    requires L3.CanonicalFrame(f)
    ensures L3.EncodeFrame(f).Some?
    ensures HeaderAt(L3.EncodeFrame(f).value, f.header)
    ensures var w := L3.EncodeFrame(f).value;
      match f
      case ConnectRequest(_, window, user, origin) =>
        |w| == 35 && w[20] == window && CallAt(w, 21, user, false) && CallAt(w, 28, origin, false)
      case ConnectAck(_, window, _) => |w| == 21 && w[20] == window
      case Information(_, info) => |w| == 20 + |info| && w[20..] == info
      case _ => |w| == 20
  {
    hide EncodeWireCall, CallAt, Canonical, L3.EncodeHeader, HeaderAt, L3.Tagged;
    L3.FrameRoundTrip(f);
    var w := L3.EncodeFrame(f).value;
    EncodedHeader(f.header, w[20..]);
    assert w == L3.EncodeHeader(f.header).value + w[20..];
    if f.ConnectRequest? {
      var u := EncodedCallAt(f.userCall);
      var o := EncodedCallAt(f.originNodeCall);
      assert w[20..] == [f.proposedWindow] + u + o;
      assert w[21..28] == u && w[28..35] == o;
      assert w[20] == w[20..][0];
      CallMoves(u, w, 21, f.userCall);
      CallMoves(o, w, 28, f.originNodeCall);
    } else if f.ConnectAck? {
      assert w[20] == w[20..][0];
    }
  }

  /** A-Z, 0-9, space or NUL, shifted. */
  predicate CallByte(b: byte)
  {
    var ch := b / 2;
    ch == 0 || ch == ' ' as int || '0' as int <= ch <= '9' as int || 'A' as int <= ch <= 'Z' as int
  }

  /** The classifier takes data for NET/ROM if and only if it is twenty bytes or more, each of the twelve
      callsign bytes is one, the SSID bytes have no bit that a NET/ROM header leaves clear, the hop count
      is 1..64 and the opcode 1..6; one byte that is off is enough to refuse it. */
  lemma ClassifierIff(data: seq<byte>)
    ensures L3.LooksLikeL3(data) <==>
      && |data| >= 20
      && (forall i :: 0 <= i < 14 && i != 6 && i != 13 ==> CallByte(data[i]))
      && data[6] % 2 == 0 && data[6] / 32 == 0 && data[13] / 32 == 0
      && 1 <= data[14] <= 64 && data[19] % 8 != 0 && data[19] % 8 != 7
  {
    if |data| >= 20 {
      assert forall i :: 0 <= i < 6 ==> data[..7][i] == data[i] && data[7..14][i] == data[i + 7];
      forall b: byte ensures CallByte(b) <==> IsNetromChar(b / 2) {
      }
      hide IsNetromChar;
      if L3.LooksLikeL3(data) {
        forall i | 7 <= i < 13 ensures CallByte(data[i]) {
          assert data[7..14][i - 7] == data[i];
        }
      }
    }
  }

  /** What is decoded to a frame at all: a header and what its opcode calls for. */
  lemma DecodedIff(data: seq<byte>)
    ensures L3.DecodeFrame(data).Some? <==>
      |data| >= 20 &&
      var op := data[19] % 8;
      || op in {3, 4, 5, 6}
      || (op == 2 && |data| >= 21)
      || (op == 1 && |data| >= 35 && forall i :: 21 <= i < 34 && i != 27 ==> CallByte(data[i]))
  {
    if |data| >= 35 {
      forall b: byte ensures CallByte(b) <==> IsNetromChar(b / 2) {
      }
      var rest := data[20..];
      assert forall i :: 0 <= i < 6 ==> rest[1..8][i] == data[21 + i] && rest[8..15][i] == data[28 + i];
      hide IsNetromChar, DecodeWireCall;
      if data[19] % 8 == 1 && L3.DecodeFrame(data).Some? {
        forall i | 21 <= i < 34 && i != 27 ensures CallByte(data[i]) {
          assert if i < 27 then rest[1..8][i - 21] == data[i] else rest[8..15][i - 28] == data[i];
        }
      }
    }
  }

  /** ... and the fields it is decoded to. */
  lemma DecodedFields(data: seq<byte>)
    requires L3.DecodeFrame(data).Some?
    ensures var f := L3.DecodeFrame(data).value; var h := f.header;
      && h.originCall == DecodeWireCall(data[0..7]) && h.destCall == DecodeWireCall(data[7..14])
      && h.ttl == data[14] && h.circuitIdx == data[15] && h.circuitId == data[16]
      && h.txSeq == data[17] && h.rxSeq == data[18] && h.opcodeFlags == data[19]
      && (f.ConnectRequest? <==> data[19] % 8 == 1) && (f.ConnectAck? <==> data[19] % 8 == 2)
      && (f.Information? <==> data[19] % 8 == 5) && (f.InformationAck? <==> data[19] % 8 == 6)
      && (f.ConnectAck? ==> f.acceptedWindow == data[20] && (f.refused <==> data[19] >= 0x80))
      && (f.Information? ==> f.info == data[20..])
      && (f.ConnectRequest? ==> f.proposedWindow == data[20] && f.userCall == DecodeWireCall(data[21..28])
                                && f.originNodeCall == DecodeWireCall(data[28..35]))
  {
    hide DecodeWireCall;
    var rest := data[20..];
    if |data| >= 35 {
      assert rest[1..8] == data[21..28] && rest[8..15] == data[28..35];
    }
    assert |data| > 20 ==> rest[0] == data[20];
  }

  // ---------- AX.25 UI frames ----------

  /** An address entry: the characters, then the SSID byte with both reserved bits set, bit 0 on the last
      entry of the field, and bit 7 as given. */
  predicate AddressAt(w: seq<byte>, at: nat, a: Ax.Address, last: bool, high: bool)
  {
    && CharsAt(w, at, a.call) && at + 7 <= |w|
    && w[at + 6] as int == 0x60 + 2 * a.ssid + (if last then 1 else 0) + if high then 0x80 else 0
  }

  lemma EncodedAddress(a: Ax.Address, last: bool, high: bool, w: seq<byte>, at: nat)
    requires BaseOk(a.call) && a.ssid < 16 && at + 7 <= |w| && w[at..at + 7] == Ax.EncodeAddr(a, last, high)
    ensures AddressAt(w, at, a, last, high)
  {
    UpperKeeps(a.call);
    var v := Ax.EncodeAddr(a, last, high);
    assert v[..6] == WireChars(Padded(a.call, 6));
    CharsOf(a.call, v);
    hide WireChars, Padded, Upper;
    SliceAt(v, w, at);
  }

  /** A UI frame, byte by byte: destination with the command bit, source without it, the digipeaters in
      order with none marked as repeated, the field ending at the last address; control, PID, payload. */
  lemma UiBytes(src: string, dest: string, payload: seq<byte>, via: seq<string>, i: nat)
    requires Ax.Parse(src).Some? && Ax.Parse(dest).Some? && Ax.ParseAll(via).Some?
    ensures Ax.BuildUi(src, dest, payload, via).Some?
    ensures var w := Ax.BuildUi(src, dest, payload, via).value; var n := |via|; var end := 14 + 7 * n;
      && AddressAt(w, 0, Ax.Parse(dest).value, false, true) && AddressAt(w, 7, Ax.Parse(src).value, n == 0, false)
      && (i < n ==> AddressAt(w, 14 + 7 * i, Ax.ParseAll(via).value[i], i == n - 1, false))
      && |w| == end + 2 + |payload| && w[end] == 0x03 && w[end + 1] == 0xF0 && w[end + 2..] == payload
  {
    hide Ax.Parse, Ax.ParseAll, Ax.EncodeAddr, Ax.EncodePath, AddressAt;
    Ax.PathInRange(via);
    var d, s, path := Ax.Parse(dest).value, Ax.Parse(src).value, Ax.ParseAll(via).value;
    var w := Ax.BuildUi(src, dest, payload, via).value;
    var head := Ax.EncodeAddr(d, false, true) + Ax.EncodeAddr(s, path == [], false);
    var entries := Ax.EncodePath(path, |path|);
    assert w == head + entries + [0x03, 0xF0] + payload;
    assert w[0..7] == Ax.EncodeAddr(d, false, true) && w[7..14] == Ax.EncodeAddr(s, path == [], false);
    EncodedAddress(d, false, true, w, 0);
    EncodedAddress(s, path == [], false, w, 7);
    if i < |path| {
      Ax.EntryAt(path, |path|, i);
      assert w[14 + 7 * i..14 + 7 * i + 7] == entries[7 * i..7 * i + 7];
      EncodedAddress(path[i], i + 1 == |path|, false, w, 14 + 7 * i);
    }
  }

  /** The address field of a received frame has n entries: the n-th, from the source on, is the first with
      the end bit. */
  predicate EndsAt(w: seq<byte>, n: nat)
  {
    && n >= 2 && 7 * n <= |w| && w[7 * n - 1] % 2 == 1
    && forall j :: 2 <= j < n ==> w[7 * j - 1] % 2 == 0
  }

  lemma {:induction false} WalkEndsAt(w: seq<byte>, n: nat, k: nat)
    requires EndsAt(w, n) && 2 <= k < n
    ensures Ax.WalkPath(w, 7 * k).offset == 7 * n
    decreases n - k
  {
    hide Ax.DecodeCall, Ax.ViaText;
    assert w[7 * k..7 * k + 7][6] == w[7 * (k + 1) - 1];
    if k + 1 < n {
      WalkEndsAt(w, n, k + 1);
    }
  }

  /** What a received frame reads as: the control byte after the address field tells whether it is UI,
      with or without the poll bit; then the PID follows, and the payload; else the payload at once. */
  lemma UiDecoded(w: seq<byte>, port: int, n: nat)
    requires |w| >= 15 && EndsAt(w, n)
    ensures var f := Ax.DecodeAx25(w, port); var end := 7 * n;
      if |w| == end then f == None
      else if w[end] == 0x03 || w[end] == 0x13 then
        if |w| == end + 1 then f == None
        else f.Some? && f.value.isUi && f.value.pid == w[end + 1] && f.value.payload == w[end + 2..]
      else f.Some? && !f.value.isUi && f.value.pid == 0 && f.value.payload == w[end + 1..]
    ensures var f := Ax.DecodeAx25(w, port);
      f.Some? ==> f.value.port == port && f.value.destCall == AddressText(w[0..7]) && f.value.srcCall == AddressText(w[7..14])
  {
    hide Ax.DecodeCall, Ax.WalkPath, Ax.FormatAddr;
    TextOf(w[0..7]);
    TextOf(w[7..14]);
    if n > 2 {
      assert w[13] == w[7 * 2 - 1];
      WalkEndsAt(w, n, 2);
    }
  }

  /** An address as it is shown: its characters but for the spaces, trimmed and in upper case, and the SSID
      after a dash unless it is 0. */
  function AddressText(field: seq<byte>): string
    requires |field| == 7
  {
    var ssid := field[6] / 2 % 16;
    Strip(Upper(Strip(Ax.AxChars(field[..6])))) + if ssid == 0 then "" else "-" + Decimal(ssid)
  }

  lemma TextOf(field: seq<byte>)
    requires |field| == 7
    ensures var a := Ax.DecodeCall(field); Ax.FormatAddr(a.call, a.ssid) == AddressText(field)
  {
    hide Strip, Upper, Ax.AxChars, Decimal;
  }

  /** The decoder leaves out the spaces of a callsign and keeps every other character, in order. */
  lemma {:induction false} MonitoredChars(a: seq<byte>, b: seq<byte>)
    ensures Ax.AxChars(a + b) == Ax.AxChars(a) + Ax.AxChars(b)
    ensures |a| == 1 ==> Ax.AxChars(a) == if a[0] as int in {64, 65} then [] else [(a[0] / 2) as char]
  {
    if a == [] {
      assert a + b == b;
    } else {
      assert (a + b)[1..] == a[1..] + b;
      MonitoredChars(a[1..], b);
    }
  }

  /** What parses as an address, and to what: in upper case and without the white space around it, one to
      six of A-Z 0-9, alone or with a dash and one or two digits that make at most 15. */
  lemma ParsesIff(addr: string, call: string, ssid: nat)
    ensures Ax.Parse(addr) == Some(Ax.Address(call, ssid)) <==>
      && BaseOk(call) && ssid <= 15
      && ((Upper(Strip(addr)) == call && ssid == 0)
          || exists ds :: 1 <= |ds| <= 2 && ParseInt(ds) == Some(ssid) && Upper(Strip(addr)) == call + "-" + ds)
  {
    var s := Upper(Strip(addr));
    hide Strip, Upper, ParseInt;
    LastDashIs(s);
    var d := LastDash(s);
    if Ax.Parse(addr) == Some(Ax.Address(call, ssid)) && d < |s| {
      var ds := s[d + 1..];
      ParseFailsIff(ds);
      assert 1 <= |ds| <= 2 && s == call + "-" + ds;
    }
    if BaseOk(call) && s == call && ssid == 0 {
      NoDash(s);
      assert s[..|s|] == s;
    }
    if ds :| BaseOk(call) && ssid <= 15 && 1 <= |ds| <= 2 && ParseInt(ds) == Some(ssid) && s == call + "-" + ds {
      DigitsOnly(ds);
      LastDashOf(call, ds);
      assert s[..|call|] == call && s[|call| + 1..] == ds;
    }
  }

  lemma DigitsOnly(ds: string)
    requires ParseInt(ds).Some?
    ensures forall i :: 0 <= i < |ds| ==> ds[i] != '-'
  {
    ParseFailsIff(ds);
  }

  // ---------- KISS ----------

  /** The four marks of the line: a frame end inside a frame goes as 0xDB 0xDC, an escape as 0xDB 0xDD,
      any other byte as itself. */
  lemma StuffedBytes(b: byte, rest: seq<byte>)
    ensures Kiss.Escape([b] + rest)
            == (if b == 0xC0 then [0xDB, 0xDC] else if b == 0xDB then [0xDB, 0xDD] else [b]) + Kiss.Escape(rest)
    ensures Kiss.Escape([]) == []
  {
    assert ([b] + rest)[1..] == rest;
  }

  /** What unstuffing makes of an escape that is none, or is cut off: nothing; and a byte outside an escape
      stays. */
  lemma UnstuffedBytes(b: byte, rest: seq<byte>)
    ensures b != 0xDB ==> Kiss.Unescape([b] + rest) == [b] + Kiss.Unescape(rest)
    ensures Kiss.Unescape([0xDB, b] + rest)
            == (if b == 0xDC then [0xC0] else if b == 0xDD then [0xDB] else []) + Kiss.Unescape(rest)
    ensures Kiss.Unescape([0xDB]) == [] && Kiss.Unescape([]) == []
  {
    assert ([b] + rest)[1..] == rest && ([0xDB, b] + rest)[2..] == rest;
  }

  /** A frame on the line: between two frame ends the port in the upper half of the command byte, the data
      command 0 in the lower, and the stuffed frame. */
  lemma KissBytes(port: int, ax25: seq<byte>)
    ensures var w := Kiss.BuildKissFrame(Kiss.PortFrame(port, ax25)); var n := |w|;
      && n >= 3 && w[0] == 0xC0 && w[n - 1] == 0xC0 && w[1] / 16 == port % 16 && w[1] % 16 == 0
      && w[2..n - 1] == Kiss.Escape(ax25)
  {
    hide Kiss.Escape;
  }

  /** What of a raw frame is unpacked: one whose command is 0, for the port above it. */
  lemma UnpackedIff(raw: seq<byte>)
    ensures Kiss.Unpack(raw).Some? <==> raw != [] && raw[0] % 16 == 0
    ensures Kiss.Unpack(raw).Some? ==> Kiss.Unpack(raw).value == Kiss.PortFrame(raw[0] / 16, Kiss.Unescape(raw[1..]))
  {
    hide Kiss.Unescape;
  }
}

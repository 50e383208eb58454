/** AX.25 unnumbered-information frames: the address field with its digipeater path, as the
    transmit path builds it and the monitor decodes it. */
module Ax25Ui {
  import opened Prelude
  import opened WireCalls
  import opened KissFrame

  const CONTROL_UI: byte := 0x03
  const PID_NO_LAYER3: byte := 0xF0

  datatype UiFrame = UiFrame(
    port: int, destCall: string, srcCall: string, isUi: bool, pid: byte, payload: seq<byte>, via: seq<string>)

  datatype Address = Address(call: string, ssid: nat)

  // ---------- Address text ----------

  /** One to six of A-Z 0-9, then perhaps '-' and one or two digits, of value 15 at most;
      None stands for the ValueError. */
  function Parse(addr: string): (a: Option<Address>)
    ensures a.Some? ==> BaseOk(a.value.call) && a.value.ssid < 16
  {
    var s := Upper(Strip(addr));
    var d := LastDash(s);
    if !BaseOk(s[..d]) then None
    else if d == |s| then Some(Address(s, 0))
    else if |s| - d - 1 > 2 then None
    else match ParseInt(s[d + 1..])
      case Some(n) => if n > 15 then None else Some(Address(s[..d], n))
      case None => None
  }

  /** The canonical text of an address. */
  function Text(a: Address): string { CallText(a.call, a.ssid) }

  function FormatAddr(call: string, ssid: nat): string { CallText(Strip(Upper(call)), ssid) }

  // ---------- Building ----------

  function SsidByte(ssid: nat, last: bool, high: bool): byte
    requires ssid < 16
  {
    0x60 + 2 * ssid + (if last then 1 else 0) + (if high then 0x80 else 0)
  }

  function EncodeAddr(a: Address, last: bool, high: bool): (w: seq<byte>)
    requires a.ssid < 16
    ensures |w| == ADDR_LEN
  {
    WireChars(Padded(Upper(a.call), 6)) + [SsidByte(a.ssid, last, high)]
  }

  function ParseAll(addrs: seq<string>): (r: Option<seq<Address>>)
    ensures r.Some? ==> |r.value| == |addrs|
    ensures r.Some? ==> forall i :: 0 <= i < |addrs| ==> Parse(addrs[i]) == Some(r.value[i])
  {
    if addrs == [] then Some([])
    else match (ParseAll(addrs[..|addrs| - 1]), Parse(addrs[|addrs| - 1]))
      case (Some(front), Some(a)) => Some(front + [a])
      case _ => None
  }

  predicate InRange(path: seq<Address>)
  {
    forall i :: 0 <= i < |path| ==> BaseOk(path[i].call) && path[i].ssid < 16
  }

  /** The first n digipeater entries; only the last of the whole path ends the address field. */
  function EncodePath(path: seq<Address>, n: nat): (w: seq<byte>)
    requires n <= |path| && InRange(path)
    ensures |w| == ADDR_LEN * n
  {
    if n == 0 then [] else EncodePath(path, n - 1) + EncodeAddr(path[n - 1], n == |path|, false)
  }

  function AddressField(src: Address, dest: Address, path: seq<Address>): seq<byte>
    requires src.ssid < 16 && dest.ssid < 16 && InRange(path)
  {
    EncodeAddr(dest, false, true) + EncodeAddr(src, path == [], false) + EncodePath(path, |path|)
  }

  function BuildUi(src: string, dest: string, payload: seq<byte>, via: seq<string>): Option<seq<byte>>
  {
    match (Parse(dest), Parse(src), ParseAll(via))
    case (Some(d), Some(s), Some(path)) =>
      assert forall i :: 0 <= i < |path| ==> Parse(via[i]) == Some(path[i]);
      Some(AddressField(s, d, path) + [CONTROL_UI, PID_NO_LAYER3] + payload)
    case _ => None
  }

  /** The digipeater entries; None when one does not parse. */
  method EncodeVias(via: seq<string>) returns (field: Option<seq<byte>>, ghost path: seq<Address>)
    ensures field.None? ==> ParseAll(via).None?
    ensures field.Some? ==> ParseAll(via) == Some(path) && InRange(path) && field.value == EncodePath(path, |path|)
  {
    hide Parse, EncodeAddr, ParseAll, EncodePath, Continued;
    var out: seq<byte> := [];
    path := [];
    NoVias();
    for i := 0 to |via|
      invariant ParseAll(via[..i]) == Some(path) && InRange(path) && |path| == i
      invariant out == if i < |via| then Continued(path) else EncodePath(path, |path|)
    {
      ParseOne(via, i, path);
      var v := Parse(via[i]);
      if v.None? {
        ParseFailsFrom(via, i);
        return None, [];
      }
      PathGrows(path, v.value);
      out := out + EncodeAddr(v.value, i == |via| - 1, false);
      path := path + [v.value];
    }
    assert via[..|via|] == via;
    field := Some(out);
  }

  lemma NoVias()
    ensures ParseAll([]) == Some([]) && EncodePath([], 0) == [] && Continued([]) == []
  {
  }

  lemma ParseOne(via: seq<string>, i: nat, path: seq<Address>)
    requires i < |via| && ParseAll(via[..i]) == Some(path)
    ensures Parse(via[i]).Some? ==> ParseAll(via[..i + 1]) == Some(path + [Parse(via[i]).value])
    ensures Parse(via[i]).Some? ==> BaseOk(Parse(via[i]).value.call) && Parse(via[i]).value.ssid < 16
  {
    hide Parse;
    assert via[..i + 1][..i] == via[..i];
  }

  method BuildAx25UiFrame(src: string, dest: string, payload: seq<byte>, via: seq<string>)
    returns (frame: Option<seq<byte>>)
    ensures frame == BuildUi(src, dest, payload, via)
  {
    hide Parse, EncodeAddr, ParseAll, EncodePath;
    var d := Parse(dest);
    if d.None? {
      return None;
    }
    var s := Parse(src);
    if s.None? {
      return None;
    }
    var field := EncodeAddr(d.value, false, true) + EncodeAddr(s.value, via == [], false);
    var tail, path := EncodeVias(via);
    if tail.None? {
      return None;
    }
    field := field + tail.value;
    assert field == AddressField(s.value, d.value, path);
    frame := Some(field + [CONTROL_UI] + [PID_NO_LAYER3] + payload);
    assert field + [CONTROL_UI] + [PID_NO_LAYER3] + payload == field + [CONTROL_UI, PID_NO_LAYER3] + payload;
  }

  /** A path whose last entry does not end the address field. */
  function Continued(path: seq<Address>): seq<byte>
    requires InRange(path)
  {
    if path == [] then [] else Continued(path[..|path| - 1]) + EncodeAddr(path[|path| - 1], false, false)
  }

  lemma {:induction false} PathGrows(path: seq<Address>, a: Address)
    requires InRange(path) && BaseOk(a.call) && a.ssid < 16
    ensures InRange(path + [a])
    ensures EncodePath(path + [a], |path| + 1) == Continued(path) + EncodeAddr(a, true, false)
    ensures Continued(path + [a]) == Continued(path) + EncodeAddr(a, false, false)
  {
    hide EncodeAddr;
    var longer := path + [a];
    assert longer[..|path|] == path;
    FirstEntries(longer, |path|);
  }

  lemma {:induction false} FirstEntries(path: seq<Address>, n: nat)
    requires InRange(path) && n < |path|
    ensures InRange(path[..n]) && EncodePath(path, n) == Continued(path[..n])
  {
    hide EncodeAddr;
    if n > 0 {
      FirstEntries(path, n - 1);
      assert path[..n][..n - 1] == path[..n - 1];
    }
  }

  lemma {:induction false} ParseFailsFrom(addrs: seq<string>, i: nat)
    requires i < |addrs| && Parse(addrs[i]).None?
    ensures ParseAll(addrs).None?
  {
  }

  // ---------- Decoding ----------

  /** Spaces are padding; anything else is kept. */
  function AxChars(w: seq<byte>): string
  {
    if w == [] then []
    else (if w[0] / 2 == 0x20 then [] else [(w[0] / 2) as char]) + AxChars(w[1..])
  }

  function DecodeCall(field: seq<byte>): Address
    requires |field| == ADDR_LEN
  {
    Address(Strip(AxChars(field[..6])), field[6] / 2 % 16)
  }

  /** A star marks a digipeater that has repeated the frame. */
  function ViaText(field: seq<byte>): string
    requires |field| == ADDR_LEN
  {
    var a := DecodeCall(field);
    FormatAddr(a.call, a.ssid) + if field[6] >= 0x80 then "*" else ""
  }

  datatype Walk = Walk(via: seq<string>, offset: nat)

  /** The digipeater entries from `offset` on, and where the address field ends. */
  function WalkPath(ax25: seq<byte>, offset: nat): (w: Walk)
    ensures w.offset >= offset
    decreases |ax25| - offset
  {
    if offset + ADDR_LEN > |ax25| then Walk([], offset)
    else
      var field := ax25[offset..offset + ADDR_LEN];
      var here := if DecodeCall(field).call != [] then [ViaText(field)] else [];
      if field[6] % 2 == 1 then Walk(here, offset + ADDR_LEN)
      else
        var rest := WalkPath(ax25, offset + ADDR_LEN);
        Walk(here + rest.via, rest.offset)
  }

  function PathOf(ax25: seq<byte>): Walk
    requires |ax25| >= 15
  {
    if ax25[13] % 2 == 1 then Walk([], 14) else WalkPath(ax25, 14)
  }

  /** Control byte 0x03, with or without the poll bit. */
  predicate IsUi(control: byte) { control == 0x03 || control == 0x13 }

  function DecodeAx25(ax25: seq<byte>, port: int): Option<UiFrame>
  {
    if |ax25| < 15 then None
    else
      var dest, src := DecodeCall(ax25[0..7]), DecodeCall(ax25[7..14]);
      var walk := PathOf(ax25);
      var offset := walk.offset;
      if offset >= |ax25| then None
      else
        var d, s := FormatAddr(dest.call, dest.ssid), FormatAddr(src.call, src.ssid);
        if !IsUi(ax25[offset]) then Some(UiFrame(port, d, s, false, 0, ax25[offset + 1..], walk.via))
        else if |ax25| < offset + 2 then None
        else Some(UiFrame(port, d, s, true, ax25[offset + 1], ax25[offset + 2..], walk.via))
  }

  lemma WalkOn(ax25: seq<byte>, offset: nat, via: seq<string>)
    requires offset + ADDR_LEN <= |ax25|
    ensures var field := ax25[offset..offset + ADDR_LEN];
      var here := if DecodeCall(field).call != [] then [ViaText(field)] else [];
      var next := WalkPath(ax25, offset + ADDR_LEN);
      WalkPath(ax25, offset) == (if field[6] % 2 == 1 then Walk(here, offset + ADDR_LEN)
                                 else Walk(here + next.via, next.offset))
      && via + (here + next.via) == (via + here) + next.via
  {
    hide DecodeCall, ViaText;
  }

  method WalkDigipeaters(ax25: seq<byte>) returns (via: seq<string>, offset: nat)
    ensures Walk(via, offset) == WalkPath(ax25, 14)
  {
    hide DecodeCall, ViaText, WalkPath;
    via, offset := [], 14;
    ghost var walk := WalkPath(ax25, 14);
    assert [] + walk.via == walk.via;
    while offset + ADDR_LEN <= |ax25|
      invariant 14 <= offset
      invariant via + WalkPath(ax25, offset).via == walk.via && WalkPath(ax25, offset).offset == walk.offset
      decreases |ax25| - offset
    {
      var field := ax25[offset..offset + ADDR_LEN];
      WalkOn(ax25, offset, via);
      if DecodeCall(field).call != [] {
        via := via + [ViaText(field)];
      } else {
        assert via + [] == via;
      }
      offset := offset + ADDR_LEN;
      if field[6] % 2 == 1 {
        return;
      }
    }
    WalkEnds(ax25, offset);
    assert via + [] == via;
  }

  lemma WalkEnds(ax25: seq<byte>, offset: nat)
    requires offset + ADDR_LEN > |ax25|
    ensures WalkPath(ax25, offset) == Walk([], offset)
  {
  }

  method DecodeAx25Frame(ax25: seq<byte>, port: int) returns (f: Option<UiFrame>)
    ensures f == DecodeAx25(ax25, port)
  {
    hide DecodeCall, FormatAddr, WalkPath;
    if |ax25| < 15 {
      return None;
    }
    var dest, src := DecodeCall(ax25[0..7]), DecodeCall(ax25[7..14]);
    var via, offset := [], 14;
    if ax25[13] % 2 == 0 {
      via, offset := WalkDigipeaters(ax25);
    }
    if offset >= |ax25| {
      return None;
    }
    var d, s := FormatAddr(dest.call, dest.ssid), FormatAddr(src.call, src.ssid);
    if !IsUi(ax25[offset]) {
      return Some(UiFrame(port, d, s, false, 0, ax25[offset + 1..], via));
    }
    if |ax25| < offset + 2 {
      return None;
    }
    f := Some(UiFrame(port, d, s, true, ax25[offset + 1], ax25[offset + 2..], via));
  }

  // ---------- Round trip ----------

  lemma {:induction false} AxCharsBack(base: string, k: nat)
    requires |base| <= k && forall i :: 0 <= i < |base| ==> CallChar(base[i])
    ensures AxChars(WireChars(Padded(base, k))) == base
  {
    if k > 0 {
      var w := WireChars(Padded(base, k));
      if base == [] {
        assert w[1..] == WireChars(Padded([], k - 1));
        AxCharsBack([], k - 1);
      } else {
        assert w[1..] == WireChars(Padded(base[1..], k - 1));
        AxCharsBack(base[1..], k - 1);
      }
    }
  }

  lemma BaseIsStripped(base: string)
    requires BaseOk(base)
    ensures Strip(base) == base && Upper(base) == base
  {
    UpperKeeps(base);
  }

  /** An address entry decodes to the address it was made from, whatever its flag bits. */
  lemma AddrRoundTrip(a: Address, last: bool, high: bool)
    requires BaseOk(a.call) && a.ssid < 16
    ensures var w := EncodeAddr(a, last, high);
      DecodeCall(w) == a && FormatAddr(a.call, a.ssid) == Text(a) && a.call != []
      && w[6] % 2 == (if last then 1 else 0) && (w[6] >= 0x80 <==> high)
      && ViaText(w) == Text(a) + if high then "*" else ""
  {
    BaseIsStripped(a.call);
    AxCharsBack(a.call, 6);
    hide AxChars, WireChars, Padded, Strip, Upper, CallText, BaseOk;
    assert EncodeAddr(a, last, high)[..6] == WireChars(Padded(a.call, 6));
  }

  function Texts(path: seq<Address>): (ts: seq<string>)
    ensures |ts| == |path|
  {
    seq(|path|, i requires 0 <= i < |path| => Text(path[i]))
  }

  /** Entry i of the path, wherever the path stands in the frame. */
  lemma {:induction false} EntryAt(path: seq<Address>, n: nat, i: nat)
    requires InRange(path) && i < n <= |path|
    ensures 7 * i + 7 <= |EncodePath(path, n)| &&
            EncodePath(path, n)[7 * i..7 * i + 7] == EncodeAddr(path[i], i + 1 == |path|, false)
  {
    hide EncodeAddr;
    if i < n - 1 {
      EntryAt(path, n - 1, i);
    }
  }

  lemma {:induction false} WalkBack(path: seq<Address>, head: seq<byte>, tail: seq<byte>, i: nat)
    requires InRange(path) && |head| == 14 && i < |path|
    ensures var ax25 := head + EncodePath(path, |path|) + tail;
      WalkPath(ax25, 14 + 7 * i) == Walk(Texts(path[i..]), 14 + 7 * |path|)
    decreases |path| - i
  {
    hide EncodeAddr, EncodePath, DecodeCall, ViaText, Text;
    var ax25 := head + EncodePath(path, |path|) + tail;
    var at := 14 + 7 * i;
    EntryAt(path, |path|, i);
    AddrRoundTrip(path[i], i + 1 == |path|, false);
    assert ax25[at..at + 7] == EncodePath(path, |path|)[7 * i..7 * i + 7];
    assert Text(path[i]) + "" == Text(path[i]);
    if i + 1 < |path| {
      WalkBack(path, head, tail, i + 1);
      assert Texts(path[i..]) == [Text(path[i])] + Texts(path[i + 1..]);
    } else {
      assert Texts(path[i..]) == [Text(path[i])];
    }
  }

  /** Whatever parses, the decoder gives back in canonical form: both callsigns, the path with
      no entry marked as repeated, and the payload untouched. */
  lemma UiRoundTrip(src: string, dest: string, payload: seq<byte>, via: seq<string>, port: int)
    requires Parse(src).Some? && Parse(dest).Some? && ParseAll(via).Some?
    ensures BuildUi(src, dest, payload, via).Some?
    ensures DecodeAx25(BuildUi(src, dest, payload, via).value, port)
            == Some(UiFrame(port, Text(Parse(dest).value), Text(Parse(src).value), true, PID_NO_LAYER3,
                            payload, Texts(ParseAll(via).value)))
  {
    var s, d, path := Parse(src).value, Parse(dest).value, ParseAll(via).value;
    assert InRange(path) by { PathInRange(via); }
    FrameRoundTrip(s, d, path, payload, port);
  }

  lemma PathInRange(via: seq<string>)
    requires ParseAll(via).Some?
    ensures InRange(ParseAll(via).value)
  {
    var path := ParseAll(via).value;
    forall i | 0 <= i < |path| ensures BaseOk(path[i].call) && path[i].ssid < 16 {
      assert Parse(via[i]) == Some(path[i]);
    }
  }

  lemma FrameRoundTrip(s: Address, d: Address, path: seq<Address>, payload: seq<byte>, port: int)
    requires BaseOk(s.call) && s.ssid < 16 && BaseOk(d.call) && d.ssid < 16 && InRange(path)
    ensures DecodeAx25(AddressField(s, d, path) + [CONTROL_UI, PID_NO_LAYER3] + payload, port)
            == Some(UiFrame(port, Text(d), Text(s), true, PID_NO_LAYER3, payload, Texts(path)))
  {
    hide EncodeAddr, EncodePath, DecodeCall, FormatAddr, Text, WalkPath, Texts;
    AddrRoundTrip(d, false, true);
    AddrRoundTrip(s, path == [], false);
    var head := EncodeAddr(d, false, true) + EncodeAddr(s, path == [], false);
    var tail := [CONTROL_UI, PID_NO_LAYER3] + payload;
    var ax25 := head + EncodePath(path, |path|) + tail;
    assert AddressField(s, d, path) + [CONTROL_UI, PID_NO_LAYER3] + payload == ax25;
    assert ax25[0..7] == EncodeAddr(d, false, true) && ax25[7..14] == EncodeAddr(s, path == [], false);
    assert ax25[13] == EncodeAddr(s, path == [], false)[6];
    var end := 14 + 7 * |path|;
    assert PathOf(ax25) == Walk(Texts(path), end) by {
      if path == [] {
        NoTexts();
      } else {
        WalkBack(path, head, tail, 0);
        assert path[0..] == path;
      }
    }
    assert ax25[end..] == tail;
    assert ax25[end] == tail[0] && ax25[end + 1] == tail[1] && ax25[end + 2..] == payload;
  }

  lemma NoTexts()
    ensures Texts([]) == []
  {
  }

  /** From text to text across the serial line: the frame built for a station, wrapped for its
      port, read in any chunks and unpacked, is the frame in canonical form. */
  lemma AcrossTheSerialLine(src: string, dest: string, payload: seq<byte>, via: seq<string>, port: int,
                            chunks: seq<seq<byte>>)
    requires Parse(src).Some? && Parse(dest).Some? && ParseAll(via).Some? && port % 16 != 12
    requires BuildUi(src, dest, payload, via).Some?
    requires Joined(chunks) == Stream([PortFrame(port, BuildUi(src, dest, payload, via).value)])
    ensures |ReadLoop(chunks).frames| == 1
    ensures var raw := Unpack(ReadLoop(chunks).frames[0]);
      && raw.Some?
      && DecodeAx25(raw.value.ax25, raw.value.port)
         == Some(UiFrame(port % 16, Text(Parse(dest).value), Text(Parse(src).value), true, PID_NO_LAYER3,
                         payload, Texts(ParseAll(via).value)))
  {
    hide BuildUi, DecodeAx25, Parse, ParseAll, Text, Texts, ReadLoop, Stream, Unpack;
    var fs := [PortFrame(port, BuildUi(src, dest, payload, via).value)];
    StreamUnpacks(fs, chunks, 0);
    StreamRecoveredIff(fs, chunks);
    RawsAt(fs, 0);
    UiRoundTrip(src, dest, payload, via, port % 16);
  }

  lemma ShortDecimal(n: nat)
    requires n < 16
    ensures 1 <= |Decimal(n)| <= 2
  {
    if n >= 10 {
      assert |Decimal(n / 10)| == 1;
    }
  }

  lemma EndsAreNotSpaces(base: string, ssid: nat)
    requires BaseOk(base) && ssid < 16
    ensures Strip(CallText(base, ssid)) == CallText(base, ssid)
  {
    hide Decimal;
    var s := CallText(base, ssid);
    assert !IsSpace(s[0]) && !IsSpace(s[|s| - 1]);
  }

  /** A canonical callsign is its own canonical form. */
  lemma CanonicalIsFixed(s: string)
    requires Canonical(s)
    ensures Parse(s).Some? && Text(Parse(s).value) == s
  {
    hide Upper, LastDash, ParseInt, Strip, Decimal, SsidAfter, BaseOk, CallText;
    var base, ssid :| HasParts(s, base, ssid);
    PartsParse(base, ssid);
  }

  lemma PartsParse(base: string, ssid: nat)
    requires BaseOk(base) && ssid < 16
    ensures Parse(CallText(base, ssid)) == Some(Address(base, ssid))
  {
    hide Upper, LastDash, ParseInt, Strip, Decimal, BaseOk;
    EndsAreNotSpaces(base, ssid);
    CanonicalIsUpper(base, ssid);
    CanonicalSplits(base, ssid);
    ShortDecimal(ssid);
  }
}

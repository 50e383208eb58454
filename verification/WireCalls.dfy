/** Callsigns and aliases on the wire: seven bytes of shifted ASCII with an SSID, and six bytes
    of padded ASCII. */
module WireCalls {
  import opened Prelude

  const ADDR_LEN := 7
  const ALIAS_LEN := 6

  // ---------- Decimal numbers ----------

  predicate IsDigit(c: char) { '0' <= c <= '9' }

  function Decimal(n: nat): (s: string)
    ensures s != [] && forall i :: 0 <= i < |s| ==> IsDigit(s[i])
  {
    var d := ['0' + (n % 10) as char];
    if n < 10 then d else Decimal(n / 10) + d
  }

  /** int() on a run of digits; None stands for the ValueError on anything else. */
  function ParseInt(s: string): Option<nat>
  {
    if s == [] || !IsDigit(s[|s| - 1]) then None
    else
      var d := (s[|s| - 1] - '0') as int;
      if |s| == 1 then Some(d)
      else match ParseInt(s[..|s| - 1]) case Some(n) => Some(10 * n + d) case None => None
  }

  lemma {:induction false} ParseDecimal(n: nat)
    ensures ParseInt(Decimal(n)) == Some(n)
  {
    if n >= 10 {
      ParseDecimal(n / 10);
      assert Decimal(n)[..|Decimal(n)| - 1] == Decimal(n / 10);
    }
  }

  // ---------- Callsigns ----------

  /** The position of the last '-', or the length. */
  function LastDash(s: string): (d: nat)
    ensures d <= |s| && (d < |s| ==> s[d] == '-')
  {
    if s == [] then 0
    else if s[|s| - 1] == '-' then |s| - 1
    else
      var d := LastDash(s[..|s| - 1]);
      if d < |s| - 1 then d else |s|
  }

  /** s[:n].ljust(n) */
  function Padded(s: string, n: nat): (p: string)
    ensures |p| == n
  {
    seq(n, i requires 0 <= i < n => if i < |s| then s[i] else ' ')
  }

  function WireChar(c: char): byte { 2 * (c as int) % 256 }

  function WireChars(s: string): (w: seq<byte>)
    ensures |w| == |s|
  {
    seq(|s|, i requires 0 <= i < |s| => WireChar(s[i]))
  }

  function WireAddress(base: string, ssid: nat): (w: seq<byte>)
    ensures |w| == ADDR_LEN
  {
    WireChars(Padded(base, 6)) + [2 * (ssid % 16)]
  }

  function SsidAfter(s: string, d: nat): Option<nat>
    requires d <= |s|
  {
    if d < |s| then ParseInt(s[d + 1..]) else Some(0)
  }

  function EncodeWireCall(addr: string): (w: Option<seq<byte>>)
    ensures w.Some? ==> |w.value| == ADDR_LEN
  {
    var up := Upper(addr);
    var d := LastDash(up);
    match SsidAfter(up, d)
    case None => None
    case Some(ssid) => Some(WireAddress(up[..d], ssid))
  }

  /** NUL and space are padding. */
  function CallChars(w: seq<byte>): string
  {
    if w == [] then []
    else (if w[0] / 2 in {0, 0x20} then [] else [(w[0] / 2) as char]) + CallChars(w[1..])
  }

  function CallText(base: string, ssid: nat): string
  {
    if ssid == 0 then base else base + "-" + Decimal(ssid)
  }

  function DecodeWireCall(data: seq<byte>): string
    requires |data| == ADDR_LEN
  {
    CallText(CallChars(data[..6]), data[6] / 2 % 16)
  }

  /** A-Z, 0-9, space or NUL. */
  predicate IsNetromChar(ch: int)
  {
    ch == 0 || ch == 0x20 || 0x30 <= ch <= 0x39 || 0x41 <= ch <= 0x5A
  }

  predicate WireCallIsValid(data: seq<byte>)
    requires |data| >= 6
  {
    forall i :: 0 <= i < 6 ==> IsNetromChar(data[i] / 2)
  }

  predicate CallChar(c: char) { 'A' <= c <= 'Z' || '0' <= c <= '9' }

  predicate BaseOk(base: string)
  {
    1 <= |base| <= 6 && forall i :: 0 <= i < |base| ==> CallChar(base[i])
  }

  predicate HasParts(s: string, base: string, ssid: nat)
  {
    BaseOk(base) && ssid < 16 && s == CallText(base, ssid)
  }

  /** One to six of A-Z 0-9, and an SSID of 1 to 15 if any. */
  ghost predicate Canonical(s: string)
  {
    exists base, ssid :: HasParts(s, base, ssid)
  }

  lemma {:induction false} LastDashOf(base: string, tail: string)
    requires forall i :: 0 <= i < |tail| ==> tail[i] != '-'
    ensures LastDash(base + "-" + tail) == |base|
  {
    var s := base + "-" + tail;
    if tail != [] {
      LastDashOf(base, tail[..|tail| - 1]);
      assert s[..|s| - 1] == base + "-" + tail[..|tail| - 1];
    }
  }

  lemma {:induction false} NoDash(s: string)
    requires forall i :: 0 <= i < |s| ==> s[i] != '-'
    ensures LastDash(s) == |s|
  {
    if s != [] {
      NoDash(s[..|s| - 1]);
    }
  }

  lemma UpperKeeps(s: string)
    requires forall i :: 0 <= i < |s| ==> UpperChar(s[i]) == s[i]
    ensures Upper(s) == s
  {
  }

  lemma CanonicalIsUpper(base: string, ssid: nat)
    requires BaseOk(base) && ssid < 16
    ensures Upper(CallText(base, ssid)) == CallText(base, ssid)
  {
    UpperKeeps(base);
    UpperKeeps(Decimal(ssid));
    hide Decimal, BaseOk;
    UpperKeeps("-" + Decimal(ssid));
    UpperKeeps(CallText(base, ssid));
  }

  lemma CanonicalSplits(base: string, ssid: nat)
    requires BaseOk(base) && ssid < 16
    ensures var s := CallText(base, ssid);
      LastDash(s) == |base| <= |s| && s[..|base|] == base && SsidAfter(s, |base|) == Some(ssid)
  {
    if ssid == 0 {
      NoDash(base);
    } else {
      LastDashOf(base, Decimal(ssid));
      ParseDecimal(ssid);
    }
    hide Decimal, LastDash, ParseInt, BaseOk;
    var s := CallText(base, ssid);
    assert s[..|base|] == base;
    assert ssid > 0 ==> s[|base| + 1..] == Decimal(ssid);
  }

  /** What the encoder makes of a canonical callsign. */
  lemma EncodedParts(base: string, ssid: nat)
    requires BaseOk(base) && ssid < 16
    ensures EncodeWireCall(CallText(base, ssid)) == Some(WireAddress(base, ssid))
  {
    CanonicalIsUpper(base, ssid);
    CanonicalSplits(base, ssid);
    hide Upper, LastDash, SsidAfter, WireAddress, CallText, BaseOk;
  }

  lemma {:induction false} CharsBack(base: string, k: nat)
    requires |base| <= k && forall i :: 0 <= i < |base| ==> CallChar(base[i])
    ensures CallChars(WireChars(Padded(base, k))) == base
  {
    if k > 0 {
      var w := WireChars(Padded(base, k));
      if base == [] {
        assert w[1..] == WireChars(Padded([], k - 1));
        CharsBack([], k - 1);
      } else {
        assert w[1..] == WireChars(Padded(base[1..], k - 1));
        CharsBack(base[1..], k - 1);
      }
    }
  }

  lemma CharsValid(base: string, w: seq<byte>)
    requires BaseOk(base) && |w| >= 6 && w[..6] == WireChars(Padded(base, 6))
    ensures WireCallIsValid(w)
  {
    forall i | 0 <= i < 6 ensures IsNetromChar(w[i] / 2) {
      assert w[i] == w[..6][i] == WireChar(Padded(base, 6)[i]);
    }
  }

  /** A canonical callsign survives the wire, and its wire form is well-formed: callsign
      characters only, and an SSID byte whose other bits are clear. */
  lemma CallRoundTrip(s: string)
    requires Canonical(s)
    ensures EncodeWireCall(s).Some?
    ensures var w := EncodeWireCall(s).value;
      DecodeWireCall(w) == s && s != [] && WireCallIsValid(w) && w[6] % 2 == 0 && w[6] < 32
  {
    var base, ssid :| HasParts(s, base, ssid);
    EncodedParts(base, ssid);
    CharsBack(base, 6);
    var w := WireAddress(base, ssid);
    assert w[..6] == WireChars(Padded(base, 6));
    CharsValid(base, w);
    hide EncodeWireCall, WireChars, Padded, CallChars, WireCallIsValid, BaseOk;
  }

  // ---------- Aliases ----------

  /** str.isspace() on ASCII. */
  predicate IsSpace(c: char) { 9 <= c as int <= 13 || 28 <= c as int <= 32 }

  function RStrip(s: string): string
  {
    if s != [] && IsSpace(s[|s| - 1]) then RStrip(s[..|s| - 1]) else s
  }

  function LStrip(s: string): string
  {
    if s != [] && IsSpace(s[0]) then LStrip(s[1..]) else s
  }

  function Strip(s: string): string { RStrip(LStrip(s)) }

  /** Undecodable bytes become U+FFFD. */
  function AsciiChar(b: byte): char { if b < 128 then b as char else '\U{FFFD}' }

  function AsciiText(data: seq<byte>): (s: string)
    ensures |s| == |data|
  {
    seq(|data|, i requires 0 <= i < |data| => AsciiChar(data[i]))
  }

  function DecodeAlias(data: seq<byte>): string
    requires |data| == ALIAS_LEN
  {
    RStrip(AsciiText(data))
  }

  /** Unencodable characters become '?'. */
  function AsciiByte(c: char): byte { if c as int < 128 then c as int else '?' as int }

  function EncodeAlias(alias: string): (w: seq<byte>)
    ensures |w| == ALIAS_LEN
  {
    var p := Padded(Upper(alias), ALIAS_LEN);
    seq(ALIAS_LEN, i requires 0 <= i < ALIAS_LEN => AsciiByte(p[i]))
  }

  /** At most six ASCII characters, none lower-case, and no white space at the end. */
  predicate AliasOk(s: string)
  {
    && |s| <= ALIAS_LEN
    && (forall i :: 0 <= i < |s| ==> s[i] as int < 128 && !('a' <= s[i] <= 'z'))
    && (s != [] ==> !IsSpace(s[|s| - 1]))
  }

  lemma {:induction false} RStripIs(s: string)
    ensures |RStrip(s)| <= |s| && RStrip(s) == s[..|RStrip(s)|]
    ensures RStrip(s) != [] ==> !IsSpace(RStrip(s)[|RStrip(s)| - 1])
  {
    if s != [] && IsSpace(s[|s| - 1]) {
      RStripIs(s[..|s| - 1]);
    }
  }

  lemma {:induction false} RStripPadding(s: string, n: nat)
    requires |s| <= n && (s != [] ==> !IsSpace(s[|s| - 1]))
    ensures RStrip(Padded(s, n)) == s
    decreases n
  {
    if |s| == n {
      assert Padded(s, n) == s;
    } else {
      assert Padded(s, n)[..n - 1] == Padded(s, n - 1);
      RStripPadding(s, n - 1);
    }
  }

  lemma SixBack(alias: string)
    ensures forall i :: 0 <= i < ALIAS_LEN ==>
      AsciiText(EncodeAlias(alias))[i] == AsciiByte(Padded(Upper(alias), ALIAS_LEN)[i]) as char
  {
  }

  /** Exactly the canonical aliases survive the wire. */
  lemma AliasRoundTripIff(s: string)
    ensures DecodeAlias(EncodeAlias(s)) == s <==> AliasOk(s)
  {
    var text := AsciiText(EncodeAlias(s));
    SixBack(s);
    RStripIs(text);
    if AliasOk(s) {
      UpperKeeps(s);
      assert text == Padded(s, ALIAS_LEN);
      RStripPadding(s, ALIAS_LEN);
    }
    if RStrip(text) == s {
      forall i | 0 <= i < |s| ensures s[i] as int < 128 && !('a' <= s[i] <= 'z') {
        assert s[i] == text[i];
      }
    }
  }
}

/** KISS framing: byte stuffing between frame-end marks, and the incremental splitter that
    recovers the frames from a stream cut anywhere. */
module KissFrame {
  import opened Prelude

  const FEND: byte := 0xC0
  const FESC: byte := 0xDB
  const TFEND: byte := 0xDC
  const TFESC: byte := 0xDD

  // ---------- Byte stuffing ----------

  function EscapeByte(b: byte): seq<byte>
  {
    if b == FEND then [FESC, TFEND] else if b == FESC then [FESC, TFESC] else [b]
  }

  function Escape(data: seq<byte>): seq<byte>
  {
    if data == [] then [] else EscapeByte(data[0]) + Escape(data[1..])
  }

  /** A malformed escape, or one cut off at the end, yields nothing. */
  function UnescapePair(b: byte): seq<byte>
  {
    if b == TFEND then [FEND] else if b == TFESC then [FESC] else []
  }

  function Unescape(data: seq<byte>): seq<byte>
  {
    if data == [] then []
    else if data[0] != FESC then [data[0]] + Unescape(data[1..])
    else if |data| == 1 then []
    else UnescapePair(data[1]) + Unescape(data[2..])
  }

  method KissEscape(data: seq<byte>) returns (out: seq<byte>)
    ensures out == Escape(data)
  {
    out := [];
    ghost var all := Escape(data);
    assert data[0..] == data;
    for i := 0 to |data|
      invariant out + Escape(data[i..]) == all
    {
      var b := data[i];
      assert data[i..][1..] == data[i + 1..];
      assert out + (EscapeByte(b) + Escape(data[i + 1..])) == (out + EscapeByte(b)) + Escape(data[i + 1..]);
      if b == FEND {
        out := out + [FESC, TFEND];
      } else if b == FESC {
        out := out + [FESC, TFESC];
      } else {
        out := out + [b];
      }
    }
    assert out == all;
  }

  method KissUnescape(data: seq<byte>) returns (out: seq<byte>)
    ensures out == Unescape(data)
  {
    out := [];
    ghost var all := Unescape(data);
    var i := 0;
    assert data[0..] == data;
    while i < |data|
      invariant 0 <= i <= |data|
      invariant out + Unescape(data[i..]) == all
    {
      var b := data[i];
      assert data[i..][1..] == data[i + 1..];
      if b == FESC {
        i := i + 1;
        if i >= |data| {
          break;
        }
        var next := data[i];
        assert data[i - 1..][2..] == data[i + 1..];
        assert out + (UnescapePair(next) + Unescape(data[i + 1..]))
            == (out + UnescapePair(next)) + Unescape(data[i + 1..]);
        if next == TFEND {
          out := out + [FEND];
        } else if next == TFESC {
          out := out + [FESC];
        } else {
          assert out + [] == out;
        }
      } else {
        assert out + ([b] + Unescape(data[i + 1..])) == (out + [b]) + Unescape(data[i + 1..]);
        out := out + [b];
      }
      i := i + 1;
    }
    assert out == all;
  }

  /** Stuffed data: no frame-end byte, and every escape complete. */
  predicate Stuffed(s: seq<byte>)
  {
    s == [] ||
    (if s[0] == FESC then |s| > 1 && s[1] in {TFEND, TFESC} && Stuffed(s[2..])
     else s[0] != FEND && Stuffed(s[1..]))
  }

  /** Unstuffing undoes stuffing, and stuffed data never contains a frame end. */
  lemma {:induction false} EscapeRoundTrip(data: seq<byte>)
    ensures Unescape(Escape(data)) == data && Stuffed(Escape(data)) && FEND !in Escape(data)
  {
    if data != [] {
      EscapeRoundTrip(data[1..]);
      var b, rest := data[0], Escape(data[1..]);
      assert data == [b] + data[1..];
      if b == FEND || b == FESC {
        assert Escape(data)[2..] == rest;
      } else {
        assert Escape(data)[1..] == rest;
      }
    }
  }

  /** Stuffing undoes unstuffing exactly on stuffed data. */
  lemma {:induction false} UnescapeRoundTripIff(s: seq<byte>)
    ensures Escape(Unescape(s)) == s <==> Stuffed(s)
  {
    EscapeRoundTrip(Unescape(s));
    if Stuffed(s) {
      StuffedBack(s);
    }
  }

  lemma {:induction false} StuffedBack(s: seq<byte>)
    requires Stuffed(s)
    ensures Escape(Unescape(s)) == s
  {
    if s == [] {
    } else if s[0] == FESC {
      StuffedBack(s[2..]);
      var u := UnescapePair(s[1]);
      assert (u + Unescape(s[2..]))[1..] == Unescape(s[2..]);
      assert s == [s[0], s[1]] + s[2..];
    } else {
      StuffedBack(s[1..]);
      assert ([s[0]] + Unescape(s[1..]))[1..] == Unescape(s[1..]);
    }
  }

  // ---------- Splitting ----------

  datatype Splitting = Splitting(frames: seq<seq<byte>>, rest: seq<byte>)

  /** The first frame end at or after `from`, or the length. */
  function Find(buf: seq<byte>, from: nat): (i: nat)
    requires from <= |buf|
    ensures from <= i <= |buf|
    ensures i < |buf| ==> buf[i] == FEND
    ensures forall j :: from <= j < i ==> buf[j] != FEND
    decreases |buf| - from
  {
    if from == |buf| || buf[from] == FEND then from else Find(buf, from + 1)
  }

  function NonEmpty(frame: seq<byte>): seq<seq<byte>>
  {
    if frame == [] then [] else [frame]
  }

  /** Frame ends pair up: what lies between the two of a pair is a frame, unless empty. */
  function Split(buf: seq<byte>): Splitting
    decreases |buf|
  {
    var start := Find(buf, 0);
    if start == |buf| then Splitting([], buf)
    else
      var end := Find(buf, start + 1);
      if end == |buf| then Splitting([], buf)
      else
        var tail := Split(buf[end + 1..]);
        Splitting(NonEmpty(buf[start + 1..end]) + tail.frames, tail.rest)
  }

  lemma {:induction false} FindIs(buf: seq<byte>, from: nat, i: nat)
    requires from <= i < |buf| && buf[i] == FEND && forall j :: from <= j < i ==> buf[j] != FEND
    ensures Find(buf, from) == i
  {
  }

  /** The first two frame ends of the buffer. */
  predicate FirstPair(buf: seq<byte>, start: nat, end: nat)
  {
    && start < end < |buf| && buf[start] == FEND && buf[end] == FEND
    && (forall j :: 0 <= j < start ==> buf[j] != FEND)
    && (forall j :: start < j < end ==> buf[j] != FEND)
  }

  predicate HasPair(buf: seq<byte>)
  {
    var start := Find(buf, 0);
    start < |buf| && Find(buf, start + 1) < |buf|
  }

  lemma PairOf(buf: seq<byte>) returns (start: nat, end: nat)
    requires HasPair(buf)
    ensures FirstPair(buf, start, end)
  {
    start := Find(buf, 0);
    end := Find(buf, start + 1);
  }

  /** One round of the splitter. */
  lemma SplitFound(buf: seq<byte>)
    requires HasPair(buf)
    ensures var start := Find(buf, 0); var end := Find(buf, start + 1); var tail := Split(buf[end + 1..]);
      Split(buf) == Splitting(NonEmpty(buf[start + 1..end]) + tail.frames, tail.rest)
  {
    hide Find;
  }

  lemma SplitPair(buf: seq<byte>, start: nat, end: nat)
    requires FirstPair(buf, start, end)
    ensures HasPair(buf)
    ensures var tail := Split(buf[end + 1..]);
      Split(buf) == Splitting(NonEmpty(buf[start + 1..end]) + tail.frames, tail.rest)
  {
    hide Find, FirstPair, Split, NonEmpty;
    FindPair(buf, start, end);
    SplitFound(buf);
  }

  lemma FindPair(buf: seq<byte>, start: nat, end: nat)
    requires FirstPair(buf, start, end)
    ensures end < |buf| && Find(buf, 0) == start && Find(buf, start + 1) == end
  {
    FindIs(buf, 0, start);
    FindIs(buf, start + 1, end);
  }

  lemma SplitNoPair(buf: seq<byte>)
    requires !HasPair(buf)
    ensures Split(buf) == Splitting([], buf)
  {
    hide Find;
  }

  lemma Regroup(x: seq<seq<byte>>, y: seq<seq<byte>>, z: seq<seq<byte>>)
    ensures x + (y + z) == (x + y) + z && [] + x == x
  {
  }

  method SplitKissFrames(input: seq<byte>) returns (frames: seq<seq<byte>>, buf: seq<byte>)
    ensures Splitting(frames, buf) == Split(input)
  {
    hide Split, Find;
    frames, buf := [], input;
    ghost var all := Split(input);
    Regroup(all.frames, [], []);
    while true
      invariant frames + Split(buf).frames == all.frames && Split(buf).rest == all.rest
      decreases |buf|
    {
      var start := Find(buf, 0);
      if start == |buf| {
        break;
      }
      var end := Find(buf, start + 1);
      if end == |buf| {
        break;
      }
      var frame := buf[start + 1..end];
      SplitFound(buf);
      Regroup(frames, NonEmpty(frame), Split(buf[end + 1..]).frames);
      if frame != [] {
        frames := frames + [frame];
      } else {
        assert frames + [] == frames;
      }
      buf := buf[end + 1..];
    }
    SplitNoPair(buf);
    assert frames + [] == frames;
  }

  /** Nothing is lost or invented at a cut: splitting a + b gives the frames of a, then those of
      what a left over followed by b. */
  lemma {:induction false} SplitAtAnyCut(a: seq<byte>, b: seq<byte>)
    ensures var s := Split(a);
      Split(a + b) == Splitting(s.frames + Split(s.rest + b).frames, Split(s.rest + b).rest)
    decreases |a|
  {
    hide Split, HasPair, NonEmpty;
    if HasPair(a) {
      var start, end := PairOf(a);
      assert FirstPair(a + b, start, end);
      SplitPair(a, start, end);
      SplitPair(a + b, start, end);
      SplitAtAnyCut(a[end + 1..], b);
      assert (a + b)[end + 1..] == a[end + 1..] + b;
      assert (a + b)[start + 1..end] == a[start + 1..end];
      var t := Split(a[end + 1..]);
      Regroup(NonEmpty(a[start + 1..end]), t.frames, Split(t.rest + b).frames);
    } else {
      SplitNoPair(a);
      Regroup(Split(a + b).frames, [], []);
    }
  }

  function Joined(chunks: seq<seq<byte>>): seq<byte>
  {
    if chunks == [] then [] else Joined(chunks[..|chunks| - 1]) + chunks[|chunks| - 1]
  }

  /** The read loop: every chunk is appended to what the last split left over. */
  function ReadLoop(chunks: seq<seq<byte>>): Splitting
  {
    if chunks == [] then Splitting([], [])
    else
      var before := ReadLoop(chunks[..|chunks| - 1]);
      var s := Split(before.rest + chunks[|chunks| - 1]);
      Splitting(before.frames + s.frames, s.rest)
  }

  /** However the stream is cut into chunks, the frames are those of the whole. */
  lemma {:induction false} ChunkingIsInvisible(chunks: seq<seq<byte>>)
    ensures ReadLoop(chunks) == Split(Joined(chunks))
  {
    hide Split;
    if chunks == [] {
      SplitNothing();
    } else {
      var n := |chunks| - 1;
      ChunkingIsInvisible(chunks[..n]);
      SplitAtAnyCut(Joined(chunks[..n]), chunks[n]);
    }
  }

  lemma SplitNothing()
    ensures Split([]) == Splitting([], [])
  {
  }

  // ---------- Frames on a port ----------

  datatype PortFrame = PortFrame(port: int, ax25: seq<byte>)

  function Command(port: int): byte { 16 * (port % 16) }

  function Raw(f: PortFrame): seq<byte> { [Command(f.port)] + Escape(f.ax25) }

  function BuildKissFrame(f: PortFrame): seq<byte> { [FEND] + Raw(f) + [FEND] }

  function Stream(fs: seq<PortFrame>): seq<byte>
  {
    if fs == [] then [] else BuildKissFrame(fs[0]) + Stream(fs[1..])
  }

  function Raws(fs: seq<PortFrame>): seq<seq<byte>>
  {
    if fs == [] then [] else [Raw(fs[0])] + Raws(fs[1..])
  }

  /** The port and AX.25 frame of a raw frame; None unless it is a data frame. */
  function Unpack(raw: seq<byte>): Option<PortFrame>
  {
    if |raw| < 1 || raw[0] % 16 != 0 then None
    else Some(PortFrame(raw[0] / 16, Unescape(raw[1..])))
  }

  lemma UnpackRaw(f: PortFrame)
    ensures Unpack(Raw(f)) == Some(PortFrame(f.port % 16, f.ax25))
  {
    EscapeRoundTrip(f.ax25);
    assert Raw(f)[1..] == Escape(f.ax25);
  }

  lemma SplitOne(raw: seq<byte>, more: seq<byte>)
    requires raw != [] && FEND !in raw
    ensures Split([FEND] + raw + [FEND] + more) == Splitting([raw] + Split(more).frames, Split(more).rest)
  {
    hide Split, HasPair;
    var buf := [FEND] + raw + [FEND] + more;
    assert forall j :: 1 <= j < 1 + |raw| ==> buf[j] == raw[j - 1] && raw[j - 1] in raw;
    SplitPair(buf, 0, 1 + |raw|);
    assert buf[1..1 + |raw|] == raw && buf[|raw| + 2..] == more;
  }

  lemma {:induction false} StreamSplits(fs: seq<PortFrame>)
    requires forall i :: 0 <= i < |fs| ==> fs[i].port % 16 != 12
    ensures Split(Stream(fs)) == Splitting(Raws(fs), [])
  {
    hide Split;
    if fs == [] {
      SplitNothing();
    } else {
      EscapeRoundTrip(fs[0].ax25);
      assert FEND !in Raw(fs[0]);
      SplitOne(Raw(fs[0]), Stream(fs[1..]));
      StreamSplits(fs[1..]);
    }
  }

  lemma {:induction false} FramesHoldNoEnds(buf: seq<byte>, i: nat)
    requires i < |Split(buf).frames|
    ensures FEND !in Split(buf).frames[i]
    decreases |buf|
  {
    hide Split, HasPair;
    if HasPair(buf) {
      var start, end := PairOf(buf);
      SplitPair(buf, start, end);
      var frame := buf[start + 1..end];
      if i >= |NonEmpty(frame)| {
        FramesHoldNoEnds(buf[end + 1..], i - |NonEmpty(frame)|);
      }
    } else {
      SplitNoPair(buf);
    }
  }

  lemma {:induction false} RawsAt(fs: seq<PortFrame>, i: nat)
    requires i < |fs|
    ensures |Raws(fs)| == |fs| && Raws(fs)[i] == Raw(fs[i])
  {
    if |fs| > 1 {
      RawsAt(fs[1..], if i == 0 then 0 else i - 1);
    }
  }

  /** A stream of built frames, read in any chunks, gives back every frame in order exactly when
      none was built for port 12, whose command byte is itself a frame end. */
  lemma StreamRecoveredIff(fs: seq<PortFrame>, chunks: seq<seq<byte>>)
    requires Joined(chunks) == Stream(fs)
    ensures ReadLoop(chunks).frames == Raws(fs) <==> forall i :: 0 <= i < |fs| ==> fs[i].port % 16 != 12
  {
    ChunkingIsInvisible(chunks);
    if forall i :: 0 <= i < |fs| ==> fs[i].port % 16 != 12 {
      StreamSplits(fs);
    } else if Split(Stream(fs)).frames == Raws(fs) {
      var i :| 0 <= i < |fs| && fs[i].port % 16 == 12;
      RawsAt(fs, i);
      FramesHoldNoEnds(Stream(fs), i);
    }
  }

  /** What every frame of such a stream unpacks to. */
  lemma StreamUnpacks(fs: seq<PortFrame>, chunks: seq<seq<byte>>, i: nat)
    requires Joined(chunks) == Stream(fs) && i < |fs|
    requires forall j :: 0 <= j < |fs| ==> fs[j].port % 16 != 12
    ensures i < |ReadLoop(chunks).frames|
    ensures Unpack(ReadLoop(chunks).frames[i]) == Some(PortFrame(fs[i].port % 16, fs[i].ax25))
  {
    StreamRecoveredIff(fs, chunks);
    RawsAt(fs, i);
    UnpackRaw(fs[i]);
  }

  /** After a frame for port 12 the splitter is out of step: it yields none of the frames for
      other ports that follow. */
  lemma {:induction false} PortTwelveSilences(bad: PortFrame, fs: seq<PortFrame>)
    requires bad.port % 16 == 12 && forall i :: 0 <= i < |fs| ==> fs[i].port % 16 != 12
    ensures Split(BuildKissFrame(bad) + Stream(fs)).frames == []
  {
    hide Split, Escape, Stream;
    EscapeRoundTrip(bad.ax25);
    var body := Escape(bad.ax25);
    var tail := body + [FEND] + Stream(fs);
    var buf := BuildKissFrame(bad) + Stream(fs);
    assert buf == [FEND, FEND] + tail;
    SplitEmptyPair([], tail);
    assert [] + [FEND, FEND] + tail == buf;
    OutOfStep(body, fs);
  }

  lemma SplitEmptyPair(junk: seq<byte>, more: seq<byte>)
    requires FEND !in junk
    ensures Split(junk + [FEND, FEND] + more) == Split(more)
  {
    hide Split, HasPair;
    var buf := junk + [FEND, FEND] + more;
    assert forall j :: 0 <= j < |junk| ==> buf[j] == junk[j] && junk[j] in junk;
    SplitPair(buf, |junk|, |junk| + 1);
    assert buf[|junk| + 2..] == more && buf[|junk| + 1..|junk| + 1] == [];
    Regroup(Split(more).frames, [], []);
  }

  lemma {:induction false} OutOfStep(junk: seq<byte>, fs: seq<PortFrame>)
    requires FEND !in junk && forall i :: 0 <= i < |fs| ==> fs[i].port % 16 != 12
    ensures Split(junk + [FEND] + Stream(fs)).frames == []
    decreases |fs|
  {
    hide Split;
    if fs == [] {
      assert junk + [FEND] + [] == junk + [FEND];
      OneEndOnly(junk);
    } else {
      EscapeRoundTrip(fs[0].ax25);
      var raw := Raw(fs[0]);
      assert FEND !in raw;
      assert junk + [FEND] + Stream(fs) == junk + [FEND, FEND] + (raw + [FEND] + Stream(fs[1..]));
      SplitEmptyPair(junk, raw + [FEND] + Stream(fs[1..]));
      OutOfStep(raw, fs[1..]);
    }
  }

  lemma OneEndOnly(junk: seq<byte>)
    requires FEND !in junk
    ensures Split(junk + [FEND]).frames == []
  {
    var buf := junk + [FEND];
    assert forall j :: 0 <= j < |junk| ==> buf[j] == junk[j] && junk[j] in junk;
    FindIs(buf, 0, |junk|);
  }
}

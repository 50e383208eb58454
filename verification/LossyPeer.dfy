/** One circuit against a peer that loses, repeats and reorders its frames.

    Sequence numbers on the wire are bytes; `n` and `v` below are the true numbers
    they stand for.  The 8-bit tests are right exactly within a distance of 255. */
module LossyPeer {
  import opened Prelude
  import opened Frames
  import opened Circuit
  import opened Reassembly
  import opened CircuitPair

  // ---------- Receiving ----------

  /** The peer's n-th fragment arrives, with whatever acknowledgement it carries. */
  datatype Arrival = Arrival(n: nat, ack: byte)

  /** A receiving circuit and the number of fragments it has accepted. */
  datatype Receiver = Receiver(core: Core, got: nat)

  function Arriving(log: seq<Fragment>, a: Arrival): L3Frame
    requires a.n < |log|
  {
    Information(L3Header("", "", DEFAULT_TTL, 0, 0, a.n % 256, a.ack, InfoFlags(log[a.n].more)), log[a.n].chunk)
  }

  /** Did the handler take the frame's payload?  V(R) moves exactly then. */
  function Take(r: Receiver, f: L3Frame): Receiver
    requires f.Information?
  {
    var core := OnInformation(r.core, f).core;
    Receiver(core, if core.vr != r.core.vr then r.got + 1 else r.got)
  }

  ghost predicate Faithful(r: Receiver, log: seq<Fragment>)
  {
    && r.got <= |log| && !r.core.eof
    && r.core.vr == r.got % 256
    && r.core.inbox == Reassemble(log[..r.got])
  }

  predicate Near(r: Receiver, a: Arrival) { r.got - 255 <= a.n <= r.got + 255 }

  function TakeAll(r: Receiver, log: seq<Fragment>, arrivals: seq<Arrival>): Receiver
    requires forall a :: a in arrivals ==> a.n < |log|
    decreases |arrivals|
  {
    if arrivals == [] then r
    else TakeAll(Take(r, Arriving(log, arrivals[0])), log, arrivals[1..])
  }

  /** Each arrival is within 255 of V(R) when it arrives. */
  predicate AllNear(r: Receiver, log: seq<Fragment>, arrivals: seq<Arrival>)
    requires forall a :: a in arrivals ==> a.n < |log|
    decreases |arrivals|
  {
    arrivals == [] ||
    (Near(r, arrivals[0]) && AllNear(Take(r, Arriving(log, arrivals[0])), log, arrivals[1..]))
  }

  lemma Congruent(m: nat, n: nat)
    ensures m - 255 <= n <= m + 255 && m % 256 == n % 256 ==> m == n
    ensures n == m + 256 ==> m % 256 == n % 256
  {
    var q := m / 256 - n / 256;
    assert m - n == 256 * q + (m % 256 - n % 256);
  }

  lemma TakeIs(r: Receiver, f: L3Frame)
    requires f.Information? && !r.core.eof
    ensures var t := Take(r, f);
      && !t.core.eof
      && if f.header.txSeq == r.core.vr
         then t.got == r.got + 1 && t.core.vr == (r.core.vr + 1) % 256 && t.core.inbox == Absorb(r.core.inbox, FragmentOf(f))
         else t.got == r.got && t.core.vr == r.core.vr && t.core.inbox == r.core.inbox
  {
    hide Absorb;
  }

  /** One arrival: the payload is taken if and only if its number is the expected one
      modulo 256, which within a distance of 255 means that it is the expected one. */
  lemma TakenIffCongruent(r: Receiver, log: seq<Fragment>, a: Arrival)
    requires Faithful(r, log) && a.n < |log|
    ensures var t := Take(r, Arriving(log, a));
      && (t.got == r.got + 1 <==> a.n % 256 == r.got % 256)
      && (a.n % 256 != r.got % 256 ==> t.core.inbox == r.core.inbox)
      && (Near(r, a) ==> (t.got == r.got + 1 <==> a.n == r.got) && Faithful(t, log))
  {
    hide Absorb, Take;
    Congruent(r.got, a.n);
    TakeIs(r, Arriving(log, a));
    assert FragmentOf(Arriving(log, a)) == log[a.n];
    if a.n == r.got {
      Snoc(log[..r.got], log[r.got]);
      assert log[..r.got + 1] == log[..r.got] + [log[r.got]];
    }
  }

  /** Exactly-once delivery: whatever is lost, repeated or reordered, what the receiver
      has taken is exactly the first `got` fragments, each once and in order. */
  lemma {:induction false} ExactlyOnce(r: Receiver, log: seq<Fragment>, arrivals: seq<Arrival>)
    requires Faithful(r, log)
    requires forall a :: a in arrivals ==> a.n < |log|
    requires AllNear(r, log, arrivals)
    ensures Faithful(TakeAll(r, log, arrivals), log)
    ensures TakeAll(r, log, arrivals).got >= r.got
    decreases |arrivals|
  {
    if arrivals != [] {
      TakenIffCongruent(r, log, arrivals[0]);
      ExactlyOnce(Take(r, Arriving(log, arrivals[0])), log, arrivals[1..]);
    }
  }

  /** The bound is tight: 256 ahead, the wrong payload is taken as the next one. */
  lemma TooFarAheadIsMistaken(r: Receiver, log: seq<Fragment>, a: Arrival)
    requires Faithful(r, log) && a.n == r.got + 256 < |log|
    ensures var t := Take(r, Arriving(log, a));
      t.got == r.got + 1 && t.core.inbox == Absorb(r.core.inbox, log[r.got + 256])
  {
    Congruent(r.got, a.n);
    assert FragmentOf(Arriving(log, a)) == log[a.n];
  }

  // ---------- Sending under stale acknowledgements ----------

  /** A sending circuit; `sent` frames are out, the peer has taken `taken` of them and
      `acked` is the number behind the last acknowledgement seen. */
  datatype Sender = Sender(core: Core, sent: nat, taken: nat, acked: nat)

  datatype Happening =
    | DrainRuns
    | PeerTakes(taken: nat)
    | AckArrives(v: nat)

  function After(s: Sender, h: Happening): Sender
  {
    match h
    case DrainRuns =>
      var e := OnDrain(s.core);
      s.(core := e.core, sent := s.sent + |e.out|)
    case PeerTakes(t) => s.(taken := t)
    case AckArrives(v) => s.(core := AdvanceVa(s.core, v % 256), acked := v)
  }

  /** The peer takes only what was sent; acknowledgements report a number it once held,
      fewer than 256 behind what has been sent. */
  predicate Possible(s: Sender, h: Happening)
  {
    match h
    case DrainRuns => true
    case PeerTakes(t) => s.taken <= t <= s.sent
    case AckArrives(v) => v <= s.taken && s.sent - v < 256
  }

  predicate Respected(s: Sender)
  {
    && s.core.vs == s.sent % 256 && s.core.va == s.acked % 256
    && s.acked <= s.taken <= s.sent < s.acked + 256
    && s.sent - s.taken <= s.core.window
  }

  /** drain() emits at most one frame, and only when the byte-sized distance shows room. */
  lemma DrainEmitsInRoom(c: Core)
    ensures var e := OnDrain(c);
      && e.core.va == c.va && e.core.window == c.window
      && (|e.out| == 0 ==> e.core.vs == c.vs)
      && (|e.out| != 0 ==> |e.out| == 1 && e.core.vs == (c.vs + 1) % 256 && FramesInFlight(c) < c.window)
  {
  }

  lemma StepRespects(s: Sender, h: Happening)
    requires Respected(s) && Possible(s, h)
    ensures Respected(After(s, h))
  {
    if h.DrainRuns? {
      ModDistance(s.sent, s.acked);
      assert FramesInFlight(s.core) == s.sent - s.acked;
      DrainEmitsInRoom(s.core);
      hide OnDrain;
    }
  }

  predicate AllPossible(s: Sender, hs: seq<Happening>)
    decreases |hs|
  {
    hs == [] || (Possible(s, hs[0]) && AllPossible(After(s, hs[0]), hs[1..]))
  }

  function AfterAll(s: Sender, hs: seq<Happening>): Sender
    decreases |hs|
  {
    if hs == [] then s else AfterAll(After(s, hs[0]), hs[1..])
  }

  /** A stale acknowledgement may move V(A) back, but never lets more than the window be
      truly outstanding. */
  lemma {:induction false} WindowSurvivesStaleAcks(s: Sender, hs: seq<Happening>)
    requires Respected(s) && AllPossible(s, hs)
    ensures Respected(AfterAll(s, hs))
    decreases |hs|
  {
    if hs != [] {
      StepRespects(s, hs[0]);
      WindowSurvivesStaleAcks(After(s, hs[0]), hs[1..]);
    }
  }

  lemma DrainEmitsIff(c: Core)
    ensures |OnDrain(c).out| == (if c.pending != [] && c.state == Connected && FramesInFlight(c) < c.window then 1 else 0)
  {
  }

  lemma InFlightAfterAck(s: Sender, v: nat)
    requires Respected(s) && v <= s.taken
    ensures FramesInFlight(After(s, AckArrives(v)).core) == (s.sent - v) % 256
  {
    ModMinus(s.sent, v);
  }

  lemma ModMinus(m: nat, n: nat)
    ensures (m % 256 - n % 256) % 256 == (m - n) % 256
  {
    var q := m / 256 - n / 256;
    assert m - n == 256 * q + (m % 256 - n % 256);
  }

  /** An acknowledgement, however stale, lets one frame too many out if and only if the window is
      full, a frame waits on an open circuit, and the byte-sized distance from what it reports
      shows room; it is then at least 256 behind. */
  lemma OverrunIff(s: Sender, v: nat)
    requires Respected(s) && v <= s.taken
    ensures var t := After(After(s, AckArrives(v)), DrainRuns);
      var overrun := t.sent - t.taken > s.core.window;
      && (overrun <==> s.core.pending != [] && s.core.state == Connected
                       && s.sent - s.taken == s.core.window && (s.sent - v) % 256 < s.core.window)
      && (overrun ==> s.sent - v >= 256)
  {
    InFlightAfterAck(s, v);
    DrainEmitsIff(After(s, AckArrives(v)).core);
    hide OnDrain, FramesInFlight;
  }

  /** Tight again: with a full window, an acknowledgement 256 behind reads as "all clear"
      and one frame too many goes out. */
  lemma TooStaleOverrunsTheWindow(s: Sender)
    requires Respected(s) && s.sent == s.taken + s.core.window && s.sent >= 256
    requires s.core.pending != [] && s.core.state == Connected
    ensures var t := After(After(s, AckArrives(s.sent - 256)), DrainRuns);
      t.sent - t.taken == s.core.window + 1
  {
    Congruent(s.sent - 256, s.sent);
    assert FramesInFlight(After(s, AckArrives(s.sent - 256)).core) == 0;
  }
}

/** What every run of two connected endpoints guarantees. */
module PairTheorems {
  import opened Prelude
  import opened Frames
  import opened Circuit
  import opened Reassembly
  import opened CircuitPair

  /** The state after the events `es`, from a fresh CONNECT REQ. */
  function Reached(u: Setup, es: seq<Event>): System { Exec(Start(u), es) }

  lemma ReachedInv(u: Setup, es: seq<Event>)
    ensures Inv(Reached(u, es))
  {
    StartInv(u);
    ExecKeeps(Start(u), es);
  }

  // ---------- Bytes ----------

  /** The INFO payloads travelling on a link, in order. */
  function Carried(ws: seq<Wire>): seq<Fragment>
  {
    if ws == [] then []
    else if ws[0].frame.Information? then [FragmentOf(ws[0].frame)] + Carried(ws[1..])
    else Carried(ws[1..])
  }

  lemma {:induction false} CarriedIsLog(ws: seq<Wire>, log: seq<Fragment>, k: nat)
    requires Carries(ws, log, k) && k <= |log|
    ensures Carried(ws) == log[k..]
  {
    if ws != [] {
      if ws[0].frame.Information? {
        CarriedIsLog(ws[1..], log, k + 1);
      } else {
        CarriedIsLog(ws[1..], log, k);
      }
    }
  }

  /** The part of x's transmissions that y has accepted. */
  function Taken(x: Node, y: Node): seq<Fragment> { x.log[..Min(y.got, |x.log|)] }

  /** Delivered ++ partial ++ in flight ++ queued, for data from x to y. */
  function Accounted(x: Node, y: Node, xy: seq<Wire>): seq<byte>
  {
    y.core.inbox.delivered + y.core.inbox.partial + Bytes(Carried(xy)) + Bytes(x.core.pending)
  }

  lemma SplitQueue(s: System)
    requires Flow(s.a, s.b, s.ab, s.ba)
    ensures Bytes(Queue(s.a)) == Bytes(s.a.log[..s.b.got]) + Bytes(s.a.log[s.b.got..]) + Bytes(s.a.core.pending)
  {
    BytesConcat(s.a.log[..s.b.got], s.a.log[s.b.got..]);
    assert s.a.log[..s.b.got] + s.a.log[s.b.got..] == s.a.log;
    BytesConcat(s.a.log, s.a.core.pending);
  }

  lemma ConservedA(s: System)
    requires Inv(s) && s.a.core.state == Connected && s.b.live
    ensures Accounted(s.a, s.b, s.ab) == s.a.wrote <==> RunsFit(Taken(s.a, s.b))
    ensures s.a.modest ==> RunsFit(Taken(s.a, s.b))
  {
    var box, k := s.b.core.inbox, s.b.got;
    CarriedIsLog(s.ab, s.a.log, k);
    SplitQueue(s);
    LosslessIffRunsFit(s.a.log[..k]);
    assert Queue(s.a) == s.a.log[..k] + (s.a.log[k..] + s.a.core.pending);
    if s.a.modest {
      RunsFitPrefix(s.a.log[..k], s.a.log[k..] + s.a.core.pending);
    }
  }

  /** Conservation: while the writer is connected and the reader's circuit is listed,
      what was written is delivered, half reassembled, in flight or queued, in that order,
      exactly as long as no over-long message has burst the ceiling; and none can when
      each single write is within it.  Both directions. */
  lemma NothingLostOrReordered(u: Setup, es: seq<Event>)
    ensures var s := Reached(u, es);
      && (s.a.core.state == Connected && s.b.live ==>
            && (Accounted(s.a, s.b, s.ab) == s.a.wrote <==> RunsFit(Taken(s.a, s.b)))
            && (s.a.modest ==> Accounted(s.a, s.b, s.ab) == s.a.wrote))
      && (s.b.core.state == Connected && s.a.live ==>
            && (Accounted(s.b, s.a, s.ba) == s.b.wrote <==> RunsFit(Taken(s.b, s.a)))
            && (s.b.modest ==> Accounted(s.b, s.a, s.ba) == s.b.wrote))
  {
    var s := Reached(u, es);
    ReachedInv(u, es);
    InvSwap(s);
    if s.a.core.state == Connected && s.b.live {
      ConservedA(s);
    }
    if s.b.core.state == Connected && s.a.live {
      ConservedA(Swap(s));
    }
  }

  lemma PrefixA(s: System)
    requires Inv(s) && s.a.modest
    ensures s.b.core.inbox.delivered <= s.a.wrote
  {
    var k := s.b.got;
    SplitQueue(s);
    assert Queue(s.a) == s.a.log[..k] + (s.a.log[k..] + s.a.core.pending);
    RunsFitPrefix(s.a.log[..k], s.a.log[k..] + s.a.core.pending);
    LosslessIffRunsFit(s.a.log[..k]);
  }

  /** At every moment of every run, teardown included, what a session has read is a
      prefix of what the other end wrote. */
  lemma ReaderSeesPrefix(u: Setup, es: seq<Event>)
    ensures var s := Reached(u, es);
      && (s.a.modest ==> s.b.core.inbox.delivered <= s.a.wrote)
      && (s.b.modest ==> s.a.core.inbox.delivered <= s.b.wrote)
  {
    var s := Reached(u, es);
    ReachedInv(u, es);
    InvSwap(s);
    if s.a.modest { PrefixA(s); }
    if s.b.modest { PrefixA(Swap(s)); }
  }

  // ---------- Window and handshake ----------

  lemma {:induction false} AckBounds(ws: seq<Wire>, lo: nat, hi: nat, i: nat)
    requires Acks(ws, lo, hi) && i < |ws| && IsAck(ws[i].frame)
    ensures lo <= ws[i].accepted <= hi
    ensures ws[i].frame.header.rxSeq == ws[i].accepted % 256
  {
    AcksOrdered(ws, lo, hi);
    if i == 0 {
      AcksOrdered(ws[1..], ws[0].accepted, hi);
    } else {
      AckBounds(ws[1..], if IsAck(ws[0].frame) then ws[0].accepted else lo, hi, i - 1);
    }
  }

  /** x's side of the window: acknowledged <= every acknowledgement in flight <= received
      <= sent <= acknowledged + window, so the byte-sized distance is exact. */
  ghost predicate WindowSafe(x: Node, y: Node, yx: seq<Wire>)
  {
    && 1 <= x.core.window <= MAX_WINDOW
    && x.acked <= y.got <= |x.log| <= x.acked + x.core.window
    && FramesInFlight(x.core) == |x.log| - x.acked
    && (forall i :: x.live && 0 <= i < |yx| && IsAck(yx[i].frame) ==>
          x.acked <= yx[i].accepted <= y.got && yx[i].frame.header.rxSeq == yx[i].accepted % 256)
  }

  lemma WindowSafeA(s: System)
    requires Inv(s)
    ensures WindowSafe(s.a, s.b, s.ba)
  {
    InFlightIsTrue(s);
    forall i | s.a.live && 0 <= i < |s.ba| && IsAck(s.ba[i].frame)
      ensures s.a.acked <= s.ba[i].accepted <= s.b.got
           && s.ba[i].frame.header.rxSeq == s.ba[i].accepted % 256
    {
      AckBounds(s.ba, s.a.acked, s.b.got, i);
    }
  }

  lemma WindowAlwaysSafe(u: Setup, es: seq<Event>)
    ensures var s := Reached(u, es); WindowSafe(s.a, s.b, s.ba) && WindowSafe(s.b, s.a, s.ab)
  {
    ReachedInv(u, es);
    InvSwap(Reached(u, es));
    WindowSafeA(Reached(u, es));
    WindowSafeA(Swap(Reached(u, es)));
  }

  /** Once both circuits are past the handshake each names the other's index and id,
      and they hold one window, the clamped proposal. */
  lemma EndsAgree(u: Setup, es: seq<Event>)
    ensures var s := Reached(u, es);
      s.b.born && s.a.core.state != AwaitingConnect ==>
        && (s.a.core.remoteIdx, s.a.core.remoteId) == (s.b.core.localIdx, s.b.core.localId)
        && (s.b.core.remoteIdx, s.b.core.remoteId) == (s.a.core.localIdx, s.a.core.localId)
        && s.a.core.window == s.b.core.window
        && 1 <= s.a.core.window <= MAX_WINDOW
  {
    ReachedInv(u, es);
    OriginatorFixed(u, es);
  }

  lemma StepOriginator(s: System, act: Act)
    ensures StepA(s, act).a.originator == s.a.originator && StepA(s, act).b == s.b
  {
  }

  lemma {:induction false} OriginatorKept(s: System, es: seq<Event>)
    ensures Exec(s, es).a.originator == s.a.originator
    decreases |es|
  {
    if es != [] {
      StepOriginator(s, es[0].act);
      StepOriginator(Swap(s), es[0].act);
      hide StepA;
      OriginatorKept(Step(s, es[0]), es[1..]);
    }
  }

  lemma OriginatorFixed(u: Setup, es: seq<Event>)
    ensures Reached(u, es).a.originator
  {
    OriginatorKept(Start(u), es);
  }

  /** The undisturbed handshake reaches that agreement. */
  lemma HandshakeConnects(u: Setup, idx: byte, id: byte)
    ensures var s := Reached(u, [ByB(Receive(Some((idx, id)))), ByA(Receive(None))]);
      && s.a.core.state == Connected && s.b.core.state == Connected && s.a.live && s.b.live
      && s.b.core.localIdx == idx && s.b.core.localId == id
      && s.b.core.userCall == s.a.core.userCall && s.b.core.peerCall == s.a.core.localCall
      && (var w := s.a.core.window;
          1 <= w <= 7 && (w < u.proposed ==> w == 7) && (w > u.proposed ==> w == 1))
  {
    var es := [ByB(Receive(Some((idx, id)))), ByA(Receive(None))];
    var s1 := Step(Start(u), es[0]);
    TagOne(s1.ba[0].frame, 0);
    assert |s1.ba| == 1;
    var s2 := Step(s1, es[1]);
    assert es[1..][1..] == [];
    assert Exec(s1, es[1..]) == s2;
  }

  // ---------- Addressing ----------

  /** What one end may put on its link: frames from itself to its peer, and requests in its name. */
  predicate Posted(ws: seq<Wire>, from: string, to: string)
  {
    forall i :: 0 <= i < |ws| ==>
      && ws[i].frame.header.originCall == from && ws[i].frame.header.destCall == to
      && (ws[i].frame.ConnectRequest? ==> ws[i].frame.originNodeCall == from)
  }

  /** The call of an end, and of whom it talks to; an end that is not yet born will talk to whoever
      asks. */
  datatype Name = Name(own: string, peer: string)

  predicate NamedNode(n: Node, name: Name)
  {
    n.core.localCall == name.own && (n.born ==> n.core.peerCall == name.peer)
  }

  predicate Postal(s: System, a: Name, b: Name)
  {
    && NamedNode(s.a, a) && NamedNode(s.b, b) && Posted(s.ab, a.own, a.peer) && Posted(s.ba, b.own, b.peer)
    && (!s.a.born ==> a.peer == b.own) && (!s.b.born ==> b.peer == a.own)
  }

  lemma PostMore(ws: seq<Wire>, out: seq<L3Frame>, n: nat, from: string, to: string)
    requires Posted(ws, from, to)
    requires forall i :: 0 <= i < |out| ==>
      && out[i].header.originCall == from && out[i].header.destCall == to && !out[i].ConnectRequest?
    ensures Posted(ws + Tag(out, n), from, to)
  {
  }

  lemma SessionPostal(s: System, act: Act, a: Name, b: Name)
    requires Postal(s, a, b) && Inv(s) && Enabled(s, act) && !act.Receive?
    ensures Postal(StepA(s, act), a, b)
  {
    hide Inv, Fragments;
    if act.OriginateReturns? || act.GuardFires? {
      GuardNames(s.a.core);
    } else if act.Drain? {
      PostMore(s.ab, OnDrain(s.a.core).out, s.a.got, a.own, a.peer);
    } else if act.CloseWriter? || act.SessionEnds? {
      PostMore(s.ab, OnEnding(s.a.core, act).out, s.a.got, a.own, a.peer);
    }
  }

  lemma GuardNames(c: Core)
    ensures OnGuard(c).localCall == c.localCall && OnGuard(c).peerCall == c.peerCall
  {
  }

  lemma FrameNames(c: Core, f: L3Frame)
    ensures f.Information? ==> var e := OnInformation(c, f);
      && (e.core.localCall, e.core.peerCall) == (c.localCall, c.peerCall)
      && forall g :: g in e.out ==> g.header.originCall == c.localCall && g.header.destCall == c.peerCall && !g.ConnectRequest?
    ensures var d := OnInformationAck(c, f); (d.localCall, d.peerCall) == (c.localCall, c.peerCall)
    ensures f.ConnectAck? ==> var d := OnConnectAck(c, f); (d.localCall, d.peerCall) == (c.localCall, c.peerCall)
    ensures var d := OnDisconnectAck(c); (d.localCall, d.peerCall) == (c.localCall, c.peerCall)
    ensures var e := OnDisconnectRequest(c);
      && (e.core.localCall, e.core.peerCall) == (c.localCall, c.peerCall)
      && forall g :: g in e.out ==> g.header.originCall == c.localCall && g.header.destCall == c.peerCall && !g.ConnectRequest?
  {
    hide Absorb;
  }

  lemma ReceivePostal(s: System, slot: Option<(byte, byte)>, a: Name, b: Name)
    requires Postal(s, a, b) && s.ba != [] && (s.a.live ==> s.a.born)
    ensures Postal(ReceiveA(s, slot), a, b)
  {
    hide OnInformation, OnInformationAck, OnConnectAck, OnDisconnectAck, OnDisconnectRequest, ClampWindow;
    var f := s.ba[0].frame;
    FrameNames(s.a.core, f);
    assert Posted(s.ba[1..], b.own, b.peer);
    var t := ReceiveA(s, slot);
    if f.ConnectRequest? {
      RequestPostal(s.(ba := s.ba[1..]), f, slot, a, b);
    } else if Mine(s.a, f) {
      match f
      case Information(_, _) => PostMore(s.ab, OnInformation(s.a.core, f).out, t.a.got, a.own, a.peer);
      case Disconnect(_) => PostMore(s.ab, OnDisconnectRequest(s.a.core).out, s.a.got, a.own, a.peer);
      case _ =>
    }
  }

  lemma RequestPostal(s: System, f: L3Frame, slot: Option<(byte, byte)>, a: Name, b: Name)
    requires Postal(s, a, b) && f.ConnectRequest? && f.originNodeCall == b.own
    ensures Postal(AcceptRequest(s, f, slot), a, b)
  {
    hide ClampWindow;
    if !s.a.born {
      PostMore(s.ab, [Refusal(s.a.core.localCall, f)], s.a.got, a.own, a.peer);
      if slot.Some? {
        var c := OpenedCore(s.a.core, f, slot.value.0, slot.value.1);
        PostMore(s.ab, OnSendConnectAck(c).out, s.a.got, a.own, a.peer);
      }
    }
  }

  lemma LiveIsBorn(s: System)
    requires Inv(s)
    ensures s.a.live ==> s.a.born
  {
  }

  lemma StepPostalA(s: System, act: Act, a: Name, b: Name)
    requires Postal(s, a, b) && Inv(s)
    ensures Postal(StepA(s, act), a, b)
  {
    hide Inv, Postal, ReceiveA;
    if Enabled(s, act) {
      if act.Receive? {
        LiveIsBorn(s);
        ReceivePostal(s, act.slot, a, b);
      } else {
        SessionPostal(s, act, a, b);
      }
    }
  }

  lemma {:induction false} ExecPostal(s: System, es: seq<Event>, a: Name, b: Name)
    requires Postal(s, a, b) && Inv(s)
    ensures Postal(Exec(s, es), a, b)
    decreases |es|
  {
    hide Inv, StepA;
    if es != [] {
      match es[0] {
        case ByA(act) => StepPostalA(s, act, a, b);
        case ByB(act) =>
          InvSwap(s);
          StepPostalA(Swap(s), act, b, a);
      }
      StepKeeps(s, es[0]);
      ExecPostal(Step(s, es[0]), es[1..], a, b);
    }
  }

  /** Over every interleaving each frame on a link is from the node that sent it to the node it was
      meant for: the caller's to the destination it named, the answerer's to the caller; and the
      answering circuit takes the caller for its peer. */
  lemma FramesAreAddressed(u: Setup, es: seq<Event>)
    ensures var s := Reached(u, es);
      && (forall w :: w in s.ab ==> w.frame.header.originCall == u.call && w.frame.header.destCall == u.dest)
      && (forall w :: w in s.ba ==> w.frame.header.originCall == u.far && w.frame.header.destCall == u.call)
      && s.a.core.localCall == u.call && s.a.core.peerCall == u.dest
      && s.b.core.localCall == u.far && (s.b.born ==> s.b.core.peerCall == u.call)
  {
    StartInv(u);
    var a, b := Name(u.call, u.dest), Name(u.far, u.call);
    assert Postal(Start(u), a, b);
    ExecPostal(Start(u), es, a, b);
    OriginatorFixed(u, es);
    ReachedInv(u, es);
    CallerIsBorn(Reached(u, es));
    hide Inv, Exec, Start;
  }

  lemma CallerIsBorn(s: System)
    requires Inv(s) && s.a.originator
    ensures s.a.born
  {
  }

  // ---------- Progress ----------

  /** The acts of the protocol itself: drain() resuming and frames arriving. */
  predicate Protocol(act: Act) { act.Drain? || act.Receive? }

  predicate Ready(s: System, e: Event)
  {
    Protocol(e.act) && (match e case ByA(act) => Enabled(s, act) case ByB(act) => Enabled(Swap(s), act))
  }

  predicate BothConnected(s: System)
  {
    && s.a.core.state == Connected && s.b.core.state == Connected && s.a.live && s.b.live
    && s.a.born && s.b.born
  }

  function LinkWeight(ws: seq<Wire>): nat
  {
    if ws == [] then 0 else (if ws[0].frame.Information? then 2 else 1) + LinkWeight(ws[1..])
  }

  function DrainWeight(d: DrainPoint): nat
  {
    match d case AtLink => 2 case Idle => 1 case AtWindow => 0
  }

  function NodeWeight(n: Node): nat { 5 * |n.core.pending| + DrainWeight(n.core.drain) }

  function Rank(s: System): nat
  {
    NodeWeight(s.a) + NodeWeight(s.b) + LinkWeight(s.ab) + LinkWeight(s.ba)
  }

  predicate Busy(s: System)
  {
    s.a.core.pending != [] || s.b.core.pending != [] || s.ab != [] || s.ba != []
  }

  /** No deadlock: while anything is queued or in flight, drain() can resume or a frame
      can be delivered; a sender asleep on an unset window event has a full window, so
      an acknowledgement is on its way. */
  lemma NoDeadlock(u: Setup, es: seq<Event>)
    requires BothConnected(Reached(u, es)) && Busy(Reached(u, es))
    ensures exists e :: Ready(Reached(u, es), e)
  {
    var s := Reached(u, es);
    ReachedInv(u, es);
    if s.ba != [] {
      assert Ready(s, ByA(Receive(None)));
    } else if s.ab != [] {
      assert Ready(s, ByB(Receive(None)));
    } else if s.a.core.pending != [] {
      assert Ready(s, ByA(Drain));
    } else {
      assert Ready(s, ByB(Drain));
    }
  }

  /** drain() asleep: its wake-up is due exactly when the window has room. */
  predicate WakesInTime(c: Core)
  {
    c.drain.AtWindow? && c.state == Connected ==>
      c.pending != [] && (c.windowEvent <==> FramesInFlight(c) < c.window)
  }

  /** No lost wake-up: a sender blocked on an unset window event has a full window, and one
      whose window has room is not blocked. */
  lemma NoLostWakeup(u: Setup, es: seq<Event>)
    ensures WakesInTime(Reached(u, es).a.core) && WakesInTime(Reached(u, es).b.core)
  {
    var s := Reached(u, es);
    ReachedInv(u, es);
    InvSwap(s);
    InFlightIsTrue(s);
    InFlightIsTrue(Swap(s));
  }

  lemma {:induction false} LinkWeightSnoc(ws: seq<Wire>, w: Wire)
    ensures LinkWeight(ws + [w]) == LinkWeight(ws) + if w.frame.Information? then 2 else 1
  {
    if ws == [] {
      assert ws + [w] == [w] && [w][1..] == [];
    } else {
      assert (ws + [w])[1..] == ws[1..] + [w];
      LinkWeightSnoc(ws[1..], w);
    }
  }

  /** What a protocol step must leave alone while both ends are connected. */
  predicate Steady(s: System, t: System)
  {
    && BothConnected(t)
    && (t.a.wrote, t.a.modest, t.b.wrote, t.b.modest) == (s.a.wrote, s.a.modest, s.b.wrote, s.b.modest)
  }

  /** Between two connected ends only INFO and INFO ACK travel. */
  lemma OnlyDataTravels(s: System)
    requires Inv(s) && BothConnected(s) && s.ba != []
    ensures IsAck(s.ba[0].frame) && Mine(s.a, s.ba[0].frame) && !s.a.core.eof
    ensures s.ba[0].frame.Information? ==> s.ba[0].frame.header.txSeq == s.a.core.vr
  {
    HeadFacts(s);
  }

  lemma DrainRank(s: System)
    requires Inv(s) && BothConnected(s) && CanDrain(s.a.core)
    ensures Rank(DrainA(s)) < Rank(s) && Steady(s, DrainA(s))
  {
    if OnDrain(s.a.core).out != [] {
      DrainSendParts(s);
      LinkWeightSnoc(s.ab, Wire(InfoFrame(s.a.core, s.a.core.pending[0]), s.a.got));
    } else {
      InFlightIsTrue(s);
      DrainStopParts(s);
    }
  }

  lemma InfoRank(s: System)
    requires Inv(s) && BothConnected(s) && s.ba != [] && s.ba[0].frame.Information?
    requires s.ba[0].frame.header.txSeq == s.a.core.vr && !s.a.core.eof && Mine(s.a, s.ba[0].frame)
    ensures var t := TakeInfo(Pop(s), s.ba[0]); Rank(t) < Rank(s) && Steady(s, t)
  {
    InfoParts(s);
    hide Inv, Mine;
    LinkWeightSnoc(s.ab, AckWire(TakeInfo(Pop(s), s.ba[0])));
  }

  lemma InfoAckRank(s: System)
    requires BothConnected(s) && s.ba != [] && s.ba[0].frame.InformationAck? && Mine(s.a, s.ba[0].frame)
    ensures var t := TakeInfoAck(Pop(s), s.ba[0]); Rank(t) < Rank(s) && Steady(s, t)
  {
  }

  lemma ReceiveRank(s: System, slot: Option<(byte, byte)>)
    requires Inv(s) && BothConnected(s) && s.ba != []
    ensures Rank(ReceiveA(s, slot)) < Rank(s) && Steady(s, ReceiveA(s, slot))
  {
    hide Inv, Rank, Steady, TakeInfo, TakeInfoAck;
    OnlyDataTravels(s);
    if s.ba[0].frame.Information? {
      InfoRank(s);
    } else {
      InfoAckRank(s);
    }
  }

  lemma RankSwap(s: System)
    ensures Rank(Swap(s)) == Rank(s)
  {
    hide NodeWeight, LinkWeight;
  }

  /** Each protocol step lowers the rank and touches nothing that was written. */
  lemma RankDecreases(s: System, e: Event)
    requires Inv(s) && BothConnected(s) && Ready(s, e)
    ensures Rank(Step(s, e)) < Rank(s) && Steady(s, Step(s, e))
  {
    hide Inv, DrainA, ReceiveA, Rank;
    InvSwap(s);
    match e
    case ByA(act) =>
      if act.Drain? { DrainRank(s); } else { ReceiveRank(s, act.slot); }
    case ByB(act) =>
      RankSwap(s);
      RankSwap(StepA(Swap(s), act));
      if act.Drain? { DrainRank(Swap(s)); } else { ReceiveRank(Swap(s), act.slot); }
  }

  /** A schedule in which every event is a protocol step enabled at its turn. */
  predicate Schedule(s: System, es: seq<Event>)
    decreases |es|
  {
    es == [] || (Ready(s, es[0]) && Schedule(Step(s, es[0]), es[1..]))
  }

  lemma {:induction false} ScheduleBounded(s: System, es: seq<Event>)
    requires Inv(s) && BothConnected(s) && Schedule(s, es)
    ensures Rank(Exec(s, es)) + |es| <= Rank(s)
    ensures Inv(Exec(s, es)) && Steady(s, Exec(s, es))
    decreases |es|
  {
    if es != [] {
      RankDecreases(s, es[0]);
      StepKeeps(s, es[0]);
      ScheduleBounded(Step(s, es[0]), es[1..]);
    }
  }

  /** Nothing queued, nothing in flight: then everything sent was received and acknowledged,
      and everything written was read unless an over-long message burst the ceiling. */
  lemma QuietMeansDone(s: System)
    requires Inv(s) && BothConnected(s) && !Busy(s)
    ensures s.a.acked == s.b.got == |s.a.log|
    ensures s.b.core.inbox == Inbox([], s.a.wrote) <==> s.a.modest
  {
    assert Queue(s.a) == s.a.log;
    assert s.a.log[..|s.a.log|] == s.a.log;
    LosslessIffRunsFit(s.a.log);
  }

  /** Guaranteed delivery: from any reachable connected state, whatever order drain() and
      the links are scheduled in, the protocol runs at most Rank steps, can only stop when
      everything is delivered and acknowledged and both writers' drain() has come back, and
      then each reader holds exactly what the other end wrote if and only if each of its
      writes was within the ceiling. */
  lemma EveryScheduleDelivers(u: Setup, es: seq<Event>, schedule: seq<Event>)
    requires var s := Reached(u, es); BothConnected(s) && Schedule(s, schedule)
    ensures |schedule| <= Rank(Reached(u, es))
    ensures var s, t := Reached(u, es), Exec(Reached(u, es), schedule);
      (forall e :: !Ready(t, e)) ==>
        && t.a.acked == t.b.got == |t.a.log| && t.b.acked == t.a.got == |t.b.log|
        && (t.b.core.inbox == Inbox([], s.a.wrote) <==> s.a.modest)
        && (t.a.core.inbox == Inbox([], s.b.wrote) <==> s.b.modest)
        && t.a.core.drain == Idle && t.b.core.drain == Idle
  {
    var s := Reached(u, es);
    ReachedInv(u, es);
    ScheduleBounded(s, schedule);
    var t := Exec(s, schedule);
    if forall e :: !Ready(t, e) {
      ExecAppend(Start(u), es, schedule);
      if Busy(t) {
        NoDeadlock(u, es + schedule);
        assert false;
      }
      StoppedIsDone(t);
    }
  }

  lemma StoppedIsDone(t: System)
    requires Inv(t) && BothConnected(t) && !Busy(t) && forall e :: !Ready(t, e)
    ensures t.a.acked == t.b.got == |t.a.log| && t.b.acked == t.a.got == |t.b.log|
    ensures t.b.core.inbox == Inbox([], t.a.wrote) <==> t.a.modest
    ensures t.a.core.inbox == Inbox([], t.b.wrote) <==> t.b.modest
    ensures t.a.core.drain == Idle && t.b.core.drain == Idle
  {
    assert !Ready(t, ByA(Drain)) && !Ready(t, ByB(Drain));
    InvSwap(t);
    hide Inv;
    QuietMeansDone(t);
    QuietMeansDone(Swap(t));
    QuietWriter(t);
    QuietWriter(Swap(t));
  }

  /** A writer with nothing queued has come back, or can. */
  lemma QuietWriter(s: System)
    requires Inv(s) && s.a.core.pending == []
    ensures s.a.core.drain == Idle || CanDrain(s.a.core)
  {
  }

  lemma {:induction false} ExecAppend(s: System, es: seq<Event>, fs: seq<Event>)
    ensures Exec(s, es + fs) == Exec(Exec(s, es), fs)
    decreases |es|
  {
    if es == [] {
      assert es + fs == fs;
    } else {
      assert (es + fs)[1..] == es[1..] + fs;
      ExecAppend(Step(s, es[0]), es[1..], fs);
    }
  }

  // ---------- Teardown ----------

  /** When the give-up guard is really needed. The originator's circuit, while it waits for its
      DISC ACK, has a DISC frame travelling to a live peer, or one travelling back. The
      responder's has one exactly when the originator has not abandoned the call before it was
      answered. */
  lemma HalfOpenIffGivenUp(u: Setup, es: seq<Event>)
    ensures var s := Reached(u, es);
      && (s.a.core.state == Disconnecting && s.a.live ==>
            (s.b.live && HasReq(s.ab)) || HasReq(s.ba) || HasDiscAck(s.ba))
      && (s.b.core.state == Disconnecting && s.b.live ==>
            ((s.a.live && HasReq(s.ba)) || HasReq(s.ab) || HasDiscAck(s.ab)
             <==> !(s.a.core.state == AwaitingConnect && !s.a.live)))
  {
    ReachedInv(u, es);
    OriginatorFixed(u, es);
  }

  /** ... and that case does occur: the originator times out, the responder then hangs up,
      both links fall silent and only the guard can release the circuit. */
  lemma GivingUpLeavesHalfOpen(u: Setup)
    ensures var s := Reached(u, [ByB(Receive(Some((0, 1)))), ByA(OriginateReturns), ByB(CloseWriter),
                                 ByA(Receive(None)), ByA(Receive(None))]);
      && s.b.core.state == Disconnecting && s.b.live && s.ab == [] && s.ba == []
      && !CanDrain(s.b.core)
      && Step(s, ByB(GuardFires)).b.core.state == Closed && !Step(s, ByB(GuardFires)).b.live
  {
    var s0 := Start(u);
    var s1 := Step(s0, ByB(Receive(Some((0, 1)))));
    TagOne(s1.ba[0].frame, 0);
    assert |s1.ba| == 1;
    var s2 := Step(s1, ByA(OriginateReturns));
    var s3 := Step(s2, ByB(CloseWriter));
    assert |s3.ba| == 2;
    var s4 := Step(s3, ByA(Receive(None)));
    var s5 := Step(s4, ByA(Receive(None)));
    var es := [ByB(Receive(Some((0, 1)))), ByA(OriginateReturns), ByB(CloseWriter),
               ByA(Receive(None)), ByA(Receive(None))];
    assert Exec(s4, es[4..]) == s5 by { assert es[4..][1..] == []; }
    assert es[3..][1..] == es[4..] && es[2..][1..] == es[3..] && es[1..][1..] == es[2..];
    assert Exec(s3, es[3..]) == s5;
    assert Exec(s2, es[2..]) == s5;
    assert Exec(s1, es[1..]) == s5;
  }
}

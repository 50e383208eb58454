/** What a circuit manager says: every frame that every step sends, field by field, and who it is
    from and to over every run. */
module ManagerFrames {
  import opened Prelude
  import opened Frames
  import opened Circuit
  import opened ManagerSteps
  import opened ManagerLifecycle
  import opened ManagerTables
  import opened ManagerTransitions

  // ---------- One step ----------

  /** The twenty header bytes, named; every frame starts with 25 hops to live. */
  predicate Headed(f: L3Frame, from: string, to: string, key: Key, tx: byte, rx: byte, flags: byte)
  {
    var h := f.header;
    && h.originCall == from && h.destCall == to && h.ttl == 25
    && h.circuitIdx == key.0 && h.circuitId == key.1
    && h.txSeq == tx && h.rxSeq == rx && h.opcodeFlags == flags
  }

  /** One frame of a circuit b to its peer, under the peer's key. */
  predicate ToPeer(m: Mgr, b: Core, f: L3Frame, rx: byte, flags: byte)
  {
    Headed(f, m.localCall, b.peerCall, (b.remoteIdx, b.remoteId), b.vs, rx, flags)
  }

  predicate OneDisconnect(m: Mgr, b: Core, out: seq<L3Frame>, flags: byte)
  {
    |out| == 1 && out[0].Disconnect? && ToPeer(m, b, out[0], b.vr, flags)
  }

  predicate SaysInSession(m: Mgr, b: Core, act: SessionAct, out: seq<L3Frame>)
  {
    match act
    case SessionEnds => if b.state == Connected then OneDisconnect(m, b, out, 3) else out == []
    case WriterCloses =>
      if !b.writerClosing && b.state !in {Disconnecting, Closed} then OneDisconnect(m, b, out, 3) else out == []
    case Writes(_) => out == []
    case Drains =>
      if b.state == Connected && b.pending != [] && (b.vs - b.va) % 256 < b.window then
        && |out| == 1 && out[0].Information? && out[0].info == b.pending[0].chunk
        && ToPeer(m, b, out[0], b.vr, if b.pending[0].more then 0x25 else 0x05)
      else out == []
  }

  /** The reader has seen EOF, and the frame would complete a message for it. */
  predicate ReaderRefuses(b: Core, f: L3Frame)
    requires f.Information?
  {
    && f.header.txSeq == b.vr && b.eof
    && (f.header.opcodeFlags / 0x20) % 2 == 0 && 0 < |b.inbox.partial| + |f.info| <= 65536
  }

  predicate SaysToFrame(m: Mgr, b: Core, f: L3Frame, out: seq<L3Frame>)
  {
    match f
    case Information(h, _) =>
      if ReaderRefuses(b, f) then out == []
      else
        && |out| == 1 && out[0].InformationAck?
        && ToPeer(m, b, out[0], if h.txSeq == b.vr then (b.vr + 1) % 256 else b.vr, 6)
    case Disconnect(h) => if h.opcodeFlags % 8 == 3 then OneDisconnect(m, b, out, 4) else out == []
    case _ => out == []
  }

  predicate OneAnswer(m: Mgr, to: string, key: Key, window: int, ours: Key, out: seq<L3Frame>)
  {
    && |out| == 1 && out[0].ConnectAck? && !out[0].refused && out[0].acceptedWindow == window
    && Headed(out[0], m.localCall, to, key, ours.0, ours.1, 2)
  }

  /** A proposal within 1..7 is taken as it is, any other is moved to the nearer end. */
  predicate Narrowed(proposed: int, window: int)
  {
    1 <= window <= 7 && (window < proposed ==> window == 7) && (window > proposed ==> window == 1)
  }

  predicate SaysToRequest(m: Mgr, f: L3Frame, t: Mgr, out: seq<L3Frame>)
    requires Rooted(m) && f.ConnectRequest?
  {
    var key := (f.header.circuitIdx, f.header.circuitId);
    if key in m.byRemote then
      var d := m.heap[m.byRemote[key]];
      OneAnswer(m, d.peerCall, (d.remoteIdx, d.remoteId), d.window, (d.localIdx, d.localId), out)
    else if |m.used| >= 256 then
      && |out| == 1 && out[0].ConnectAck? && out[0].refused && out[0].acceptedWindow == 0
      && Headed(out[0], m.localCall, f.originNodeCall, key, 0, 0, 0x82)
    else
      && |t.heap| == |m.heap| + 1
      && var d := t.heap[|m.heap|];
         && Narrowed(f.proposedWindow, d.window)
         && OneAnswer(m, f.originNodeCall, key, d.window, (d.localIdx, d.localId), out)
  }

  predicate SaysToCall(m: Mgr, dest: string, user: string, proposed: int, t: Mgr, out: seq<L3Frame>)
  {
    if |m.used| >= 256 then out == []
    else
      && |t.heap| == |m.heap| + 1
      && var d := t.heap[|m.heap|];
         && |out| == 1 && out[0].ConnectRequest? && Narrowed(proposed, d.window) && out[0].proposedWindow == d.window
         && out[0].userCall == user && out[0].originNodeCall == m.localCall
         && Headed(out[0], m.localCall, dest, (d.localIdx, d.localId), 0, 0, 1)
  }

  /** Everything that the step from m to t under e may send, and must. */
  predicate Says(m: Mgr, e: Event, t: Mgr, out: seq<L3Frame>)
    requires Rooted(m)
  {
    match e
    case Dispatch(f) =>
      var key := (f.header.circuitIdx, f.header.circuitId);
      if f.ConnectRequest? then SaysToRequest(m, f, t, out)
      else if key in m.byLocal then SaysToFrame(m, m.heap[m.byLocal[key]], f, out)
      else out == []
    case Originate(dest, user, proposed) => SaysToCall(m, dest, user, proposed, t, out)
    case Session(c, act) =>
      if c < |m.heap| && (act.Drains? ==> CanDrain(m.heap[c])) then SaysInSession(m, m.heap[c], act, out) else out == []
    case _ => out == []
  }

  /** The circuits of a manager carry its own callsign. */
  ghost predicate Homely(m: Mgr)
  {
    forall c :: 0 <= c < |m.heap| ==> m.heap[c].localCall == m.localCall
  }

  lemma SessionSays(m: Mgr, c: Core, act: SessionAct)
    requires c.localCall == m.localCall
    ensures SaysInSession(m, c, act, SessionEffect(c, act).out)
  {
    hide Fragments;
  }

  lemma FrameSays(m: Mgr, c: nat, f: L3Frame)
    requires c < |m.heap| && m.heap[c].localCall == m.localCall && !f.ConnectRequest?
    ensures SaysToFrame(m, m.heap[c], f, OnCircuitFrame(m, c, f).out)
  {
    hide Remove, Absorb, OnInformationAck, OnConnectAck, OnDisconnectAck, SetClosed;
  }

  lemma RequestSays(m: Mgr, f: L3Frame)
    requires Rooted(m) && Homely(m) && f.ConnectRequest?
    ensures SaysToRequest(m, f, OnConnectRequest(m, f).m, OnConnectRequest(m, f).out)
  {
    hide FirstFree;
    FullIffNoneFree(m);
  }

  lemma CallSays(m: Mgr, dest: string, user: string, proposed: int)
    ensures var o := OnOriginate(m, dest, user, proposed); SaysToCall(m, dest, user, proposed, o.m, o.out)
  {
    hide FirstFree;
    FullIffNoneFree(m);
  }

  /** Every step sends exactly what `Says` spells out: frames from this node to the circuit's peer,
      with the peer's key, our counters and the opcode of the occasion, and no others. */
  lemma StepSays(m: Mgr, e: Event)
    requires Rooted(m) && Homely(m)
    ensures Says(m, e, Step(m, e).m, Step(m, e).out)
  {
    hide OnConnectRequest, OnCircuitFrame, OnOriginate, SessionEffect, SaysToRequest, SaysToFrame, SaysToCall, SaysInSession,
         Remove, OnGuard, OnLink;
    match e
    case Dispatch(f) =>
      var key := (f.header.circuitIdx, f.header.circuitId);
      if f.ConnectRequest? {
        RequestSays(m, f);
      } else if key in m.byLocal {
        FrameSays(m, m.byLocal[key], f);
      }
    case Originate(dest, user, proposed) => CallSays(m, dest, user, proposed);
    case Session(c, act) =>
      if Enabled(m, e) {
        SessionSays(m, m.heap[c], act);
      }
    case _ =>
  }

  // ---------- Every run ----------

  lemma StepHomely(m: Mgr, e: Event)
    requires Rooted(m) && Homely(m)
    ensures Homely(Step(m, e).m) && Step(m, e).m.localCall == m.localCall
  {
    var t := Step(m, e).m;
    MadeIff(m, e);
    StepKeepsCall(m, e);
    hide Step, MadeBy, Moves;
    forall c | 0 <= c < |t.heap| ensures t.heap[c].localCall == m.localCall {
      if c < |m.heap| {
        NamesKept(m, e, c);
      } else {
        MadeHere(m, e, t.heap[c]);
      }
    }
  }

  lemma MadeHere(m: Mgr, e: Event, d: Core)
    requires MadeBy(m, e, d)
    ensures d.localCall == m.localCall
  {
  }

  lemma StepKeepsCall(m: Mgr, e: Event)
    requires Rooted(m)
    ensures Step(m, e).m.localCall == m.localCall
  {
    hide OnDispatch, FirstFree, SessionEffect, OnGuard, ConnectReqFrame, ClampWindow, NewCore, ClosedHeap;
    if e.Dispatch? {
      DispatchKeepsCall(m, e.frame);
    }
  }

  lemma DispatchKeepsCall(m: Mgr, f: L3Frame)
    requires Rooted(m)
    ensures OnDispatch(m, f).m.localCall == m.localCall
  {
    hide OnSendConnectAck, FirstFree, Refusal, OnInformation, OnInformationAck, OnConnectAck, OnDisconnectRequest,
         OnDisconnectAck, ClampWindow, NewCore;
  }

  lemma NamesKept(m: Mgr, e: Event, c: nat)
    requires Rooted(m) && c < |m.heap|
    ensures c < |Step(m, e).m.heap|
    ensures var b, d := m.heap[c], Step(m, e).m.heap[c];
      (d.localCall, d.userCall, d.peerCall) == (b.localCall, b.userCall, b.peerCall)
  {
    if e.Session? && !Enabled(m, e) {
    } else {
      StepMoves(m, e, c);
      hide Step, Ends, Leaves, Connects, LearnsFrom;
    }
  }

  lemma {:induction false} ExecHomely(m: Mgr, es: seq<Event>)
    requires Rooted(m) && Homely(m)
    ensures Homely(Exec(m, es)) && Exec(m, es).localCall == m.localCall
    decreases |es|
  {
    if es != [] {
      hide Homely, Step;
      StepRooted(m, es[0]);
      StepHomely(m, es[0]);
      ExecHomely(Step(m, es[0]).m, es[1..]);
    }
  }

  /** At every moment of every run the next step sends exactly what `Says` spells out. */
  lemma EveryStepSays(call: string, mtu: Mtu, timeout: bool, es: seq<Event>, e: Event)
    ensures var m := After(call, mtu, timeout, es);
      m.localCall == call && Says(m, e, Step(m, e).m, Step(m, e).out)
  {
    ExecHomely(NewManager(call, mtu, timeout), es);
    hide Exec, Says, Step, Homely;
    StepSays(After(call, mtu, timeout, es), e);
  }

  /** A frame as this node sends it. */
  predicate Ours(f: L3Frame, call: string)
  {
    f.header.originCall == call && f.header.ttl == 25
  }

  lemma SaysOurs(m: Mgr, e: Event, t: Mgr, out: seq<L3Frame>)
    requires Rooted(m) && Says(m, e, t, out)
    ensures |out| <= 1 && forall f :: f in out ==> Ours(f, m.localCall)
  {
  }

  /** Every frame of every run is from this node; whom each goes to is in `Says`. */
  lemma {:induction false} SentIsOurs(m: Mgr, es: seq<Event>)
    requires Rooted(m) && Homely(m)
    ensures forall f :: f in Sent(m, es) ==> Ours(f, m.localCall)
    decreases |es|
  {
    hide Homely, Step, Says, Ours;
    if es != [] {
      StepRooted(m, es[0]);
      StepHomely(m, es[0]);
      StepSays(m, es[0]);
      SaysOurs(m, es[0], Step(m, es[0]).m, Step(m, es[0]).out);
      SentIsOurs(Step(m, es[0]).m, es[1..]);
    }
  }

  // ---------- Who is at the other end ----------

  /** The call of our own that placed the circuit, or the CONNECT REQ that opened it. */
  predicate Names(e: Event, d: Core)
  {
    match e
    case Originate(dest, user, _) => d.peerCall == dest && d.userCall == user
    case Dispatch(f) => f.ConnectRequest? && d.peerCall == f.originNodeCall && d.userCall == f.userCall
    case _ => false
  }

  lemma {:induction false} NamesStay(m: Mgr, es: seq<Event>, c: nat)
    requires Rooted(m) && c < |m.heap|
    ensures var b, d := m.heap[c], Exec(m, es).heap[c];
      (d.localCall, d.userCall, d.peerCall) == (b.localCall, b.userCall, b.peerCall)
    decreases |es|
  {
    hide Step;
    if es != [] {
      StepRooted(m, es[0]);
      NamesKept(m, es[0], c);
      NamesStay(Step(m, es[0]).m, es[1..], c);
    }
  }

  /** On every run, each circuit's peer and user are those named by the one event that made it. */
  lemma {:induction false} PeerIsWhoWasNamed(m: Mgr, es: seq<Event>, c: nat) returns (i: nat)
    requires Rooted(m) && |m.heap| <= c < |Exec(m, es).heap|
    ensures i < |es| && |Exec(m, es[..i]).heap| == c && Names(es[i], Exec(m, es).heap[c])
    decreases |es|
  {
    hide Step, Names, MadeBy;
    StepRooted(m, es[0]);
    var t := Step(m, es[0]).m;
    MadeIff(m, es[0]);
    if c < |t.heap| {
      i := 0;
      assert es[..0] == [];
      MadeNames(m, es[0], t.heap[c]);
      NamesStay(t, es[1..], c);
      NamesOnly(es[0], t.heap[c], Exec(m, es).heap[c]);
    } else {
      i := PeerIsWhoWasNamed(t, es[1..], c);
      i := i + 1;
      assert es[..i][0] == es[0] && es[..i][1..] == es[1..][..i - 1];
    }
  }

  lemma MadeNames(m: Mgr, e: Event, d: Core)
    requires MadeBy(m, e, d)
    ensures Names(e, d)
  {
  }

  lemma NamesOnly(e: Event, b: Core, d: Core)
    requires Names(e, b) && (d.userCall, d.peerCall) == (b.userCall, b.peerCall)
    ensures Names(e, d)
  {
  }
}

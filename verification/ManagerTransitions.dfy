/** How circuits come and go: exactly which step opens, leaves or closes which circuit, whom a
    closing wakes, and that no step touches a circuit it does not concern. */
module ManagerTransitions {
  import opened Prelude
  import opened Frames
  import opened Circuit
  import opened ManagerSteps
  import opened ManagerTables

  // ---------- Which circuit a step concerns ----------

  /** The frame is one for circuit c: CONNECT REQ by the far key, all others by our own. */
  predicate Addresses(m: Mgr, f: L3Frame, c: nat)
  {
    var key := (f.header.circuitIdx, f.header.circuitId);
    if f.ConnectRequest? then key in m.byRemote && m.byRemote[key] == c
    else key in m.byLocal && m.byLocal[key] == c
  }

  ghost predicate IsListed(m: Mgr, c: nat) { exists k :: k in m.byLocal && m.byLocal[k] == c }

  ghost predicate Concerns(m: Mgr, e: Event, c: nat)
  {
    match e
    case Dispatch(f) => Addresses(m, f, c)
    case Session(d, _) => d == c
    case GuardFires(d) => d == c
    case Link(act) => act.Shutdown? && IsListed(m, c)
    case _ => false
  }

  // ---------- Closing, leaving, opening ----------

  /** The step closes circuit c. */
  ghost predicate Ends(m: Mgr, e: Event, c: nat)
    requires c < |m.heap|
  {
    var s := m.heap[c].state;
    match e
    case Link(act) => act.Shutdown? && IsListed(m, c) && s != Closed
    case GuardFires(d) => d == c && m.heap[c].guardArmed && s == Disconnecting
    case Dispatch(f) =>
      Addresses(m, f, c) &&
      (match f
       case Disconnect(h) => if h.opcodeFlags % 8 == 3 then s != Closed else s == Disconnecting
       case ConnectAck(_, _, refused) => refused && s == AwaitingConnect
       case _ => false)
    case _ => false
  }

  /** The step starts the disconnect of circuit c. */
  predicate Leaves(m: Mgr, e: Event, c: nat)
    requires c < |m.heap|
  {
    var b := m.heap[c];
    e.Session? && e.c == c &&
    match e.act
    case SessionEnds => b.state == Connected
    case WriterCloses => !b.writerClosing && b.state !in {Disconnecting, Closed}
    case _ => false
  }

  /** The step connects circuit c: its call is accepted, or its request repeated. */
  predicate Connects(m: Mgr, e: Event, c: nat)
    requires c < |m.heap|
  {
    && e.Dispatch? && Addresses(m, e.frame, c)
    && (e.frame.ConnectRequest? || (e.frame.ConnectAck? && !e.frame.refused && m.heap[c].state == AwaitingConnect))
  }

  /** What the step makes of circuit c, its data apart. */
  ghost predicate Moves(m: Mgr, e: Event, c: nat, d: Core)
    requires c < |m.heap|
  {
    var b := m.heap[c];
    && d.state == (if Ends(m, e, c) then Closed else if Leaves(m, e, c) then Disconnecting
                   else if Connects(m, e, c) then Connected else b.state)
    && d.eof == (b.eof || Ends(m, e, c))
    && d.connectedEvent == (b.connectedEvent || Ends(m, e, c) || Connects(m, e, c))
    && (Ends(m, e, c) ==> d.windowEvent && d.inbox == b.inbox && d.pending == b.pending)
    && d.guardArmed == (Leaves(m, e, c) || (b.guardArmed && !Ends(m, e, c) && e != GuardFires(c)))
    && d.writerClosing == (b.writerClosing || e == Session(c, WriterCloses))
    && (d.localIdx, d.localId, d.localCall, d.userCall, d.peerCall, d.mtu)
       == (b.localIdx, b.localId, b.localCall, b.userCall, b.peerCall, b.mtu)
    && LearnsFrom(m, e, c, d)
  }

  /** The far key and the window change only when the call is accepted: the key is the one the
      answer names, the window the smaller of ours and the one it grants, if it grants any. */
  predicate LearnsFrom(m: Mgr, e: Event, c: nat, d: Core)
    requires c < |m.heap|
  {
    var b := m.heap[c];
    if e.Dispatch? && e.frame.ConnectAck? && Connects(m, e, c) then
      var f := e.frame;
      && d.remoteIdx == f.header.txSeq && d.remoteId == f.header.rxSeq
      && d.window <= b.window && (f.acceptedWindow != 0 ==> d.window <= f.acceptedWindow)
      && d.window in {b.window as int, f.acceptedWindow as int}
    else (d.remoteIdx, d.remoteId, d.window) == (b.remoteIdx, b.remoteId, b.window)
  }

  lemma SessionMoves(m: Mgr, c: nat, act: SessionAct)
    requires c < |m.heap|
    ensures Moves(m, Session(c, act), c, SessionEffect(m.heap[c], act).core)
  {
    hide Fragments, DiscReqFrame, InfoFrame;
  }

  lemma FrameMoves(m: Mgr, c: nat, f: L3Frame)
    requires Rooted(m) && c < |m.heap| && Addresses(m, f, c) && !f.ConnectRequest?
    ensures Moves(m, Dispatch(f), c, OnCircuitFrame(m, c, f).m.heap[c])
  {
    hide Moves, OnInformation, OnInformationAck, OnConnectAck, OnDisconnectRequest, OnDisconnectAck, Remove, Addresses;
    var b := m.heap[c];
    match f
    case Information(_, _) => DataMoves(m, c, f);
    case InformationAck(_) => DataMoves(m, c, f);
    case ConnectAck(_, _, _) => AnswerMoves(m, c, f);
    case Disconnect(_) =>
      DisconnectMoves(m, c, f);
      RemoveRooted(Updated(m, c, OnDisconnectRequest(b).core), c);
      RemoveRooted(Updated(m, c, OnDisconnectAck(b)), c);
  }

  lemma DataMoves(m: Mgr, c: nat, f: L3Frame)
    requires c < |m.heap| && Addresses(m, f, c)
    ensures f.Information? ==> Moves(m, Dispatch(f), c, OnInformation(m.heap[c], f).core)
    ensures f.InformationAck? ==> Moves(m, Dispatch(f), c, OnInformationAck(m.heap[c], f))
  {
    hide Absorb, InfoAckFrame;
  }

  lemma AnswerMoves(m: Mgr, c: nat, f: L3Frame)
    requires c < |m.heap| && Addresses(m, f, c) && f.ConnectAck?
    ensures Moves(m, Dispatch(f), c, OnConnectAck(m.heap[c], f))
  {
  }

  lemma DisconnectMoves(m: Mgr, c: nat, f: L3Frame)
    requires c < |m.heap| && Addresses(m, f, c) && f.Disconnect?
    ensures Moves(m, Dispatch(f), c, if f.header.opcodeFlags % 8 == 3 then OnDisconnectRequest(m.heap[c]).core
                                     else OnDisconnectAck(m.heap[c]))
  {
    hide DiscAckFrame;
  }

  lemma RequestMoves(m: Mgr, c: nat, f: L3Frame)
    requires Rooted(m) && c < |m.heap| && Addresses(m, f, c) && f.ConnectRequest?
    ensures Moves(m, Dispatch(f), c, OnConnectRequest(m, f).m.heap[c])
  {
    hide OnOpen, ConnectAckFrame, Refusal;
  }

  lemma GuardMoves(m: Mgr, c: nat)
    requires c < |m.heap| && m.heap[c].guardArmed
    ensures Moves(m, GuardFires(c), c, OnGuard(m.heap[c]))
  {
  }

  lemma ShutdownMoves(m: Mgr, c: nat)
    requires Rooted(m) && c < |m.heap|
    ensures Moves(m, Link(Shutdown), c, OnShutdown(m).heap[c])
  {
    assert IsListed(m, c) <==> c in m.byLocal.Values;
    hide IsListed;
  }

  lemma StillMoves(m: Mgr, e: Event, c: nat)
    requires c < |m.heap| && !Ends(m, e, c) && !Leaves(m, e, c) && !Connects(m, e, c)
    requires e == GuardFires(c) ==> !m.heap[c].guardArmed
    requires e != Session(c, WriterCloses)
    ensures Moves(m, e, c, m.heap[c])
  {
  }

  /** A circuit that a step does not concern stays as it was. */
  lemma OthersUntouched(m: Mgr, e: Event, c: nat)
    requires Rooted(m) && c < |m.heap| && !Concerns(m, e, c)
    ensures c < |Step(m, e).m.heap| && Step(m, e).m.heap[c] == m.heap[c]
  {
    StepRooted(m, e);
    hide OnConnectRequest, OnCircuitFrame, OnOriginate, OnOriginateResumes, OnGuardFires, OnShutdown, SessionEffect;
    match e
    case Dispatch(f) => FrameSpares(m, f, c);
    case Originate(dest, user, proposed) => CallSpares(m, dest, user, proposed, c);
    case OriginateResumes(d) =>
      if Enabled(m, e) {
        TimersSpare(m, d, c);
      }
    case GuardFires(d) =>
      if Enabled(m, e) {
        TimersSpare(m, d, c);
      }
    case Session(_, _) =>
    case Link(act) =>
      if act.Shutdown? {
        ShutdownSpares(m, c);
      }
  }

  lemma ShutdownSpares(m: Mgr, c: nat)
    requires Rooted(m) && c < |m.heap| && !IsListed(m, c)
    ensures |OnShutdown(m).heap| == |m.heap| && OnShutdown(m).heap[c] == m.heap[c]
  {
    assert c !in m.byLocal.Values;
  }

  lemma TimersSpare(m: Mgr, d: nat, c: nat)
    requires c < |m.heap| && d < |m.heap|
    ensures OnOriginateResumes(m, d).heap == m.heap
    ensures d != c ==> |OnGuardFires(m, d).heap| == |m.heap| && OnGuardFires(m, d).heap[c] == m.heap[c]
  {
    hide OnGuard;
  }

  lemma CallSpares(m: Mgr, dest: string, user: string, proposed: int, c: nat)
    requires c < |m.heap|
    ensures var t := OnOriginate(m, dest, user, proposed).m; c < |t.heap| && t.heap[c] == m.heap[c]
  {
    hide FirstFree, ClampWindow, ConnectReqFrame, NewCore;
  }

  lemma FrameSpares(m: Mgr, f: L3Frame, c: nat)
    requires Rooted(m) && c < |m.heap| && !Addresses(m, f, c)
    ensures var t := OnDispatch(m, f).m; c < |t.heap| && t.heap[c] == m.heap[c]
  {
    hide OnSendConnectAck, FirstFree, Refusal, OnInformation, OnInformationAck, OnConnectAck, OnDisconnectRequest,
         OnDisconnectAck, ClampWindow, NewCore, Remove;
    if !f.ConnectRequest? && (f.header.circuitIdx, f.header.circuitId) in m.byLocal {
      var d := m.byLocal[(f.header.circuitIdx, f.header.circuitId)];
      RemoveRooted(Updated(m, d, OnDisconnectRequest(m.heap[d]).core), d);
      RemoveRooted(Updated(m, d, OnDisconnectAck(m.heap[d])), d);
    }
  }

  /** Every step, every circuit: closed, leaving or connected exactly when `Ends`, `Leaves` and
      `Connects` say; EOF with the closing and only then; and whoever waits is woken. */
  lemma StepMoves(m: Mgr, e: Event, c: nat)
    requires Rooted(m) && c < |m.heap| && (e.Session? ==> Enabled(m, e))
    ensures c < |Step(m, e).m.heap| && Moves(m, e, c, Step(m, e).m.heap[c])
  {
    StepRooted(m, e);
    hide Moves, OnConnectRequest, OnCircuitFrame, OnOriginate, OnOriginateResumes, OnGuard, OnShutdown, SessionEffect, Remove;
    if !Concerns(m, e, c) {
      OthersUntouched(m, e, c);
      StillMoves(m, e, c);
    } else {
      match e
      case Dispatch(f) =>
        if f.ConnectRequest? {
          RequestMoves(m, c, f);
        } else {
          FrameMoves(m, c, f);
        }
      case Session(_, act) => SessionMoves(m, c, act);
      case GuardFires(_) =>
        if m.heap[c].guardArmed {
          GuardStep(m, c);
          GuardMoves(m, c);
        } else {
          StillMoves(m, e, c);
        }
      case Link(_) => ShutdownMoves(m, c);
    }
  }

  lemma GuardStep(m: Mgr, c: nat)
    requires Rooted(m) && c < |m.heap| && m.heap[c].guardArmed
    ensures Step(m, GuardFires(c)).m.heap == m.heap[c := OnGuard(m.heap[c])]
  {
    hide OnGuard;
  }

  // ---------- Shutdown ----------

  /** The crosslink drops: every listed circuit is closed, its reader gets EOF and whoever waits for
      its window or its answer is woken; the others are left alone, and nothing stays listed. */
  lemma ShutdownClosesAll(m: Mgr)
    requires Rooted(m)
    ensures var t := Step(m, Link(Shutdown)).m;
      && |t.heap| == |m.heap| && t.byLocal == map[] && t.byRemote == map[] && t.used == {} && t.closed && !t.idleArmed
      && Step(m, Link(Shutdown)).out == []
      && (forall c :: c in m.byLocal.Values ==>
            && t.heap[c].state == Closed
            && (m.heap[c].state != Closed ==>
                  t.heap[c].eof && t.heap[c].windowEvent && t.heap[c].connectedEvent && !t.heap[c].guardArmed)
            && (m.heap[c].state == Closed ==> t.heap[c] == m.heap[c]))
      && (forall c :: 0 <= c < |m.heap| && c !in m.byLocal.Values ==> t.heap[c] == m.heap[c])
  {
    hide Moves;
    forall c | 0 <= c < |m.heap|
      ensures c in m.byLocal.Values ==> Step(m, Link(Shutdown)).m.heap[c].state == Closed
    {
      StepMoves(m, Link(Shutdown), c);
      ShutdownEnds(m, c);
    }
  }

  lemma ShutdownEnds(m: Mgr, c: nat)
    requires Rooted(m) && c < |m.heap| && Moves(m, Link(Shutdown), c, Step(m, Link(Shutdown)).m.heap[c])
    ensures c in m.byLocal.Values ==> Step(m, Link(Shutdown)).m.heap[c].state == Closed
  {
    assert IsListed(m, c) <==> c in m.byLocal.Values;
    hide IsListed, Step;
  }

  // ---------- The crosslink ----------

  /** The crosslink starts to close when it drops by itself, or when the idle timer fires or a reap is
      asked for while the manager is live and lists no circuit; no other step closes it. */
  lemma LinkClosesIff(m: Mgr, e: Event)
    requires Rooted(m)
    ensures Step(m, e).m.linkClosing <==>
      || m.linkClosing || e == Link(LinkDrops)
      || ((e == Link(ReapNow) || (e == Link(IdleFires) && m.idleArmed)) && !m.closed && m.byLocal == map[])
  {
    hide OnDispatch, OnOriginate, SessionEffect, OnGuard, Remove, ClosedHeap;
    match e
    case Dispatch(f) => DispatchKeepsLink(m, f);
    case Originate(_, _, _) => OriginateKeepsLink(m, e);
    case OriginateResumes(c) =>
      if Enabled(m, e) {
        RemoveKeepsLink(m.(awaiting := m.awaiting - {c}), c);
      }
    case GuardFires(c) =>
      if Enabled(m, e) {
        RemoveKeepsLink(Updated(m, c, OnGuard(m.heap[c])), c);
      }
    case _ =>
  }

  lemma RemoveKeepsLink(m: Mgr, c: nat)
    requires c < |m.heap|
    ensures Remove(m, c).linkClosing == m.linkClosing
  {
  }

  lemma OriginateKeepsLink(m: Mgr, e: Event)
    requires e.Originate?
    ensures OnOriginate(m, e.dest, e.user, e.proposed).m.linkClosing == m.linkClosing
  {
    hide FirstFree, ConnectReqFrame, ClampWindow, NewCore;
  }

  lemma DispatchKeepsLink(m: Mgr, f: L3Frame)
    requires Rooted(m)
    ensures OnDispatch(m, f).m.linkClosing == m.linkClosing
  {
    hide OnSendConnectAck, FirstFree, Refusal, OnInformation, OnInformationAck, OnConnectAck, OnDisconnectRequest,
         OnDisconnectAck, ClampWindow, NewCore, Remove;
    var key := (f.header.circuitIdx, f.header.circuitId);
    if !f.ConnectRequest? && key in m.byLocal {
      var c := m.byLocal[key];
      RemoveKeepsLink(Updated(m, c, OnDisconnectRequest(m.heap[c]).core), c);
      RemoveKeepsLink(Updated(m, c, OnDisconnectAck(m.heap[c])), c);
    }
  }

  /** What the crosslink's own steps leave alone, and that a timer that fired is not armed. */
  lemma LinkStepsExactly(m: Mgr)
    requires Rooted(m)
    ensures Step(m, Link(LinkDrops)).m == m.(linkClosing := true)
    ensures var t := Step(m, Link(ReapNow)).m;
      t == m.(idleArmed := t.idleArmed, linkClosing := t.linkClosing) && (t.idleArmed <==> m.idleArmed && (m.closed || m.byLocal != map[]))
    ensures var t := Step(m, Link(IdleFires)).m; t == m.(idleArmed := false, linkClosing := t.linkClosing)
  {
  }

  // ---------- New circuits ----------

  /** A circuit as it is made: nothing sent, received or queued, and on our configured fragments. */
  predicate Blank(m: Mgr, d: Core)
  {
    && d.localCall == m.localCall && d.mtu == m.mtu && d.localIdx !in m.used && d.localId == (m.nextId + 1) % 256
    && (forall i: byte :: i < d.localIdx ==> i in m.used)
    && (d.vs, d.vr, d.va) == (0, 0, 0) && d.pending == [] && d.inbox == Inbox([], []) && d.drain == Idle
    && !d.windowEvent && !d.eof && !d.writerClosing && !d.guardArmed
  }

  /** The circuit that a step makes: for a new CONNECT REQ connected at once, under the caller's key
      and names; for a call of our own waiting, under the names that were given. */
  predicate MadeBy(m: Mgr, e: Event, d: Core)
  {
    Blank(m, d) &&
    match e
    case Dispatch(f) =>
      && f.ConnectRequest? && d.state == Connected && d.connectedEvent
      && (d.remoteIdx, d.remoteId) == (f.header.circuitIdx, f.header.circuitId)
      && d.userCall == f.userCall && d.peerCall == f.originNodeCall
    case Originate(dest, user, _) =>
      && d.state == AwaitingConnect && !d.connectedEvent && (d.remoteIdx, d.remoteId) == (0, 0)
      && d.userCall == user && d.peerCall == dest
    case _ => false
  }

  /** ... with its index taken and its id used up. */
  predicate Made(m: Mgr, e: Event, t: Mgr)
  {
    && |t.heap| == |m.heap| + 1 && MadeBy(m, e, t.heap[|m.heap|])
    && t.nextId == t.heap[|m.heap|].localId && t.used == m.used + {t.heap[|m.heap|].localIdx} && !t.idleArmed
  }

  /** A step makes a circuit if and only if it is a call of our own or a CONNECT REQ under a key that
      is not listed, and an index is free; and it is the circuit that `Made` spells out. */
  lemma MadeIff(m: Mgr, e: Event)
    requires Rooted(m)
    ensures var t := Step(m, e).m;
      var asks := e.Originate? || (e.Dispatch? && e.frame.ConnectRequest?
                                   && (e.frame.header.circuitIdx, e.frame.header.circuitId) !in m.byRemote);
      if asks && |m.used| < 256 then Made(m, e, t) else |t.heap| == |m.heap|
  {
    hide OnDispatch, OnOriginate, OnOriginateResumes, OnGuardFires, OnLink, SessionEffect, MadeBy;
    match e
    case Dispatch(f) => ArrivalsMake(m, f);
    case Originate(dest, user, proposed) => CallsMake(m, dest, user, proposed);
    case OriginateResumes(c) =>
      if Enabled(m, e) {
        TimersSpare(m, c, c);
      }
    case GuardFires(c) =>
      if Enabled(m, e) {
        TimersMake(m, c);
      }
    case Session(_, _) =>
    case Link(act) => LinkRooted(m, act);
  }

  lemma OpenedMakes(m: Mgr, idx: byte, f: L3Frame)
    requires f.ConnectRequest? && FirstFree(m.used, 0) == Some(idx)
    ensures Made(m, Dispatch(f), Opened(m, idx, f).m)
  {
    hide FirstFree, ConnectAckFrame, ClampWindow;
  }

  lemma PlacedMakes(m: Mgr, idx: byte, dest: string, user: string, proposed: int)
    requires FirstFree(m.used, 0) == Some(idx)
    ensures Made(m, Originate(dest, user, proposed), Placed(m, idx, dest, user, proposed).m)
  {
    hide FirstFree, ConnectReqFrame, ClampWindow;
  }

  lemma CallsMake(m: Mgr, dest: string, user: string, proposed: int)
    ensures var t := OnOriginate(m, dest, user, proposed).m;
      if |m.used| < 256 then Made(m, Originate(dest, user, proposed), t) else |t.heap| == |m.heap|
  {
    FullIffNoneFree(m);
    hide Placed, FirstFree, Made;
    if FirstFree(m.used, 0).Some? {
      PlacedMakes(m, FirstFree(m.used, 0).value, dest, user, proposed);
    }
  }

  lemma TimersMake(m: Mgr, c: nat)
    requires c < |m.heap|
    ensures |OnGuardFires(m, c).heap| == |m.heap|
  {
    hide OnGuard;
  }

  lemma FramesMake(m: Mgr, c: nat, f: L3Frame)
    requires c < |m.heap| && !f.ConnectRequest?
    ensures |OnCircuitFrame(m, c, f).m.heap| == |m.heap|
  {
    hide OnInformation, OnInformationAck, OnConnectAck, OnDisconnectRequest, OnDisconnectAck;
  }

  lemma ArrivalsMake(m: Mgr, f: L3Frame)
    requires Rooted(m)
    ensures var t := OnDispatch(m, f).m;
      if f.ConnectRequest? && (f.header.circuitIdx, f.header.circuitId) !in m.byRemote && |m.used| < 256
      then Made(m, Dispatch(f), t) else |t.heap| == |m.heap|
  {
    FullIffNoneFree(m);
    hide Opened, OnCircuitFrame, OnSendConnectAck, FirstFree, Refusal, Made;
    var key := (f.header.circuitIdx, f.header.circuitId);
    if f.ConnectRequest? {
      if FirstFree(m.used, 0).Some? {
        OpenedMakes(m, FirstFree(m.used, 0).value, f);
      }
    } else if key in m.byLocal {
      FramesMake(m, m.byLocal[key], f);
    }
  }

  // ---------- No disconnect without its guard ----------

  ghost predicate Guarded(m: Mgr)
  {
    forall c :: 0 <= c < |m.heap| && m.heap[c].state == Disconnecting ==> m.heap[c].guardArmed
  }

  lemma StepGuarded(m: Mgr, e: Event)
    requires Rooted(m) && Guarded(m)
    ensures Guarded(Step(m, e).m)
  {
    hide Step, Ends, Leaves, Connects, LearnsFrom, Blank;
    MadeIff(m, e);
    var t := Step(m, e).m;
    forall c | 0 <= c < |t.heap| && t.heap[c].state == Disconnecting ensures t.heap[c].guardArmed {
      if c < |m.heap| {
        StepGuards(m, e, c);
      }
    }
  }

  lemma StepGuards(m: Mgr, e: Event, c: nat)
    requires Rooted(m) && c < |m.heap| && (m.heap[c].state == Disconnecting ==> m.heap[c].guardArmed)
    ensures c < |Step(m, e).m.heap|
    ensures var d := Step(m, e).m.heap[c]; d.state == Disconnecting ==> d.guardArmed
  {
    if e.Session? && !Enabled(m, e) {
    } else {
      StepMoves(m, e, c);
      hide Step, LearnsFrom;
    }
  }

  /** On every run each circuit that waits for its DISC ACK has its give-up guard armed, and when
      that fires the circuit closes and its reader gets EOF: no disconnect hangs for ever. */
  lemma {:induction false} NoDisconnectHangs(m: Mgr, es: seq<Event>, c: nat)
    requires Rooted(m) && Guarded(m) && c < |Exec(m, es).heap| && Exec(m, es).heap[c].state == Disconnecting
    ensures var t := Exec(m, es); t.heap[c].guardArmed
    ensures var t := Exec(m, es); var d := Step(t, GuardFires(c)).m.heap;
      c < |d| && d[c].state == Closed && d[c].eof && d[c].windowEvent && d[c].connectedEvent && !d[c].guardArmed
    decreases |es|
  {
    if es == [] {
      StepMoves(m, GuardFires(c), c);
    } else {
      StepRooted(m, es[0]);
      StepGuarded(m, es[0]);
      hide Step, Guarded;
      NoDisconnectHangs(Step(m, es[0]).m, es[1..], c);
    }
  }
}

/** The life of a circuit over every run of its manager, including runs in which a
    circuit is removed from the tables more than once. */
module ManagerLifecycle {
  import opened Prelude
  import opened Frames
  import opened Circuit
  import opened ManagerSteps

  function Stage(s: CircuitState): nat
  {
    match s
    case Connecting => 1
    case AwaitingConnect => 2
    case Connected => 3
    case Disconnecting => 4
    case Closed => 5
  }

  /** The reader has seen EOF exactly when the circuit is closed, and no give-up guard
      is left armed behind. */
  predicate Sound(c: Core)
  {
    && c.state != Connecting
    && (c.eof <==> c.state == Closed)
    && (c.guardArmed ==> c.state in {Connected, Disconnecting})
  }

  /** d is a lawful successor of c: forward in the life cycle, and after CLOSED nothing
      is delivered, sent or reopened. */
  predicate Forward(c: Core, d: Core)
  {
    && LocalKey(d) == LocalKey(c)
    && (c.state != AwaitingConnect ==> RemoteKey(d) == RemoteKey(c))
    && Stage(c.state) <= Stage(d.state)
    && (c.state == Closed ==> d.inbox.delivered == c.inbox.delivered && d.vs == c.vs && d.eof)
  }

  /** The one step backwards: a repeated CONNECT REQ is acknowledged again. */
  predicate Reopens(c: Core, d: Core)
  {
    && c.state in {Connected, Disconnecting}
    && d == c.(state := Connected, connectedEvent := true)
  }

  predicate Related(c: Core, d: Core) { Sound(c) ==> Sound(d) && Forward(c, d) }

  predicate IsRequest(e: Event) { e.Dispatch? && e.frame.ConnectRequest? }

  ghost predicate Alive(m: Mgr)
  {
    && Rooted(m)
    && (forall c :: 0 <= c < |m.heap| ==> Sound(m.heap[c]))
    && (forall k :: k in m.byRemote ==>
          k == RemoteKey(m.heap[m.byRemote[k]]) && m.heap[m.byRemote[k]].state in {Connected, Disconnecting})
    && (forall k :: k in m.byLocal ==> k == LocalKey(m.heap[m.byLocal[k]]))
  }

  predicate EmitsInfo(out: seq<L3Frame>) { exists i :: 0 <= i < |out| && out[i].Information? }

  lemma SessionRelated(c: Core, act: SessionAct)
    ensures Related(c, SessionEffect(c, act).core)
    ensures Sound(c) && c.state in {Connected, Disconnecting}
        ==> SessionEffect(c, act).core.state in {Connected, Disconnecting}
    ensures EmitsInfo(SessionEffect(c, act).out) ==> act.Drains? && c.state == Connected
  {
  }

  lemma InfoRelated(c: Core, f: L3Frame)
    requires f.Information?
    ensures Related(c, OnInformation(c, f).core) && OnInformation(c, f).core.state == c.state
    ensures !EmitsInfo(OnInformation(c, f).out)
  {
  }

  lemma OthersRelated(c: Core, f: L3Frame)
    ensures Related(c, OnInformationAck(c, f)) && OnInformationAck(c, f).state == c.state
    ensures f.ConnectAck? ==> Related(c, OnConnectAck(c, f))
    ensures f.ConnectAck? && c.state != AwaitingConnect ==> OnConnectAck(c, f) == c
    ensures Related(c, OnDisconnectRequest(c).core)
    ensures Related(c, OnDisconnectAck(c))
    ensures Related(c, OnGuard(c))
    ensures Related(c, SetClosed(c))
  {
  }

  /** What one manager step may do to the circuits that already exist. */
  ghost predicate Lawful(m: Mgr, e: Event, t: Mgr)
  {
    && |m.heap| <= |t.heap|
    && forall c :: 0 <= c < |m.heap| ==>
         Related(m.heap[c], t.heap[c]) || (IsRequest(e) && Reopens(m.heap[c], t.heap[c]))
  }

  /** Changing one circuit lawfully keeps the manager's invariant, provided a circuit
      still listed by its remote key stays open. */
  lemma UpdateAlive(m: Mgr, e: Event, c: nat, d: Core)
    requires Alive(m) && c < |m.heap|
    requires Related(m.heap[c], d) || (IsRequest(e) && Reopens(m.heap[c], d))
    requires c in m.byRemote.Values ==> d.state in {Connected, Disconnecting}
    ensures Alive(Updated(m, c, d)) && Lawful(m, e, Updated(m, c, d))
  {
  }

  lemma RemoveAlive(m: Mgr, e: Event, c: nat, d: Core)
    requires Alive(m) && c < |m.heap| && Related(m.heap[c], d)
    ensures Alive(Remove(Updated(m, c, d), c)) && Lawful(m, e, Remove(Updated(m, c, d), c))
  {
    var t := Remove(Updated(m, c, d), c);
    forall k | k in t.byRemote
      ensures k == RemoteKey(t.heap[t.byRemote[k]]) && t.heap[t.byRemote[k]].state in {Connected, Disconnecting}
    {
      assert k in m.byRemote && m.byRemote[k] == t.byRemote[k];
    }
  }

  lemma InstallAlive(m: Mgr, e: Event, idx: byte, remote: Key, user: string, peer: string, window: Window)
    requires Alive(m)
    ensures Alive(Install(m, idx, remote, user, peer, AwaitingConnect, window))
    ensures Lawful(m, e, Install(m, idx, remote, user, peer, AwaitingConnect, window))
  {
  }

  lemma OpenedAlive(m: Mgr, idx: byte, f: L3Frame)
    requires Alive(m) && f.ConnectRequest?
    ensures Alive(Opened(m, idx, f).m) && Lawful(m, Dispatch(f), Opened(m, idx, f).m)
  {
    var t := Opened(m, idx, f).m;
    var c := |m.heap|;
    assert t.heap[..c] == m.heap && |t.heap| == c + 1;
    assert Sound(t.heap[c]) && t.heap[c].state == Connected;
    hide NewCore, Sound;
  }

  lemma RequestLawful(m: Mgr, f: L3Frame)
    requires Alive(m) && f.ConnectRequest?
    ensures Alive(OnConnectRequest(m, f).m) && Lawful(m, Dispatch(f), OnConnectRequest(m, f).m)
    ensures !EmitsInfo(OnConnectRequest(m, f).out)
  {
    var key := (f.header.circuitIdx, f.header.circuitId);
    if key in m.byRemote {
      var c := m.byRemote[key];
      UpdateAlive(m, Dispatch(f), c, OnSendConnectAck(m.heap[c]).core);
      hide Alive, Lawful, Updated;
    } else if TableFull(m) {
    } else {
      match FirstFree(m.used, 0)
      case None =>
      case Some(idx) =>
        OpenedAlive(m, idx, f);
        assert Opened(m, idx, f).out[0].ConnectAck? && |Opened(m, idx, f).out| == 1;
        hide Alive, Lawful, Opened;
    }
  }

  lemma FrameLawful(m: Mgr, c: nat, f: L3Frame)
    requires Alive(m) && c < |m.heap| && !f.ConnectRequest?
    ensures Alive(OnCircuitFrame(m, c, f).m) && Lawful(m, Dispatch(f), OnCircuitFrame(m, c, f).m)
    ensures !EmitsInfo(OnCircuitFrame(m, c, f).out)
  {
    OthersRelated(m.heap[c], f);
    if f.Information? {
      InfoRelated(m.heap[c], f);
      assert c in m.byRemote.Values ==> m.heap[c].state in {Connected, Disconnecting};
      hide OnInformation, Alive, Lawful, Updated, Related;
      UpdateAlive(m, Dispatch(f), c, OnInformation(m.heap[c], f).core);
    } else if f.InformationAck? {
      UpdateAlive(m, Dispatch(f), c, OnInformationAck(m.heap[c], f));
      hide OnInformationAck, Alive, Lawful, Updated;
    } else if f.ConnectAck? {
      UpdateAlive(m, Dispatch(f), c, OnConnectAck(m.heap[c], f));
      hide OnConnectAck, Alive, Lawful, Updated;
    } else {
      var e := OnDisconnectRequest(m.heap[c]);
      assert e.out == [DiscAckFrame(m.heap[c])];
      RemoveAlive(m, Dispatch(f), c, e.core);
      RemoveAlive(m, Dispatch(f), c, OnDisconnectAck(m.heap[c]));
      hide OnDisconnectRequest, OnDisconnectAck, Alive, Lawful, Updated, Remove;
    }
  }

  lemma DispatchLawful(m: Mgr, f: L3Frame)
    requires Alive(m)
    ensures Alive(OnDispatch(m, f).m) && Lawful(m, Dispatch(f), OnDispatch(m, f).m)
    ensures !EmitsInfo(OnDispatch(m, f).out)
  {
    var key := (f.header.circuitIdx, f.header.circuitId);
    if f.ConnectRequest? {
      RequestLawful(m, f);
      hide OnConnectRequest, OnCircuitFrame, Alive, Lawful;
    } else if key in m.byLocal {
      FrameLawful(m, m.byLocal[key], f);
      hide OnConnectRequest, OnCircuitFrame, Alive, Lawful;
    }
  }

  lemma TimersAlive(m: Mgr, e: Event, t: Mgr, waiting: set<nat>, armed: bool, closing: bool)
    requires Alive(t) && Lawful(m, e, t)
    ensures var u := t.(awaiting := waiting, idleArmed := armed, linkClosing := closing);
      Alive(u) && Lawful(m, e, u)
  {
  }

  lemma OriginateLawful(m: Mgr, e: Event)
    requires Alive(m) && e.Originate?
    ensures Alive(OnOriginate(m, e.dest, e.user, e.proposed).m)
    ensures Lawful(m, e, OnOriginate(m, e.dest, e.user, e.proposed).m)
    ensures !EmitsInfo(OnOriginate(m, e.dest, e.user, e.proposed).out)
  {
    match FirstFree(m.used, 0)
    case None =>
      TimersAlive(m, e, m, m.awaiting, false, m.linkClosing);
      hide Placed, Alive, Lawful;
    case Some(idx) =>
      InstallAlive(m, e, idx, (0, 0), e.user, e.dest, ClampWindow(e.proposed));
      var m1 := Install(m, idx, (0, 0), e.user, e.dest, AwaitingConnect, ClampWindow(e.proposed));
      TimersAlive(m, e, m1, m1.awaiting + {|m.heap|}, m1.idleArmed, m1.linkClosing);
      hide Install, Alive, Lawful, FirstFree;
  }

  lemma ResumeLawful(m: Mgr, c: nat)
    requires Alive(m) && c < |m.heap|
    ensures Alive(OnOriginateResumes(m, c)) && Lawful(m, OriginateResumes(c), OnOriginateResumes(m, c))
  {
    var m1 := m.(awaiting := m.awaiting - {c});
    RemoveAlive(m1, OriginateResumes(c), c, m.heap[c]);
    assert Updated(m1, c, m.heap[c]) == m1;
  }

  lemma GuardLawful(m: Mgr, c: nat)
    requires Alive(m) && c < |m.heap|
    ensures Alive(OnGuardFires(m, c)) && Lawful(m, GuardFires(c), OnGuardFires(m, c))
  {
    OthersRelated(m.heap[c], DiscAckFrame(m.heap[c]));
    if m.heap[c].state == Disconnecting {
      RemoveAlive(m, GuardFires(c), c, OnGuard(m.heap[c]));
    } else {
      UpdateAlive(m, GuardFires(c), c, OnGuard(m.heap[c]));
    }
    hide Remove, Updated, Alive, Lawful, OnGuard;
  }

  lemma SessionLawful(m: Mgr, c: nat, act: SessionAct)
    requires Alive(m) && c < |m.heap|
    ensures Alive(Apply(m, c, SessionEffect(m.heap[c], act)).m)
    ensures Lawful(m, Session(c, act), Apply(m, c, SessionEffect(m.heap[c], act)).m)
    ensures EmitsInfo(SessionEffect(m.heap[c], act).out) ==> act.Drains? && m.heap[c].state == Connected
  {
    SessionRelated(m.heap[c], act);
    hide SessionEffect;
    UpdateAlive(m, Session(c, act), c, SessionEffect(m.heap[c], act).core);
    hide Alive, Lawful, Updated;
  }

  lemma ClosedIfRelated(listed: bool, c: Core)
    ensures Related(c, ClosedIf(listed, c))
  {
    OthersRelated(c, DiscAckFrame(c));
  }

  lemma ShutdownLawful(m: Mgr)
    requires Alive(m)
    ensures Alive(OnShutdown(m)) && Lawful(m, Link(Shutdown), OnShutdown(m))
  {
    var t := OnShutdown(m);
    hide SetClosed, ClosedIf, Sound, Forward;
    forall c | 0 <= c < |m.heap| ensures Related(m.heap[c], t.heap[c]) {
      ClosedIfRelated(c in m.byLocal.Values, m.heap[c]);
    }
  }

  lemma LinkLawful(m: Mgr, act: LinkAct)
    requires Alive(m)
    ensures Alive(OnLink(m, act)) && Lawful(m, Link(act), OnLink(m, act))
  {
    if act.Shutdown? {
      ShutdownLawful(m);
    } else {
      var t := OnLink(m, act);
      assert t == m.(idleArmed := t.idleArmed, linkClosing := t.linkClosing);
      TimersAlive(m, Link(act), m, m.awaiting, t.idleArmed, t.linkClosing);
    }
    hide OnShutdown, Alive, Lawful;
  }

  /** Every manager step: existing circuits only move forward, except that a repeated
      CONNECT REQ may reopen a listed one; the invariant is kept; INFO leaves only through
      drain() on a CONNECTED circuit. */
  lemma StepLawful(m: Mgr, e: Event)
    requires Alive(m)
    ensures Alive(Step(m, e).m) && Lawful(m, e, Step(m, e).m)
    ensures EmitsInfo(Step(m, e).out) ==>
      e.Session? && e.act.Drains? && e.c < |m.heap| && m.heap[e.c].state == Connected
  {
    if Enabled(m, e) {
      match e
      case Dispatch(f) => DispatchLawful(m, f);
      case Originate(_, _, _) => OriginateLawful(m, e);
      case OriginateResumes(c) => ResumeLawful(m, c);
      case GuardFires(c) => GuardLawful(m, c);
      case Session(c, act) => SessionLawful(m, c, act);
      case Link(act) => LinkLawful(m, act);
      hide Alive, Lawful, OnDispatch, OnOriginate, OnOriginateResumes, OnGuardFires, Apply, OnLink, Related;
    }
  }

  // ---------- Runs ----------

  /** The manager after the events `es`, from its construction. */
  function After(call: string, mtu: Mtu, timeout: bool, es: seq<Event>): Mgr
  {
    Exec(NewManager(call, mtu, timeout), es)
  }

  lemma {:induction false} ExecAlive(m: Mgr, es: seq<Event>)
    requires Alive(m)
    ensures Alive(Exec(m, es))
    decreases |es|
  {
    if es != [] {
      StepLawful(m, es[0]);
      ExecAlive(Step(m, es[0]).m, es[1..]);
    }
  }

  /** On every run no closed circuit is reachable through the remote-key table, so the one
      backward step (DISCONNECTING to CONNECTED, on a repeated CONNECT REQ) can never
      revive one; EOF is fed exactly at the step that closes the circuit; no guard
      survives it; INFO leaves only a CONNECTED circuit. */
  lemma LifeOfACircuit(call: string, mtu: Mtu, timeout: bool, es: seq<Event>, e: Event, c: nat)
    requires c < |After(call, mtu, timeout, es).heap|
    ensures var m := After(call, mtu, timeout, es); var t := Step(m, e);
      && |m.heap| <= |t.m.heap|
      && (forall k :: k in m.byRemote ==> m.heap[m.byRemote[k]].state != Closed)
      && (t.m.heap[c].eof && !m.heap[c].eof <==> t.m.heap[c].state == Closed && m.heap[c].state != Closed)
      && (t.m.heap[c].state == Closed ==> !t.m.heap[c].guardArmed)
      && (Stage(t.m.heap[c].state) < Stage(m.heap[c].state) ==>
            IsRequest(e) && m.heap[c].state == Disconnecting && t.m.heap[c].state == Connected)
      && (EmitsInfo(t.out) ==>
            e.Session? && e.act.Drains? && e.c < |m.heap| && m.heap[e.c].state == Connected)
  {
    var m := After(call, mtu, timeout, es);
    ExecAlive(NewManager(call, mtu, timeout), es);
    StepLawful(m, e);
    hide Step;
  }

  /** CLOSED is absorbing: whatever happens afterwards, nothing more reaches the reader and
      no sequence number is spent. */
  lemma {:induction false} ClosedForever(m: Mgr, es: seq<Event>, c: nat)
    requires Alive(m) && c < |m.heap| && m.heap[c].state == Closed
    ensures var d := Exec(m, es).heap[c];
      && d.state == Closed && d.eof && !d.guardArmed
      && d.inbox.delivered == m.heap[c].inbox.delivered && d.vs == m.heap[c].vs
    decreases |es|
  {
    if es != [] {
      StepLawful(m, es[0]);
      assert Related(m.heap[c], Step(m, es[0]).m.heap[c]);
      hide Step;
      ClosedForever(Step(m, es[0]).m, es[1..], c);
    }
  }
}

/** The manager's tables, allocator and idle timer over every run. */
module ManagerTables {
  import opened Prelude
  import opened Frames
  import opened Circuit
  import opened ManagerSteps

  /** Some listed circuit has local index i. */
  ghost predicate Holds(m: Mgr, i: byte) { exists k :: k in m.byLocal && k.0 == i }

  // ---------- Idle crosslinks ----------

  /** An armed idle timer means an empty, live manager with a timeout; an empty live manager with a
      timeout has its timer armed or its link closing; an index in use is listed. */
  ghost predicate IdleSafe(m: Mgr)
  {
    && (m.idleArmed ==> m.byLocal == map[] && !m.closed && m.hasIdleTimeout)
    && (m.hasIdleTimeout && !m.closed && m.byLocal == map[] ==> m.idleArmed || m.linkClosing)
    && (forall i :: i in m.used ==> Holds(m, i))
  }

  lemma RemoveIdle(m: Mgr, c: nat)
    requires IdleSafe(m) && c < |m.heap|
    ensures IdleSafe(Remove(m, c))
  {
    forall i | i in Remove(m, c).used
      ensures Holds(Remove(m, c), i)
    {
      var k :| k in m.byLocal && k.0 == i;
      assert k in Remove(m, c).byLocal;
    }
  }

  lemma UpdateIdle(m: Mgr, c: nat, d: Core)
    requires IdleSafe(m) && c < |m.heap|
    ensures IdleSafe(Updated(m, c, d))
  {
  }

  lemma InstallIdle(m: Mgr, idx: byte, remote: Key, user: string, peer: string,
                    state: CircuitState, window: Window)
    requires IdleSafe(m)
    ensures IdleSafe(Install(m, idx, remote, user, peer, state, window))
  {
    var t := Install(m, idx, remote, user, peer, state, window);
    var key := (idx, (m.nextId + 1) % 256);
    assert key in t.byLocal;
    forall i | i in t.used ensures Holds(t, i) {
      if i in m.used {
        var k :| k in m.byLocal && k.0 == i;
        assert k in t.byLocal;
      } else {
        assert key.0 == i;
      }
    }
    hide NewCore;
  }

  /** With every index taken some circuit is listed. */
  lemma FullIsBusy(m: Mgr)
    requires IdleSafe(m) && FirstFree(m.used, 0).None?
    ensures m.byLocal != map[]
  {
    var zero: byte := 0;
    assert zero in m.used;
  }

  lemma DispatchIdle(m: Mgr, f: L3Frame)
    requires Rooted(m) && IdleSafe(m)
    ensures IdleSafe(OnDispatch(m, f).m)
  {
    var key := (f.header.circuitIdx, f.header.circuitId);
    if f.ConnectRequest? {
      if FirstFree(m.used, 0).None? {
        FullIsBusy(m);
      } else {
        InstallIdle(m, FirstFree(m.used, 0).value, key, f.userCall, f.originNodeCall, Connecting,
                    ClampWindow(f.proposedWindow));
      }
      hide Install, OnSendConnectAck, FirstFree;
    } else if key in m.byLocal {
      var c := m.byLocal[key];
      if f.Disconnect? {
        RemoveIdle(Updated(m, c, OnDisconnectRequest(m.heap[c]).core), c);
        RemoveIdle(Updated(m, c, OnDisconnectAck(m.heap[c])), c);
      }
      hide Remove, OnInformation, OnInformationAck, OnConnectAck, OnDisconnectRequest, OnDisconnectAck;
    }
  }

  lemma OriginateIdle(m: Mgr, e: Event)
    requires IdleSafe(m) && e.Originate?
    ensures IdleSafe(OnOriginate(m, e.dest, e.user, e.proposed).m)
  {
    if FirstFree(m.used, 0).None? {
      FullIsBusy(m);
    } else {
      InstallIdle(m, FirstFree(m.used, 0).value, (0, 0), e.user, e.dest, AwaitingConnect, ClampWindow(e.proposed));
    }
    hide Install, ConnectReqFrame, ClampWindow;
  }

  lemma LinkIdle(m: Mgr, act: LinkAct)
    requires IdleSafe(m)
    ensures IdleSafe(OnLink(m, act))
  {
  }

  /** Every step keeps the idle reaper honest. */
  lemma StepIdle(m: Mgr, e: Event)
    requires Rooted(m) && IdleSafe(m)
    ensures IdleSafe(Step(m, e).m)
  {
    if Enabled(m, e) {
      match e
      case Dispatch(f) => DispatchIdle(m, f);
      case Originate(_, _, _) => OriginateIdle(m, e);
      case OriginateResumes(c) => RemoveIdle(m.(awaiting := m.awaiting - {c}), c);
      case GuardFires(c) => RemoveIdle(Updated(m, c, OnGuard(m.heap[c])), c);
      case Session(c, act) => UpdateIdle(m, c, SessionEffect(m.heap[c], act).core);
      case Link(act) => LinkIdle(m, act);
      hide OnDispatch, OnOriginate, OnLink, Remove, OnGuard, SessionEffect;
    }
  }

  /** On every run, wherever the circuits and the timer have been: no circuit-less crosslink
      is left without a timer or a closing link, the reaper never closes a crosslink that
      carries a circuit, and an armed timer belongs to an empty, live manager. */
  lemma {:induction false} CrosslinksNeitherLeakNorBreak(m: Mgr, es: seq<Event>, act: LinkAct)
    requires Rooted(m) && IdleSafe(m)
    ensures IdleSafe(Exec(m, es))
    ensures var r := Exec(m, es);
      act in {IdleFires, ReapNow} && Step(r, Link(act)).m.linkClosing && !r.linkClosing
      ==> r.byLocal == map[] && !r.closed
    decreases |es|
  {
    if es != [] {
      StepRooted(m, es[0]);
      StepIdle(m, es[0]);
      CrosslinksNeitherLeakNorBreak(Step(m, es[0]).m, es[1..], act);
    }
  }

  lemma NewManagerIdle(call: string, mtu: Mtu, timeout: bool)
    ensures Rooted(NewManager(call, mtu, timeout)) && IdleSafe(NewManager(call, mtu, timeout))
  {
  }

  // ---------- The index table ----------

  /** Listed circuits answer to their own local key, have pairwise distinct indices, and
      the set of used indices is exactly theirs. */
  ghost predicate Tidy(m: Mgr)
  {
    && Rooted(m)
    && (forall k :: k in m.byLocal ==> k == LocalKey(m.heap[m.byLocal[k]]))
    && (forall k, l :: k in m.byLocal && l in m.byLocal && k.0 == l.0 ==> k == l)
    && (forall i :: i in m.used <==> Holds(m, i))
  }

  /** What a caller of _remove_circuit would have to check for the indices' sake: the circuit's
      local key is still listed, or at least its index is not in use. Whose the listed key is
      matters to the other circuits (ManagerPairing.RemovalSparesOthersIff), not to the indices. */
  predicate SafeToRemove(m: Mgr, c: nat)
    requires c < |m.heap|
  {
    LocalKey(m.heap[c]) in m.byLocal || m.heap[c].localIdx !in m.used
  }

  /** Removing a circuit leaves the table consistent if and only if that check passes. */
  lemma RemoveTidyIff(m: Mgr, c: nat)
    requires Tidy(m) && c < |m.heap|
    ensures Tidy(Remove(m, c)) <==> SafeToRemove(m, c)
  {
    var t := Remove(m, c);
    var core := m.heap[c];
    assert forall k :: k in t.byLocal <==> k in m.byLocal && k != LocalKey(core);
    if SafeToRemove(m, c) {
      forall i ensures i in t.used <==> Holds(t, i) {
        if i in t.used {
          var k :| k in m.byLocal && k.0 == i;
          assert k in t.byLocal;
        }
      }
    } else {
      var k :| k in m.byLocal && k.0 == core.localIdx;
      assert k in t.byLocal && k.0 !in t.used;
    }
  }

  lemma UpdateTidy(m: Mgr, c: nat, d: Core)
    requires c < |m.heap| && LocalKey(d) == LocalKey(m.heap[c])
    ensures Tidy(m) <==> Tidy(Updated(m, c, d))
  {
    var t := Updated(m, c, d);
    assert forall k :: k in m.byLocal && m.byLocal[k] < |m.heap| ==>
      LocalKey(t.heap[t.byLocal[k]]) == LocalKey(m.heap[m.byLocal[k]]);
  }

  lemma InstallTidy(m: Mgr, idx: byte, remote: Key, user: string, peer: string,
                    state: CircuitState, window: Window)
    requires Tidy(m) && idx !in m.used
    ensures Tidy(Install(m, idx, remote, user, peer, state, window))
  {
    var t := Install(m, idx, remote, user, peer, state, window);
    var key := (idx, (m.nextId + 1) % 256);
    assert key !in m.byLocal;
    assert LocalKey(t.heap[|m.heap|]) == key;
    hide NewCore;
    forall i ensures i in t.used <==> Holds(t, i) {
      if i in m.used {
        var k :| k in m.byLocal && k.0 == i;
        assert k in t.byLocal;
      } else if i == idx {
        assert key in t.byLocal;
      }
    }
  }

  /** The circuit a step takes out of the tables without having found it there. */
  function BlindRemoval(m: Mgr, e: Event): Option<nat>
  {
    if !Enabled(m, e) then None
    else match e
      case OriginateResumes(c) => if m.heap[c].state != Connected then Some(c) else None
      case GuardFires(c) => if m.heap[c].state == Disconnecting then Some(c) else None
      case _ => None
  }

  predicate CleanStep(m: Mgr, e: Event)
  {
    BlindRemoval(m, e).Some? && BlindRemoval(m, e).value < |m.heap| ==> SafeToRemove(m, BlindRemoval(m, e).value)
  }

  lemma HandlersKeepKeys(c: Core, f: L3Frame)
    ensures f.Information? ==> LocalKey(OnInformation(c, f).core) == LocalKey(c)
    ensures LocalKey(OnInformationAck(c, f)) == LocalKey(c)
    ensures f.ConnectAck? ==> LocalKey(OnConnectAck(c, f)) == LocalKey(c)
    ensures LocalKey(OnDisconnectRequest(c).core) == LocalKey(c)
    ensures LocalKey(OnDisconnectAck(c)) == LocalKey(c)
  {
  }

  lemma FrameTidy(m: Mgr, c: nat, f: L3Frame)
    requires Tidy(m) && c < |m.heap| && LocalKey(m.heap[c]) in m.byLocal && !f.ConnectRequest?
    ensures Tidy(OnCircuitFrame(m, c, f).m)
  {
    HandlersKeepKeys(m.heap[c], f);
    hide OnInformation, OnInformationAck, OnConnectAck, OnDisconnectRequest, OnDisconnectAck, Remove, Tidy, LocalKey;
    match f
    case Information(_, _) => UpdateTidy(m, c, OnInformation(m.heap[c], f).core);
    case InformationAck(_) => UpdateTidy(m, c, OnInformationAck(m.heap[c], f));
    case ConnectAck(_, _, _) => UpdateTidy(m, c, OnConnectAck(m.heap[c], f));
    case Disconnect(_) =>
      UpdateTidy(m, c, OnDisconnectRequest(m.heap[c]).core);
      RemoveTidyIff(Updated(m, c, OnDisconnectRequest(m.heap[c]).core), c);
      UpdateTidy(m, c, OnDisconnectAck(m.heap[c]));
      RemoveTidyIff(Updated(m, c, OnDisconnectAck(m.heap[c])), c);
  }

  lemma OpenedTidy(m: Mgr, idx: byte, f: L3Frame)
    requires Tidy(m) && idx !in m.used && f.ConnectRequest?
    ensures Tidy(Opened(m, idx, f).m)
  {
    var c, key := |m.heap|, (f.header.circuitIdx, f.header.circuitId);
    var m1 := Install(m, idx, key, f.userCall, f.originNodeCall, Connecting, ClampWindow(f.proposedWindow));
    InstallTidy(m, idx, key, f.userCall, f.originNodeCall, Connecting, ClampWindow(f.proposedWindow));
    assert |m1.heap| == c + 1;
    hide Install;
    var m2 := m1.(byRemote := m1.byRemote[key := c]);
    assert Tidy(m2);
    UpdateTidy(m2, c, OnSendConnectAck(m1.heap[c]).core);
  }

  lemma OpenTidy(m: Mgr, f: L3Frame)
    requires Tidy(m) && f.ConnectRequest?
    ensures Tidy(OnOpen(m, f).m)
  {
    match FirstFree(m.used, 0)
    case None =>
      TimersTidy(m, m.awaiting, false);
    case Some(idx) =>
      OpenedTidy(m, idx, f);
      hide Opened, FirstFree, Tidy;
  }

  lemma RequestTidy(m: Mgr, f: L3Frame)
    requires Tidy(m) && f.ConnectRequest?
    ensures Tidy(OnConnectRequest(m, f).m)
  {
    var key := (f.header.circuitIdx, f.header.circuitId);
    OpenTidy(m, f);
    if key in m.byRemote {
      UpdateTidy(m, m.byRemote[key], OnSendConnectAck(m.heap[m.byRemote[key]]).core);
    }
    hide OnOpen, OnSendConnectAck, Tidy;
  }

  lemma TimersTidy(m: Mgr, waiting: set<nat>, armed: bool)
    ensures Tidy(m.(awaiting := waiting, idleArmed := armed)) <==> Tidy(m)
  {
    var t := m.(awaiting := waiting, idleArmed := armed);
    assert t.byLocal == m.byLocal && t.heap == m.heap && t.used == m.used && t.byRemote == m.byRemote;
    assert forall i :: Holds(t, i) <==> Holds(m, i);
  }

  lemma OriginateTidy(m: Mgr, e: Event)
    requires Tidy(m) && e.Originate?
    ensures Tidy(OnOriginate(m, e.dest, e.user, e.proposed).m)
  {
    match FirstFree(m.used, 0)
    case None =>
      TimersTidy(m, m.awaiting, false);
      hide Install, FirstFree, Tidy;
    case Some(idx) =>
      InstallTidy(m, idx, (0, 0), e.user, e.dest, AwaitingConnect, ClampWindow(e.proposed));
      var m1 := Install(m, idx, (0, 0), e.user, e.dest, AwaitingConnect, ClampWindow(e.proposed));
      hide Install, FirstFree, ConnectReqFrame, ClampWindow, Tidy;
      TimersTidy(m1, m1.awaiting + {|m.heap|}, m1.idleArmed);
  }

  lemma DispatchTidy(m: Mgr, f: L3Frame)
    requires Tidy(m)
    ensures Tidy(OnDispatch(m, f).m)
  {
    var key := (f.header.circuitIdx, f.header.circuitId);
    if f.ConnectRequest? {
      RequestTidy(m, f);
    } else if key in m.byLocal {
      assert LocalKey(m.heap[m.byLocal[key]]) == key;
      FrameTidy(m, m.byLocal[key], f);
    }
    hide OnConnectRequest, OnCircuitFrame, Tidy;
  }

  lemma ResumeTidy(m: Mgr, c: nat)
    requires Tidy(m) && c < |m.heap|
    ensures Tidy(OnOriginateResumes(m, c)) <==> m.heap[c].state == Connected || SafeToRemove(m, c)
  {
    TimersTidy(m, m.awaiting - {c}, m.idleArmed);
    RemoveTidyIff(m.(awaiting := m.awaiting - {c}), c);
    hide Remove, Tidy;
  }

  lemma GuardTidy(m: Mgr, c: nat)
    requires Tidy(m) && c < |m.heap|
    ensures Tidy(OnGuardFires(m, c)) <==> m.heap[c].state != Disconnecting || SafeToRemove(m, c)
  {
    UpdateTidy(m, c, OnGuard(m.heap[c]));
    RemoveTidyIff(Updated(m, c, OnGuard(m.heap[c])), c);
    hide Remove, Tidy;
  }

  lemma SessionTidy(m: Mgr, c: nat, act: SessionAct)
    requires Tidy(m) && c < |m.heap|
    ensures Tidy(Updated(m, c, SessionEffect(m.heap[c], act).core))
  {
    UpdateTidy(m, c, SessionEffect(m.heap[c], act).core);
    hide Tidy;
  }

  lemma LinkTidy(m: Mgr, act: LinkAct)
    requires Tidy(m)
    ensures Tidy(OnLink(m, act))
  {
  }

  /** One step: the index table stays consistent if and only if the step does not remove a
      circuit whose index another circuit now holds. */
  lemma StepTidyIff(m: Mgr, e: Event)
    requires Tidy(m)
    ensures Tidy(Step(m, e).m) <==> CleanStep(m, e)
  {
    if Enabled(m, e) {
      match e
      case Dispatch(f) => DispatchTidy(m, f);
      case Originate(_, _, _) => OriginateTidy(m, e);
      case OriginateResumes(c) => ResumeTidy(m, c);
      case GuardFires(c) => GuardTidy(m, c);
      case Session(c, act) => SessionTidy(m, c, act);
      case Link(act) => LinkTidy(m, act);
      hide OnDispatch, OnOriginate, OnOriginateResumes, OnGuardFires, OnLink, SessionEffect, SafeToRemove, Tidy;
    }
  }

  predicate CleanRun(m: Mgr, es: seq<Event>)
    requires Rooted(m)
    decreases |es|
  {
    es == [] ||
    (StepRooted(m, es[0]); CleanStep(m, es[0]) && CleanRun(Step(m, es[0]).m, es[1..]))
  }

  /** Over every run in which no circuit is removed blindly from under another, listed
      circuits keep distinct indices and the used set is exactly theirs. */
  lemma {:induction false} TablesStayTidy(m: Mgr, es: seq<Event>)
    requires Tidy(m) && CleanRun(m, es)
    ensures Tidy(Exec(m, es))
    decreases |es|
  {
    if es != [] {
      StepTidyIff(m, es[0]);
      hide Step, Tidy;
      TablesStayTidy(Step(m, es[0]).m, es[1..]);
    }
  }

  // ---------- Counting ----------

  lemma {:induction false} ProjectionCount(ks: set<Key>, idxs: set<byte>)
    requires forall k, l :: k in ks && l in ks && k.0 == l.0 ==> k == l
    requires forall i :: i in idxs <==> exists k :: k in ks && k.0 == i
    ensures |idxs| == |ks|
    decreases |ks|
  {
    if ks == {} {
      assert idxs == {};
    } else {
      var k :| k in ks;
      forall i ensures i in idxs - {k.0} <==> exists l :: l in ks - {k} && l.0 == i {
        if i in idxs - {k.0} {
          var l :| l in ks && l.0 == i;
          assert l in ks - {k};
        }
      }
      ProjectionCount(ks - {k}, idxs - {k.0});
    }
  }

  function Bytes256(n: nat): (s: set<byte>)
    requires n <= 256
    ensures |s| == n && forall i :: i in s <==> 0 <= i < n
  {
    if n == 0 then {} else Bytes256(n - 1) + {n - 1}
  }

  lemma FullIffNoneFree(m: Mgr)
    ensures TableFull(m) <==> FirstFree(m.used, 0).None?
  {
    var all := Bytes256(256);
    SubsetCount(m.used, all);
    if FirstFree(m.used, 0).None? {
      assert all <= m.used;
      SubsetCount(all, m.used);
    }
  }

  lemma OpenedParts(m: Mgr, idx: byte, f: L3Frame)
    requires f.ConnectRequest?
    ensures var t := Opened(m, idx, f).m;
      && |t.heap| == |m.heap| + 1
      && t.heap[|m.heap|].state == Connected && t.heap[|m.heap|].localIdx == idx
      && RemoteKey(t.heap[|m.heap|]) == (f.header.circuitIdx, f.header.circuitId)
      && t.byLocal == m.byLocal[LocalKey(t.heap[|m.heap|]) := |m.heap|]
      && t.byRemote == m.byRemote[RemoteKey(t.heap[|m.heap|]) := |m.heap|]
  {
  }

  /** A CONNECT REQ with a new key is refused exactly when 256 circuits are listed; then
      nothing changes. */
  lemma RefusedIffFull(m: Mgr, f: L3Frame)
    requires Tidy(m) && f.ConnectRequest? && (f.header.circuitIdx, f.header.circuitId) !in m.byRemote
    ensures OnConnectRequest(m, f) == Outcome(m, [Refusal(m.localCall, f)]) <==> |m.byLocal| == 256
  {
    ProjectionCount(m.byLocal.Keys, m.used);
    FullIffNoneFree(m);
    SubsetCount(m.used, Bytes256(256));
    if !TableFull(m) {
      OpenedParts(m, FirstFree(m.used, 0).value, f);
      hide FirstFree, Opened, Bytes256, Tidy;
    }
  }

  /** Otherwise it opens one circuit, on the least index no listed circuit holds, listed
      under both keys. */
  lemma OpensOnLeastIndex(m: Mgr, f: L3Frame)
    requires Tidy(m) && f.ConnectRequest? && (f.header.circuitIdx, f.header.circuitId) !in m.byRemote
    requires |m.byLocal| != 256
    ensures var t := OnConnectRequest(m, f).m;
      && |t.heap| == |m.heap| + 1
      && var c := t.heap[|m.heap|];
         && c.state == Connected && RemoteKey(c) == (f.header.circuitIdx, f.header.circuitId)
         && !Holds(m, c.localIdx)
         && (forall j: byte :: j < c.localIdx ==> Holds(m, j))
         && t.byLocal == m.byLocal[LocalKey(c) := |m.heap|]
         && t.byRemote == m.byRemote[RemoteKey(c) := |m.heap|]
  {
    ProjectionCount(m.byLocal.Keys, m.used);
    FullIffNoneFree(m);
    SubsetCount(m.used, Bytes256(256));
    var idx := FirstFree(m.used, 0).value;
    OpenedParts(m, idx, f);
    hide FirstFree, Opened, Bytes256;
  }

  // ---------- Blind removal really happens ----------

  function Request(idx: byte, id: byte): L3Frame
  {
    ConnectRequest(L3Header("", "", DEFAULT_TTL, idx, id, 0, 0, OPCODE_CONNECT_REQ), 4, "", "")
  }

  function StrayDiscAck(idx: byte, id: byte): L3Frame
  {
    Disconnect(L3Header("", "", DEFAULT_TTL, idx, id, 0, 0, OPCODE_DISCONNECT_ACK))
  }

  lemma RequestOpens(m: Mgr, f: L3Frame)
    requires Rooted(m) && f.ConnectRequest? && (f.header.circuitIdx, f.header.circuitId) !in m.byRemote
    requires 0 !in m.used && |m.used| < 256
    ensures var t := Step(m, Dispatch(f)).m; var id := (m.nextId + 1) % 256;
      && t.byLocal == m.byLocal[(0, id) := |m.heap|] && t.used == m.used + {0} && t.nextId == id
      && t.byRemote == m.byRemote[(f.header.circuitIdx, f.header.circuitId) := |m.heap|]
      && t.heap[..|m.heap|] == m.heap && |t.heap| == |m.heap| + 1
      && var c := t.heap[|m.heap|];
         && c.state == Connected && LocalKey(c) == (0, id)
         && RemoteKey(c) == (f.header.circuitIdx, f.header.circuitId)
  {
    assert FirstFree(m.used, 0) == Some(0);
    hide FirstFree;
  }

  lemma StrayAckUnlists(m: Mgr, c: nat, f: L3Frame)
    requires Rooted(m) && c < |m.heap| && m.heap[c].state == Connected && f == StrayDiscAck(m.heap[c].localIdx, m.heap[c].localId)
    requires LocalKey(m.heap[c]) in m.byLocal && m.byLocal[LocalKey(m.heap[c])] == c
    ensures var t := Step(m, Dispatch(f)).m;
      && t.heap == m.heap && t.byLocal == m.byLocal - {LocalKey(m.heap[c])}
      && t.byRemote == m.byRemote - {RemoteKey(m.heap[c])}
      && t.used == m.used - {m.heap[c].localIdx} && t.nextId == m.nextId
  {
  }

  lemma SessionEndArms(m: Mgr, c: nat)
    requires Rooted(m) && c < |m.heap| && m.heap[c].state == Connected
    ensures var t := Step(m, Session(c, SessionEnds)).m;
      && t == m.(heap := t.heap) && |t.heap| == |m.heap| && t.heap[c].state == Disconnecting && t.heap[c].guardArmed
      && LocalKey(t.heap[c]) == LocalKey(m.heap[c]) && RemoteKey(t.heap[c]) == RemoteKey(m.heap[c])
  {
  }

  lemma GuardRemoves(m: Mgr, c: nat)
    requires Rooted(m) && c < |m.heap| && m.heap[c].state == Disconnecting && m.heap[c].guardArmed
    ensures var t := Step(m, GuardFires(c)).m;
      && |t.heap| == |m.heap| && t.byLocal == m.byLocal - {LocalKey(m.heap[c])}
      && t.byRemote == m.byRemote - {RemoteKey(m.heap[c])}
      && t.used == m.used - {m.heap[c].localIdx} && t.nextId == m.nextId
  {
  }

  lemma {:induction false} ExecSnoc(m: Mgr, es: seq<Event>, e: Event)
    requires Rooted(m)
    ensures Exec(m, es + [e]) == Step(Exec(m, es), e).m
    decreases |es|
  {
    if es == [] {
      assert es + [e] == [e] && [e][1..] == [];
    } else {
      StepRooted(m, es[0]);
      assert (es + [e])[1..] == es[1..] + [e];
      hide Step;
      ExecSnoc(Step(m, es[0]).m, es[1..], e);
    }
  }

  lemma RequestFacts(i: byte, d: byte)
    ensures var f := Request(i, d);
      f.ConnectRequest? && (f.header.circuitIdx, f.header.circuitId) == (i, d)
  {
  }

  const BLIND_PREFIX: seq<Event> :=
    [Dispatch(Request(7, 1)), Dispatch(StrayDiscAck(0, 1)), Session(0, SessionEnds)]

  /** An unexpected DISC ACK unlists a CONNECTED circuit; when its session then ends, the
      guard is armed for a circuit no table knows. */
  lemma UnlistedButGuarded(call: string, mtu: Mtu)
    ensures var m := Exec(NewManager(call, mtu, false), BLIND_PREFIX);
      && m.byLocal == map[] && m.byRemote == map[] && m.used == {} && m.nextId == 1
      && |m.heap| == 1 && m.heap[0].state == Disconnecting && m.heap[0].guardArmed
      && LocalKey(m.heap[0]) == (0, 1) && RemoteKey(m.heap[0]) == (7, 1)
  {
    var m0 := NewManager(call, mtu, false);
    hide Step, Request, StrayDiscAck;
    var e1, e2, e3 := Dispatch(Request(7, 1)), Dispatch(StrayDiscAck(0, 1)), Session(0, SessionEnds);
    RequestFacts(7, 1);
    RequestOpens(m0, Request(7, 1));
    ExecSnoc(m0, [], e1);
    assert [] + [e1] == [e1];
    StrayAckUnlists(Exec(m0, [e1]), 0, StrayDiscAck(0, 1));
    ExecSnoc(m0, [e1], e2);
    assert [e1] + [e2] == [e1, e2];
    SessionEndArms(Exec(m0, [e1, e2]), 0);
    ExecSnoc(m0, [e1, e2], e3);
    assert [e1, e2] + [e3] == BLIND_PREFIX;
  }

  /** ... the next CONNECT REQ is given the same index 0; the guard then removes the first
      circuit a second time, and a third CONNECT REQ gets index 0 while the second circuit
      is still listed with it. */
  lemma TwoCircuitsOnOneIndex(call: string, mtu: Mtu)
    ensures var m := Exec(NewManager(call, mtu, false),
                          BLIND_PREFIX + [Dispatch(Request(7, 2)), GuardFires(0), Dispatch(Request(7, 3))]);
      (0, 2) in m.byLocal && (0, 3) in m.byLocal && m.byLocal[(0, 2)] != m.byLocal[(0, 3)] && !Tidy(m)
  {
    var m0 := NewManager(call, mtu, false);
    UnlistedButGuarded(call, mtu);
    hide Step, Request, StrayDiscAck, BLIND_PREFIX;
    var e4, e5, e6 := Dispatch(Request(7, 2)), GuardFires(0), Dispatch(Request(7, 3));
    var m3 := Exec(m0, BLIND_PREFIX);
    RequestFacts(7, 2);
    RequestOpens(m3, Request(7, 2));
    ExecSnoc(m0, BLIND_PREFIX, e4);
    var m4 := Step(m3, e4).m;
    assert m4.heap[0] == m3.heap[0];
    GuardRemoves(m4, 0);
    ExecSnoc(m0, BLIND_PREFIX + [e4], e5);
    var m5 := Step(m4, e5).m;
    RequestFacts(7, 3);
    RequestOpens(m5, Request(7, 3));
    ExecSnoc(m0, BLIND_PREFIX + [e4] + [e5], e6);
    var m6 := Step(m5, e6).m;
    assert (0, 2) in m6.byLocal && (0, 3) in m6.byLocal;
    assert BLIND_PREFIX + [e4] + [e5] + [e6] == BLIND_PREFIX + [e4, e5, e6];
  }
}

/** The circuit manager as an object: circuits are objects it makes and updates in place,
    the tables hold references to them (positions in `circuits`).  Each method performs the
    step of the same name in ManagerSteps. */
module CircuitManager {
  import opened Prelude
  import opened Frames
  import opened Circuit
  import opened ManagerSteps

  class NetromCircuitManager {
    const localCall: string
    const infoMtu: Mtu
    const hasIdleTimeout: bool
    const link: LinkWriter
    var circuits: seq<NetromCircuit>
    var byLocalKey: map<Key, nat>
    var byRemoteKey: map<Key, nat>
    var usedLocalIdx: set<byte>
    var nextLocalId: byte
    var awaiting: set<nat>
    var idleArmed: bool
    var closed: bool

    constructor (localCall: string, infoMtu: Mtu, hasIdleTimeout: bool, link: LinkWriter)
      requires !link.closing
      ensures Valid() && View() == NewManager(localCall, infoMtu, hasIdleTimeout)
      ensures this.link == link && circuits == []
    {
      this.localCall, this.infoMtu, this.hasIdleTimeout := localCall, infoMtu, hasIdleTimeout;
      this.link := link;
      circuits := [];
      byLocalKey, byRemoteKey, usedLocalIdx, nextLocalId := map[], map[], {}, 0;
      awaiting, idleArmed, closed := {}, false, false;
      new;
      ArmIdleTimer();
    }

    /** Circuits are distinct objects on this crosslink; the tables refer to them. */
    ghost predicate Valid()
      reads this, circuits
    {
      && (forall i, j :: 0 <= i < j < |circuits| ==> circuits[i] != circuits[j])
      && (forall i :: 0 <= i < |circuits| ==> circuits[i].link == link)
      && (forall k :: k in byLocalKey ==> byLocalKey[k] < |circuits|)
      && (forall k :: k in byRemoteKey ==> byRemoteKey[k] < |circuits|)
    }

    ghost function Heap(): (h: seq<Core>)
      reads this, circuits
      ensures |h| == |circuits| && forall i :: 0 <= i < |h| ==> h[i] == circuits[i].View()
    {
      seq(|circuits|, i requires 0 <= i < |circuits| reads this, circuits => circuits[i].View())
    }

    ghost function View(): Mgr
      reads this, circuits, link
    {
      Mgr(localCall, infoMtu, hasIdleTimeout, Heap(), byLocalKey, byRemoteKey, usedLocalIdx, nextLocalId,
          awaiting, idleArmed, closed, link.closing)
    }

    // ---------- Allocation ----------

    /** The least free index, taken; None when all 256 are in use. */
    method AllocateLocalIdx() returns (r: Option<byte>)
      modifies this`usedLocalIdx
      ensures r == FirstFree(old(usedLocalIdx), 0)
      ensures usedLocalIdx == if r.Some? then old(usedLocalIdx) + {r.value} else old(usedLocalIdx)
    {
      for i := 0 to MAX_LOCAL_CIRCUITS
        invariant usedLocalIdx == old(usedLocalIdx)
        invariant FirstFree(usedLocalIdx, 0) == FirstFree(usedLocalIdx, i)
      {
        if i !in usedLocalIdx {
          usedLocalIdx := usedLocalIdx + {i};
          return Some(i);
        }
      }
      return None;
    }

    method AllocateLocalId() returns (id: byte)
      modifies this`nextLocalId
      ensures id == nextLocalId == (old(nextLocalId) + 1) % 256
    {
      nextLocalId := (nextLocalId + 1) % 256;
      return nextLocalId;
    }

    // ---------- Idle timer ----------

    method ArmIdleTimer()
      requires Valid()
      modifies this`idleArmed
      ensures Valid() && View() == ArmIdle(old(View()))
    {
      if closed || !hasIdleTimeout || byLocalKey != map[] || idleArmed {
        return;
      }
      idleArmed := true;
    }

    method ReapNowIfIdle()
      requires Valid()
      modifies this`idleArmed, link
      ensures Valid() && View() == OnReap(old(View())) && link.sent == old(link.sent)
    {
      if closed || byLocalKey != map[] {
        return;
      }
      idleArmed := false;
      if !link.closing {
        link.closing := true;
      }
    }

    method ReapIdle()
      requires Valid()
      modifies this`idleArmed, link
      ensures Valid() && View() == OnIdleFires(old(View())) && link.sent == old(link.sent)
    {
      idleArmed := false;
      if closed || byLocalKey != map[] {
        return;
      }
      if !link.closing {
        link.closing := true;
      }
    }

    // ---------- Circuits ----------

    /** A fresh circuit object on the allocated index idx, listed by its local key. */
    method NewCircuit(idx: byte, remote: Key, user: string, peer: string, state: CircuitState, window: Window)
      requires Valid() && idx in usedLocalIdx
      modifies this
      ensures Valid() && |circuits| == |old(circuits)| + 1 && circuits == old(circuits) + [circuits[|old(circuits)|]]
      ensures fresh(circuits[|old(circuits)|])
      ensures View() == Install(old(View()), idx, remote, user, peer, state, window)
    {
      var id := AllocateLocalId();
      idleArmed := false;
      var c := new NetromCircuit(idx, id, remote.0, remote.1, localCall, user, peer, state, window, infoMtu, link);
      circuits := circuits + [c];
      byLocalKey := byLocalKey[(idx, id) := |circuits| - 1];
      assert usedLocalIdx + {idx} == usedLocalIdx;
      assert Heap() == old(Heap()) + [c.View()];
    }

    method RemoveCircuit(c: nat)
      requires Valid() && c < |circuits|
      modifies this`byLocalKey, this`byRemoteKey, this`usedLocalIdx, this`idleArmed
      ensures Valid() && View() == Remove(old(View()), c)
    {
      byLocalKey := byLocalKey - {(circuits[c].localIdx, circuits[c].localId)};
      byRemoteKey := byRemoteKey - {(circuits[c].remoteIdx, circuits[c].remoteId)};
      usedLocalIdx := usedLocalIdx - {circuits[c].localIdx};
      if byLocalKey == map[] {
        ArmIdleTimer();
      }
    }

    // ---------- Dispatch ----------

    /** A DISC REQ or DISC ACK for circuit c, and the removal that follows either. */
    method DeliverDisconnect(c: nat, f: L3Frame)
      requires Valid() && c < |circuits| && f.Disconnect?
      modifies this, link, circuits[c]
      ensures Valid() && circuits == old(circuits)
      ensures View() == OnCircuitFrame(old(View()), c, f).m
      ensures link.sent == old(link.sent) + Pushed(old(link.closing), OnCircuitFrame(old(View()), c, f).out)
    {
      ghost var m := View();
      if f.header.Opcode() == OPCODE_DISCONNECT_REQ {
        circuits[c].HandleDisconnectRequest();
      } else {
        circuits[c].HandleDisconnectAck();
      }
      assert Heap() == m.heap[c := circuits[c].View()];
      hide SetClosed, DiscAckFrame, Remove;
      RemoveCircuit(c);
    }

    method DeliverToCircuit(c: nat, f: L3Frame)
      requires Valid() && c < |circuits| && !f.ConnectRequest?
      modifies this, link, circuits[c]
      ensures Valid() && circuits == old(circuits)
      ensures View() == OnCircuitFrame(old(View()), c, f).m
      ensures link.sent == old(link.sent) + Pushed(old(link.closing), OnCircuitFrame(old(View()), c, f).out)
    {
      if f.Disconnect? {
        DeliverDisconnect(c, f);
        return;
      }
      ghost var m := View();
      hide OnInformation, OnInformationAck, OnConnectAck, Remove;
      match f
      case Information(_, _) => circuits[c].HandleInformation(f);
      case InformationAck(_) => circuits[c].HandleInformationAck(f);
      case ConnectAck(_, _, _) => circuits[c].HandleConnectAck(f);
      assert Heap() == m.heap[c := circuits[c].View()];
    }

    method SendAck(c: nat)
      requires Valid() && c < |circuits|
      modifies link, circuits[c]
      ensures Valid()
      ensures var o := Apply(old(View()), c, OnSendConnectAck(old(View()).heap[c]));
        View() == o.m && link.sent == old(link.sent) + Pushed(old(link.closing), o.out)
    {
      ghost var m := View();
      hide OnSendConnectAck;
      circuits[c].SendConnectAck();
      assert Heap() == m.heap[c := circuits[c].View()];
    }

    /** Opens an inbound circuit on the allocated index and acknowledges it. */
    method OpenOn(idx: byte, f: L3Frame)
      requires Valid() && f.ConnectRequest? && idx in usedLocalIdx
      modifies this, link
      ensures Valid() && old(circuits) <= circuits
      ensures View() == Opened(old(View()), idx, f).m
      ensures link.sent == old(link.sent) + Pushed(old(link.closing), Opened(old(View()), idx, f).out)
    {
      hide Install, OnSendConnectAck, ClampWindow;
      var key := (f.header.circuitIdx, f.header.circuitId);
      NewCircuit(idx, key, f.userCall, f.originNodeCall, Connecting, ClampWindow(f.proposedWindow));
      var c := |circuits| - 1;
      byRemoteKey := byRemoteKey[key := c];
      SendAck(c);
    }

    method SendConnectRefusal(f: L3Frame)
      requires f.ConnectRequest?
      modifies link
      ensures link.closing == old(link.closing)
      ensures link.sent == old(link.sent) + Pushed(old(link.closing), [Refusal(localCall, f)])
    {
      if !link.closing {
        link.sent := link.sent + [Refusal(localCall, f)];
      }
    }

    /** _open_circuit(): allocate, make, list under both keys, acknowledge. */
    method OpenCircuit(f: L3Frame)
      requires Valid() && f.ConnectRequest?
      modifies this, link
      ensures Valid() && old(circuits) <= circuits
      ensures View() == OnOpen(old(View()), f).m
      ensures link.sent == old(link.sent) + Pushed(old(link.closing), OnOpen(old(View()), f).out)
    {
      ghost var m := View();
      hide FirstFree, Opened;
      idleArmed := false;
      var r := AllocateLocalIdx();
      if r.Some? {
        OpenedIgnores(m, View(), r.value, f);
        OpenOn(r.value, f);
      }
    }

    method HandleConnectRequest(f: L3Frame)
      requires Valid() && f.ConnectRequest?
      modifies this, link, circuits
      ensures Valid() && old(circuits) <= circuits
      ensures View() == OnConnectRequest(old(View()), f).m
      ensures link.sent == old(link.sent) + Pushed(old(link.closing), OnConnectRequest(old(View()), f).out)
    {
      hide OnSendConnectAck, OnOpen, Refusal, Apply;
      var key := (f.header.circuitIdx, f.header.circuitId);
      if key in byRemoteKey {
        SendAck(byRemoteKey[key]);
        return;
      }
      if |usedLocalIdx| >= MAX_LOCAL_CIRCUITS {
        SendConnectRefusal(f);
        return;
      }
      OpenCircuit(f);
    }

    /** Allocating first, or cancelling the timer first, makes no difference to opening. */
    lemma OpenedIgnores(m: Mgr, m1: Mgr, idx: byte, f: L3Frame)
      requires f.ConnectRequest? && m1 == m.(used := m.used + {idx}, idleArmed := false)
      ensures Opened(m1, idx, f) == Opened(m, idx, f)
    {
      assert m.used + {idx} + {idx} == m.used + {idx};
    }

    method Dispatch(f: L3Frame)
      requires Valid()
      modifies this, link, circuits
      ensures Valid() && old(circuits) <= circuits
      ensures View() == OnDispatch(old(View()), f).m
      ensures link.sent == old(link.sent) + Pushed(old(link.closing), OnDispatch(old(View()), f).out)
    {
      hide OnConnectRequest, OnCircuitFrame;
      var key := (f.header.circuitIdx, f.header.circuitId);
      if f.ConnectRequest? {
        HandleConnectRequest(f);
      } else if key in byLocalKey {
        DeliverToCircuit(byLocalKey[key], f);
      }
    }

    // ---------- Calls we place ----------

    /** The CONNECT REQ of a call placed on the allocated index. */
    method PlaceCall(idx: byte, dest: string, user: string, proposed: int)
      requires Valid() && idx in usedLocalIdx
      modifies this, link
      ensures Valid() && old(circuits) <= circuits
      ensures View() == Placed(old(View()), idx, dest, user, proposed).m
      ensures link.sent == old(link.sent) + Pushed(old(link.closing), Placed(old(View()), idx, dest, user, proposed).out)
    {
      hide Install, ClampWindow;
      NewCircuit(idx, (0, 0), user, dest, AwaitingConnect, ClampWindow(proposed));
      var c := |circuits| - 1;
      awaiting := awaiting + {c};
      circuits[c].SendL3(ConnectReqFrame(circuits[c].View(), circuits[c].acceptedWindow));
    }

    lemma PlacedIgnores(m: Mgr, m1: Mgr, idx: byte, dest: string, user: string, proposed: int)
      requires m1 == m.(used := m.used + {idx}, idleArmed := false)
      ensures Placed(m1, idx, dest, user, proposed) == Placed(m, idx, dest, user, proposed)
    {
      assert m.used + {idx} + {idx} == m.used + {idx};
    }

    /** originate_circuit() up to its wait; false when the table is full (it raises). */
    method Originate(dest: string, user: string, proposed: int) returns (ok: bool)
      requires Valid()
      modifies this, link
      ensures Valid() && old(circuits) <= circuits
      ensures View() == OnOriginate(old(View()), dest, user, proposed).m
      ensures ok <==> FirstFree(old(usedLocalIdx), 0).Some?
      ensures link.sent == old(link.sent) + Pushed(old(link.closing), OnOriginate(old(View()), dest, user, proposed).out)
    {
      ghost var m := View();
      hide FirstFree, Placed;
      idleArmed := false;
      var r := AllocateLocalIdx();
      if r.None? {
        return false;
      }
      PlacedIgnores(m, View(), r.value, dest, user, proposed);
      PlaceCall(r.value, dest, user, proposed);
      return true;
    }

    /** ... and from the wait on: an unanswered, refused or aborted call is removed. */
    method OriginateResumes(c: nat)
      requires Valid() && c < |circuits|
      modifies this
      ensures Valid() && circuits == old(circuits)
      ensures View() == OnOriginateResumes(old(View()), c)
    {
      awaiting := awaiting - {c};
      if circuits[c].state != Connected {
        RemoveCircuit(c);
      }
    }

    method GuardFires(c: nat)
      requires Valid() && c < |circuits|
      modifies this, circuits[c]
      ensures Valid() && circuits == old(circuits)
      ensures View() == OnGuardFires(old(View()), c)
    {
      ghost var m := View();
      hide Remove, OnGuard;
      var reaping := circuits[c].state == Disconnecting;
      circuits[c].ReapDisconnecting();
      assert Heap() == m.heap[c := circuits[c].View()];
      if reaping {
        RemoveCircuit(c);
      }
    }

    /** The end of a user's session starts the disconnect of a circuit still connected. */
    method SessionOver(c: nat)
      requires Valid() && c < |circuits|
      modifies link, circuits[c]
      ensures Valid()
      ensures var o := Apply(old(View()), c, SessionEffect(old(View()).heap[c], SessionEnds));
        View() == o.m && link.sent == old(link.sent) + Pushed(old(link.closing), o.out)
    {
      hide OnInitiateDisconnect;
      ghost var m := View();
      if circuits[c].state == Connected {
        circuits[c].InitiateDisconnect();
      }
      assert Heap() == m.heap[c := circuits[c].View()];
    }

    // ---------- Teardown ----------

    method CloseListed()
      requires Valid()
      modifies circuits
      ensures Valid() && Heap() == ClosedHeap(old(Heap()), byLocalKey.Values)
    {
      hide SetClosed, ClosedHeap;
      var todo := byLocalKey.Values;
      while todo != {}
        invariant todo <= byLocalKey.Values
        invariant forall i :: 0 <= i < |circuits| ==>
          circuits[i].View() == ClosedIf(i in byLocalKey.Values - todo, old(circuits[i].View()))
        decreases |todo|
      {
        var c :| c in todo;
        circuits[c].Close();
        todo := todo - {c};
      }
      HeapClosed(old(Heap()), byLocalKey.Values, Heap());
    }

    lemma HeapClosed(was: seq<Core>, listed: set<nat>, h: seq<Core>)
      requires |h| == |was| && forall i :: 0 <= i < |h| ==> h[i] == ClosedIf(i in listed, was[i])
      ensures h == ClosedHeap(was, listed)
    {
      hide ClosedIf;
    }

    method ShutDown()
      requires Valid()
      modifies this, circuits
      ensures Valid() && circuits == old(circuits)
      ensures View() == OnShutdown(old(View()))
    {
      hide ClosedHeap;
      closed, idleArmed := true, false;
      assert Heap() == old(Heap());
      CloseListed();
      ghost var h := Heap();
      byLocalKey, byRemoteKey, usedLocalIdx := map[], map[], {};
      assert Heap() == h;
    }
  }
}

/** The circuit manager of one crosslink: its tables, its index allocator, its idle
    timer, and the meaning of each of its atomic steps.

    A circuit reference is an index into `heap`, the list of every circuit the
    manager ever made; the two tables may or may not still refer to it. */
module ManagerSteps {
  import opened Prelude
  import opened Frames
  import opened Circuit

  const MAX_LOCAL_CIRCUITS := 256

  type Key = (byte, byte)

  datatype Mgr = Mgr(
    localCall: string, mtu: Mtu, hasIdleTimeout: bool,
    heap: seq<Core>,
    byLocal: map<Key, nat>,
    byRemote: map<Key, nat>,
    used: set<byte>,
    nextId: byte,
    awaiting: set<nat>,     // originate_circuit calls suspended on their circuit
    idleArmed: bool,
    closed: bool,
    linkClosing: bool)

  /** Steps taken on one circuit by its session, which leave the tables alone. */
  datatype SessionAct = SessionEnds | WriterCloses | Writes(data: seq<byte>) | Drains

  /** Steps that concern the crosslink as a whole. */
  datatype LinkAct =
    | IdleFires
    | ReapNow
    | LinkDrops          // the link writer starts closing by itself
    | Shutdown

  datatype Event =
    | Dispatch(frame: L3Frame)
    | Originate(dest: string, user: string, proposed: int)
    | OriginateResumes(c: nat)        // answered, refused, aborted or timed out
    | GuardFires(c: nat)
    | Session(c: nat, act: SessionAct)
    | Link(link: LinkAct)

  datatype Outcome = Outcome(m: Mgr, out: seq<L3Frame>)

  function LocalKey(c: Core): Key { (c.localIdx, c.localId) }

  function RemoteKey(c: Core): Key { (c.remoteIdx, c.remoteId) }

  /** Circuit c is listed under its local key. */
  predicate Listed(m: Mgr, c: nat)
  {
    c < |m.heap| && LocalKey(m.heap[c]) in m.byLocal && m.byLocal[LocalKey(m.heap[c])] == c
  }

  function NewManager(localCall: string, mtu: Mtu, hasIdleTimeout: bool): Mgr
  {
    Mgr(localCall, mtu, hasIdleTimeout, [], map[], map[], {}, 0, {}, hasIdleTimeout, false, false)
  }

  // ---------- Allocation ----------

  /** The first index from i upwards that is not in use. */
  function FirstFree(used: set<byte>, i: nat): (r: Option<byte>)
    ensures r.None? ==> forall j: byte :: i <= j ==> j in used
    ensures r.Some? ==> i <= r.value && r.value !in used && forall j: byte :: i <= j < r.value ==> j in used
    decreases MAX_LOCAL_CIRCUITS - i
  {
    if i >= MAX_LOCAL_CIRCUITS then None
    else if i !in used then Some(i)
    else FirstFree(used, i + 1)
  }

  // ---------- Idle timer ----------

  function ArmIdle(m: Mgr): Mgr
  {
    if m.closed || !m.hasIdleTimeout || m.byLocal != map[] || m.idleArmed then m
    else m.(idleArmed := true)
  }

  // ---------- Circuits ----------

  function Updated(m: Mgr, c: nat, core: Core): Mgr
    requires c < |m.heap|
  {
    m.(heap := m.heap[c := core])
  }

  function Apply(m: Mgr, c: nat, e: Effect): Outcome
    requires c < |m.heap|
  {
    Outcome(Updated(m, c, e.core), e.out)
  }

  function Remove(m: Mgr, c: nat): Mgr
    requires c < |m.heap|
  {
    ArmIdle(m.(byLocal := m.byLocal - {LocalKey(m.heap[c])},
               byRemote := m.byRemote - {RemoteKey(m.heap[c])},
               used := m.used - {m.heap[c].localIdx}))
  }

  /** A new circuit on the first free index, listed by its local key. */
  function Install(m: Mgr, idx: byte, remote: Key, user: string, peer: string,
                   state: CircuitState, window: Window): Mgr
  {
    var id := (m.nextId + 1) % 256;
    var core := NewCore(idx, id, remote.0, remote.1, m.localCall, user, peer, state, window, m.mtu);
    m.(heap := m.heap + [core],
       byLocal := m.byLocal[(idx, id) := |m.heap|],
       used := m.used + {idx},
       nextId := id,
       idleArmed := false)
  }

  /** An inbound circuit: opened, listed under both keys, acknowledged. */
  function Opened(m: Mgr, idx: byte, req: L3Frame): Outcome
    requires req.ConnectRequest?
  {
    var c, key := |m.heap|, (req.header.circuitIdx, req.header.circuitId);
    var m1 := Install(m, idx, key, req.userCall, req.originNodeCall, Connecting,
                      ClampWindow(req.proposedWindow));
    Apply(m1.(byRemote := m1.byRemote[key := c]), c, OnSendConnectAck(m1.heap[c]))
  }

  function OnOpen(m: Mgr, req: L3Frame): Outcome
    requires req.ConnectRequest?
  {
    match FirstFree(m.used, 0)
    case None => Outcome(m.(idleArmed := false), [])
    case Some(idx) => Opened(m, idx, req)
  }

  predicate TableFull(m: Mgr) { |m.used| >= MAX_LOCAL_CIRCUITS }

  function OnConnectRequest(m: Mgr, req: L3Frame): Outcome
    requires req.ConnectRequest?
    requires forall k :: k in m.byRemote ==> m.byRemote[k] < |m.heap|
  {
    var key := (req.header.circuitIdx, req.header.circuitId);
    if key in m.byRemote then
      Apply(m, m.byRemote[key], OnSendConnectAck(m.heap[m.byRemote[key]]))
    else if TableFull(m) then
      Outcome(m, [Refusal(m.localCall, req)])
    else OnOpen(m, req)
  }

  /** Everything but CONNECT REQ is demultiplexed by our own index and id. */
  function OnCircuitFrame(m: Mgr, c: nat, f: L3Frame): Outcome
    requires c < |m.heap| && !f.ConnectRequest?
  {
    match f
    case Information(_, _) => Apply(m, c, OnInformation(m.heap[c], f))
    case InformationAck(_) => Outcome(Updated(m, c, OnInformationAck(m.heap[c], f)), [])
    case ConnectAck(_, _, _) => Outcome(Updated(m, c, OnConnectAck(m.heap[c], f)), [])
    case Disconnect(_) =>
      if f.header.Opcode() == OPCODE_DISCONNECT_REQ then
        var e := OnDisconnectRequest(m.heap[c]);
        Outcome(Remove(Updated(m, c, e.core), c), e.out)
      else
        Outcome(Remove(Updated(m, c, OnDisconnectAck(m.heap[c])), c), [])
  }

  /** An outbound circuit: listed by its local key only, until the peer's is known. */
  function Placed(m: Mgr, idx: byte, dest: string, user: string, proposed: int): Outcome
  {
    var c := |m.heap|;
    var m1 := Install(m, idx, (0, 0), user, dest, AwaitingConnect, ClampWindow(proposed));
    Outcome(m1.(awaiting := m1.awaiting + {c}), [ConnectReqFrame(m1.heap[c], m1.heap[c].window)])
  }

  function OnOriginate(m: Mgr, dest: string, user: string, proposed: int): Outcome
  {
    match FirstFree(m.used, 0)
    case None => Outcome(m.(idleArmed := false), [])       // raises: table full
    case Some(idx) => Placed(m, idx, dest, user, proposed)
  }

  function OnOriginateResumes(m: Mgr, c: nat): Mgr
    requires c < |m.heap|
  {
    var m1 := m.(awaiting := m.awaiting - {c});
    if m.heap[c].state == Connected then m1 else Remove(m1, c)
  }

  function OnGuardFires(m: Mgr, c: nat): Mgr
    requires c < |m.heap|
  {
    var m1 := Updated(m, c, OnGuard(m.heap[c]));
    if m.heap[c].state == Disconnecting then Remove(m1, c) else m1
  }

  function OnReap(m: Mgr): Mgr
  {
    if m.closed || m.byLocal != map[] then m else m.(idleArmed := false, linkClosing := true)
  }

  function OnIdleFires(m: Mgr): Mgr { OnReap(m.(idleArmed := false)) }

  function ClosedIf(listed: bool, c: Core): Core { if listed then SetClosed(c) else c }

  function ClosedHeap(heap: seq<Core>, listed: set<nat>): (h: seq<Core>)
    ensures |h| == |heap|
  {
    seq(|heap|, i requires 0 <= i < |heap| => ClosedIf(i in listed, heap[i]))
  }

  function OnShutdown(m: Mgr): Mgr
  {
    m.(heap := ClosedHeap(m.heap, m.byLocal.Values),
       byLocal := map[], byRemote := map[], used := {}, idleArmed := false, closed := true)
  }

  /** Both tables refer to circuits that exist. */
  predicate Rooted(m: Mgr)
  {
    && (forall k :: k in m.byLocal ==> m.byLocal[k] < |m.heap|)
    && (forall k :: k in m.byRemote ==> m.byRemote[k] < |m.heap|)
  }

  predicate Enabled(m: Mgr, e: Event)
  {
    match e
    case Dispatch(_) => true
    case Originate(_, _, _) => true
    case OriginateResumes(c) => c < |m.heap| && c in m.awaiting
    case GuardFires(c) => c < |m.heap| && m.heap[c].guardArmed
    case Session(c, act) => c < |m.heap| && (act.Drains? ==> CanDrain(m.heap[c]))
    case Link(act) => act.IdleFires? ==> m.idleArmed
  }

  function OnDispatch(m: Mgr, f: L3Frame): Outcome
    requires Rooted(m)
  {
    var key := (f.header.circuitIdx, f.header.circuitId);
    if f.ConnectRequest? then OnConnectRequest(m, f)
    else if key !in m.byLocal then Outcome(m, [])
    else OnCircuitFrame(m, m.byLocal[key], f)
  }

  function SessionEffect(c: Core, act: SessionAct): Effect
  {
    match act
    case SessionEnds => if c.state == Connected then OnInitiateDisconnect(c) else Effect(c, [])
    case WriterCloses => OnWriterClose(c)
    case Writes(data) => Effect(OnWrite(c, data), [])
    case Drains => OnDrain(c)
  }

  function OnLink(m: Mgr, act: LinkAct): Mgr
  {
    match act
    case IdleFires => OnIdleFires(m)
    case ReapNow => OnReap(m)
    case LinkDrops => m.(linkClosing := true)
    case Shutdown => OnShutdown(m)
  }

  function Step(m: Mgr, e: Event): Outcome
    requires Rooted(m)
  {
    if !Enabled(m, e) then Outcome(m, [])
    else match e
      case Dispatch(f) => OnDispatch(m, f)
      case Originate(dest, user, proposed) => OnOriginate(m, dest, user, proposed)
      case OriginateResumes(c) => Outcome(OnOriginateResumes(m, c), [])
      case GuardFires(c) => Outcome(OnGuardFires(m, c), [])
      case Session(c, act) => Apply(m, c, SessionEffect(m.heap[c], act))
      case Link(act) => Outcome(OnLink(m, act), [])
  }

  // ---------- The tables stay rooted ----------

  lemma RemoveRooted(m: Mgr, c: nat)
    requires Rooted(m) && c < |m.heap|
    ensures Rooted(Remove(m, c)) && Remove(m, c).heap == m.heap
  {
  }

  lemma OpenedRooted(m: Mgr, idx: byte, f: L3Frame)
    requires Rooted(m) && f.ConnectRequest?
    ensures Rooted(Opened(m, idx, f).m) && |m.heap| <= |Opened(m, idx, f).m.heap|
  {
    hide OnSendConnectAck, NewCore, ClampWindow;
  }

  lemma RequestRooted(m: Mgr, f: L3Frame)
    requires Rooted(m) && f.ConnectRequest?
    ensures Rooted(OnConnectRequest(m, f).m) && |m.heap| <= |OnConnectRequest(m, f).m.heap|
  {
    hide OnSendConnectAck, FirstFree, NewCore, ClampWindow, Refusal, Opened;
    match FirstFree(m.used, 0)
    case None =>
    case Some(idx) => OpenedRooted(m, idx, f);
  }

  lemma FrameRooted(m: Mgr, c: nat, f: L3Frame)
    requires Rooted(m) && c < |m.heap| && !f.ConnectRequest?
    ensures Rooted(OnCircuitFrame(m, c, f).m) && |m.heap| <= |OnCircuitFrame(m, c, f).m.heap|
  {
    hide OnInformation, OnInformationAck, OnConnectAck, OnDisconnectRequest, OnDisconnectAck, Remove;
    if f.Disconnect? {
      RemoveRooted(Updated(m, c, OnDisconnectRequest(m.heap[c]).core), c);
      RemoveRooted(Updated(m, c, OnDisconnectAck(m.heap[c])), c);
    }
  }

  lemma LinkRooted(m: Mgr, act: LinkAct)
    requires Rooted(m)
    ensures Rooted(OnLink(m, act)) && |m.heap| == |OnLink(m, act).heap|
  {
  }

  lemma StepRooted(m: Mgr, e: Event)
    requires Rooted(m)
    ensures Rooted(Step(m, e).m)
    ensures |m.heap| <= |Step(m, e).m.heap|
  {
    if Enabled(m, e) {
      match e
      case Dispatch(f) =>
        var key := (f.header.circuitIdx, f.header.circuitId);
        if f.ConnectRequest? {
          RequestRooted(m, f);
        } else if key in m.byLocal {
          FrameRooted(m, m.byLocal[key], f);
        }
        hide OnConnectRequest, OnCircuitFrame;
      case Originate(_, _, _) =>
        hide FirstFree, NewCore, ClampWindow;
      case OriginateResumes(c) =>
        RemoveRooted(m.(awaiting := m.awaiting - {c}), c);
        hide Remove;
      case GuardFires(c) =>
        RemoveRooted(Updated(m, c, OnGuard(m.heap[c])), c);
        hide Remove, OnGuard;
      case Session(_, _) =>
        hide SessionEffect;
      case Link(act) =>
        LinkRooted(m, act);
        hide OnLink;
    }
  }

  /** A run: the events folded over a state. */
  function Exec(m: Mgr, es: seq<Event>): (r: Mgr)
    requires Rooted(m)
    ensures Rooted(r) && |m.heap| <= |r.heap|
    decreases |es|
  {
    if es == [] then m
    else
      StepRooted(m, es[0]);
      Exec(Step(m, es[0]).m, es[1..])
  }

  /** Everything sent during a run, in order. */
  function Sent(m: Mgr, es: seq<Event>): seq<L3Frame>
    requires Rooted(m)
    decreases |es|
  {
    if es == [] then []
    else
      StepRooted(m, es[0]);
      Step(m, es[0]).out + Sent(Step(m, es[0]).m, es[1..])
  }
}

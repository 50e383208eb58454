/** Two circuit endpoints joined by a pair of reliable FIFO links: from the
    originator's CONNECT REQ, through two-way data, to teardown.  Every
    interleaving of their atomic steps is a run of `Exec`.

    Links carry frames tagged with the sender's TRUE count of accepted INFO
    frames; no step reads the tag, it only lets the invariant speak about
    unwrapped sequence numbers. */
module CircuitPair {
  import opened Prelude
  import opened Frames
  import opened Circuit
  import opened Reassembly

  datatype Wire = Wire(frame: L3Frame, accepted: nat)

  /** One endpoint.  `core` is the circuit; the rest records history (fragments
      transmitted, INFO frames accepted, highest true acknowledgement, bytes
      accepted by write(), whether each write fitted the ceiling) and whether
      the manager has opened (`born`) and still lists (`live`) the circuit. */
  datatype Node = Node(
    core: Core, originator: bool, born: bool, live: bool,
    log: seq<Fragment>, got: nat, acked: nat, wrote: seq<byte>, modest: bool)

  datatype System = System(a: Node, b: Node, ab: seq<Wire>, ba: seq<Wire>)

  datatype Act =
    | Write(data: seq<byte>)
    | Drain
    | Receive(slot: Option<(byte, byte)>)  // the index/id a manager would allocate; None: table full
    | CloseWriter
    | SessionEnds
    | GuardFires
    | OriginateReturns                     // originate_circuit resumes: timeout, refusal or abort

  datatype Event = ByA(act: Act) | ByB(act: Act)

  function Swap(s: System): System { System(s.b, s.a, s.ba, s.ab) }

  function Tag(out: seq<L3Frame>, accepted: nat): seq<Wire>
  {
    seq(|out|, i requires 0 <= i < |out| => Wire(out[i], accepted))
  }

  predicate IsDiscReq(f: L3Frame) { f.Disconnect? && f.header.Opcode() == OPCODE_DISCONNECT_REQ }

  /** Node a moves to `core` and emits `out`. */
  function Put(s: System, core: Core, out: seq<L3Frame>): System
  {
    s.(a := s.a.(core := core), ab := s.ab + Tag(out, s.a.got))
  }

  function WriteA(s: System, data: seq<byte>): System
  {
    var core := OnWrite(s.a.core, data);
    if core == s.a.core then s
    else s.(a := s.a.(core := core, wrote := s.a.wrote + data,
                      modest := s.a.modest && |data| <= MAX_REASSEMBLY_BYTES))
  }

  /** The session closes its writer, or is over. */
  function OnEnding(c: Core, act: Act): Effect
  {
    match act
    case CloseWriter => OnWriterClose(c)
    case _ => if c.state == Connected then OnInitiateDisconnect(c) else Effect(c, [])
  }

  function CloseA(s: System, act: Act): System
  {
    var e := OnEnding(s.a.core, act);
    Put(s, e.core, e.out)
  }

  function GuardA(s: System): System
  {
    s.(a := s.a.(core := OnGuard(s.a.core), live := s.a.live && s.a.core.state != Disconnecting))
  }

  function DrainA(s: System): System
  {
    var e := OnDrain(s.a.core);
    var sent := if e.out == [] then [] else [s.a.core.pending[0]];
    Put(s.(a := s.a.(log := s.a.log + sent)), e.core, e.out)
  }

  function OpenedCore(c: Core, req: L3Frame, idx: byte, id: byte): Core
    requires req.ConnectRequest?
  {
    NewCore(idx, id, req.header.circuitIdx, req.header.circuitId, c.localCall, req.userCall,
            req.originNodeCall, Connecting, ClampWindow(req.proposedWindow), c.mtu)
  }

  function AcceptRequest(s: System, req: L3Frame, slot: Option<(byte, byte)>): System
    requires req.ConnectRequest?
  {
    if s.a.born then s
    else match slot
      case None => Put(s, s.a.core, [Refusal(s.a.core.localCall, req)])
      case Some((idx, id)) =>
        var e := OnSendConnectAck(OpenedCore(s.a.core, req, idx, id));
        Put(s.(a := s.a.(born := true, live := true)), e.core, e.out)
  }

  function TakeInfo(s: System, w: Wire): System
    requires w.frame.Information?
  {
    var a := s.a;
    var e := OnInformation(a.core, w.frame);
    var take := w.frame.header.txSeq == a.core.vr && e.out != [];
    Put(s.(a := a.(got := if take then a.got + 1 else a.got,
                   acked := if e.out != [] then w.accepted else a.acked)), e.core, e.out)
  }

  function TakeInfoAck(s: System, w: Wire): System
  {
    s.(a := s.a.(core := OnInformationAck(s.a.core, w.frame), acked := w.accepted))
  }

  function TakeConnectAck(s: System, w: Wire): System
    requires w.frame.ConnectAck?
  {
    s.(a := s.a.(core := OnConnectAck(s.a.core, w.frame)))
  }

  function TakeDiscReq(s: System): System
  {
    var e := OnDisconnectRequest(s.a.core);
    Put(s.(a := s.a.(live := false)), e.core, e.out)
  }

  function TakeDiscAck(s: System): System
  {
    s.(a := s.a.(live := false, core := OnDisconnectAck(s.a.core)))
  }

  predicate Mine(n: Node, f: L3Frame)
  {
    n.live && (f.header.circuitIdx, f.header.circuitId) == (n.core.localIdx, n.core.localId)
  }

  /** Node a's manager dispatches the head of the incoming link. */
  function ReceiveA(s0: System, slot: Option<(byte, byte)>): System
    requires s0.ba != []
  {
    var w := s0.ba[0];
    var s := s0.(ba := s0.ba[1..]);
    if w.frame.ConnectRequest? then AcceptRequest(s, w.frame, slot)
    else if !Mine(s.a, w.frame) then s
    else match w.frame
      case Information(_, _) => TakeInfo(s, w)
      case InformationAck(_) => TakeInfoAck(s, w)
      case ConnectAck(_, _, _) => TakeConnectAck(s, w)
      case Disconnect(_) => if IsDiscReq(w.frame) then TakeDiscReq(s) else TakeDiscAck(s)
  }

  /** Is the act one that node a can perform now? */
  predicate Enabled(s: System, act: Act)
  {
    match act
    case Write(data) => s.a.born
    case Drain => s.a.born && CanDrain(s.a.core)
    case Receive(_) => s.ba != []
    case CloseWriter => s.a.born && s.a.core.state != AwaitingConnect
    case SessionEnds => s.a.born && s.a.core.state != AwaitingConnect
    case GuardFires => s.a.core.guardArmed
    case OriginateReturns => s.a.originator && s.a.live && s.a.core.state in {AwaitingConnect, Closed}
  }

  function StepA(s: System, act: Act): System
  {
    if !Enabled(s, act) then s
    else match act
      case Write(data) => WriteA(s, data)
      case Drain => DrainA(s)
      case Receive(slot) => ReceiveA(s, slot)
      case CloseWriter => CloseA(s, act)
      case SessionEnds => CloseA(s, act)
      case GuardFires => GuardA(s)
      case OriginateReturns => s.(a := s.a.(live := false))
  }

  function Step(s: System, e: Event): System
  {
    match e
    case ByA(act) => StepA(s, act)
    case ByB(act) => Swap(StepA(Swap(s), act))
  }

  /** What a run starts from: the originator's circuit key, its calls, the call of the node that
      answers, the window it proposes and both ends' fragment sizes. */
  datatype Setup = Setup(idx: byte, id: byte, call: string, user: string, dest: string, far: string,
                         proposed: int, mtuA: Mtu, mtuB: Mtu)

  /** The originator has just sent its CONNECT REQ; the responder knows nothing. */
  function Start(u: Setup): System
  {
    var a := NewCore(u.idx, u.id, 0, 0, u.call, u.user, u.dest, AwaitingConnect, ClampWindow(u.proposed), u.mtuA);
    var b := NewCore(0, 0, 0, 0, u.far, "", "", Connecting, 1, u.mtuB);
    System(Node(a, true, true, true, [], 0, 0, [], true),
           Node(b, false, false, false, [], 0, 0, [], true),
           [Wire(ConnectReqFrame(a, a.window), 0)], [])
  }

  // ---------- The invariant ----------

  /** `ws` carries, in order, exactly the fragments log[k..], each with its
      sequence number modulo 256. */
  ghost predicate Carries(ws: seq<Wire>, log: seq<Fragment>, k: nat)
  {
    if ws == [] then k == |log|
    else if ws[0].frame.Information? then
      && k < |log|
      && FragmentOf(ws[0].frame) == log[k]
      && ws[0].frame.header.txSeq == k % 256
      && Carries(ws[1..], log, k + 1)
    else Carries(ws[1..], log, k)
  }

  predicate IsAck(f: L3Frame) { f.Information? || f.InformationAck? }

  /** The true acknowledgements in `ws` climb from `lo` to `hi`. */
  ghost predicate Acks(ws: seq<Wire>, lo: nat, hi: nat)
  {
    if ws == [] then lo == hi
    else if IsAck(ws[0].frame) then
      && lo <= ws[0].accepted
      && ws[0].frame.header.rxSeq == ws[0].accepted % 256
      && Acks(ws[1..], ws[0].accepted, hi)
    else Acks(ws[1..], lo, hi)
  }

  function Queue(n: Node): seq<Fragment> { n.log + n.core.pending }

  function InFlight(n: Node): int { |n.log| - n.acked }

  predicate Speaking(n: Node) { n.core.state in {Connecting, AwaitingConnect, Connected} }

  /** Data from x to y. */
  ghost predicate Flow(x: Node, y: Node, xy: seq<Wire>, yx: seq<Wire>)
  {
    && x.core.vs == |x.log| % 256
    && x.core.va == x.acked % 256
    && y.core.vr == y.got % 256
    && x.acked <= y.got <= |x.log| <= x.acked + x.core.window
    && (y.live ==> Carries(xy, x.log, y.got))
    && (x.live ==> Acks(yx, x.acked, y.got))
    && y.core.inbox == Reassemble(x.log[..y.got])
  }

  /** x's send queue against what was written, and its drain() against the window. */
  ghost predicate Sender(x: Node)
  {
    && Bytes(Queue(x)) <= x.wrote
    && (x.modest ==> RunsFit(Queue(x)))
    && (Speaking(x) ==> Bytes(Queue(x)) == x.wrote && OpenRun(Queue(x)) == 0
                        && (RunsFit(Queue(x)) ==> x.modest))
    && (x.core.state in {Connecting, AwaitingConnect} ==> x.core.pending == [])
    && (x.core.drain.AtWindow? ==> x.core.pending != [])
    && (x.core.drain.AtWindow? && !x.core.windowEvent ==> InFlight(x) >= x.core.window)
    && (x.core.drain.AtWindow? && x.core.windowEvent && Speaking(x) ==> InFlight(x) < x.core.window)
  }

  predicate Fresh(n: Node)
  {
    && n.log == [] && n.got == 0 && n.acked == 0 && n.wrote == [] && n.modest
    && n.core.pending == [] && n.core.drain == Idle && n.core.inbox == Inbox([], [])
    && !n.core.guardArmed
  }

  ghost predicate Quiet(ws: seq<Wire>)
  {
    forall i :: 0 <= i < |ws| ==> !ws[i].frame.ConnectRequest? && !ws[i].frame.ConnectAck?
  }

  ghost predicate Addressed(ws: seq<Wire>, c: Core)
  {
    forall i :: 0 <= i < |ws| ==>
      (ws[i].frame.header.circuitIdx, ws[i].frame.header.circuitId) == (c.localIdx, c.localId)
  }

  predicate Accepts(f: L3Frame, r: Core)
  {
    && f.ConnectAck? && !f.refused
    && f.header.txSeq == r.localIdx && f.header.rxSeq == r.localId
    && f.acceptedWindow == r.window
  }

  /** The connection as seen by the originator o and the responder r. */
  ghost predicate Handshake(o: Node, r: Node, toR: seq<Wire>, toO: seq<Wire>)
  {
    && o.born && o.originator && !r.originator
    && o.core.state != Connecting
    && Addressed(toO, o.core)
    && (forall i :: 0 <= i < |toO| ==> !toO[i].frame.ConnectRequest?)
    && (o.core.state == AwaitingConnect ==> Fresh(o))
    && if !r.born then
         && !r.live && Fresh(r) && Fresh(o) && r.core.state == Connecting
         && o.core.state in {AwaitingConnect, Closed}
         && ((toO == [] && |toR| == 1 && o.core.state == AwaitingConnect
              && toR[0].frame == ConnectReqFrame(o.core, o.core.window))
             || (toR == [] && |toO| == 1 && toO[0].frame.ConnectAck? && toO[0].frame.refused)
             || (toR == [] && toO == [] && (o.core.state == AwaitingConnect ==> !o.live)))
       else
         && r.core.state !in {Connecting, AwaitingConnect}
         && (r.core.remoteIdx, r.core.remoteId) == (o.core.localIdx, o.core.localId)
         && r.core.window == o.core.window
         && Quiet(toR) && Addressed(toR, r.core)
         && if o.core.state == AwaitingConnect then
              && toR == []
              && (o.live ==> toO != [] && Accepts(toO[0].frame, r.core) && Quiet(toO[1..]))
            else
              && (o.core.remoteIdx, o.core.remoteId) == (r.core.localIdx, r.core.localId)
              && (o.live ==> Quiet(toO))
  }

  ghost predicate HasReq(ws: seq<Wire>) { exists i :: 0 <= i < |ws| && IsDiscReq(ws[i].frame) }

  predicate IsDiscAck(f: L3Frame) { f.Disconnect? && !IsDiscReq(f) }

  ghost predicate HasDiscAck(ws: seq<Wire>) { exists i :: 0 <= i < |ws| && IsDiscAck(ws[i].frame) }

  predicate Leaving(n: Node) { n.core.state in {Disconnecting, Closed} }

  /** x's end of the teardown: what its DISC frames in transit say about both ends. */
  ghost predicate Teardown(x: Node, y: Node, xy: seq<Wire>, yx: seq<Wire>)
  {
    && (x.live ==> x.born)
    && (x.core.eof <==> x.core.state == Closed)
    && (x.live && y.born ==> x.core.state != Closed)
    && (x.born && !x.live ==> x.core.state in {Closed, AwaitingConnect})
    && (x.core.guardArmed ==> x.core.state == Disconnecting)
    && (HasReq(xy) ==> Leaving(x))
    && (HasDiscAck(xy) ==> x.core.state == Closed && Leaving(y))
    && (x.core.state == Disconnecting && y.live ==> HasReq(xy))
    && (x.core.state == Closed && y.born && y.live ==> HasReq(xy) || HasDiscAck(xy))
  }

  ghost predicate Flows(s: System) { Flow(s.a, s.b, s.ab, s.ba) && Flow(s.b, s.a, s.ba, s.ab) }

  ghost predicate Senders(s: System) { Sender(s.a) && Sender(s.b) }

  ghost predicate Teardowns(s: System)
  {
    Teardown(s.a, s.b, s.ab, s.ba) && Teardown(s.b, s.a, s.ba, s.ab)
  }

  ghost predicate Shaken(s: System)
  {
    if s.a.originator then Handshake(s.a, s.b, s.ab, s.ba) else Handshake(s.b, s.a, s.ba, s.ab)
  }

  ghost predicate Inv(s: System) { Flows(s) && Senders(s) && Teardowns(s) && Shaken(s) }

  lemma InvSwap(s: System)
    requires Inv(s)
    ensures Inv(Swap(s))
  {
  }

  // ---------- Links grow at the tail and shrink at the head ----------

  lemma {:induction false} CarriesSnoc(ws: seq<Wire>, log: seq<Fragment>, k: nat, w: Wire)
    requires Carries(ws, log, k)
    ensures !w.frame.Information? ==> Carries(ws + [w], log, k)
    ensures w.frame.Information? && w.frame.header.txSeq == |log| % 256
        ==> Carries(ws + [w], log + [FragmentOf(w.frame)], k)
  {
    if ws == [] {
      assert ws + [w] == [w];
      assert [w][1..] == [];
    } else {
      assert (ws + [w])[1..] == ws[1..] + [w];
      CarriesSnoc(ws[1..], log, if ws[0].frame.Information? then k + 1 else k, w);
    }
  }

  lemma CarriesHead(ws: seq<Wire>, log: seq<Fragment>, k: nat)
    requires Carries(ws, log, k) && ws != [] && ws[0].frame.Information?
    ensures k < |log| && FragmentOf(ws[0].frame) == log[k] && ws[0].frame.header.txSeq == k % 256
    ensures Carries(ws[1..], log, k + 1)
  {
  }

  lemma {:induction false} AcksSnoc(ws: seq<Wire>, lo: nat, hi: nat, hi': nat, w: Wire)
    requires Acks(ws, lo, hi) && hi <= hi'
    requires if IsAck(w.frame) then w.accepted == hi' && w.frame.header.rxSeq == hi' % 256 else hi == hi'
    ensures Acks(ws + [w], lo, hi')
  {
    if ws == [] {
      assert ws + [w] == [w];
      assert [w][1..] == [];
    } else {
      assert (ws + [w])[1..] == ws[1..] + [w];
      AcksSnoc(ws[1..], if IsAck(ws[0].frame) then ws[0].accepted else lo, hi, hi', w);
    }
  }

  lemma {:induction false} AcksOrdered(ws: seq<Wire>, lo: nat, hi: nat)
    requires Acks(ws, lo, hi)
    ensures lo <= hi
  {
    if ws != [] {
      AcksOrdered(ws[1..], if IsAck(ws[0].frame) then ws[0].accepted else lo, hi);
    }
  }

  lemma HasSnoc(ws: seq<Wire>, w: Wire)
    ensures HasReq(ws + [w]) <==> HasReq(ws) || IsDiscReq(w.frame)
    ensures HasDiscAck(ws + [w]) <==> HasDiscAck(ws) || IsDiscAck(w.frame)
  {
    assert (ws + [w])[|ws|] == w;
    assert forall i :: 0 <= i < |ws| ==> (ws + [w])[i] == ws[i];
  }

  lemma HasHead(ws: seq<Wire>)
    requires ws != []
    ensures HasReq(ws) <==> IsDiscReq(ws[0].frame) || HasReq(ws[1..])
    ensures HasDiscAck(ws) <==> IsDiscAck(ws[0].frame) || HasDiscAck(ws[1..])
  {
    assert forall i :: 1 <= i < |ws| ==> ws[1..][i - 1] == ws[i];
  }

  // ---------- Each act keeps the invariant ----------

  lemma WriteKeeps(s: System, data: seq<byte>)
    requires Inv(s) && s.a.born
    ensures Inv(WriteA(s, data))
  {
    var x := s.a;
    var t := WriteA(s, data);
    if t != s {
      FragmentsKeepBytes(Queue(x), data, x.core.mtu);
      MessageFitsIff(Queue(x), data, x.core.mtu);
      assert Queue(t.a) == Queue(x) + Fragments(data, x.core.mtu);
    }
  }

  lemma GuardKeeps(s: System)
    requires Inv(s) && s.a.core.guardArmed
    ensures Inv(GuardA(s))
  {
  }

  lemma ReturnKeeps(s: System)
    requires Inv(s) && Enabled(s, OriginateReturns)
    ensures Inv(s.(a := s.a.(live := false)))
  {
  }

  lemma TagOne(f: L3Frame, n: nat)
    ensures Tag([f], n) == [Wire(f, n)]
  {
  }

  /** Appending a frame that carries no data leaves both data flows intact. */
  lemma FlowsSnoc(s: System, w: Wire)
    requires Flow(s.a, s.b, s.ab, s.ba) && Flow(s.b, s.a, s.ba, s.ab)
    requires !w.frame.Information?
    requires IsAck(w.frame) ==> w.accepted == s.a.got && w.frame.header.rxSeq == s.a.got % 256
    ensures Flow(s.a, s.b, s.ab + [w], s.ba) && Flow(s.b, s.a, s.ba, s.ab + [w])
  {
    if s.b.live {
      CarriesSnoc(s.ab, s.a.log, s.b.got, w);
    }
    if s.b.live {
      AcksSnoc(s.ab, s.b.acked, s.a.got, s.a.got, w);
    }
  }

  /** A change of `core` outside the sequence state and the inbox is invisible to the flows. */
  lemma FlowsFrame(s: System, core: Core)
    requires Flows(s)
    requires (core.vs, core.vr, core.va, core.window, core.inbox)
          == (s.a.core.vs, s.a.core.vr, s.a.core.va, s.a.core.window, s.a.core.inbox)
    ensures Flows(s.(a := s.a.(core := core)))
  {
  }

  lemma TeardownsFrame(s: System, core: Core)
    requires Teardowns(s)
    requires (core.state, core.eof, core.guardArmed)
          == (s.a.core.state, s.a.core.eof, s.a.core.guardArmed)
    ensures Teardowns(s.(a := s.a.(core := core)))
  {
  }

  predicate SameIdentity(c: Core, d: Core)
  {
    (c.localIdx, c.localId, c.remoteIdx, c.remoteId, c.window)
    == (d.localIdx, d.localId, d.remoteIdx, d.remoteId, d.window)
  }

  predicate Settled(c: Core) { c.state !in {AwaitingConnect, Connecting} }

  lemma ShakenFrame(s: System, core: Core)
    requires Shaken(s) && s.b.born && Settled(s.a.core) && Settled(core)
    requires SameIdentity(core, s.a.core)
    ensures Shaken(s.(a := s.a.(core := core)))
  {
  }

  /** Once both ends exist, a frame other than CONNECT REQ/ACK changes no agreement. */
  lemma ShakenSnoc(s: System, w: Wire)
    requires Shaken(s) && s.a.born && s.b.born && Settled(s.a.core)
    requires !w.frame.ConnectRequest? && !w.frame.ConnectAck?
    requires (w.frame.header.circuitIdx, w.frame.header.circuitId) == (s.a.core.remoteIdx, s.a.core.remoteId)
    ensures Shaken(s.(ab := s.ab + [w]))
  {
  }

  lemma TeardownsSnoc(s: System, w: Wire)
    requires Teardowns(s)
    requires IsDiscReq(w.frame) ==> Leaving(s.a)
    requires IsDiscAck(w.frame) ==> s.a.core.state == Closed && Leaving(s.b)
    ensures Teardowns(s.(ab := s.ab + [w]))
  {
    HasSnoc(s.ab, w);
  }

  /** An end that can still send has a live circuit and, once settled, a peer. */
  lemma Partners(s: System)
    requires Inv(s) && s.a.born
    ensures !Leaving(s.a) && Settled(s.a.core) ==> s.a.live
    ensures s.a.core.state != Connecting
    ensures Settled(s.a.core) && s.a.core.state != Closed ==> s.b.born
  {
  }

  lemma EndingParts(c: Core, act: Act)
    ensures var e := OnEnding(c, act);
      && e.core == c.(state := e.core.state, guardArmed := e.core.guardArmed, writerClosing := e.core.writerClosing)
      && (e.out == [] ==> e.core.state == c.state && e.core.guardArmed == c.guardArmed)
      && (e.out != [] ==> e.out == [DiscReqFrame(c)] && e.core.state == Disconnecting && c.state !in {Disconnecting, Closed})
  {
    assert DiscReqFrame(c.(writerClosing := true)) == DiscReqFrame(c);
  }

  lemma CloseParts(s: System, act: Act)
    ensures var e := OnEnding(s.a.core, act); var s1 := s.(a := s.a.(core := e.core));
      && e.core == s.a.core.(state := e.core.state, guardArmed := e.core.guardArmed, writerClosing := e.core.writerClosing)
      && (e.out == [] ==> CloseA(s, act) == s1 && e.core.state == s.a.core.state
                          && e.core.guardArmed == s.a.core.guardArmed)
      && (e.out != [] ==> CloseA(s, act) == s1.(ab := s.ab + [Wire(DiscReqFrame(s.a.core), s.a.got)])
                          && e.core.state == Disconnecting && !Leaving(s.a))
  {
    hide OnEnding, DiscReqFrame;
    EndingParts(s.a.core, act);
    TagOne(DiscReqFrame(s.a.core), s.a.got);
    assert s.ab + Tag([], s.a.got) == s.ab;
  }

  lemma CloseFlows(s: System, act: Act)
    requires Flows(s)
    ensures Flows(CloseA(s, act))
  {
    CloseParts(s, act);
    var e := OnEnding(s.a.core, act);
    FlowsFrame(s, e.core);
    if e.out != [] {
      FlowsSnoc(s.(a := s.a.(core := e.core)), Wire(DiscReqFrame(s.a.core), s.a.got));
    }
  }

  lemma CloseTeardowns(s: System, act: Act)
    requires Teardowns(s) && (!Leaving(s.a) ==> s.a.live)
    ensures Teardowns(CloseA(s, act))
  {
    CloseParts(s, act);
    HasSnoc(s.ab, Wire(DiscReqFrame(s.a.core), s.a.got));
  }

  lemma CloseShaken(s: System, act: Act)
    requires Shaken(s) && s.a.born && Settled(s.a.core)
    requires s.a.core.state != Closed ==> s.b.born
    ensures Shaken(CloseA(s, act))
  {
    CloseParts(s, act);
    var e := OnEnding(s.a.core, act);
    if e.out != [] {
      ShakenFrame(s, e.core);
      ShakenSnoc(s.(a := s.a.(core := e.core)), Wire(DiscReqFrame(s.a.core), s.a.got));
    } else if s.b.born {
      ShakenFrame(s, e.core);
    }
  }

  lemma CloseSenders(s: System, act: Act)
    requires Senders(s)
    ensures Senders(CloseA(s, act))
  {
    CloseParts(s, act);
  }

  lemma CloseKeeps(s: System, act: Act)
    requires Inv(s) && Enabled(s, act) && (act.CloseWriter? || act.SessionEnds?)
    ensures Inv(CloseA(s, act))
  {
    Partners(s);
    hide Flows, Senders, Teardowns, Shaken;
    assert Senders(CloseA(s, act)) by { CloseSenders(s, act); }
    CloseFlows(s, act);
    CloseTeardowns(s, act);
    CloseShaken(s, act);
  }

  lemma ModDistance(sent: nat, acked: nat)
    requires acked <= sent < acked + 256
    ensures (sent % 256 - acked % 256) % 256 == sent - acked
  {
    var q := sent / 256 - acked / 256;
    assert sent % 256 - acked % 256 == (sent - acked) - 256 * q;
  }

  lemma ModSucc(n: nat)
    ensures (n % 256 + 1) % 256 == (n + 1) % 256
  {
  }

  /** With the window respected, the 8-bit distance is the true one. */
  lemma InFlightIsTrue(s: System)
    requires Flow(s.a, s.b, s.ab, s.ba)
    ensures FramesInFlight(s.a.core) == InFlight(s.a)
  {
    ModDistance(|s.a.log|, s.a.acked);
  }

  lemma DrainSendParts(s: System)
    requires OnDrain(s.a.core).out != []
    ensures var x := s.a; var t := DrainA(s);
      && x.core.pending != []
      && t.a == x.(core := t.a.core, log := x.log + [x.core.pending[0]])
      && t.a.core == x.core.(vs := (x.core.vs + 1) % 256, pending := x.core.pending[1..], drain := AtLink)
      && t == s.(a := t.a, ab := s.ab + [Wire(InfoFrame(x.core, x.core.pending[0]), x.got)])
  {
    TagOne(InfoFrame(s.a.core, s.a.core.pending[0]), s.a.got);
  }

  lemma DrainSendFlowOut(s: System)
    requires Flow(s.a, s.b, s.ab, s.ba) && OnDrain(s.a.core).out != []
    ensures var t := DrainA(s); Flow(t.a, t.b, t.ab, t.ba)
  {
    var x := s.a;
    var t := DrainA(s);
    var w := Wire(InfoFrame(x.core, x.core.pending[0]), x.got);
    DrainSendParts(s);
    InFlightIsTrue(s);
    assert |x.log| < x.acked + x.core.window;
    assert FragmentOf(w.frame) == x.core.pending[0];
    hide Carries, Acks, Reassemble, DrainA, OnDrain, FragmentOf, InfoFrame;
    ModSucc(|x.log|);
    if s.b.live {
      CarriesSnoc(s.ab, x.log, s.b.got, w);
    }
    assert t.a.log[..s.b.got] == x.log[..s.b.got];
  }

  lemma DrainSendFlowIn(s: System)
    requires Flow(s.b, s.a, s.ba, s.ab) && OnDrain(s.a.core).out != []
    ensures var t := DrainA(s); Flow(t.b, t.a, t.ba, t.ab)
  {
    DrainSendParts(s);
    if s.b.live {
      AcksSnoc(s.ab, s.b.acked, s.a.got, s.a.got, Wire(InfoFrame(s.a.core, s.a.core.pending[0]), s.a.got));
    }
  }

  lemma DrainSendSender(s: System)
    requires Flow(s.a, s.b, s.ab, s.ba) && Sender(s.a)
    requires Enabled(s, Drain) && OnDrain(s.a.core).out != []
    ensures Sender(DrainA(s).a)
  {
    InFlightIsTrue(s);
    assert Queue(DrainA(s).a) == Queue(s.a);
  }

  lemma DrainSendKeeps(s: System)
    requires Inv(s) && Enabled(s, Drain) && OnDrain(s.a.core).out != []
    ensures Inv(DrainA(s))
  {
    var t := DrainA(s);
    var w := t.ab[|s.ab|];
    assert t.ab == s.ab + [w];
    DrainSendFlowOut(s);
    DrainSendFlowIn(s);
    DrainSendSender(s);
    TeardownsFrame(s, t.a.core);
    TeardownsSnoc(s.(a := s.a.(core := t.a.core)), w);
    ShakenFrame(s, t.a.core);
    ShakenSnoc(s.(a := s.a.(core := t.a.core)), w);
  }

  lemma DrainStopSender(s: System)
    requires Flow(s.a, s.b, s.ab, s.ba) && Sender(s.a)
    requires Enabled(s, Drain) && OnDrain(s.a.core).out == []
    ensures Sender(DrainA(s).a)
  {
    InFlightIsTrue(s);
    var t := DrainA(s).a;
    assert t.log == s.a.log;
    if t.core.pending != s.a.core.pending {
      assert Queue(t) == s.a.log;
      BytesConcat(s.a.log, s.a.core.pending);
      if s.a.modest {
        RunsFitPrefix(s.a.log, s.a.core.pending);
      }
    }
  }

  lemma DrainStopParts(s: System)
    requires OnDrain(s.a.core).out == []
    ensures DrainA(s) == s.(a := s.a.(core := OnDrain(s.a.core).core))
    ensures var core := OnDrain(s.a.core).core;
      core == s.a.core.(pending := core.pending, windowEvent := core.windowEvent, drain := core.drain)
  {
    assert s.ab + Tag([], s.a.got) == s.ab;
    assert s.a.log + [] == s.a.log;
  }

  lemma DrainStopFlows(s: System)
    requires Flows(s) && OnDrain(s.a.core).out == []
    ensures Flows(DrainA(s))
  {
    DrainStopParts(s);
    hide OnDrain, DrainA, Flows;
    FlowsFrame(s, OnDrain(s.a.core).core);
  }

  lemma DrainStopShaken(s: System)
    requires Shaken(s) && s.a.born && OnDrain(s.a.core).out == []
    ensures Shaken(DrainA(s))
  {
    DrainStopParts(s);
  }

  lemma DrainStopTeardowns(s: System)
    requires Teardowns(s) && OnDrain(s.a.core).out == []
    ensures Teardowns(DrainA(s))
  {
    DrainStopParts(s);
    TeardownsFrame(s, OnDrain(s.a.core).core);
  }

  lemma DrainStopKeeps(s: System)
    requires Inv(s) && Enabled(s, Drain) && OnDrain(s.a.core).out == []
    ensures Inv(DrainA(s))
  {
    DrainStopFlows(s);
    DrainStopSender(s);
    DrainStopTeardowns(s);
    DrainStopShaken(s);
  }

  // ---------- Receiving keeps the invariant ----------

  function Pop(s: System): System
    requires s.ba != []
  {
    s.(ba := s.ba[1..])
  }

  /** What the invariant says about a frame at the head of the link into a. */
  lemma HeadFacts(s: System)
    requires Inv(s) && s.ba != []
    ensures var f := s.ba[0].frame;
      && (f.ConnectRequest? ==> !s.a.born && !s.a.originator && |s.ba| == 1 && s.ab == []
                                && s.b.core.state == AwaitingConnect
                                && f == ConnectReqFrame(s.b.core, s.b.core.window))
      && (!f.ConnectRequest? && s.a.live ==> Mine(s.a, f) && s.a.born)
      && (s.a.live && f.Information? ==> s.b.born && Settled(s.a.core) && !s.a.core.eof)
      && (s.a.live && f.InformationAck? ==> s.b.born && Settled(s.a.core))
      && (s.a.live && f.Disconnect? ==> s.b.born && Settled(s.a.core))
      && (s.a.live && f.Disconnect? && !IsDiscReq(f) ==> s.a.core.state == Disconnecting && !s.b.live)
  {
    HasHead(s.ba);
  }

  lemma PopTeardowns(s: System)
    requires Teardowns(s) && s.ba != []
    requires s.a.live ==> !s.ba[0].frame.Disconnect?
    ensures Teardowns(Pop(s))
  {
    HasHead(s.ba);
  }

  lemma PopShaken(s: System)
    requires Shaken(s) && s.ba != [] && s.a.born
    requires s.a.live ==> Settled(s.a.core) && s.b.born
    ensures Shaken(Pop(s))
  {
  }

  /** A frame for a circuit the manager no longer lists is dropped. */
  lemma DropKeeps(s: System)
    requires Inv(s) && s.ba != [] && !s.ba[0].frame.ConnectRequest? && !s.a.live
    ensures Inv(Pop(s))
  {
    assert s.a.born;
    assert Flows(Pop(s));
    assert Senders(Pop(s));
    hide Flows, Senders, Teardowns, Shaken;
    PopTeardowns(s);
    PopShaken(s);
  }

  lemma Unwrap(m: nat, n: nat)
    requires m <= n < m + 256 && m % 256 == n % 256
    ensures m == n
  {
  }

  /** Learning the true acknowledgement `v` moves V(A) forward and wakes drain()
      exactly when there is room. */
  lemma AckSender(s: System, core: Core, v: nat)
    requires Flow(s.a, s.b, s.ab, s.ba) && Sender(s.a)
    requires s.a.acked <= v <= s.b.got
    requires core == s.a.core.(vr := core.vr, inbox := core.inbox)
    ensures Sender(s.a.(core := AdvanceVa(core, v % 256), acked := v))
  {
    if v % 256 == s.a.core.va {
      Unwrap(s.a.acked, v);
    }
    hide Carries, Acks, Reassemble, Bytes, RunsFit, OpenRun;
    assert Queue(s.a.(core := AdvanceVa(core, v % 256), acked := v)) == Queue(s.a);
  }

  /** Taking an acknowledgement off the link: the data flow out of a. */
  lemma AckFlowOut(s: System, core: Core)
    requires Flow(s.a, s.b, s.ab, s.ba) && s.a.live && s.ba != [] && IsAck(s.ba[0].frame)
    requires core == s.a.core.(vr := core.vr, inbox := core.inbox)
    ensures Flow(s.a.(core := AdvanceVa(core, s.ba[0].frame.header.rxSeq), acked := s.ba[0].accepted),
                 s.b, s.ab, s.ba[1..])
    ensures s.a.acked <= s.ba[0].accepted <= s.b.got
    ensures s.ba[0].frame.header.rxSeq == s.ba[0].accepted % 256
  {
    AcksOrdered(s.ba[1..], s.ba[0].accepted, s.b.got);
  }

  lemma InfoAckFlows(s: System)
    requires Flows(s) && s.a.live && s.ba != [] && s.ba[0].frame.InformationAck?
    ensures Flows(TakeInfoAck(Pop(s), s.ba[0]))
  {
    AckFlowOut(s, s.a.core);
  }

  lemma InfoAckSenders(s: System)
    requires Flows(s) && Senders(s) && s.a.live && s.ba != [] && s.ba[0].frame.InformationAck?
    ensures Senders(TakeInfoAck(Pop(s), s.ba[0]))
  {
    AckFlowOut(s, s.a.core);
    AckSender(s, s.a.core, s.ba[0].accepted);
  }

  lemma InfoAckKeeps(s: System)
    requires Inv(s) && s.ba != [] && s.ba[0].frame.InformationAck? && s.a.live
    ensures Inv(TakeInfoAck(Pop(s), s.ba[0]))
  {
    HeadFacts(s);
    hide Flows, Senders, Teardowns, Shaken;
    InfoAckFlows(s);
    InfoAckSenders(s);
    var t := TakeInfoAck(Pop(s), s.ba[0]);
    PopTeardowns(s);
    TeardownsFrame(Pop(s), t.a.core);
    PopShaken(s);
    ShakenFrame(Pop(s), t.a.core);
  }

  /** Accepting the next data frame: the data flow into a. */
  lemma InfoFlowIn(s: System, core: Core, ack: Wire, v: nat)
    requires Flow(s.b, s.a, s.ba, s.ab) && s.a.live && s.ba != [] && s.ba[0].frame.Information?
    requires core.inbox == Absorb(s.a.core.inbox, FragmentOf(s.ba[0].frame))
    requires core.vr == (s.a.core.vr + 1) % 256
    requires ack.frame.InformationAck? && ack.accepted == s.a.got + 1 && ack.frame.header.rxSeq == core.vr
    ensures s.ba[0].frame.header.txSeq == s.a.core.vr
    ensures Flow(s.b, s.a.(core := core, got := s.a.got + 1, acked := v), s.ba[1..], s.ab + [ack])
  {
    var n := s.a.got;
    CarriesHead(s.ba, s.b.log, n);
    ModSucc(n);
    hide Carries, Acks, Reassemble, Absorb, FragmentOf;
    if s.b.live {
      AcksSnoc(s.ab, s.b.acked, n, n + 1, ack);
    }
    assert s.b.log[..n + 1] == s.b.log[..n] + [s.b.log[n]];
    Snoc(s.b.log[..n], s.b.log[n]);
  }

  function AckWire(s: System): Wire { Wire(InfoAckFrame(s.a.core), s.a.got) }

  /** An accepted INFO frame, spelled out. */
  lemma InfoParts(s: System)
    requires s.ba != [] && s.ba[0].frame.Information? && !s.a.core.eof
    requires s.ba[0].frame.header.txSeq == s.a.core.vr
    ensures var t := TakeInfo(Pop(s), s.ba[0]);
      var core := s.a.core.(inbox := Absorb(s.a.core.inbox, FragmentOf(s.ba[0].frame)),
                            vr := (s.a.core.vr + 1) % 256);
      && t.a == s.a.(core := AdvanceVa(core, s.ba[0].frame.header.rxSeq),
                     got := s.a.got + 1, acked := s.ba[0].accepted)
      && t == s.(a := t.a, ba := s.ba[1..], ab := s.ab + [AckWire(t)])
  {
    var t := TakeInfo(Pop(s), s.ba[0]);
    TagOne(InfoAckFrame(t.a.core), s.a.got + 1);
  }

  lemma InfoFlows(s: System)
    requires Flows(s) && s.a.live && s.ba != [] && s.ba[0].frame.Information? && !s.a.core.eof
    ensures Flows(TakeInfo(Pop(s), s.ba[0]))
  {
    var t := TakeInfo(Pop(s), s.ba[0]);
    var core := s.a.core.(inbox := Absorb(s.a.core.inbox, FragmentOf(s.ba[0].frame)),
                          vr := (s.a.core.vr + 1) % 256);
    InfoParts(s);
    InfoFlowIn(s, t.a.core, AckWire(t), s.ba[0].accepted);
    AckFlowOut(s, core);
    if s.b.live {
      CarriesSnoc(s.ab, s.a.log, s.b.got, AckWire(t));
    }
  }

  lemma InfoSenders(s: System)
    requires Flows(s) && Senders(s) && s.a.live && s.ba != [] && s.ba[0].frame.Information? && !s.a.core.eof
    ensures Senders(TakeInfo(Pop(s), s.ba[0]))
  {
    var core := s.a.core.(inbox := Absorb(s.a.core.inbox, FragmentOf(s.ba[0].frame)),
                          vr := (s.a.core.vr + 1) % 256);
    InfoParts(s);
    AckFlowOut(s, core);
    AckSender(s, core, s.ba[0].accepted);
  }

  lemma InfoTeardowns(s: System)
    requires Teardowns(s) && s.ba != [] && s.ba[0].frame.Information? && !s.a.core.eof
    requires s.ba[0].frame.header.txSeq == s.a.core.vr
    ensures Teardowns(TakeInfo(Pop(s), s.ba[0]))
  {
    InfoParts(s);
    HasHead(s.ba);
    HasSnoc(s.ab, AckWire(TakeInfo(Pop(s), s.ba[0])));
  }

  lemma InfoShaken(s: System)
    requires Shaken(s) && s.ba != [] && s.ba[0].frame.Information? && !s.a.core.eof
    requires s.a.live && s.a.born && s.b.born && Settled(s.a.core)
    requires s.ba[0].frame.header.txSeq == s.a.core.vr
    ensures Shaken(TakeInfo(Pop(s), s.ba[0]))
  {
    var t := TakeInfo(Pop(s), s.ba[0]);
    InfoParts(s);
    PopShaken(s);
    ShakenSnoc(Pop(s), AckWire(t));
  }

  lemma InfoKeeps(s: System)
    requires Inv(s) && s.ba != [] && s.ba[0].frame.Information? && s.a.live
    ensures Inv(TakeInfo(Pop(s), s.ba[0]))
  {
    HeadFacts(s);
    assert s.ba[0].frame.header.txSeq == s.a.core.vr;
    hide Flows, Senders, Teardowns, Shaken;
    InfoFlows(s);
    InfoSenders(s);
    InfoTeardowns(s);
    InfoShaken(s);
  }

  lemma ConnectAckFlows(s: System)
    requires Flows(s) && Shaken(s) && s.ba != [] && s.ba[0].frame.ConnectAck? && s.a.live
    ensures Flows(TakeConnectAck(Pop(s), s.ba[0]))
  {
  }

  lemma ConnectAckSenders(s: System)
    requires Senders(s) && Shaken(s) && s.ba != [] && s.ba[0].frame.ConnectAck? && s.a.live
    ensures Senders(TakeConnectAck(Pop(s), s.ba[0]))
  {
  }

  lemma ConnectAckTeardowns(s: System)
    requires Teardowns(s) && Shaken(s) && s.ba != [] && s.ba[0].frame.ConnectAck? && s.a.live
    ensures Teardowns(TakeConnectAck(Pop(s), s.ba[0]))
  {
    HasHead(s.ba);
  }

  lemma ConnectAckShaken(s: System)
    requires Shaken(s) && s.ba != [] && s.ba[0].frame.ConnectAck? && s.a.live
    ensures Shaken(TakeConnectAck(Pop(s), s.ba[0]))
  {
  }

  lemma ConnectAckKeeps(s: System)
    requires Inv(s) && s.ba != [] && s.ba[0].frame.ConnectAck? && s.a.live
    ensures Inv(TakeConnectAck(Pop(s), s.ba[0]))
  {
    hide Flows, Senders, Teardowns, Shaken;
    ConnectAckFlows(s);
    ConnectAckSenders(s);
    ConnectAckTeardowns(s);
    ConnectAckShaken(s);
  }

  /** Either DISC frame ends a's circuit. */
  lemma DiscFlows(s: System)
    requires Flows(s) && s.ba != [] && s.ba[0].frame.Disconnect?
    ensures Flows(TakeDiscReq(Pop(s))) && Flows(TakeDiscAck(Pop(s)))
  {
    var w := Wire(DiscAckFrame(s.a.core), s.a.got);
    TagOne(w.frame, s.a.got);
    assert TakeDiscReq(Pop(s)).ab == s.ab + [w];
    FlowsSnoc(s, w);
  }

  lemma DiscReqSenders(s: System)
    requires Senders(s) && s.ba != [] && (s.a.core.state == Closed ==> s.a.core.windowEvent || !s.a.core.drain.AtWindow?)
    ensures Senders(TakeDiscReq(Pop(s)))
  {
  }

  lemma DiscAckSenders(s: System)
    requires Senders(s) && s.ba != [] && (s.a.core.state == Closed ==> s.a.core.windowEvent || !s.a.core.drain.AtWindow?)
    ensures Senders(TakeDiscAck(Pop(s)))
  {
  }

  lemma DiscTeardowns(s: System)
    requires Teardowns(s) && s.ba != [] && s.ba[0].frame.Disconnect? && s.a.live
    requires s.b.born && s.a.core.state != Closed
    ensures IsDiscReq(s.ba[0].frame) ==> Teardowns(TakeDiscReq(Pop(s)))
    ensures !IsDiscReq(s.ba[0].frame) ==> Teardowns(TakeDiscAck(Pop(s)))
  {
    var w := Wire(DiscAckFrame(s.a.core), s.a.got);
    TagOne(w.frame, s.a.got);
    assert TakeDiscReq(Pop(s)).ab == s.ab + [w];
    HasHead(s.ba);
    HasSnoc(s.ab, w);
  }

  lemma DiscShaken(s: System)
    requires Shaken(s) && s.ba != [] && s.ba[0].frame.Disconnect? && s.a.live && s.a.born
    requires s.b.born && Settled(s.a.core)
    ensures Shaken(TakeDiscReq(Pop(s))) && Shaken(TakeDiscAck(Pop(s)))
  {
    var w := Wire(DiscAckFrame(s.a.core), s.a.got);
    TagOne(w.frame, s.a.got);
    assert TakeDiscReq(Pop(s)).ab == s.ab + [w];
  }

  lemma DiscKeeps(s: System)
    requires Inv(s) && s.ba != [] && s.ba[0].frame.Disconnect? && s.a.live
    ensures IsDiscReq(s.ba[0].frame) ==> Inv(TakeDiscReq(Pop(s)))
    ensures !IsDiscReq(s.ba[0].frame) ==> Inv(TakeDiscAck(Pop(s)))
  {
    HeadFacts(s);
    assert s.a.core.state != Closed;
    hide Flows, Senders, Teardowns, Shaken;
    DiscFlows(s);
    DiscReqSenders(s);
    DiscAckSenders(s);
    DiscTeardowns(s);
    DiscShaken(s);
  }

  lemma RefuseKeeps(s: System)
    requires Inv(s) && s.ba != [] && s.ba[0].frame.ConnectRequest?
    ensures Inv(AcceptRequest(Pop(s), s.ba[0].frame, None))
  {
    HeadFacts(s);
    TagOne(Refusal(s.a.core.localCall, s.ba[0].frame), s.a.got);
    var t := AcceptRequest(Pop(s), s.ba[0].frame, None);
    assert t.ab == [Wire(Refusal(s.a.core.localCall, s.ba[0].frame), s.a.got)] && t.ba == [];
    assert t.ab[1..] == [];
  }

  lemma AcceptParts(s: System, idx: byte, id: byte)
    requires s.ba != [] && s.ba[0].frame.ConnectRequest? && !s.a.born && s.ab == [] && |s.ba| == 1
    ensures var t := AcceptRequest(Pop(s), s.ba[0].frame, Some((idx, id)));
      var e := OnSendConnectAck(OpenedCore(s.a.core, s.ba[0].frame, idx, id));
      && t == s.(a := s.a.(born := true, live := true, core := e.core),
                 ab := [Wire(e.out[0], s.a.got)], ba := [])
  {
    var e := OnSendConnectAck(OpenedCore(s.a.core, s.ba[0].frame, idx, id));
    TagOne(e.out[0], s.a.got);
  }

  lemma AcceptFlows(s: System, idx: byte, id: byte)
    requires Flows(s) && Senders(s) && Fresh(s.a) && Fresh(s.b)
    requires s.ba != [] && s.ba[0].frame.ConnectRequest? && !s.a.born && s.ab == [] && |s.ba| == 1
    ensures Flows(AcceptRequest(Pop(s), s.ba[0].frame, Some((idx, id))))
    ensures Senders(AcceptRequest(Pop(s), s.ba[0].frame, Some((idx, id))))
  {
    AcceptParts(s, idx, id);
    var t := AcceptRequest(Pop(s), s.ba[0].frame, Some((idx, id)));
    assert t.ab[1..] == [];
    assert t.a.log[..0] == [];
    assert Queue(t.a) == [];
  }

  lemma AcceptKeeps(s: System, idx: byte, id: byte)
    requires Inv(s) && s.ba != [] && s.ba[0].frame.ConnectRequest?
    ensures Inv(AcceptRequest(Pop(s), s.ba[0].frame, Some((idx, id))))
  {
    HeadFacts(s);
    AcceptParts(s, idx, id);
    var t := AcceptRequest(Pop(s), s.ba[0].frame, Some((idx, id)));
    assert Teardowns(t);
    assert Shaken(t);
    AcceptFlows(s, idx, id);
  }

  lemma ReceiveKeeps(s: System, slot: Option<(byte, byte)>)
    requires Inv(s) && s.ba != []
    ensures Inv(ReceiveA(s, slot))
  {
    HeadFacts(s);
    hide Flows, Senders, Teardowns, Shaken;
    var f := s.ba[0].frame;
    if f.ConnectRequest? {
      match slot
      case None => RefuseKeeps(s);
      case Some((idx, id)) => AcceptKeeps(s, idx, id);
    } else if !s.a.live {
      DropKeeps(s);
    } else {
      match f
      case Information(_, _) => InfoKeeps(s);
      case InformationAck(_) => InfoAckKeeps(s);
      case ConnectAck(_, _, _) => ConnectAckKeeps(s);
      case Disconnect(_) => DiscKeeps(s);
    }
  }

  lemma StepKeepsA(s: System, act: Act)
    requires Inv(s)
    ensures Inv(StepA(s, act))
  {
    hide Flows, Senders, Teardowns, Shaken;
    if Enabled(s, act) {
      match act
      case Write(data) => WriteKeeps(s, data);
      case Drain => if OnDrain(s.a.core).out == [] { DrainStopKeeps(s); } else { DrainSendKeeps(s); }
      case Receive(slot) => ReceiveKeeps(s, slot);
      case CloseWriter => CloseKeeps(s, act);
      case SessionEnds => CloseKeeps(s, act);
      case GuardFires => GuardKeeps(s);
      case OriginateReturns => ReturnKeeps(s);
    }
  }

  /** Every step of either end keeps the invariant. */
  lemma StepKeeps(s: System, e: Event)
    requires Inv(s)
    ensures Inv(Step(s, e))
  {
    match e
    case ByA(act) =>
      StepKeepsA(s, act);
    case ByB(act) =>
      InvSwap(s);
      StepKeepsA(Swap(s), act);
      InvSwap(StepA(Swap(s), act));
  }

  /** Any run: the fold of the events over a state. */
  function Exec(s: System, es: seq<Event>): System
    decreases |es|
  {
    if es == [] then s else Exec(Step(s, es[0]), es[1..])
  }

  lemma StartInv(u: Setup)
    ensures Inv(Start(u))
  {
    var s := Start(u);
    assert s.ab[1..] == [];
    assert Queue(s.a) == [] && Queue(s.b) == [];
  }

  lemma {:induction false} ExecKeeps(s: System, es: seq<Event>)
    requires Inv(s)
    ensures Inv(Exec(s, es))
    decreases |es|
  {
    if es != [] {
      StepKeeps(s, es[0]);
      ExecKeeps(Step(s, es[0]), es[1..]);
    }
  }
}

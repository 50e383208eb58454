/** One NET/ROM virtual circuit: the value-level meaning of each of its atomic
    steps (`Core` and the functions on it), and the object that performs them
    in place (`NetromCircuit`).

    A step is a stretch of code between two suspension points.  `drain` is the
    only routine that suspends in the middle, so its position is part of the
    state (`DrainPoint`). */
module Circuit {
  import opened Prelude
  import opened Frames

  /** Payload bytes per fragment; the manager never configures less than one. */
  type Mtu = m: int | 1 <= m witness 1

  /** A negotiated send window. */
  type Window = w: int | 1 <= w <= 7 witness 4

  const MAX_WINDOW: Window := 7
  const MAX_REASSEMBLY_BYTES := 64 * 1024

  datatype CircuitState = Connecting | AwaitingConnect | Connected | Disconnecting | Closed

  /** One queued or transmitted INFO payload with its MORE_FOLLOWS flag. */
  datatype Fragment = Fragment(chunk: seq<byte>, more: bool)

  /** Where the writer's drain() is suspended. */
  datatype DrainPoint = Idle | AtWindow | AtLink

  /** The receive side: a partial message, and everything given to the reader. */
  datatype Inbox = Inbox(partial: seq<byte>, delivered: seq<byte>)

  datatype Core = Core(
    localIdx: byte, localId: byte,
    remoteIdx: byte, remoteId: byte,
    localCall: string, userCall: string, peerCall: string,
    state: CircuitState,
    vs: byte, vr: byte, va: byte,
    window: Window, mtu: Mtu,
    inbox: Inbox,
    pending: seq<Fragment>,
    windowEvent: bool,
    connectedEvent: bool,
    eof: bool,
    writerClosing: bool,
    guardArmed: bool,
    drain: DrainPoint)

  /** The result of a step: the new circuit and the frames handed to the link. */
  datatype Effect = Effect(core: Core, out: seq<L3Frame>)

  function ClampWindow(proposed: int): Window { Max(1, Min(MAX_WINDOW, proposed)) }

  function NewCore(localIdx: byte, localId: byte, remoteIdx: byte, remoteId: byte,
                   localCall: string, userCall: string, peerCall: string,
                   state: CircuitState, window: Window, mtu: Mtu): Core
  {
    Core(localIdx, localId, remoteIdx, remoteId, localCall, userCall, peerCall, state,
         0, 0, 0, window, mtu, Inbox([], []), [], false, false, false, false, false, Idle)
  }

  // ---------- Building frames ----------

  function Header(c: Core, opcodeFlags: byte): L3Header
  {
    L3Header(c.localCall, c.peerCall, DEFAULT_TTL, c.remoteIdx, c.remoteId, c.vs, c.vr, opcodeFlags)
  }

  function InfoFlags(more: bool): byte
  {
    if more then OPCODE_INFORMATION + FLAG_MORE_FOLLOWS else OPCODE_INFORMATION
  }

  function InfoFrame(c: Core, f: Fragment): L3Frame
  {
    Information(Header(c, InfoFlags(f.more)), f.chunk)
  }

  function InfoAckFrame(c: Core): L3Frame { InformationAck(Header(c, OPCODE_INFORMATION_ACK)) }

  function DiscReqFrame(c: Core): L3Frame { Disconnect(Header(c, OPCODE_DISCONNECT_REQ)) }

  function DiscAckFrame(c: Core): L3Frame { Disconnect(Header(c, OPCODE_DISCONNECT_ACK)) }

  /** CONNECT REQ carries OUR index/id where later frames carry the peer's. */
  function ConnectReqFrame(c: Core, proposedWindow: byte): L3Frame
  {
    ConnectRequest(
      L3Header(c.localCall, c.peerCall, DEFAULT_TTL, c.localIdx, c.localId, 0, 0, OPCODE_CONNECT_REQ),
      proposedWindow, c.userCall, c.localCall)
  }

  /** CONNECT ACK echoes the originator's index/id and puts ours in the sequence slots. */
  function ConnectAckFrame(c: Core, acceptedWindow: byte): L3Frame
  {
    ConnectAck(
      L3Header(c.localCall, c.peerCall, DEFAULT_TTL, c.remoteIdx, c.remoteId,
               c.localIdx, c.localId, OPCODE_CONNECT_ACK),
      acceptedWindow, false)
  }

  /** A CONNECT REQ refused without opening a circuit: its own index/id, and the refusal bit. */
  function Refusal(localCall: string, req: L3Frame): L3Frame
    requires req.ConnectRequest?
  {
    ConnectAck(
      L3Header(localCall, req.originNodeCall, DEFAULT_TTL, req.header.circuitIdx, req.header.circuitId,
               0, 0, OPCODE_CONNECT_ACK + FLAG_CHOKE),
      0, true)
  }

  // ---------- Sending ----------

  /** The fragments write() queues for a non-empty message. */
  function Fragments(data: seq<byte>, mtu: Mtu): seq<Fragment>
    decreases |data|
  {
    if |data| <= mtu then [Fragment(data, false)]
    else [Fragment(data[..mtu], true)] + Fragments(data[mtu..], mtu)
  }

  function OnWrite(c: Core, data: seq<byte>): Core
  {
    if c.writerClosing || data == [] || c.state != Connected then c
    else c.(pending := c.pending + Fragments(data, c.mtu))
  }

  function FramesInFlight(c: Core): int { (c.vs - c.va) % 256 }

  function OnSendFragment(c: Core, f: Fragment): Effect
  {
    Effect(c.(vs := (c.vs + 1) % 256), [InfoFrame(c, f)])
  }

  /** drain() may run: it is being started, the link has taken the last frame,
      or the window event it sleeps on is set. */
  predicate CanDrain(c: Core)
  {
    match c.drain
    case Idle => c.pending != []
    case AtLink => true
    case AtWindow => c.windowEvent
  }

  /** drain() from one suspension point to the next. */
  function OnDrain(c: Core): Effect
  {
    if c.pending == [] then Effect(c.(drain := Idle), [])
    else if c.state != Connected then Effect(c.(pending := [], drain := Idle), [])
    else if FramesInFlight(c) >= c.window then Effect(c.(windowEvent := false, drain := AtWindow), [])
    else OnSendFragment(c.(pending := c.pending[1..], drain := AtLink), c.pending[0])
  }

  // ---------- Receiving ----------

  function AdvanceVa(c: Core, newVa: byte): Core
  {
    if newVa != c.va then c.(va := newVa, windowEvent := true) else c
  }

  /** What one accepted INFO payload does to the receive side. */
  function Absorb(box: Inbox, f: Fragment): Inbox
  {
    if |box.partial| + |f.chunk| > MAX_REASSEMBLY_BYTES then Inbox([], box.delivered)
    else if f.more then Inbox(box.partial + f.chunk, box.delivered)
    else Inbox([], box.delivered + (box.partial + f.chunk))
  }

  function FragmentOf(f: L3Frame): Fragment
    requires f.Information?
  {
    Fragment(f.info, f.header.MoreFollows())
  }

  /** Feeding a reader that has seen EOF raises, which abandons the handler. */
  predicate FeedRaises(c: Core, f: Fragment)
  {
    c.eof && !f.more && 0 < |c.inbox.partial| + |f.chunk| <= MAX_REASSEMBLY_BYTES
  }

  function OnInformation(c: Core, f: L3Frame): Effect
    requires f.Information?
  {
    if f.header.txSeq != c.vr then
      var c1 := AdvanceVa(c, f.header.rxSeq);
      Effect(c1, [InfoAckFrame(c1)])
    else if FeedRaises(c, FragmentOf(f)) then
      Effect(c.(inbox := c.inbox.(partial := [])), [])
    else
      var c1 := AdvanceVa(c.(inbox := Absorb(c.inbox, FragmentOf(f)), vr := (c.vr + 1) % 256),
                          f.header.rxSeq);
      Effect(c1, [InfoAckFrame(c1)])
  }

  function OnInformationAck(c: Core, f: L3Frame): Core { AdvanceVa(c, f.header.rxSeq) }

  // ---------- Lifecycle ----------

  function SetClosed(c: Core): Core
  {
    if c.state == Closed then c
    else c.(state := Closed, guardArmed := false, windowEvent := true, connectedEvent := true, eof := true)
  }

  function OnConnectAck(c: Core, f: L3Frame): Core
    requires f.ConnectAck?
  {
    if c.state != AwaitingConnect then c
    else if f.refused then SetClosed(c)
    else
      c.(remoteIdx := f.header.txSeq, remoteId := f.header.rxSeq,
         window := if f.acceptedWindow != 0 then Min(c.window, f.acceptedWindow) else c.window,
         state := Connected, connectedEvent := true)
  }

  function OnSendConnectAck(c: Core): Effect
  {
    Effect(c.(state := Connected, connectedEvent := true), [ConnectAckFrame(c, c.window)])
  }

  function OnDisconnectRequest(c: Core): Effect { Effect(SetClosed(c), [DiscAckFrame(c)]) }

  function OnDisconnectAck(c: Core): Core { if c.state == Disconnecting then SetClosed(c) else c }

  function OnInitiateDisconnect(c: Core): Effect
  {
    if c.state == Disconnecting || c.state == Closed then Effect(c, [])
    else Effect(c.(state := Disconnecting, guardArmed := true), [DiscReqFrame(c)])
  }

  function OnWriterClose(c: Core): Effect
  {
    if c.writerClosing then Effect(c, []) else OnInitiateDisconnect(c.(writerClosing := true))
  }

  function OnGuard(c: Core): Core
  {
    if c.state == Disconnecting then SetClosed(c.(guardArmed := false)) else c.(guardArmed := false)
  }

  // ---------- The objects ----------

  /** The AX.25 crosslink's writer: what has been pushed onto the link. */
  class LinkWriter {
    var sent: seq<L3Frame>
    var closing: bool

    constructor ()
      ensures sent == [] && !closing
    {
      sent, closing := [], false;
    }
  }

  /** A frame sent on a closing link is dropped. */
  function Pushed(closing: bool, out: seq<L3Frame>): seq<L3Frame> { if closing then [] else out }

  class NetromCircuit {
    const localIdx: byte
    const localId: byte
    var remoteIdx: byte
    var remoteId: byte
    const localCall: string
    const userCall: string
    const peerCall: string
    var state: CircuitState
    var vs: byte
    var vr: byte
    var va: byte
    var acceptedWindow: Window
    const infoMtu: Mtu
    var reassembly: seq<byte>
    var fed: seq<byte>                 // bytes fed to the session's stream reader
    var eof: bool
    var pendingOutbound: seq<Fragment>
    var windowEvent: bool
    var connectedEvent: bool
    var writerClosing: bool
    var discGuard: bool
    var drainPoint: DrainPoint
    const link: LinkWriter

    constructor (localIdx: byte, localId: byte, remoteIdx: byte, remoteId: byte,
                 localCall: string, userCall: string, peerCall: string,
                 state: CircuitState, window: Window, mtu: Mtu, link: LinkWriter)
      ensures View() == NewCore(localIdx, localId, remoteIdx, remoteId,
                                localCall, userCall, peerCall, state, window, mtu)
      ensures this.link == link
    {
      this.localIdx, this.localId := localIdx, localId;
      this.remoteIdx, this.remoteId := remoteIdx, remoteId;
      this.localCall, this.userCall, this.peerCall := localCall, userCall, peerCall;
      this.state := state;
      vs, vr, va := 0, 0, 0;
      acceptedWindow, infoMtu := window, mtu;
      reassembly, fed, eof := [], [], false;
      pendingOutbound := [];
      windowEvent, connectedEvent, writerClosing, discGuard := false, false, false, false;
      drainPoint := Idle;
      this.link := link;
    }

    function View(): Core
      reads this
    {
      Core(localIdx, localId, remoteIdx, remoteId, localCall, userCall, peerCall, state, vs, vr, va,
           acceptedWindow, infoMtu, Inbox(reassembly, fed), pendingOutbound,
           windowEvent, connectedEvent, eof, writerClosing, discGuard, drainPoint)
    }

    method SendL3(f: L3Frame)
      modifies link
      ensures link.sent == (if old(link.closing) then old(link.sent) else old(link.sent) + [f])
      ensures link.closing == old(link.closing)
    {
      if link.closing {
        return;
      }
      link.sent := link.sent + [f];
    }

    method Write(data: seq<byte>)
      modifies this
      ensures View() == OnWrite(old(View()), data)
    {
      if writerClosing || data == [] {
        return;
      }
      if state != Connected {
        return;
      }
      var offset, n := 0, |data|;
      while offset < n
        invariant 0 <= offset
        invariant offset < n ==> pendingOutbound + Fragments(data[offset..], infoMtu)
                                 == old(pendingOutbound) + Fragments(data, infoMtu)
        invariant offset >= n ==> pendingOutbound == old(pendingOutbound) + Fragments(data, infoMtu)
        invariant View() == old(View()).(pending := pendingOutbound)
        decreases n - offset
      {
        var chunk := data[offset..Min(offset + infoMtu, n)];
        ghost var rest, was := data[offset..], pendingOutbound;
        offset := offset + infoMtu;
        pendingOutbound := pendingOutbound + [Fragment(chunk, offset < n)];
        if offset < n {
          assert rest[..infoMtu] == chunk && rest[infoMtu..] == data[offset..];
          assert was + ([Fragment(chunk, true)] + Fragments(data[offset..], infoMtu))
              == pendingOutbound + Fragments(data[offset..], infoMtu);
        } else {
          assert rest == chunk;
        }
      }
    }

    method SendInfoFragment(f: Fragment)
      modifies this, link
      ensures View() == OnSendFragment(old(View()), f).core
      ensures link.sent == old(link.sent) + Pushed(old(link.closing), OnSendFragment(old(View()), f).out)
      ensures link.closing == old(link.closing)
    {
      SendL3(InfoFrame(View(), f));
      vs := (vs + 1) % 256;
    }

    /** drain() up to its next suspension point. */
    method Drain()
      modifies this, link
      ensures View() == OnDrain(old(View())).core
      ensures link.sent == old(link.sent) + Pushed(old(link.closing), OnDrain(old(View())).out)
      ensures link.closing == old(link.closing)
    {
      if pendingOutbound == [] {
        drainPoint := Idle;
        return;
      }
      if state != Connected {
        pendingOutbound, drainPoint := [], Idle;
        return;
      }
      if FramesInFlight(View()) >= acceptedWindow {
        windowEvent, drainPoint := false, AtWindow;
        return;
      }
      var f := pendingOutbound[0];
      pendingOutbound, drainPoint := pendingOutbound[1..], AtLink;
      SendInfoFragment(f);
    }

    method UpdateVa(newVa: byte)
      modifies this
      ensures View() == AdvanceVa(old(View()), newVa)
    {
      if newVa != va {
        va := newVa;
        windowEvent := true;
      }
    }

    /** The reassembly half of handle_information(); false when the reader raised. */
    method Stash(f: Fragment) returns (ok: bool)
      modifies this
      ensures ok == !FeedRaises(old(View()), f)
      ensures View() == old(View()).(inbox := if ok then Absorb(old(View()).inbox, f)
                                              else old(View()).inbox.(partial := []))
    {
      if |reassembly| + |f.chunk| > MAX_REASSEMBLY_BYTES {
        reassembly := [];
        return true;
      }
      reassembly := reassembly + f.chunk;
      if !f.more {
        var payload := reassembly;
        reassembly := [];
        if payload != [] {
          if eof {
            return false;          // feed_data() after feed_eof() raises
          }
          fed := fed + payload;
        }
      }
      return true;
    }

    method HandleInformation(f: L3Frame)
      requires f.Information?
      modifies this, link
      ensures View() == OnInformation(old(View()), f).core
      ensures link.sent == old(link.sent) + Pushed(old(link.closing), OnInformation(old(View()), f).out)
      ensures link.closing == old(link.closing)
    {
      if f.header.txSeq != vr {
        UpdateVa(f.header.rxSeq);
        SendL3(InfoAckFrame(View()));
        return;
      }
      var ok := Stash(FragmentOf(f));
      if !ok {
        return;
      }
      vr := (vr + 1) % 256;
      UpdateVa(f.header.rxSeq);
      SendL3(InfoAckFrame(View()));
    }

    method HandleInformationAck(f: L3Frame)
      modifies this
      ensures View() == OnInformationAck(old(View()), f)
    {
      UpdateVa(f.header.rxSeq);
    }

    method Close()
      modifies this
      ensures View() == SetClosed(old(View()))
    {
      if state == Closed {
        return;
      }
      state := Closed;
      discGuard := false;
      windowEvent := true;
      connectedEvent := true;
      eof := true;
    }

    method HandleConnectAck(f: L3Frame)
      requires f.ConnectAck?
      modifies this
      ensures View() == OnConnectAck(old(View()), f)
    {
      if state != AwaitingConnect {
        return;
      }
      if f.refused {
        Close();
        return;
      }
      remoteIdx := f.header.txSeq;
      remoteId := f.header.rxSeq;
      if f.acceptedWindow != 0 {
        acceptedWindow := Min(acceptedWindow, f.acceptedWindow);
      }
      state := Connected;
      connectedEvent := true;
    }

    method SendConnectAck()
      modifies this, link
      ensures View() == OnSendConnectAck(old(View())).core
      ensures link.sent == old(link.sent) + Pushed(old(link.closing), OnSendConnectAck(old(View())).out)
      ensures link.closing == old(link.closing)
    {
      SendL3(ConnectAckFrame(View(), acceptedWindow));
      state := Connected;
      connectedEvent := true;
    }

    method HandleDisconnectRequest()
      modifies this, link
      ensures View() == OnDisconnectRequest(old(View())).core
      ensures link.sent == old(link.sent) + Pushed(old(link.closing), OnDisconnectRequest(old(View())).out)
      ensures link.closing == old(link.closing)
    {
      SendL3(DiscAckFrame(View()));
      Close();
    }

    method HandleDisconnectAck()
      modifies this
      ensures View() == OnDisconnectAck(old(View()))
    {
      if state == Disconnecting {
        Close();
      }
    }

    method InitiateDisconnect()
      modifies this, link
      ensures View() == OnInitiateDisconnect(old(View())).core
      ensures link.sent == old(link.sent) + Pushed(old(link.closing), OnInitiateDisconnect(old(View())).out)
      ensures link.closing == old(link.closing)
    {
      if state == Disconnecting || state == Closed {
        return;
      }
      SendL3(DiscReqFrame(View()));
      state := Disconnecting;
      discGuard := true;
    }

    method CloseWriter()
      modifies this, link
      ensures View() == OnWriterClose(old(View())).core
      ensures link.sent == old(link.sent) + Pushed(old(link.closing), OnWriterClose(old(View())).out)
      ensures link.closing == old(link.closing)
    {
      if writerClosing {
        return;
      }
      writerClosing := true;
      InitiateDisconnect();
    }

    method ReapDisconnecting()
      modifies this
      ensures View() == OnGuard(old(View()))
    {
      discGuard := false;
      if state != Disconnecting {
        return;
      }
      Close();
    }
  }
}

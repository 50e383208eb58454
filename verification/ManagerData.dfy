/** What each step does to the bytes of a circuit: what is queued, sent, taken and delivered, and what
    the sequence numbers become. */
module ManagerData {
  import opened Prelude
  import opened Frames
  import opened Circuit
  import opened Reassembly
  import opened ManagerSteps
  import opened ManagerTransitions
  import opened ManagerFrames

  predicate SameData(b: Core, d: Core)
  {
    && (d.vs, d.vr, d.va) == (b.vs, b.vr, b.va) && d.inbox == b.inbox && d.pending == b.pending && d.drain == b.drain
    && d.windowEvent == b.windowEvent
  }

  /** A write to an open circuit queues its bytes after those already queued, in fragments of the MTU;
      any other write is dropped. */
  predicate Queued(b: Core, data: seq<byte>, d: Core)
  {
    if b.state == Connected && !b.writerClosing && data != [] then
      && b.pending <= d.pending && Bytes(d.pending) == Bytes(b.pending) + data
      && (forall i :: |b.pending| <= i < |d.pending| ==>
            && d.pending[i].chunk != [] && |d.pending[i].chunk| <= b.mtu && (d.pending[i].more <==> i < |d.pending| - 1)
            && (i < |d.pending| - 1 ==> |d.pending[i].chunk| == b.mtu))
      && SameData(b, d.(pending := b.pending))
    else d == b
  }

  /** The writer sends the first fragment while the window has room, or sleeps until it has; it forgets
      what is queued once the circuit is no longer open. */
  predicate Drained(b: Core, d: Core)
  {
    if b.pending == [] then SameData(b, d.(drain := b.drain)) && d.drain == Idle
    else if b.state != Connected then SameData(b, d.(pending := b.pending, drain := b.drain)) && d.pending == [] && d.drain == Idle
    else if (b.vs - b.va) % 256 < b.window then
      && d.pending == b.pending[1..] && d.vs == (b.vs + 1) % 256 && d.drain == AtLink
      && SameData(b, d.(pending := b.pending, vs := b.vs, drain := b.drain))
    else
      && d.drain == AtWindow && !d.windowEvent && SameData(b, d.(drain := b.drain, windowEvent := b.windowEvent))
  }

  lemma {:induction false} FragmentAt(data: seq<byte>, mtu: Mtu, i: nat)
    requires data != [] && i < |Fragments(data, mtu)|
    ensures var fs := Fragments(data, mtu);
      fs[i].chunk != [] && |fs[i].chunk| <= mtu && (fs[i].more <==> i < |fs| - 1) && (i < |fs| - 1 ==> |fs[i].chunk| == mtu)
  {
    FragmentsAreFull(data, mtu, i);
    hide Fragments;
  }

  lemma WriteQueues(b: Core, data: seq<byte>)
    ensures Queued(b, data, OnWrite(b, data))
  {
    hide Fragments, Bytes;
    if b.state == Connected && !b.writerClosing && data != [] {
      var fs := Fragments(data, b.mtu);
      FragmentsKeepBytes(b.pending, data, b.mtu);
      forall i | |b.pending| <= i < |b.pending + fs|
        ensures var g := (b.pending + fs)[i];
          && g.chunk != [] && |g.chunk| <= b.mtu && (g.more <==> i < |b.pending + fs| - 1)
          && (i < |b.pending + fs| - 1 ==> |g.chunk| == b.mtu)
      {
        FragmentAt(data, b.mtu, i - |b.pending|);
      }
    }
  }

  /** What a session does to its circuit's bytes. */
  lemma SessionData(m: Mgr, c: nat, act: SessionAct)
    requires Rooted(m) && Enabled(m, Session(c, act))
    ensures c < |Step(m, Session(c, act)).m.heap|
    ensures var b, d := m.heap[c], Step(m, Session(c, act)).m.heap[c];
      match act
      case Writes(data) => Queued(b, data, d)
      case Drains => Drained(b, d)
      case _ => SameData(b, d)
  {
    hide Fragments, Queued;
    if act.Writes? {
      WriteQueues(m.heap[c], act.data);
    }
  }

  /** An acknowledgement moves V(A) to what it names, and wakes the writer if that is news. */
  predicate Acknowledged(b: Core, ack: byte, d: Core)
  {
    d.va == ack && d.windowEvent == (b.windowEvent || ack != b.va)
  }

  /** What an INFO frame does: out of turn, or in turn for a reader at its end, nothing but what it
      acknowledges or a lost partial message; else its payload is the next of the message, which is
      delivered whole with its last frame, and given up beyond 65536 bytes. */
  predicate Took(b: Core, f: L3Frame, d: Core)
    requires f.Information?
  {
    var partial, more := b.inbox.partial, (f.header.opcodeFlags / 0x20) % 2 == 1;
    && d.vs == b.vs && d.pending == b.pending && d.drain == b.drain
    && if f.header.txSeq != b.vr then d.vr == b.vr && d.inbox == b.inbox && Acknowledged(b, f.header.rxSeq, d)
       else if ReaderRefuses(b, f) then
         && (d.vr, d.va, d.windowEvent) == (b.vr, b.va, b.windowEvent)
         && d.inbox.partial == [] && d.inbox.delivered == b.inbox.delivered
       else
         && d.vr == (b.vr + 1) % 256 && Acknowledged(b, f.header.rxSeq, d)
         && if |partial| + |f.info| > 65536 then d.inbox.partial == [] && d.inbox.delivered == b.inbox.delivered
            else if more then d.inbox.partial == partial + f.info && d.inbox.delivered == b.inbox.delivered
            else d.inbox.partial == [] && d.inbox.delivered == b.inbox.delivered + partial + f.info
  }

  lemma InfoTakes(b: Core, f: L3Frame)
    requires f.Information?
    ensures Took(b, f, OnInformation(b, f).core)
  {
    hide InfoAckFrame;
    assert b.inbox.delivered + (b.inbox.partial + f.info) == b.inbox.delivered + b.inbox.partial + f.info;
  }

  lemma FrameTakes(m: Mgr, c: nat, f: L3Frame)
    requires Rooted(m) && c < |m.heap| && Addresses(m, f, c) && !f.ConnectRequest?
    ensures var d := OnCircuitFrame(m, c, f).m.heap[c]; var b := m.heap[c];
      match f
      case Information(_, _) => Took(b, f, d)
      case InformationAck(h) => Acknowledged(b, h.rxSeq, d) && SameData(b, d.(va := b.va, windowEvent := b.windowEvent))
      case _ => SameData(b, d.(windowEvent := b.windowEvent))
  {
    hide Took, OnInformation, OnInformationAck, OnConnectAck, OnDisconnectRequest, OnDisconnectAck, Remove, Addresses, SameData,
         Acknowledged, OnCircuitFrame, Rooted;
    var b := m.heap[c];
    FrameCore(m, c, f);
    OthersTake(b, f);
    if f.Information? {
      InfoTakes(b, f);
    }
  }

  lemma FrameCore(m: Mgr, c: nat, f: L3Frame)
    requires Rooted(m) && c < |m.heap| && !f.ConnectRequest?
    ensures |OnCircuitFrame(m, c, f).m.heap| == |m.heap|
    ensures OnCircuitFrame(m, c, f).m.heap[c] ==
      match f
      case Information(_, _) => OnInformation(m.heap[c], f).core
      case InformationAck(_) => OnInformationAck(m.heap[c], f)
      case ConnectAck(_, _, _) => OnConnectAck(m.heap[c], f)
      case Disconnect(h) =>
        if h.opcodeFlags % 8 == 3 then OnDisconnectRequest(m.heap[c]).core else OnDisconnectAck(m.heap[c])
  {
    hide OnInformation, OnInformationAck, OnConnectAck, OnDisconnectRequest, OnDisconnectAck, Remove;
    var b := m.heap[c];
    if f.Disconnect? {
      RemoveRooted(Updated(m, c, OnDisconnectRequest(b).core), c);
      RemoveRooted(Updated(m, c, OnDisconnectAck(b)), c);
    }
  }

  lemma OthersTake(b: Core, f: L3Frame)
    ensures var d := OnInformationAck(b, f);
      f.InformationAck? ==> Acknowledged(b, f.header.rxSeq, d) && SameData(b, d.(va := b.va, windowEvent := b.windowEvent))
    ensures f.ConnectAck? ==> SameData(b, OnConnectAck(b, f).(windowEvent := b.windowEvent))
    ensures SameData(b, OnDisconnectRequest(b).core.(windowEvent := b.windowEvent))
    ensures SameData(b, OnDisconnectAck(b).(windowEvent := b.windowEvent))
  {
    hide DiscAckFrame;
  }

  /** What a received frame does to the bytes of the circuit it is for. */
  lemma ArrivalData(m: Mgr, f: L3Frame, c: nat)
    requires Rooted(m) && c < |m.heap| && Addresses(m, f, c)
    ensures c < |Step(m, Dispatch(f)).m.heap|
    ensures var d := Step(m, Dispatch(f)).m.heap[c]; var b := m.heap[c];
      match f
      case Information(_, _) => Took(b, f, d)
      case InformationAck(h) => Acknowledged(b, h.rxSeq, d) && SameData(b, d.(va := b.va, windowEvent := b.windowEvent))
      case _ => SameData(b, d.(windowEvent := b.windowEvent))
  {
    StepRooted(m, Dispatch(f));
    hide OnCircuitFrame, Took, OnOpen, Refusal, ConnectAckFrame;
    if !f.ConnectRequest? {
      FrameTakes(m, c, f);
    }
  }
}

/** Between the circuits and the codec: every frame a circuit manager ever sends is one the far
    end decodes to exactly the frame that was meant, so the circuits may be studied as if they
    exchanged frames. */
module WireCarriage {
  import opened Prelude
  import opened Frames
  import opened WireCalls
  import opened L3Codec
  import Circuits = Circuit
  import opened ManagerSteps

  ghost predicate CallsOk(c: Circuits.Core)
  {
    Canonical(c.localCall) && Canonical(c.userCall) && Canonical(c.peerCall)
  }

  ghost predicate Carried(f: L3Frame)
  {
    CanonicalFrame(f) && f.header.ttl == DEFAULT_TTL
  }

  ghost predicate AllCarried(fs: seq<L3Frame>)
  {
    forall i :: 0 <= i < |fs| ==> Carried(fs[i])
  }

  /** The step keeps the circuit's callsigns and sends only frames the wire carries. */
  ghost predicate Sends(e: Circuits.Effect)
  {
    CallsOk(e.core) && AllCarried(e.out)
  }

  lemma InformationSends(c: Circuits.Core, f: L3Frame)
    requires CallsOk(c) && f.Information?
    ensures Sends(Circuits.OnInformation(c, f))
  {
    hide Canonical, Circuits.Absorb;
  }

  lemma SessionSends(c: Circuits.Core, act: SessionAct)
    requires CallsOk(c)
    ensures Sends(SessionEffect(c, act))
  {
    hide Canonical, Circuits.Fragments;
  }

  lemma DisconnectSends(c: Circuits.Core)
    requires CallsOk(c)
    ensures Sends(Circuits.OnDisconnectRequest(c))
  {
    hide Canonical;
  }

  lemma AckSends(c: Circuits.Core)
    requires CallsOk(c)
    ensures Sends(Circuits.OnSendConnectAck(c))
  {
    hide Canonical;
  }

  lemma QuietSteps(c: Circuits.Core, f: L3Frame)
    requires CallsOk(c)
    ensures f.InformationAck? ==> CallsOk(Circuits.OnInformationAck(c, f))
    ensures f.ConnectAck? ==> CallsOk(Circuits.OnConnectAck(c, f))
    ensures CallsOk(Circuits.OnDisconnectAck(c)) && CallsOk(Circuits.OnGuard(c)) && CallsOk(Circuits.SetClosed(c))
  {
    hide Canonical;
  }

  ghost predicate Wired(m: Mgr)
  {
    Canonical(m.localCall) && forall i :: 0 <= i < |m.heap| ==> CallsOk(m.heap[i])
  }

  /** The callsigns an event brings in are canonical. */
  ghost predicate Proper(e: Event)
  {
    match e
    case Dispatch(f) => f.ConnectRequest? ==> Canonical(f.userCall) && Canonical(f.originNodeCall)
    case Originate(dest, user, _) => Canonical(dest) && Canonical(user)
    case _ => true
  }

  ghost predicate Delivers(o: Outcome) { Wired(o.m) && AllCarried(o.out) }

  lemma ApplyDelivers(m: Mgr, c: nat, e: Circuits.Effect)
    requires Wired(m) && c < |m.heap| && Sends(e)
    ensures Delivers(Apply(m, c, e))
  {
    hide CallsOk, AllCarried, Canonical;
  }

  lemma RemoveWired(m: Mgr, c: nat)
    requires Wired(m) && c < |m.heap|
    ensures Wired(Remove(m, c))
  {
    hide CallsOk, Canonical;
  }

  lemma OpenedDelivers(m: Mgr, idx: byte, f: L3Frame)
    requires Wired(m) && f.ConnectRequest? && Canonical(f.userCall) && Canonical(f.originNodeCall)
    ensures Delivers(Opened(m, idx, f))
  {
    hide Canonical, Circuits.OnSendConnectAck, Circuits.ClampWindow, AllCarried, Apply;
    var key := (f.header.circuitIdx, f.header.circuitId);
    var m1 := Install(m, idx, key, f.userCall, f.originNodeCall, Circuits.Connecting, Circuits.ClampWindow(f.proposedWindow));
    var m2 := m1.(byRemote := m1.byRemote[key := |m.heap|]);
    assert CallsOk(m1.heap[|m.heap|]);
    assert Wired(m2);
    AckSends(m1.heap[|m.heap|]);
    ApplyDelivers(m2, |m.heap|, Circuits.OnSendConnectAck(m1.heap[|m.heap|]));
  }

  lemma RequestDelivers(m: Mgr, f: L3Frame)
    requires Rooted(m) && Wired(m) && f.ConnectRequest? && Canonical(f.userCall) && Canonical(f.originNodeCall)
    ensures Delivers(OnConnectRequest(m, f))
  {
    hide Canonical, Circuits.OnSendConnectAck, Opened, FirstFree, Apply;
    var key := (f.header.circuitIdx, f.header.circuitId);
    if key in m.byRemote {
      var c := m.byRemote[key];
      AckSends(m.heap[c]);
      ApplyDelivers(m, c, Circuits.OnSendConnectAck(m.heap[c]));
    } else if FirstFree(m.used, 0).Some? {
      OpenedDelivers(m, FirstFree(m.used, 0).value, f);
    }
  }

  lemma FrameDelivers(m: Mgr, c: nat, f: L3Frame)
    requires Wired(m) && c < |m.heap| && !f.ConnectRequest?
    ensures Delivers(OnCircuitFrame(m, c, f))
  {
    hide Canonical, CallsOk, Carried, Remove, Circuits.OnInformation, Circuits.OnInformationAck, Circuits.OnConnectAck,
         Circuits.OnDisconnectRequest, Circuits.OnDisconnectAck;
    var core := m.heap[c];
    QuietSteps(core, f);
    match f
    case Information(_, _) =>
      InformationSends(core, f);
      ApplyDelivers(m, c, Circuits.OnInformation(core, f));
    case Disconnect(_) =>
      DisconnectSends(core);
      RemoveWired(Updated(m, c, Circuits.OnDisconnectRequest(core).core), c);
      RemoveWired(Updated(m, c, Circuits.OnDisconnectAck(core)), c);
    case _ =>
  }

  lemma PlacedDelivers(m: Mgr, idx: byte, dest: string, user: string, proposed: int)
    requires Wired(m) && Canonical(dest) && Canonical(user)
    ensures Delivers(Placed(m, idx, dest, user, proposed))
  {
    hide Canonical, Circuits.ClampWindow;
  }

  lemma QuietDelivers(m: Mgr, e: Event)
    requires Rooted(m) && Wired(m) && Enabled(m, e)
    requires e.OriginateResumes? || e.GuardFires? || e.Link?
    ensures Delivers(Step(m, e))
  {
    hide Canonical, CallsOk, Remove, Circuits.OnGuard, Circuits.SetClosed;
    match e
    case OriginateResumes(c) => RemoveWired(m.(awaiting := m.awaiting - {c}), c);
    case GuardFires(c) =>
      QuietSteps(m.heap[c], Circuits.DiscReqFrame(m.heap[c]));
      assert Wired(Updated(m, c, Circuits.OnGuard(m.heap[c])));
      RemoveWired(Updated(m, c, Circuits.OnGuard(m.heap[c])), c);
    case Link(_) =>
      forall i | 0 <= i < |m.heap| ensures CallsOk(Circuits.SetClosed(m.heap[i])) {
        QuietSteps(m.heap[i], Circuits.DiscReqFrame(m.heap[i]));
      }
  }

  lemma StepDelivers(m: Mgr, e: Event)
    requires Rooted(m) && Wired(m) && Proper(e)
    ensures Delivers(Step(m, e))
  {
    hide Canonical, CallsOk, Carried, OnConnectRequest, OnCircuitFrame, Placed, FirstFree, SessionEffect, Apply;
    if Enabled(m, e) {
      match e
      case Dispatch(f) =>
        if f.ConnectRequest? {
          RequestDelivers(m, f);
        } else if (f.header.circuitIdx, f.header.circuitId) in m.byLocal {
          FrameDelivers(m, m.byLocal[(f.header.circuitIdx, f.header.circuitId)], f);
        }
      case Originate(dest, user, proposed) =>
        if FirstFree(m.used, 0).Some? {
          PlacedDelivers(m, FirstFree(m.used, 0).value, dest, user, proposed);
        }
      case Session(c, act) =>
        SessionSends(m.heap[c], act);
        ApplyDelivers(m, c, SessionEffect(m.heap[c], act));
      case _ => QuietDelivers(m, e);
    }
  }

  /** In every run that starts with canonical callsigns and is given only such, the far end
      decodes each frame that was sent to the very frame that was meant, and its classifier
      recognises it. */
  lemma {:induction false} SentIsUnderstood(m: Mgr, es: seq<Event>)
    requires Rooted(m) && Wired(m) && forall i :: 0 <= i < |es| ==> Proper(es[i])
    ensures forall f :: f in Sent(m, es) ==>
              EncodeFrame(f).Some? && DecodeFrame(EncodeFrame(f).value) == Some(f) && LooksLikeL3(EncodeFrame(f).value)
    decreases |es|
  {
    hide Canonical, Carried, Wired, Proper, Rooted, Step, EncodeFrame, DecodeFrame, LooksLikeL3;
    if es != [] {
      StepRooted(m, es[0]);
      StepDelivers(m, es[0]);
      SentIsUnderstood(Step(m, es[0]).m, es[1..]);
      forall f | f in Step(m, es[0]).out
        ensures EncodeFrame(f).Some? && DecodeFrame(EncodeFrame(f).value) == Some(f) && LooksLikeL3(EncodeFrame(f).value)
      {
        assert Carried(f);
        CarriedIsUnderstood(f);
      }
    }
  }

  lemma CarriedIsUnderstood(f: L3Frame)
    requires Carried(f)
    ensures EncodeFrame(f).Some? && DecodeFrame(EncodeFrame(f).value) == Some(f) && LooksLikeL3(EncodeFrame(f).value)
  {
    hide CanonicalFrame, EncodeFrame, DecodeFrame, LooksLikeL3;
    FrameRoundTrip(f);
    OwnFramesAreRecognised(f);
  }
}

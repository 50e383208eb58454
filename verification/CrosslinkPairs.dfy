/** Each connection of a crosslink runs as the two-endpoint system does, whatever the others do:
    what is proved of one pair of circuits holds of every pair that shares the crosslink. */
module CrosslinkPairs {
  import opened Prelude
  import opened Frames
  import opened Circuit
  import opened ManagerSteps
  import opened ManagerLifecycle
  import opened ManagerPairing
  import opened ManagerTables
  import opened Crosslink
  import opened CrosslinkAgreement
  import Pairs = CircuitPair
  import PairTheorems

  // ---------- Sessions and timers ----------

  predicate SameStation(c: Core, d: Core)
  {
    (c.localIdx, c.localId, c.localCall, c.mtu) == (d.localIdx, d.localId, d.localCall, d.mtu)
  }

  function ActOf(act: SessionAct): Pairs.Act
  {
    match act
    case SessionEnds => Pairs.SessionEnds
    case WriterCloses => Pairs.CloseWriter
    case Writes(data) => Pairs.Write(data)
    case Drains => Pairs.Drain
  }

  lemma SessionKeepsStation(c: Core, act: SessionAct)
    ensures SameStation(SessionEffect(c, act).core, c)
  {
    hide Fragments;
  }

  /** The two-endpoint system does to one end what the session does to its circuit. */
  lemma SessionActs(v: Pairs.System, act: SessionAct)
    requires v.a.born && v.a.core.state != AwaitingConnect && (act.Drains? ==> CanDrain(v.a.core))
    ensures var w := Pairs.StepA(v, ActOf(act)); var e := SessionEffect(v.a.core, act);
      && w.a.core == e.core && w.a.live == v.a.live && w.a.born && w.b == v.b && w.ba == v.ba
      && Plain(w.ab) == Plain(v.ab) + e.out
      && (!act.Writes? || e.core == v.a.core ==> w.a.wrote == v.a.wrote && w.a.modest == v.a.modest)
      && (act.Writes? && e.core != v.a.core ==>
            && w.a.wrote == v.a.wrote + act.data
            && w.a.modest == (v.a.modest && |act.data| <= MAX_REASSEMBLY_BYTES))
  {
    hide Fragments, Plain;
    PlainTagged(v.ab, SessionEffect(v.a.core, act).out, v.a.got);
    assert Plain(v.ab) + [] == Plain(v.ab);
  }

  lemma SessionSteps(m: Mgr, c: nat, act: SessionAct)
    requires Rooted(m) && Allowed(m, Session(c, act))
    ensures var e := SessionEffect(m.heap[c], act);
      Step(m, Session(c, act)) == Outcome(m.(heap := m.heap[c := e.core]), e.out)
  {
    hide SessionEffect;
  }

  /** What stands in the tables and the heap for connection k, and which end placed it. */
  lemma NodeOf(n: Net, ts: seq<Track>, c: nat) returns (k: nat, v: Pairs.System)
    requires Linked(n, ts) && c < |n.x.m.heap|
    ensures |n.x.records| == |n.x.m.heap|
    ensures k == n.x.records[c].conn < n.count == |ts| && v == ts[k].Facing(k in n.x.placed) && Agrees(n, k, v) && Pairs.Inv(v)
    ensures v.a.originator == (k in n.x.placed)
    ensures v.a.born && v.a.core == n.x.m.heap[c] && v.a.live == Listed(n.x.m, c)
    ensures v.a.wrote == n.x.records[c].wrote && v.a.modest == n.x.records[c].modest
    ensures Alive(n.x.m)
  {
    hide Alive, Over, Listed, ApartAt, Tagged, Pairs.Inv, Track.Facing, Of, Plain;
    k := n.x.records[c].conn;
    v := ts[k].Facing(k in n.x.placed);
    assert Agrees(n, k, v);
    FacingInv(ts[k], k in n.x.placed);
    AtOwn(n.x.records, c);
  }

  function WroteAfter(d: Side, c: nat, core: Core, act: SessionAct): Record
    requires c < |d.records| == |d.m.heap|
  {
    var r := d.records[c];
    if act.Writes? && core != d.m.heap[c] then
      r.(wrote := r.wrote + act.data, modest := r.modest && |act.data| <= MAX_REASSEMBLY_BYTES)
    else r
  }

  lemma SessionNet(n: Net, c: nat, act: SessionAct)
    requires Rooted(n.x.m) && Allowed(n.x.m, Session(c, act)) && |n.x.records| == |n.x.m.heap|
    ensures var e := SessionEffect(n.x.m.heap[c], act);
      DoX(n, Session(c, act))
      == n.(x := n.x.(m := n.x.m.(heap := n.x.m.heap[c := e.core]),
                      records := n.x.records[c := WroteAfter(n.x, c, e.core, act)]),
            xy := n.xy + SentBy(e.out, n.x.records[c].conn))
  {
    hide Step, SessionEffect, SentBy;
    SessionSteps(n.x.m, c, act);
    assert n.x.records[c := n.x.records[c]] == n.x.records;
  }

  lemma SessionStays(c: Core, act: SessionAct)
    ensures SessionEffect(c, act).core.state in {c.state, Disconnecting}
  {
    hide Fragments;
  }

  lemma SessionTouches(n: Net, c: nat, act: SessionAct)
    requires Rooted(n.x.m) && Allowed(n.x.m, Session(c, act)) && |n.x.records| == |n.x.m.heap| && Justified(n.x.m, c)
    ensures var t := DoX(n, Session(c, act)); Touches(n.x, t.x, c) && SameTables(n.x.m, t.x.m)
  {
    hide Step, SessionEffect, SentBy, DoX;
    SessionNet(n, c, act);
    SessionStays(n.x.m.heap[c], act);
    SessionKeepsStation(n.x.m.heap[c], act);
  }

  lemma JustifiedAt(n: Net, ts: seq<Track>, c: nat)
    requires Linked(n, ts) && c < |n.x.m.heap|
    ensures Justified(n.x.m, c)
  {
  }

  lemma SessionKeeps(n: Net, ts: seq<Track>, c: nat, act: SessionAct) returns (us: seq<Track>)
    requires Linked(n, ts) && Allowed(n.x.m, Session(c, act))
    ensures Linked(DoX(n, Session(c, act)), us)
  {
    hide Linked, Agrees, Step, SessionEffect, SentBy, DoX, Touches, SameTables, DropsFrom, Alive, Over, Listed, Pairs.Inv,
         Track.Facing, Plain, Pairs.StepA, Rooted;
    var k, v := NodeOf(n, ts, c);
    assert Rooted(n.x.m) by { AliveIsRooted(n.x.m); }
    var t := DoX(n, Session(c, act));
    var e := SessionEffect(n.x.m.heap[c], act);
    SessionNet(n, c, act);
    JustifiedAt(n, ts, c);
    SessionTouches(n, c, act);
    SessionActs(v, act);
    SessionSteps(n.x.m, c, act);
    StepLawful(n.x.m, Session(c, act));
    SessionKeepsStation(v.a.core, act);
    SameTablesList(n.x.m, t.x.m, c);
    us := Continued(ts, k, k in n.x.placed, Some(ActOf(act)));
    CircuitKeeps(n, t, ts, c, e.out, false, Some(ActOf(act)));
  }

  lemma RemoveParts(m: Mgr, c: nat)
    requires c < |m.heap|
    ensures var t := Remove(m, c);
      t.heap == m.heap && t.awaiting == m.awaiting && t.localCall == m.localCall && t.mtu == m.mtu
  {
  }

  lemma SilentStep(n: Net, o: Outcome, k: nat)
    requires |o.m.heap| == |n.x.records| && o.out == []
    ensures Stepped(n, o, k) == n.(x := n.x.(m := o.m))
  {
    assert n.xy + SentBy([], k) == n.xy;
  }

  lemma GuardActs(v: Pairs.System)
    requires v.a.core.guardArmed
    ensures Pairs.StepA(v, Pairs.GuardFires)
            == v.(a := v.a.(core := OnGuard(v.a.core), live := v.a.live && v.a.core.state != Disconnecting))
  {
  }

  lemma GuardStation(c: Core)
    ensures SameStation(OnGuard(c), c)
    ensures OnGuard(c).state == if c.state == Disconnecting then Closed else c.state
  {
  }

  /** An end that is no longer listed is closed, or a call that was given up. */
  lemma UnlistedIsQuiet(v: Pairs.System)
    requires Pairs.Inv(v) && v.a.born && !v.a.live
    ensures v.a.core.state in {Closed, AwaitingConnect} && (v.a.core.guardArmed ==> v.a.core.state == Disconnecting)
  {
    hide Pairs.Flow, Pairs.Sender, Pairs.Handshake;
  }

  lemma GuardTouches(n: Net, c: nat)
    requires SideOk(n.x, n.count) && Enabled(n.x.m, GuardFires(c))
    ensures var m := n.x.m; var t := DoX(n, GuardFires(c)); var closes := m.heap[c].state == Disconnecting;
      && t == n.(x := n.x.(m := t.x.m)) && Touches(n.x, t.x, c)
      && t.x.m.heap[c] == OnGuard(m.heap[c])
      && (if closes then DropsFrom(m, t.x.m, c) else SameTables(m, t.x.m))
  {
    hide OnGuard, Remove, Listed, LocalKey, RemoteKey, Alive;
    assert Rooted(n.x.m) by { AliveIsRooted(n.x.m); }
    hide Rooted;
    var m := n.x.m;
    var m1 := Updated(m, c, OnGuard(m.heap[c]));
    DiscKeepsKeys(m.heap[c]);
    GuardStation(m.heap[c]);
    RemoveDrops(m, c, OnGuard(m.heap[c]));
    RemoveParts(m1, c);
    SilentStep(n, Outcome(OnGuardFires(m, c), []), n.x.records[c].conn);
    ChangeListing(m, OnGuardFires(m, c), c, m.heap[c].state == Disconnecting);
    assert Justified(m, c);
  }

  lemma ChangeListing(m: Mgr, t: Mgr, c: nat, drops: bool)
    requires c < |m.heap| == |t.heap| && LocalKey(t.heap[c]) == LocalKey(m.heap[c])
    requires if drops then DropsFrom(m, t, c) else SameTables(m, t)
    ensures Listed(t, c) == (Listed(m, c) && !drops)
  {
  }

  lemma GuardKeeps(n: Net, ts: seq<Track>, c: nat) returns (us: seq<Track>)
    requires Linked(n, ts) && Enabled(n.x.m, GuardFires(c))
    ensures Linked(DoX(n, GuardFires(c)), us)
  {
    hide Agrees, Step, SentBy, DoX, SameTables, DropsFrom, Alive, Over, Listed, Pairs.Inv, Rooted, OnGuard,
         Track.Facing, Plain, Pairs.StepA, SideOk, LocalKey, Linked;
    var k, v := NodeOf(n, ts, c);
    assert SideOk(n.x, n.count) by { LinkedSide(n, ts); }
    assert Rooted(n.x.m) by { AliveIsRooted(n.x.m); }
    var t := DoX(n, GuardFires(c));
    var closes := v.a.core.state == Disconnecting;
    GuardTouches(n, c);
    GuardActs(v);
    GuardStation(v.a.core);
    StepLawful(n.x.m, GuardFires(c));
    DoesStep(n, GuardFires(c));
    ChangeListing(n.x.m, t.x.m, c, closes);
    if !v.a.live {
      UnlistedIsQuiet(v);
    } else {
      ListedIsNotOver(n, c);
    }
    us := Continued(ts, k, k in n.x.placed, Some(Pairs.GuardFires));
    NoneSent(n.xy, k);
    NoMore(Plain(v.ab));
    CircuitKeeps(n, t, ts, c, [], false, Some(Pairs.GuardFires));
  }

  lemma NoneSent(link: seq<Sent>, k: nat)
    ensures link == link + SentBy([], k)
  {
  }

  lemma NoMore(fs: seq<L3Frame>)
    ensures fs == fs + []
  {
  }

  lemma LinkedSide(n: Net, ts: seq<Track>)
    requires Linked(n, ts)
    ensures SideOk(n.x, n.count)
  {
  }

  /** The manager's own step is what an end does. */
  lemma DoesStep(n: Net, e: Event)
    requires Rooted(n.x.m) && Allowed(n.x.m, e)
    ensures DoX(n, e).x.m == Step(n.x.m, e).m
  {
    hide Step, SentBy;
  }

  // ---------- The call returns ----------

  lemma ReturnActs(v: Pairs.System)
    requires v.a.originator && v.a.live && v.a.core.state in {AwaitingConnect, Closed}
    ensures Pairs.StepA(v, Pairs.OriginateReturns) == v.(a := v.a.(live := false))
  {
  }

  lemma ResumeTouches(n: Net, c: nat)
    requires SideOk(n.x, n.count) && Enabled(n.x.m, OriginateResumes(c))
    ensures var m := n.x.m; var t := DoX(n, OriginateResumes(c));
      && t == n.(x := n.x.(m := t.x.m)) && Touches(n.x, t.x, c)
      && t.x.m.heap == m.heap
      && (if m.heap[c].state != Connected then DropsFrom(m, t.x.m, c) else SameTables(m, t.x.m))
  {
    hide Remove, Listed, LocalKey, RemoteKey, Alive;
    assert Rooted(n.x.m) by { AliveIsRooted(n.x.m); }
    hide Rooted;
    var m := n.x.m;
    var m1 := m.(awaiting := m.awaiting - {c});
    assert Updated(m1, c, m1.heap[c]) == m1;
    RemoveDrops(m1, c, m1.heap[c]);
    RemoveParts(m1, c);
    SilentStep(n, Outcome(OnOriginateResumes(m, c), []), n.x.records[c].conn);
    ChangeListing(m, OnOriginateResumes(m, c), c, m.heap[c].state != Connected);
  }

  lemma ResumeKeeps(n: Net, ts: seq<Track>, c: nat) returns (us: seq<Track>)
    requires Linked(n, ts) && Enabled(n.x.m, OriginateResumes(c))
    ensures Linked(DoX(n, OriginateResumes(c)), us)
  {
    hide Agrees, Step, SentBy, DoX, SameTables, DropsFrom, Alive, Over, Listed, Pairs.Inv, Rooted,
         Track.Facing, Plain, Pairs.StepA, SideOk, LocalKey, Linked;
    var k, v := NodeOf(n, ts, c);
    assert SideOk(n.x, n.count) by { LinkedSide(n, ts); }
    assert Rooted(n.x.m) by { AliveIsRooted(n.x.m); }
    AwaitingCall(n, c);
    var t := DoX(n, OriginateResumes(c));
    ResumeTouches(n, c);
    StepLawful(n.x.m, OriginateResumes(c));
    DoesStep(n, OriginateResumes(c));
    ChangeListing(n.x.m, t.x.m, c, v.a.core.state != Connected);
    ListedIsNotOver(n, c);
    NoneSent(n.xy, k);
    NoMore(Plain(v.ab));
    if v.a.core.state != Connected && v.a.live {
      ReturnActs(v);
      us := Continued(ts, k, k in n.x.placed, Some(Pairs.OriginateReturns));
      CircuitKeeps(n, t, ts, c, [], false, Some(Pairs.OriginateReturns));
    } else {
      us := ts;
      CircuitKeeps(n, t, ts, c, [], false, None);
    }
  }

  lemma AwaitingCall(n: Net, c: nat)
    requires SideOk(n.x, n.count) && c in n.x.m.awaiting
    ensures c < |n.x.m.heap| && c < |n.x.records| && n.x.records[c].conn in n.x.placed
    ensures n.x.m.heap[c].state in {AwaitingConnect, Connected, Closed}
  {
  }

  // ---------- Frames ----------

  function FrameEffect(c: Core, f: L3Frame): Effect
    requires !f.ConnectRequest?
  {
    match f
    case Information(_, _) => OnInformation(c, f)
    case InformationAck(_) => Effect(OnInformationAck(c, f), [])
    case ConnectAck(_, _, _) => Effect(OnConnectAck(c, f), [])
    case Disconnect(_) => if Pairs.IsDiscReq(f) then OnDisconnectRequest(c) else Effect(OnDisconnectAck(c), [])
  }

  function KeyOf(f: L3Frame): Key { (f.header.circuitIdx, f.header.circuitId) }

  /** What comes in is addressed to this end's circuit, or is the request that opens it. */
  lemma HeadAddressed(v: Pairs.System)
    requires Pairs.Inv(v) && v.ba != []
    ensures v.a.born ==> !v.ba[0].frame.ConnectRequest? && KeyOf(v.ba[0].frame) == LocalKey(v.a.core)
    ensures !v.a.born ==>
      && !v.a.originator && v.b.born && |v.ba| == 1 && v.ba[0].frame == ConnectReqFrame(v.b.core, v.b.core.window)
  {
    hide Pairs.Flow, Pairs.Sender, Pairs.Teardown;
  }

  lemma FrameActs(v: Pairs.System)
    requires v.a.born && v.ba != [] && !v.ba[0].frame.ConnectRequest? && KeyOf(v.ba[0].frame) == LocalKey(v.a.core)
    ensures var w := Pairs.StepA(v, Pairs.Receive(None)); var f := v.ba[0].frame; var e := FrameEffect(v.a.core, f);
      && w.b == v.b && w.ba == v.ba[1..] && w.a.born && w.a.wrote == v.a.wrote && w.a.modest == v.a.modest
      && w.a.core == (if v.a.live then e.core else v.a.core)
      && w.a.live == (v.a.live && !f.Disconnect?)
      && Plain(w.ab) == Plain(v.ab) + if v.a.live then e.out else []
  {
    hide OnInformation, OnInformationAck, OnConnectAck, OnDisconnectRequest, OnDisconnectAck, Plain;
    var f := v.ba[0].frame;
    if v.a.live {
      FrameActsLive(v);
    }
    NoMore(Plain(v.ab));
  }

  lemma FrameActsLive(v: Pairs.System)
    requires v.a.live && v.ba != [] && !v.ba[0].frame.ConnectRequest? && KeyOf(v.ba[0].frame) == LocalKey(v.a.core)
    ensures var w := Pairs.StepA(v, Pairs.Receive(None)); var e := FrameEffect(v.a.core, v.ba[0].frame);
      w.a.core == e.core && Plain(w.ab) == Plain(v.ab) + e.out
  {
    hide OnInformation, OnInformationAck, OnConnectAck, OnDisconnectRequest, OnDisconnectAck, Plain;
    PlainTagged(v.ab, FrameEffect(v.a.core, v.ba[0].frame).out, Pairs.StepA(v, Pairs.Receive(None)).a.got);
    NoMore(Plain(v.ab));
  }

  lemma FrameStation(c: Core, f: L3Frame)
    requires !f.ConnectRequest?
    ensures SameStation(FrameEffect(c, f).core, c)
    ensures c.state in {AwaitingConnect, Connected, Closed} ==>
      FrameEffect(c, f).core.state in {AwaitingConnect, Connected, Closed}
    ensures !f.Disconnect? && FrameEffect(c, f).core.state in {AwaitingConnect, Closed} ==> c.state in {AwaitingConnect, Closed}
  {
    hide Absorb, FeedRaises;
  }

  lemma StationKeys(c: Core, f: L3Frame)
    requires !f.ConnectRequest?
    ensures var d := FrameEffect(c, f).core; LocalKey(d) == LocalKey(c) && d.localCall == c.localCall && d.mtu == c.mtu
  {
    hide FrameEffect;
    FrameStation(c, f);
  }

  lemma FrameSteps(m: Mgr, c: nat, f: L3Frame)
    requires Rooted(m) && Listed(m, c) && !f.ConnectRequest? && KeyOf(f) == LocalKey(m.heap[c])
    ensures var o := Step(m, Dispatch(f)); var e := FrameEffect(m.heap[c], f);
      && o.out == e.out && o.m.heap == m.heap[c := e.core]
      && o.m.awaiting == m.awaiting && o.m.localCall == m.localCall && o.m.mtu == m.mtu
      && (if f.Disconnect? then DropsFrom(m, o.m, c) else SameTables(m, o.m))
  {
    hide OnInformation, OnInformationAck, OnConnectAck, OnDisconnectRequest, OnDisconnectAck, Remove, LocalKey, DropsFrom;
    FrameChanges(m, c, f);
    if f.Disconnect? {
      RemoveParts(Updated(m, c, FrameEffect(m.heap[c], f).core), c);
    }
    assert OnDispatch(m, f) == OnCircuitFrame(m, c, f);
    hide OnDispatch;
  }

  lemma StrangeFrame(m: Mgr, f: L3Frame)
    requires Rooted(m) && KeyOf(f) !in m.byLocal && !f.ConnectRequest?
    ensures Step(m, Dispatch(f)) == Outcome(m, [])
  {
  }

  /** The head of the incoming link, and its connection. */
  lemma HeadOf(n: Net, ts: seq<Track>) returns (k: nat, v: Pairs.System)
    requires Linked(n, ts) && n.yx != []
    ensures k == n.yx[0].conn < n.count == |ts| && v == ts[k].Facing(k in n.x.placed) && Agrees(n, k, v) && Pairs.Inv(v)
    ensures v.a.originator == (k in n.x.placed)
    ensures v.ba != [] && v.ba[0].frame == n.yx[0].frame && !Over(n, k)
    ensures SideOk(n.x, n.count) && Alive(n.x.m) && Rooted(n.x.m)
  {
    hide Listed, ApartAt, Pairs.Inv, Track.Facing, LocalKey;
    k := n.yx[0].conn;
    v := ts[k].Facing(k in n.x.placed);
    assert Agrees(n, k, v);
    FacingInv(ts[k], k in n.x.placed);
    assert Of(n.yx, k)[0] == n.yx[0].frame;
    assert Plain(v.ba)[0] == v.ba[0].frame;
  }

  /** The key of a frame in flight finds its own circuit or none. */
  lemma KeyFinds(n: Net, ts: seq<Track>, c: nat, key: Key)
    requires Linked(n, ts) && c < |n.x.m.heap| && key == LocalKey(n.x.m.heap[c])
    requires |n.x.records| == |n.x.m.heap| && !Over(n, n.x.records[c].conn)
    ensures key in n.x.m.byLocal ==> Listed(n.x.m, c)
  {
    hide Over, Agrees, LocalKey, Track.Facing;
    if key in n.x.m.byLocal {
      var d := n.x.m.byLocal[key];
      assert Listed(n.x.m, d) && LocalKey(n.x.m.heap[d]) == key;
      ListedIsNotOver(n, d);
      assert d == c;
    }
  }

  lemma ReceivedNet(n: Net, c: nat, f: L3Frame)
    requires n.yx != [] && f == n.yx[0].frame && Rooted(n.x.m) && c < |n.x.m.heap| == |n.x.records|
    requires !f.ConnectRequest? && KeyOf(f) == LocalKey(n.x.m.heap[c])
    requires KeyOf(f) in n.x.m.byLocal ==> Listed(n.x.m, c)
    ensures var t := ReceiveX(n); var o := Step(n.x.m, Dispatch(f));
      && t == n.(x := n.x.(m := o.m), xy := n.xy + SentBy(o.out, n.yx[0].conn), yx := n.yx[1..])
      && o.out == (if Listed(n.x.m, c) then FrameEffect(n.x.m.heap[c], f).out else [])
  {
    hide Step, SentBy, LocalKey, FrameEffect;
    if Listed(n.x.m, c) {
      FrameSteps(n.x.m, c, f);
    } else {
      StrangeFrame(n.x.m, f);
    }
  }

  lemma ReceivedListing(m: Mgr, c: nat, f: L3Frame)
    requires Rooted(m) && Listed(m, c) && !f.ConnectRequest? && KeyOf(f) == LocalKey(m.heap[c]) && Justified(m, c)
    ensures |Step(m, Dispatch(f)).m.heap| == |m.heap| && Justified(Step(m, Dispatch(f)).m, c)
  {
    hide Step, FrameEffect, LocalKey, SameTables, DropsFrom, Rooted, SameStation;
    FrameSteps(m, c, f);
    StationKeys(m.heap[c], f);
    FrameStation(m.heap[c], f);
    ChangeListing(m, Step(m, Dispatch(f)).m, c, f.Disconnect?);
  }

  lemma ReceiveTouches(n: Net, c: nat, f: L3Frame)
    requires n.yx != [] && f == n.yx[0].frame && SideOk(n.x, n.count) && c < |n.x.m.heap|
    requires !f.ConnectRequest? && KeyOf(f) == LocalKey(n.x.m.heap[c])
    requires KeyOf(f) in n.x.m.byLocal ==> Listed(n.x.m, c)
    ensures Rooted(n.x.m)
    ensures var t := ReceiveX(n); var m := n.x.m; var drops := Listed(m, c) && f.Disconnect?;
      && Touches(n.x, t.x, c)
      && t.x.m.heap[c] == (if Listed(m, c) then FrameEffect(m.heap[c], f).core else m.heap[c])
      && (if drops then DropsFrom(m, t.x.m, c) else SameTables(m, t.x.m))
  {
    hide Step, SentBy, LocalKey, FrameEffect, Alive, ReceiveX, SameStation;
    assert Rooted(n.x.m) by { AliveIsRooted(n.x.m); }
    hide Rooted, Listed, DropsFrom, SameTables;
    ReceivedNet(n, c, f);
    assert Justified(n.x.m, c);
    if Listed(n.x.m, c) {
      FrameSteps(n.x.m, c, f);
      ReceivedListing(n.x.m, c, f);
      StationKeys(n.x.m.heap[c], f);
      FrameStation(n.x.m.heap[c], f);
    } else {
      StrangeFrame(n.x.m, f);
    }
  }

  lemma FrameKeeps(n: Net, ts: seq<Track>, c: nat) returns (us: seq<Track>)
    requires Linked(n, ts) && n.yx != [] && At(n.x.records, n.yx[0].conn) == Some(c)
    ensures Rooted(n.x.m) && Linked(ReceiveX(n), us)
  {
    hide Agrees, Step, SentBy, ReceiveX, SameTables, DropsFrom, Alive, Over, Listed, Pairs.Inv, Rooted, FrameEffect,
         Track.Facing, Plain, Pairs.StepA, SideOk, LocalKey, Linked;
    var k, v := HeadOf(n, ts);
    var f := n.yx[0].frame;
    assert |n.x.records| == |n.x.m.heap| by { SideSizes(n.x, n.count); }
    var k', v' := NodeOf(n, ts, c);
    HeadAddressed(v);
    KeyFinds(n, ts, c, KeyOf(f));
    ReceivedNet(n, c, f);
    ReceiveTouches(n, c, f);
    FrameActs(v);
    FrameStation(v.a.core, f);
    StepLawful(n.x.m, Dispatch(f));
    var t := ReceiveX(n);
    ChangeListing(n.x.m, t.x.m, c, v.a.live && f.Disconnect?);
    us := Continued(ts, k, k in n.x.placed, Some(Pairs.Receive(None)));
    CircuitKeeps(n, t, ts, c, if v.a.live then FrameEffect(v.a.core, f).out else [], true, Some(Pairs.Receive(None)));
  }

  lemma SideSizes(d: Side, count: nat)
    requires SideOk(d, count)
    ensures |d.records| == |d.m.heap|
  {
  }

  // ---------- Requests ----------

  lemma PartnerKeys(v: Pairs.System)
    requires Pairs.Inv(v) && !v.a.originator
    ensures v.b.born && (v.a.born ==> RemoteKey(v.a.core) == LocalKey(v.b.core))
    ensures !v.a.born ==> v.a.wrote == [] && v.a.modest && !v.a.live
  {
    hide Pairs.Flow, Pairs.Sender, Pairs.Teardown;
  }

  lemma FarNode(n: Net, ts: seq<Track>, k: nat) returns (j: nat)
    requires Linked(n, ts) && k < n.count && ts[k].Facing(k in n.x.placed).b.born
    ensures j < |n.y.m.heap| == |n.y.records| && n.y.records[j].conn == k
    ensures ts[k].Facing(k in n.x.placed).b.core == n.y.m.heap[j]
  {
    hide Alive, Over, Listed, ApartAt, Tagged, Track.Facing, Of, Plain;
    assert Agrees(n, k, ts[k].Facing(k in n.x.placed));
    j := At(n.y.records, k).value;
  }

  lemma RequestFrameKey(c: Core, w: byte)
    ensures KeyOf(ConnectReqFrame(c, w)) == LocalKey(c) && ConnectReqFrame(c, w).ConnectRequest?
  {
  }

  /** A request on its way repeats no key that is still listed. */
  lemma RequestIsNew(n: Net, ts: seq<Track>)
    requires Linked(n, ts) && n.yx != [] && At(n.x.records, n.yx[0].conn) == None
    ensures KeyOf(n.yx[0].frame) !in n.x.m.byRemote
  {
    hide Agrees, Alive, Over, Listed, Pairs.Inv, Rooted, Track.Facing, LocalKey, RemoteKey, Linked, SideOk, ApartAt;
    var k, v := HeadOf(n, ts);
    UnbornHead(n, ts, k, v);
    HeadAddressed(v);
    RequestFrameKey(v.b.core, v.b.core.window);
    var key := KeyOf(n.yx[0].frame);
    if key in n.x.m.byRemote {
      var i := n.x.m.byRemote[key];
      ListedRemotely(n, key);
      var q, w := NodeOf(n, ts, i);
      PartnerKeys(w);
      ListedIsNotOver(n, i);
      var j := FarNode(n, ts, k);
      var j' := FarNode(n, ts, q);
      FarApart(n, ts, j, j');
    }
  }

  lemma UnbornHead(n: Net, ts: seq<Track>, k: nat, v: Pairs.System)
    requires Agrees(n, k, v) && At(n.x.records, k) == None
    ensures !v.a.born && v.a.core.localCall == n.x.m.localCall && v.a.core.mtu == n.x.m.mtu
  {
    hide Listed, Of, Plain;
  }

  lemma ListedRemotely(n: Net, key: Key)
    requires SideOk(n.x, n.count) && key in n.x.m.byRemote
    ensures var i := n.x.m.byRemote[key];
      && i < |n.x.m.heap| == |n.x.records| && Listed(n.x.m, i) && RemoteKey(n.x.m.heap[i]) == key
      && n.x.records[i].conn !in n.x.placed
  {
    hide Listed;
  }

  lemma FarApart(n: Net, ts: seq<Track>, i: nat, j: nat)
    requires Linked(n, ts) && i < |n.y.m.heap| && j < |n.y.m.heap| && |n.y.records| == |n.y.m.heap|
    requires LocalKey(n.y.m.heap[i]) == LocalKey(n.y.m.heap[j])
    requires !Over(n, n.y.records[i].conn) && !Over(n, n.y.records[j].conn)
    ensures i == j
  {
    hide Over, LocalKey, SideOk, Agrees, Tagged, Track.Facing;
  }

  // ---------- A new circuit ----------

  /** One more circuit at x, of connection k: answered, or placed. */
  predicate Adds(n: Net, t: Net, k: nat, core: Core, calls: bool)
  {
    && t.y == n.y && |n.x.records| == |n.x.m.heap| && At(n.x.records, k) == None
    && t.x.m.heap == n.x.m.heap + [core] && t.x.records == n.x.records + [Record(k, [], true)]
    && t.x.m.byLocal == n.x.m.byLocal[LocalKey(core) := |n.x.m.heap|]
    && (t.x.m.localCall, t.x.m.mtu) == (n.x.m.localCall, n.x.m.mtu)
    && (if calls then
          && t.x.m.byRemote == n.x.m.byRemote && t.x.placed == n.x.placed + {k} && core.state == AwaitingConnect
          && t.x.m.awaiting == n.x.m.awaiting + {|n.x.m.heap|} && k == n.count && t.count == n.count + 1
        else
          && t.x.m.byRemote == n.x.m.byRemote[RemoteKey(core) := |n.x.m.heap|] && t.x.placed == n.x.placed
          && t.x.m.awaiting == n.x.m.awaiting && k < n.count == t.count && k !in n.x.placed && core.state == Connected)
    && forall i :: 0 <= i < |n.x.m.heap| && LocalKey(n.x.m.heap[i]) == LocalKey(core) ==> Over(n, n.x.records[i].conn)
  }

  lemma AddedListing(n: Net, t: Net, k: nat, core: Core, calls: bool, i: nat)
    requires SideOk(n.x, n.count) && Adds(n, t, k, core, calls) && i < |n.x.m.heap|
    ensures Listed(t.x.m, i) == Listed(n.x.m, i)
  {
    if Listed(n.x.m, i) {
      ListedIsNotOver(n, i);
    }
    hide Over, Alive, LocalKey;
  }

  lemma AddMoves(n: Net, t: Net, k: nat, core: Core, calls: bool)
    requires SideOk(n.x, n.count) && Adds(n, t, k, core, calls)
    requires forall q :: q != k ==> Of(t.xy, q) == Of(n.xy, q) && Of(t.yx, q) == Of(n.yx, q)
    ensures Moved(n, t, k)
  {
    hide Over, LocalKey, Alive, Listed, At;
    forall i | 0 <= i < |n.x.records| ensures Listed(t.x.m, i) == Listed(n.x.m, i) {
      AddedListing(n, t, k, core, calls, i);
    }
  }

  lemma AddSideOk(n: Net, t: Net, k: nat, core: Core, calls: bool)
    requires SideOk(n.x, n.count) && Adds(n, t, k, core, calls) && Alive(t.x.m)
    ensures SideOk(t.x, t.count) && Listed(t.x.m, |n.x.m.heap|)
  {
    hide Over, LocalKey, RemoteKey, At;
    assert Listed(t.x.m, |n.x.m.heap|);
    forall i | 0 <= i < |n.x.records| ensures Listed(t.x.m, i) == Listed(n.x.m, i) {
      AddedListing(n, t, k, core, calls, i);
    }
    hide Listed;
    AddedJustified(n, t, k, core, calls);
  }

  lemma AddedJustified(n: Net, t: Net, k: nat, core: Core, calls: bool)
    requires SideOk(n.x, n.count) && Adds(n, t, k, core, calls)
    requires forall i :: 0 <= i < |n.x.records| ==> Listed(t.x.m, i) == Listed(n.x.m, i)
    ensures forall i :: 0 <= i < |t.x.m.heap| ==> Justified(t.x.m, i)
  {
    hide Over, LocalKey, RemoteKey, At, Listed, Alive;
    forall i | 0 <= i < |t.x.m.heap| ensures Justified(t.x.m, i) {
      if i < |n.x.m.heap| {
        assert Justified(n.x.m, i);
      }
    }
  }

  lemma AddedAt(n: Net, t: Net, k: nat, core: Core, calls: bool)
    requires Adds(n, t, k, core, calls)
    ensures At(t.x.records, k) == Some(|n.x.m.heap|)
  {
    assert t.x.records[..|t.x.records| - 1] == n.x.records;
    hide Over, LocalKey;
  }

  lemma NewNodeOk(n: Net, t: Net, k: nat, core: Core, calls: bool, v: Pairs.Node)
    requires Adds(n, t, k, core, calls) && Listed(t.x.m, |n.x.m.heap|)
    requires v.core == core && v.born && v.live && v.wrote == [] && v.modest
    requires core.localCall == n.x.m.localCall && core.mtu == n.x.m.mtu
    ensures NodeOk(t.x, k, v)
  {
    AddedAt(n, t, k, core, calls);
    hide Over, LocalKey, Listed, At;
  }

  /** A new circuit that the two-endpoint system has too keeps everything linked. */
  lemma NewCircuitKeeps(n: Net, t: Net, ts: seq<Track>, us: seq<Track>, k: nat, core: Core, calls: bool)
    requires Linked(n, ts) && Adds(n, t, k, core, calls) && Alive(t.x.m) && (k < n.count ==> !Over(n, k))
    requires |us| == t.count && forall q :: 0 <= q < n.count && q != k ==> us[q] == ts[q]
    requires forall q :: q != k ==> Of(t.xy, q) == Of(n.xy, q) && Of(t.yx, q) == Of(n.yx, q)
    requires Tagged(t.xy, t.count) && Tagged(t.yx, t.count)
    requires var w := us[k].Facing(calls);
      && w.a.core == core && w.a.born && w.a.live && w.a.wrote == [] && w.a.modest
      && core.localCall == n.x.m.localCall && core.mtu == n.x.m.mtu && NodeOk(n.y, k, w.b)
      && Plain(w.ab) == Of(t.xy, k) && Plain(w.ba) == Of(t.yx, k)
    requires k < n.count ==> k in n.y.placed
    ensures Linked(t, us)
  {
    hide Alive, Over, Listed, LocalKey, RemoteKey, Track.Facing, ApartAt, Tagged, Of, Plain, NodeOk, At, SideOk, Moved;
    AddMoves(n, t, k, core, calls);
    AddSideOk(n, t, k, core, calls);
    NewNodeOk(n, t, k, core, calls, us[k].Facing(calls).a);
    assert k in t.x.placed <==> calls;
    assert Agrees(t, k, us[k].Facing(calls));
    PlacedBelow(n.y, n.count);
    Relinked(n, t, ts, us, k);
  }

  lemma PlacedBelow(d: Side, count: nat)
    requires SideOk(d, count)
    ensures forall k :: k in d.placed ==> k < count
  {
  }

  // ---------- Answering ----------

  lemma RefuseActs(v: Pairs.System)
    requires !v.a.born && v.ba != [] && v.ba[0].frame.ConnectRequest?
    ensures var w := Pairs.StepA(v, Pairs.Receive(None)); var f := v.ba[0].frame;
      && w.a == v.a && w.b == v.b && w.ba == v.ba[1..]
      && Plain(w.ab) == Plain(v.ab) + [Refusal(v.a.core.localCall, f)]
  {
    hide Plain, Refusal;
    PlainTagged(v.ab, [Refusal(v.a.core.localCall, v.ba[0].frame)], v.a.got);
  }

  lemma AcceptActs(v: Pairs.System, idx: byte, id: byte)
    requires !v.a.born && v.ba != [] && v.ba[0].frame.ConnectRequest?
    ensures var w := Pairs.StepA(v, Pairs.Receive(Some((idx, id)))); var f := v.ba[0].frame;
      var e := OnSendConnectAck(Pairs.OpenedCore(v.a.core, f, idx, id));
      && w.a == v.a.(core := e.core, born := true, live := true) && w.b == v.b && w.ba == v.ba[1..]
      && Plain(w.ab) == Plain(v.ab) + e.out
  {
    hide Plain, OnSendConnectAck, Pairs.OpenedCore;
    PlainTagged(v.ab, OnSendConnectAck(Pairs.OpenedCore(v.a.core, v.ba[0].frame, idx, id)).out, v.a.got);
  }

  /** The circuit that a request opens here. */
  function Answering(m: Mgr, f: L3Frame, idx: byte): Effect
    requires f.ConnectRequest?
  {
    OnSendConnectAck(NewCore(idx, (m.nextId + 1) % 256, f.header.circuitIdx, f.header.circuitId, m.localCall, f.userCall,
                             f.originNodeCall, Connecting, ClampWindow(f.proposedWindow), m.mtu))
  }

  lemma RequestRefused(m: Mgr, f: L3Frame)
    requires Rooted(m) && f.ConnectRequest? && KeyOf(f) !in m.byRemote && FirstFree(m.used, 0).None?
    ensures Step(m, Dispatch(f)) == Outcome(m, [Refusal(m.localCall, f)])
  {
    hide Refusal, FirstFree;
    FullIffNoneFree(m);
  }

  lemma RequestAnswered(m: Mgr, f: L3Frame, idx: byte)
    requires Rooted(m) && f.ConnectRequest? && KeyOf(f) !in m.byRemote && FirstFree(m.used, 0) == Some(idx)
    ensures var o := Step(m, Dispatch(f)); var e := Answering(m, f, idx);
      && o.out == e.out && o.m.heap == m.heap + [e.core]
      && o.m.byLocal == m.byLocal[LocalKey(e.core) := |m.heap|] && o.m.byRemote == m.byRemote[RemoteKey(e.core) := |m.heap|]
      && RemoteKey(e.core) == KeyOf(f) && e.core.state == Connected
      && o.m.awaiting == m.awaiting && o.m.localCall == m.localCall && o.m.mtu == m.mtu
  {
    hide FirstFree, ClampWindow, ConnectAckFrame, Refusal;
    FullIffNoneFree(m);
    assert Step(m, Dispatch(f)) == Opened(m, idx, f) by { hide Opened; }
  }

  lemma AnsweringIs(m: Mgr, v: Pairs.System, f: L3Frame, idx: byte)
    requires f.ConnectRequest? && v.a.core.localCall == m.localCall && v.a.core.mtu == m.mtu
    ensures OnSendConnectAck(Pairs.OpenedCore(v.a.core, f, idx, (m.nextId + 1) % 256)) == Answering(m, f, idx)
    ensures Answering(m, f, idx).core.localCall == m.localCall && Answering(m, f, idx).core.mtu == m.mtu
  {
    hide ClampWindow, ConnectAckFrame;
  }

  lemma RefusedNet(n: Net)
    requires Rooted(n.x.m) && n.yx != [] && n.yx[0].frame.ConnectRequest? && |n.x.records| == |n.x.m.heap|
    requires KeyOf(n.yx[0].frame) !in n.x.m.byRemote && FirstFree(n.x.m.used, 0).None?
    ensures ReceiveX(n) == n.(xy := n.xy + SentBy([Refusal(n.x.m.localCall, n.yx[0].frame)], n.yx[0].conn), yx := n.yx[1..])
  {
    hide Step, FirstFree, Refusal, SentBy;
    RequestRefused(n.x.m, n.yx[0].frame);
  }

  lemma RefuseKeeps(n: Net, ts: seq<Track>) returns (us: seq<Track>)
    requires Linked(n, ts) && n.yx != [] && At(n.x.records, n.yx[0].conn) == None && FirstFree(n.x.m.used, 0).None?
    ensures Rooted(n.x.m) && Linked(ReceiveX(n), us)
  {
    hide Step, SentBy, ReceiveX, Alive, Over, Listed, Pairs.Inv, Rooted, Refusal, FirstFree, ApartAt, NodeOk, At,
         Track.Facing, Track.Then, Plain, Pairs.StepA, LocalKey, Of, Tagged, SideOk, Linked, Agrees;
    var k, v := HeadOf(n, ts);
    UnbornHead(n, ts, k, v);
    HeadAddressed(v);
    RequestFrameKey(v.b.core, v.b.core.window);
    RequestIsNew(n, ts);
    SideSizes(n.x, n.count);
    RefusedNet(n);
    RefuseActs(v);
    var t, caller := ReceiveX(n), k in n.x.placed;
    us := Continued(ts, k, caller, Some(Pairs.Receive(None)));
    ThenSteps(ts[k], caller, Pairs.Receive(None));
    LinkedTagged(n, ts);
    RefusedMoves(n, t, k, [Refusal(n.x.m.localCall, n.yx[0].frame)], v, us[k].Facing(caller));
    LinkedParts(n, ts, k);
    Relinked(n, t, ts, us, k);
  }

  lemma LinkedTagged(n: Net, ts: seq<Track>)
    requires Linked(n, ts)
    ensures Tagged(n.xy, n.count) && Tagged(n.yx, n.count)
  {
  }

  lemma LinkedParts(n: Net, ts: seq<Track>, k: nat)
    requires Linked(n, ts) && k < n.count
    ensures (k in n.x.placed) != (k in n.y.placed) && |ts| == n.count
  {
  }

  lemma RefusedMoves(n: Net, t: Net, k: nat, out: seq<L3Frame>, v: Pairs.System, w: Pairs.System)
    requires SideOk(n.x, n.count) && Agrees(n, k, v) && k < n.count && Tagged(n.xy, n.count) && Tagged(n.yx, n.count)
    requires n.yx != [] && n.yx[0].conn == k && v.ba != [] && t == n.(xy := n.xy + SentBy(out, k), yx := n.yx[1..])
    requires w.a == v.a && w.b == v.b && w.ba == v.ba[1..] && Plain(w.ab) == Plain(v.ab) + out
    ensures Moved(n, t, k) && Agrees(t, k, w) && Tagged(t.xy, t.count) && Tagged(t.yx, t.count)
  {
    hide Listed, NodeOk, Alive, Of, Plain, Tagged;
    OutMoves(n.xy, out, k, n.count);
    HeadMoves(n.yx, v.ba, n.count);
  }

  lemma AnsweredNet(n: Net, idx: byte)
    requires Rooted(n.x.m) && n.yx != [] && n.yx[0].frame.ConnectRequest? && |n.x.records| == |n.x.m.heap|
    requires KeyOf(n.yx[0].frame) !in n.x.m.byRemote && FirstFree(n.x.m.used, 0) == Some(idx)
    ensures var t := ReceiveX(n); var f, k := n.yx[0].frame, n.yx[0].conn; var e := Answering(n.x.m, f, idx);
      && t == Net(Side(Step(n.x.m, Dispatch(f)).m, n.x.records + [Record(k, [], true)], n.x.placed), n.y,
                  n.xy + SentBy(e.out, k), n.yx[1..], n.count)
      && |t.x.m.heap| == |n.x.m.heap| + 1 && t.x.m.heap[|n.x.m.heap|] == e.core
  {
    hide Step, FirstFree, Answering, SentBy, LocalKey, RemoteKey;
    RequestAnswered(n.x.m, n.yx[0].frame, idx);
  }

  lemma FreshMeans(n: Net, act: Act, core: Core)
    requires Rooted(n.x.m) && FreshX(n, act) && |n.x.records| == |n.x.m.heap|
    requires var t := StepX(n, act); |t.x.m.heap| == |n.x.m.heap| + 1 && t.x.m.heap[|n.x.m.heap|] == core
    ensures forall i :: 0 <= i < |n.x.m.heap| && LocalKey(n.x.m.heap[i]) == LocalKey(core) ==> Over(n, n.x.records[i].conn)
  {
    hide Over, LocalKey, StepX;
  }

  lemma AcceptAdds(n: Net, k: nat, core: Core, idx: byte)
    requires Rooted(n.x.m) && n.yx != [] && n.yx[0].frame.ConnectRequest? && |n.x.records| == |n.x.m.heap|
    requires KeyOf(n.yx[0].frame) !in n.x.m.byRemote && FirstFree(n.x.m.used, 0) == Some(idx)
    requires k == n.yx[0].conn < n.count && k !in n.x.placed && At(n.x.records, k) == None
    requires core == Answering(n.x.m, n.yx[0].frame, idx).core && FreshX(n, Receives)
    ensures Adds(n, ReceiveX(n), k, core, false)
  {
    hide Step, FirstFree, Answering, SentBy, LocalKey, RemoteKey, Over, At, ReceiveX, FreshX;
    RequestAnswered(n.x.m, n.yx[0].frame, idx);
    AnsweredNet(n, idx);
    StepXReceives(n);
    FreshMeans(n, Receives, core);
  }

  lemma StepXReceives(n: Net)
    requires Rooted(n.x.m)
    ensures StepX(n, Receives) == ReceiveX(n)
  {
    hide ReceiveX, Rooted;
  }

  lemma AcceptKeeps(n: Net, ts: seq<Track>) returns (us: seq<Track>)
    requires Linked(n, ts) && n.yx != [] && At(n.x.records, n.yx[0].conn) == None && FirstFree(n.x.m.used, 0).Some?
    requires Rooted(n.x.m) && FreshX(n, Receives)
    ensures Linked(ReceiveX(n), us)
  {
    hide Step, SentBy, ReceiveX, Alive, Over, Listed, Pairs.Inv, Rooted, Answering, FirstFree, ApartAt, NodeOk, At, FreshX,
         Track.Facing, Track.Then, Plain, Pairs.StepA, LocalKey, RemoteKey, Of, Tagged, SideOk, Linked, Pairs.OpenedCore,
         OnSendConnectAck, Adds;
    var k, v := HeadOf(n, ts);
    var f, idx := n.yx[0].frame, FirstFree(n.x.m.used, 0).value;
    UnbornHead(n, ts, k, v);
    HeadAddressed(v);
    PartnerKeys(v);
    RequestFrameKey(v.b.core, v.b.core.window);
    RequestIsNew(n, ts);
    SideSizes(n.x, n.count);
    AnsweredNet(n, idx);
    AcceptActs(v, idx, (n.x.m.nextId + 1) % 256);
    AnsweringIs(n.x.m, v, f, idx);
    var e := Answering(n.x.m, f, idx);
    AcceptAdds(n, k, e.core, idx);
    StepLawful(n.x.m, Dispatch(f));
    var t, act := ReceiveX(n), Pairs.Receive(Some((idx, (n.x.m.nextId + 1) % 256)));
    us := Continued(ts, k, false, Some(act));
    ThenSteps(ts[k], false, act);
    LinkedTagged(n, ts);
    LinkedParts(n, ts, k);
    OutMoves(n.xy, e.out, k, n.count);
    HeadMoves(n.yx, v.ba, n.count);
    NewCircuitKeeps(n, t, ts, us, k, e.core, false);
  }

  lemma ReceiveKeeps(n: Net, ts: seq<Track>) returns (us: seq<Track>)
    requires Linked(n, ts) && Rooted(n.x.m) && FreshX(n, Receives)
    ensures Linked(ReceiveX(n), us)
  {
    hide Linked, FreshX, Rooted;
    if n.yx == [] {
      us := ts;
    } else if At(n.x.records, n.yx[0].conn) == None {
      if FirstFree(n.x.m.used, 0) == None {
        us := RefuseKeeps(n, ts);
      } else {
        us := AcceptKeeps(n, ts);
      }
    } else {
      us := FrameKeeps(n, ts, At(n.x.records, n.yx[0].conn).value);
    }
  }

  // ---------- Calling ----------

  function CallSetup(n: Net, idx: byte, dest: string, user: string, proposed: int): Pairs.Setup
  {
    Pairs.Setup(idx, (n.x.m.nextId + 1) % 256, n.x.m.localCall, user, dest, n.y.m.localCall, proposed, n.x.m.mtu, n.y.m.mtu)
  }

  lemma CallPlaced(n: Net, idx: byte, dest: string, user: string, proposed: int)
    requires Rooted(n.x.m) && FirstFree(n.x.m.used, 0) == Some(idx)
    ensures var o := Step(n.x.m, Originate(dest, user, proposed)); var s := Pairs.Start(CallSetup(n, idx, dest, user, proposed));
      && o.out == Plain(s.ab) && o.m.heap == n.x.m.heap + [s.a.core] && s.a.core.state == AwaitingConnect
      && o.m.byLocal == n.x.m.byLocal[LocalKey(s.a.core) := |n.x.m.heap|] && o.m.byRemote == n.x.m.byRemote
      && o.m.awaiting == n.x.m.awaiting + {|n.x.m.heap|} && o.m.localCall == n.x.m.localCall && o.m.mtu == n.x.m.mtu
  {
    hide FirstFree, ClampWindow, ConnectReqFrame;
  }

  lemma CallFails(m: Mgr, e: Event)
    requires Rooted(m) && e.Originate? && FirstFree(m.used, 0).None?
    ensures Step(m, e) == Outcome(m.(idleArmed := false), [])
  {
  }

  lemma IdleKeeps(n: Net, t: Net, ts: seq<Track>)
    requires Linked(n, ts) && t == n.(x := n.x.(m := n.x.m.(idleArmed := false)))
    ensures Linked(t, ts)
  {
    hide Pairs.Inv, Track.Facing, LocalKey, RemoteKey, Of, At, Plain, SideOk, Over, Agrees;
    IdleSide(n.x, t.x, n.count);
    forall k ensures Over(t, k) == Over(n, k) {
      IdleOver(n, t, k);
    }
    assert ApartAt(n, n.x) && ApartAt(n, n.y);
    forall k | 0 <= k < n.count ensures Agrees(t, k, ts[k].Facing(k in t.x.placed)) {
      IdleAgrees(n, t, k, ts[k].Facing(k in n.x.placed));
    }
  }

  lemma IdleSide(d: Side, e: Side, count: nat)
    requires SideOk(d, count) && e == d.(m := d.m.(idleArmed := false))
    ensures SideOk(e, count)
  {
    hide LocalKey, RemoteKey, Sound;
    forall c ensures Listed(e.m, c) == Listed(d.m, c) {
    }
    hide Listed;
    forall c | 0 <= c < |e.m.heap| ensures Justified(e.m, c) {
      assert Justified(d.m, c);
    }
  }

  lemma IdleOver(n: Net, t: Net, k: nat)
    requires t == n.(x := n.x.(m := n.x.m.(idleArmed := false)))
    ensures Over(t, k) == Over(n, k)
  {
  }

  lemma IdleAgrees(n: Net, t: Net, k: nat, v: Pairs.System)
    requires t == n.(x := n.x.(m := n.x.m.(idleArmed := false))) && Agrees(n, k, v)
    ensures Agrees(t, k, v)
  {
  }

  lemma StartFacing(u: Pairs.Setup)
    ensures Track(u, []).Facing(true) == Pairs.Start(u)
  {
  }

  lemma {:induction false} NoneOf(link: seq<Sent>, count: nat, k: nat)
    requires Tagged(link, count) && k >= count
    ensures Of(link, k) == []
    decreases |link|
  {
    if link != [] {
      NoneOf(link[1..], count, k);
    }
  }

  lemma NoneAt(d: Side, count: nat, k: nat)
    requires SideOk(d, count) && k >= count
    ensures At(d.records, k) == None
  {
    hide Listed, Alive;
  }

  lemma CallNet(n: Net, e: Event, idx: byte)
    requires Rooted(n.x.m) && e.Originate? && FirstFree(n.x.m.used, 0) == Some(idx) && |n.x.records| == |n.x.m.heap|
    ensures var t := DoX(n, e); var s := Pairs.Start(CallSetup(n, idx, e.dest, e.user, e.proposed));
      t == Net(Side(Step(n.x.m, e).m, n.x.records + [Record(n.count, [], true)], n.x.placed + {n.count}), n.y,
               n.xy + SentBy(Plain(s.ab), n.count), n.yx, n.count + 1)
  {
    hide Step, FirstFree, SentBy, LocalKey, Plain, Pairs.Start;
    CallPlaced(n, idx, e.dest, e.user, e.proposed);
  }

  lemma StepXDoes(n: Net, e: Event)
    requires Rooted(n.x.m)
    ensures StepX(n, Does(e)) == DoX(n, e)
  {
    hide DoX, Rooted;
  }

  lemma CallAdds(n: Net, e: Event, idx: byte)
    requires SideOk(n.x, n.count) && Rooted(n.x.m) && e.Originate? && FirstFree(n.x.m.used, 0) == Some(idx)
    requires FreshX(n, Does(e))
    ensures Adds(n, DoX(n, e), n.count, Pairs.Start(CallSetup(n, idx, e.dest, e.user, e.proposed)).a.core, true)
  {
    SideSizes(n.x, n.count);
    hide Step, FirstFree, SentBy, LocalKey, Over, At, DoX, FreshX, Pairs.Start, Plain, SideOk, Rooted;
    NoneAt(n.x, n.count, n.count);
    CallPlaced(n, idx, e.dest, e.user, e.proposed);
    CallNet(n, e, idx);
    StepXDoes(n, e);
    FreshMeans(n, Does(e), Pairs.Start(CallSetup(n, idx, e.dest, e.user, e.proposed)).a.core);
  }

  lemma CallLinks(n: Net, ts: seq<Track>, out: seq<L3Frame>)
    requires Linked(n, ts)
    ensures Tagged(n.xy + SentBy(out, n.count), n.count + 1) && Tagged(n.yx, n.count + 1)
    ensures forall q :: q != n.count ==> Of(n.xy + SentBy(out, n.count), q) == Of(n.xy, q)
    ensures Of(n.xy + SentBy(out, n.count), n.count) == out && Of(n.yx, n.count) == []
  {
    hide SideOk, ApartAt, Agrees, Of, SentBy;
    assert Tagged(n.xy, n.count + 1);
    OutMoves(n.xy, out, n.count, n.count + 1);
    NoneOf(n.xy, n.count, n.count);
    NoneOf(n.yx, n.count, n.count);
  }

  lemma StartIs(n: Net, idx: byte, e: Event)
    requires e.Originate? && At(n.y.records, n.count) == None
    ensures var s := Pairs.Start(CallSetup(n, idx, e.dest, e.user, e.proposed));
      && s.a.born && s.a.live && s.a.wrote == [] && s.a.modest && Plain(s.ba) == []
      && s.a.core.localCall == n.x.m.localCall && s.a.core.mtu == n.x.m.mtu && NodeOk(n.y, n.count, s.b)
  {
    hide ClampWindow, At, ConnectReqFrame;
  }

  lemma CallKeeps(n: Net, ts: seq<Track>, e: Event) returns (us: seq<Track>)
    requires Linked(n, ts) && Rooted(n.x.m) && e.Originate? && FreshX(n, Does(e))
    ensures Linked(DoX(n, e), us)
  {
    hide Step, SentBy, DoX, Alive, Over, Listed, Rooted, ApartAt, NodeOk, At, FreshX, Agrees,
         Track.Facing, Plain, LocalKey, RemoteKey, Of, Tagged, SideOk, Linked, Pairs.Start, Adds, CallSetup;
    assert SideOk(n.x, n.count) by { LinkedSide(n, ts); }
    SideSizes(n.x, n.count);
    var t := DoX(n, e);
    if FirstFree(n.x.m.used, 0) == None {
      CallFailsNet(n, e);
      us := ts;
      IdleKeeps(n, t, ts);
    } else {
      var idx := FirstFree(n.x.m.used, 0).value;
      var u := CallSetup(n, idx, e.dest, e.user, e.proposed);
      var s := Pairs.Start(u);
      us := ts + [Track(u, [])];
      CallNet(n, e, idx);
      CallAdds(n, e, idx);
      CallLinks(n, ts, Plain(s.ab));
      StartFacing(u);
      FarSide(n, ts);
      NoneAt(n.y, n.count, n.count);
      StartIs(n, idx, e);
      AliveIsRooted(n.x.m);
      StepLawful(n.x.m, e);
      NewCircuitKeeps(n, t, ts, us, n.count, s.a.core, true);
    }
  }

  lemma FarSide(n: Net, ts: seq<Track>)
    requires Linked(n, ts)
    ensures SideOk(n.y, n.count) && |ts| == n.count && Alive(n.x.m)
  {
  }

  lemma CallFailsNet(n: Net, e: Event)
    requires Rooted(n.x.m) && e.Originate? && FirstFree(n.x.m.used, 0).None? && |n.x.records| == |n.x.m.heap|
    ensures DoX(n, e) == n.(x := n.x.(m := n.x.m.(idleArmed := false)))
  {
    hide Step, FirstFree;
    CallFails(n.x.m, e);
    SilentStep(n, Outcome(n.x.m.(idleArmed := false), []), n.count);
  }

  // ---------- Every run ----------

  lemma StepXKeeps(n: Net, ts: seq<Track>, act: Act) returns (us: seq<Track>)
    requires Linked(n, ts) && Rooted(n.x.m) && FreshX(n, act)
    ensures Linked(StepX(n, act), us)
  {
    hide Linked, Rooted, DoX, ReceiveX, FreshX, Step;
    if act.Receives? {
      us := ReceiveKeeps(n, ts);
    } else if !Allowed(n.x.m, act.e) {
      us := ts;
      NotAllowed(n, act.e);
    } else {
      match act.e
      case Originate(_, _, _) => us := CallKeeps(n, ts, act.e);
      case OriginateResumes(c) => us := ResumeKeeps(n, ts, c);
      case GuardFires(c) => us := GuardKeeps(n, ts, c);
      case Session(c, a) => us := SessionKeeps(n, ts, c, a);
    }
  }

  lemma NotAllowed(n: Net, e: Event)
    requires Rooted(n.x.m) && !Allowed(n.x.m, e)
    ensures DoX(n, e) == n
  {
  }

  /** One step of either end. */
  lemma NextKeeps(n: Net, ts: seq<Track>, move: Move) returns (us: seq<Track>)
    requires Linked(n, ts) && BothRooted(n) && Fresh(n, move)
    ensures Linked(Next(n, move), us)
  {
    hide Linked, StepX, FreshX, Rooted;
    match move
    case AtX(act) => us := StepXKeeps(n, ts, act);
    case AtY(act) =>
      LinkedTurned(n, ts);
      us := StepXKeeps(Turned(n), ts, act);
      LinkedTurned(StepX(Turned(n), act), us);
  }

  lemma NewNetLinked(callX: string, mtuX: Mtu, timeoutX: bool, callY: string, mtuY: Mtu, timeoutY: bool)
    ensures Linked(NewNet(callX, mtuX, timeoutX, callY, mtuY, timeoutY), [])
  {
  }

  lemma {:induction false} RunKeeps(n: Net, ts: seq<Track>, moves: seq<Move>) returns (us: seq<Track>)
    requires Linked(n, ts) && BothRooted(n) && FreshKeys(n, moves)
    ensures Linked(Run(n, moves), us)
    decreases |moves|
  {
    hide Linked, Next, Fresh, BothRooted;
    if moves == [] {
      us := ts;
    } else {
      var init, last := moves[..|moves| - 1], moves[|moves| - 1];
      us := RunKeeps(n, ts, init);
      us := NextKeeps(Run(n, init), us, last);
    }
  }

  /** The crosslink after `moves`, from two new managers. */
  datatype Ends = Ends(callX: string, mtuX: Mtu, timeoutX: bool, callY: string, mtuY: Mtu, timeoutY: bool)
  {
    function New(): (n: Net)
      ensures BothRooted(n)
    {
      NewNet(callX, mtuX, timeoutX, callY, mtuY, timeoutY)
    }

    function After(moves: seq<Move>): (n: Net)
      ensures BothRooted(n)
    {
      Run(New(), moves)
    }
  }

  /** Whatever is placed, answered, refused, timed out, torn down and sent over one crosslink by
      either end, each connection is in a state that the two-endpoint system reaches: its two
      circuits, what their sessions wrote and its frames on the two shared links. Asked is only that
      no key is handed out again before the connection that had it is over. */
  lemma EveryConnectionIsAPair(ends: Ends, moves: seq<Move>) returns (ts: seq<Track>)
    requires FreshKeys(ends.New(), moves)
    ensures var n := ends.After(moves);
      && |ts| == n.count
      && forall k :: 0 <= k < n.count ==> Agrees(n, k, ts[k].Facing(k in n.x.placed))
  {
    hide NewNet, Run, Agrees, FreshKeys, Track.Facing;
    NewNetLinked(ends.callX, ends.mtuX, ends.timeoutX, ends.callY, ends.mtuY, ends.timeoutY);
    ts := RunKeeps(ends.New(), [], moves);
  }
}

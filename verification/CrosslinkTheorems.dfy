/** What every session on a shared crosslink can rely on, and what happens when a key comes round
    again too early. */
module CrosslinkTheorems {
  import opened Prelude
  import opened Frames
  import opened Circuit
  import opened Reassembly
  import opened ManagerSteps
  import opened ManagerLifecycle
  import opened ManagerPairing
  import opened Crosslink
  import opened CrosslinkAgreement
  import opened CrosslinkPairs
  import opened CrosslinkKeys
  import Pairs = CircuitPair
  import PairTheorems

  // ---------- Delivery ----------

  /** The INFO payloads among the frames of a connection. */
  function Payloads(fs: seq<L3Frame>): seq<Fragment>
  {
    if fs == [] then []
    else if fs[0].Information? then [FragmentOf(fs[0])] + Payloads(fs[1..])
    else Payloads(fs[1..])
  }

  lemma {:induction false} PayloadsCarried(ws: seq<Pairs.Wire>)
    ensures PairTheorems.Carried(ws) == Payloads(Plain(ws))
  {
    if ws != [] {
      assert Plain(ws)[1..] == Plain(ws[1..]);
      PayloadsCarried(ws[1..]);
    }
  }

  /** Connection k from the session at d to the session at e, over `link`: what was read is a prefix
      of what was written; while d's circuit is connected and e's listed, what was written is
      delivered, half reassembled, on the link or queued, in that order. Nothing is read where the
      other end has no circuit. */
  predicate Delivers(d: Side, e: Side, link: seq<Sent>, k: nat)
  {
    match (At(d.records, k), At(e.records, k))
    case (Some(i), Some(j)) =>
      && i < |d.m.heap| && j < |e.m.heap|
      && (d.records[i].modest ==>
            var box, wrote := e.m.heap[j].inbox, d.records[i].wrote;
            && box.delivered <= wrote
            && (d.m.heap[i].state == Connected && Listed(e.m, j) ==>
                  box.delivered + box.partial + Bytes(Payloads(Of(link, k))) + Bytes(d.m.heap[i].pending) == wrote))
    case (None, Some(j)) => j < |e.m.heap| && e.m.heap[j].inbox.delivered == []
    case _ => true
  }

  lemma UnbornSaysNothing(v: Pairs.System)
    requires Pairs.Inv(v) && !v.a.born
    ensures v.b.core.inbox.delivered == []
  {
    hide Pairs.Flow, Pairs.Sender, Pairs.Teardown;
  }

  lemma DeliversX(n: Net, k: nat, v: Pairs.System)
    requires Agrees(n, k, v) && Pairs.Inv(v)
    ensures Delivers(n.x, n.y, n.xy, k)
  {
    hide Pairs.Inv, Plain, Listed, Of, At, Bytes, Payloads, PairTheorems.Carried;
    if !v.a.born {
      UnbornSaysNothing(v);
    } else if v.a.modest {
      PairTheorems.PrefixA(v);
      PayloadsCarried(v.ab);
      if v.a.core.state == Connected && v.b.live {
        PairTheorems.ConservedA(v);
      }
    }
  }

  lemma AgreesTurned(n: Net, k: nat, v: Pairs.System)
    requires Agrees(n, k, v)
    ensures Agrees(Turned(n), k, Pairs.Swap(v))
  {
    hide NodeOk, Of, Plain;
  }

  /** Every session on a crosslink, whatever the others do: both ways, what is read is a prefix of
      what was written, and nothing written is lost or reordered, as long as each write is at most
      65536 bytes. */
  lemma EverySessionIsServed(ends: Ends, moves: seq<Move>, k: nat)
    requires FreshKeys(ends.New(), moves) && k < ends.After(moves).count
    ensures var n := ends.After(moves); Delivers(n.x, n.y, n.xy, k) && Delivers(n.y, n.x, n.yx, k)
  {
    hide Ends.After, Ends.New, Agrees, FreshKeys, Track.Facing, Delivers, Pairs.Inv;
    var ts := EveryConnectionIsAPair(ends, moves);
    var n := ends.After(moves);
    var caller := k in n.x.placed;
    var v := ts[k].Facing(caller);
    assert Agrees(n, k, v);
    FacingInv(ts[k], caller);
    DeliversX(n, k, v);
    AgreesTurned(n, k, v);
    Pairs.InvSwap(v);
    DeliversX(Turned(n), k, Pairs.Swap(v));
  }

  // ---------- Keys ----------

  /** The circuit that answered connection k knows the caller's key, and once the caller has its
      answer it knows the other's, and both hold one window. */
  predicate KeysMatch(caller: Side, answerer: Side, k: nat)
  {
    match (At(caller.records, k), At(answerer.records, k))
    case (Some(i), Some(j)) =>
      && i < |caller.m.heap| && j < |answerer.m.heap|
      && var c, d := caller.m.heap[i], answerer.m.heap[j];
         && RemoteKey(d) == LocalKey(c) && c.window == d.window
         && (c.state != AwaitingConnect ==> RemoteKey(c) == LocalKey(d))
    case (Some(i), None) => i < |caller.m.heap| && caller.m.heap[i].state in {AwaitingConnect, Closed}
    case (None, _) => false
  }

  lemma PairKeys(v: Pairs.System)
    requires Pairs.Inv(v) && v.a.originator
    ensures v.a.born
    ensures v.b.born ==>
      && RemoteKey(v.b.core) == LocalKey(v.a.core) && v.a.core.window == v.b.core.window
      && (v.a.core.state != AwaitingConnect ==> RemoteKey(v.a.core) == LocalKey(v.b.core))
    ensures !v.b.born ==> v.a.core.state in {AwaitingConnect, Closed}
  {
    hide Pairs.Flow, Pairs.Sender, Pairs.Teardown;
  }

  lemma KeysMatchX(n: Net, k: nat, v: Pairs.System)
    requires Agrees(n, k, v) && Pairs.Inv(v) && v.a.originator
    ensures KeysMatch(n.x, n.y, k)
  {
    PairKeys(v);
    hide Pairs.Inv, Plain, Listed, Of, At, LocalKey, RemoteKey;
  }

  /** No connection's circuits are ever crossed with another's: the circuit that placed a call and
      the one that answered it name each other, and a call that is connected was answered. */
  lemma NoCrossedLines(ends: Ends, moves: seq<Move>, k: nat)
    requires FreshKeys(ends.New(), moves) && k < ends.After(moves).count
    ensures var n := ends.After(moves);
      if k in n.x.placed then KeysMatch(n.x, n.y, k) else KeysMatch(n.y, n.x, k)
  {
    hide Ends.After, Ends.New, Agrees, FreshKeys, Track.Facing, KeysMatch, Pairs.Inv;
    var ts := EveryConnectionIsAPair(ends, moves);
    var n := ends.After(moves);
    var caller := k in n.x.placed;
    var v := ts[k].Facing(caller);
    assert Agrees(n, k, v);
    FacingInv(ts[k], caller);
    if caller {
      KeysMatchX(n, k, v);
    } else {
      AgreesTurned(n, k, v);
      Pairs.InvSwap(v);
      SwappedOriginator(v);
      KeysMatchX(Turned(n), k, Pairs.Swap(v));
    }
  }

  lemma SwappedOriginator(v: Pairs.System)
    ensures Pairs.Swap(v).a == v.b
  {
  }

  // ---------- Addressing ----------

  /** The frames of connection k from d to e: from d's node, to the peer that d's circuit was made for,
      or to whoever called if it has none. */
  predicate Addressed(d: Side, e: Side, link: seq<Sent>, k: nat)
  {
    forall i :: 0 <= i < |Of(link, k)| ==>
      var h := Of(link, k)[i].header;
      && h.originCall == d.m.localCall
      && match At(d.records, k)
         case Some(c) => c < |d.m.heap| && h.destCall == d.m.heap[c].peerCall
         case None => h.destCall == e.m.localCall
  }

  lemma FacingAddressed(t: Track, caller: bool)
    ensures var v := t.Facing(caller);
      && (forall i :: 0 <= i < |v.ab| ==>
            && v.ab[i].frame.header.originCall == v.a.core.localCall
            && v.ab[i].frame.header.destCall == if v.a.born then v.a.core.peerCall else v.b.core.localCall)
      && (forall i :: 0 <= i < |v.ba| ==>
            && v.ba[i].frame.header.originCall == v.b.core.localCall
            && v.ba[i].frame.header.destCall == if v.b.born then v.b.core.peerCall else v.a.core.localCall)
  {
    PairTheorems.FramesAreAddressed(t.u, t.es);
    FacingInv(t, true);
    PairKeys(t.Facing(true));
    hide Pairs.Inv, PairTheorems.Reached;
    var s := t.System();
    assert forall i :: 0 <= i < |s.ab| ==> s.ab[i] in s.ab;
    assert forall i :: 0 <= i < |s.ba| ==> s.ba[i] in s.ba;
  }

  lemma AddressedX(n: Net, k: nat, v: Pairs.System)
    requires Agrees(n, k, v)
    requires forall i :: 0 <= i < |v.ab| ==>
      && v.ab[i].frame.header.originCall == v.a.core.localCall
      && v.ab[i].frame.header.destCall == if v.a.born then v.a.core.peerCall else v.b.core.localCall
    ensures Addressed(n.x, n.y, n.xy, k)
  {
    hide Of, At, Listed;
    forall i | 0 <= i < |Of(n.xy, k)| ensures Of(n.xy, k)[i] == v.ab[i].frame {
      assert Plain(v.ab)[i] == v.ab[i].frame;
    }
  }

  /** Every frame on a shared crosslink is from the node that sent it, and to the peer of its own
      connection and of no other. */
  lemma EveryFrameIsAddressed(ends: Ends, moves: seq<Move>, k: nat)
    requires FreshKeys(ends.New(), moves) && k < ends.After(moves).count
    ensures var n := ends.After(moves); Addressed(n.x, n.y, n.xy, k) && Addressed(n.y, n.x, n.yx, k)
  {
    hide Ends.After, Ends.New, Agrees, FreshKeys, Track.Facing, Addressed, Pairs.Inv;
    var ts := EveryConnectionIsAPair(ends, moves);
    var n := ends.After(moves);
    var caller := k in n.x.placed;
    var v := ts[k].Facing(caller);
    assert Agrees(n, k, v);
    FacingAddressed(ts[k], caller);
    AddressedX(n, k, v);
    AgreesTurned(n, k, v);
    SwapParts(v);
    AddressedX(Turned(n), k, Pairs.Swap(v));
  }

  // ---------- When the crosslink falls silent ----------

  /** Nothing is on either link, and no connected circuit's drain() can run. */
  predicate Silent(n: Net)
  {
    && n.xy == [] && n.yx == []
    && (forall c :: 0 <= c < |n.x.m.heap| && n.x.m.heap[c].state == Connected ==> !CanDrain(n.x.m.heap[c]))
    && (forall c :: 0 <= c < |n.y.m.heap| && n.y.m.heap[c].state == Connected ==> !CanDrain(n.y.m.heap[c]))
  }

  /** What the session at d wrote the session at e has read, all of it, if and only if each write
      was within the ceiling. */
  predicate AllRead(d: Side, e: Side, k: nat)
  {
    match (At(d.records, k), At(e.records, k))
    case (Some(i), Some(j)) =>
      i < |d.m.heap| && j < |e.m.heap| &&
      (Listed(d.m, i) && Listed(e.m, j) && d.m.heap[i].state == Connected == e.m.heap[j].state ==>
        (e.m.heap[j].inbox == Inbox([], d.records[i].wrote) <==> d.records[i].modest))
    case _ => true
  }

  lemma SilentPair(t: Track)
    requires var s := t.System();
      && PairTheorems.BothConnected(s) && s.ab == [] && s.ba == [] && !CanDrain(s.a.core) && !CanDrain(s.b.core)
    ensures !PairTheorems.Busy(t.System())
  {
    hide Track.System, Pairs.Inv, CanDrain, PairTheorems.BothConnected;
    var s := t.System();
    assert PairTheorems.Reached(t.u, t.es) == s by { SystemIs(t); }
    if PairTheorems.Busy(s) {
      PairTheorems.NoDeadlock(t.u, t.es);
    }
  }

  lemma SystemIs(t: Track)
    ensures t.System() == PairTheorems.Reached(t.u, t.es)
  {
  }

  lemma SilentAgrees(n: Net, k: nat, v: Pairs.System)
    requires Agrees(n, k, v) && Silent(n)
    ensures v.ab == [] && v.ba == []
    ensures v.a.core.state == Connected && v.a.born ==> !CanDrain(v.a.core)
    ensures v.b.core.state == Connected && v.b.born ==> !CanDrain(v.b.core)
  {
    hide Listed, CanDrain, At;
    assert Plain(v.ab) == [] && Plain(v.ba) == [];
  }

  lemma AllReadX(n: Net, k: nat, v: Pairs.System)
    requires Agrees(n, k, v) && Pairs.Inv(v) && (PairTheorems.BothConnected(v) ==> !PairTheorems.Busy(v))
    ensures AllRead(n.x, n.y, k)
  {
    hide Pairs.Inv, Plain, Listed, Of, At, PairTheorems.Busy;
    if PairTheorems.BothConnected(v) {
      PairTheorems.QuietMeansDone(v);
    }
  }

  /** A crosslink falls silent only when every session on it has read all that the other end of its
      connection wrote: none is starved or left stuck by the others. */
  lemma SilenceMeansDone(ends: Ends, moves: seq<Move>, k: nat)
    requires FreshKeys(ends.New(), moves) && k < ends.After(moves).count && Silent(ends.After(moves))
    ensures var n := ends.After(moves); AllRead(n.x, n.y, k) && AllRead(n.y, n.x, k)
  {
    hide Ends.After, Ends.New, Agrees, FreshKeys, AllRead, Pairs.Inv, Silent, PairTheorems.Busy, Track.System, CanDrain;
    var ts := EveryConnectionIsAPair(ends, moves);
    var n := ends.After(moves);
    var caller := k in n.x.placed;
    var v := ts[k].Facing(caller);
    assert Agrees(n, k, v);
    FacingInv(ts[k], caller);
    SilentAgrees(n, k, v);
    if PairTheorems.BothConnected(v) {
      SilentPair(ts[k]);
      BusySwapped(ts[k].System());
    }
    AllReadX(n, k, v);
    AgreesTurned(n, k, v);
    Pairs.InvSwap(v);
    BusySwapped(v);
    AllReadX(Turned(n), k, Pairs.Swap(v));
  }

  lemma BusySwapped(s: Pairs.System)
    ensures PairTheorems.Busy(Pairs.Swap(s)) == PairTheorems.Busy(s)
    ensures PairTheorems.BothConnected(Pairs.Swap(s)) == PairTheorems.BothConnected(s)
  {
  }

  // ---------- A key that comes round too early ----------

  const CALL := Originate("", "", 4)

  /** A call is placed at x and times out before it is answered. */
  function Round(c: nat): seq<Move> { [AtX(Does(CALL)), AtX(Does(OriginateResumes(c)))] }

  /** Circuits 1 to n, each placed and timed out. */
  function Rounds(n: nat): seq<Move>
  {
    if n == 0 then [] else Rounds(n - 1) + Round(n)
  }

  /** No circuit listed or awaited, after c of them; nothing yet taken from the link. */
  predicate Bare(m: Mgr, c: nat)
  {
    |m.heap| == c && m.nextId == c % 256 && m.used == {} && m.byLocal == map[] && m.byRemote == map[] && m.awaiting == {}
  }

  lemma CallBare(m: Mgr, c: nat)
    requires Bare(m, c)
    ensures Rooted(m)
    ensures var t := Step(m, CALL).m; var d := Step(m, CALL).m.heap;
      && |d| == c + 1 && LocalKey(d[c]) == (0, (c + 1) % 256) && RemoteKey(d[c]) == (0, 0) && d[c].state == AwaitingConnect
      && t.nextId == (c + 1) % 256 && t.used == {0} && t.byLocal == map[(0, (c + 1) % 256) := c] && t.byRemote == map[]
      && t.awaiting == {c}
  {
    assert FirstFree(m.used, 0) == Some(0);
    hide FirstFree, ClampWindow, ConnectReqFrame;
  }

  lemma RoundBare(m: Mgr, c: nat)
    requires Bare(m, c)
    ensures Rooted(m) && Rooted(Step(m, CALL).m)
    ensures Allowed(m, CALL) && Allowed(Step(m, CALL).m, OriginateResumes(c))
    ensures Bare(Step(Step(m, CALL).m, OriginateResumes(c)).m, c + 1)
  {
    hide ClampWindow, ConnectReqFrame, FirstFree;
    CallBare(m, c);
    var t := Step(m, CALL).m;
    assert t.byLocal - {(0, (c + 1) % 256)} == map[];
    hide OnOriginate;
  }

  lemma {:induction false} RunAppend(n: Net, a: seq<Move>, b: seq<Move>)
    requires BothRooted(n)
    ensures Run(n, a + b) == Run(Run(n, a), b)
    decreases |b|
  {
    hide Next, BothRooted;
    if b == [] {
      assert a + b == a;
    } else {
      var k := |b| - 1;
      RunAppend(n, a, b[..k]);
      assert (a + b)[..|a + b| - 1] == a + b[..k];
    }
  }

  lemma RunOne(n: Net, move: Move)
    requires BothRooted(n)
    ensures Run(n, [move]) == Next(n, move)
  {
    hide Next, BothRooted;
    assert [move][..0] == [];
    assert Run(n, []) == n;
  }

  lemma RunTwo(n: Net, a: Move, b: Move)
    requires BothRooted(n)
    ensures Run(n, [a, b]) == Next(Next(n, a), b)
  {
    hide Next, BothRooted;
    RunAppend(n, [a], [b]);
    assert [a] + [b] == [a, b];
    RunOne(n, a);
    RunOne(Next(n, a), b);
  }

  /** An acceptance of the call with key (0, 1), from a circuit with that key at the far end. */
  predicate EarlyAnswer(f: L3Frame)
  {
    f.ConnectAck? && !f.refused && KeyOf(f) == (0, 1)
  }

  /** c calls have been placed and have timed out; the answer to the first is still on its way. */
  predicate Late(n: Net, c: nat)
  {
    && Bare(n.x.m, c) && |n.x.records| == c == n.count && Rooted(n.y.m)
    && |n.yx| == 1 && EarlyAnswer(n.yx[0].frame)
    && |n.y.records| == 1 && n.y.records[0].conn == 0
  }

  /** A call placed with that key now. */
  predicate Placed(n: Net, c: nat)
  {
    && |n.x.m.heap| == c + 1 == |n.x.records| && n.x.records[c].conn == c && c in n.x.placed && n.count == c + 1
    && LocalKey(n.x.m.heap[c]) == (0, (c + 1) % 256) && n.x.m.heap[c].state == AwaitingConnect
    && n.x.m.byLocal == map[(0, (c + 1) % 256) := c] && n.x.m.byRemote == map[] && n.x.m.awaiting == {c}
    && |n.yx| == 1 && EarlyAnswer(n.yx[0].frame) && Rooted(n.y.m)
    && |n.y.records| == 1 && n.y.records[0].conn == 0
  }

  lemma CallLate(n: Net, c: nat)
    requires Late(n, c)
    ensures BothRooted(n)
    ensures var t := Next(n, AtX(Does(CALL))); t.x.m == Step(n.x.m, CALL).m && Placed(t, c) && t.yx == n.yx && t.y == n.y
  {
    CallBare(n.x.m, c);
    hide Step, Bare, SentBy;
    StepXDoes(n, CALL);
    DoesStep(n, CALL);
  }

  lemma RoundLate(n: Net, c: nat)
    requires Late(n, c)
    ensures BothRooted(n) && Late(Run(n, Round(c)), c + 1)
  {
    hide Step, Placed, SentBy, Next, EarlyAnswer, Allowed;
    CallLate(n, c);
    RoundBare(n.x.m, c);
    var t := Next(n, AtX(Does(CALL)));
    ResumeLate(n, t, c);
    RunTwo(n, AtX(Does(CALL)), AtX(Does(OriginateResumes(c))));
  }

  lemma ResumeLate(n: Net, t: Net, c: nat)
    requires Placed(t, c) && Rooted(t.x.m) && Allowed(t.x.m, OriginateResumes(c))
    requires Bare(Step(t.x.m, OriginateResumes(c)).m, c + 1)
    ensures Late(Next(t, AtX(Does(OriginateResumes(c)))), c + 1)
  {
    hide Step, EarlyAnswer, SentBy;
    StepXDoes(t, OriginateResumes(c));
    DoesStep(t, OriginateResumes(c));
  }

  lemma {:induction false} RoundsLate(n: Net, k: nat)
    requires Late(n, 1)
    ensures BothRooted(n) && Late(Run(n, Rounds(k)), k + 1)
    decreases k
  {
    hide Late, Round;
    assert BothRooted(n) by { LateRooted(n, 1); }
    if k > 0 {
      RoundsLate(n, k - 1);
      RunAppend(n, Rounds(k - 1), Round(k));
      RoundLate(Run(n, Rounds(k - 1)), k);
    }
  }

  lemma LateRooted(n: Net, c: nat)
    requires Late(n, c)
    ensures BothRooted(n)
  {
  }

  const OPENING: seq<Move> := [AtX(Does(CALL)), AtY(Receives), AtX(Does(OriginateResumes(0)))]

  lemma FirstCall(ends: Ends)
    ensures var n := Next(ends.New(), AtX(Does(CALL)));
      && Step(ends.New().x.m, CALL).m == n.x.m && n.count == 1 && n.x.records == [Record(0, [], true)] && 0 in n.x.placed
      && n.y == ends.New().y && n.yx == []
      && |n.xy| == 1 && n.xy[0].conn == 0 && n.xy[0].frame.ConnectRequest? && KeyOf(n.xy[0].frame) == (0, 1)
  {
    var n := ends.New();
    assert FirstFree(n.x.m.used, 0) == Some(0);
    hide FirstFree, ClampWindow;
  }

  lemma AnswerIs(m: Mgr, f: L3Frame)
    requires f.ConnectRequest? && KeyOf(f) == (0, 1)
    ensures var e := Answering(m, f, 0); |e.out| == 1 && EarlyAnswer(e.out[0])
  {
    hide ClampWindow;
  }

  /** The far end answers, and its acceptance is on its way. */
  lemma FarAnswers(n: Net)
    requires Rooted(n.x.m) && n.x.m.used == {} && n.x.m.byRemote == map[] && n.x.records == [] && n.x.m.heap == []
    requires |n.yx| == 1 && n.yx[0].conn == 0 && n.yx[0].frame.ConnectRequest? && KeyOf(n.yx[0].frame) == (0, 1)
    requires n.xy == []
    ensures var t := StepX(n, Receives);
      && t.y == n.y && t.yx == [] && t.count == n.count && t.x.records == [Record(0, [], true)]
      && |t.xy| == 1 && EarlyAnswer(t.xy[0].frame)
  {
    hide Step, Answering, EarlyAnswer, ReceiveX;
    assert FirstFree(n.x.m.used, 0) == Some(0);
    StepXReceives(n);
    AnsweredNet(n, 0);
    AnswerIs(n.x.m, n.yx[0].frame);
  }

  lemma RunThree(n: Net, a: Move, b: Move, c: Move)
    requires BothRooted(n)
    ensures Run(n, [a, b, c]) == Next(Next(Next(n, a), b), c)
  {
    hide Next, BothRooted;
    RunTwo(n, a, b);
    RunAppend(n, [a, b], [c]);
    assert [a, b] + [c] == [a, b, c];
    RunOne(Next(Next(n, a), b), c);
  }

  lemma FarPlaced(n: Net, m: Mgr)
    requires Bare(m, 0) && n.x.m == Step(m, CALL).m && n.count == 1 && n.x.records == [Record(0, [], true)] && 0 in n.x.placed
    requires |n.yx| == 1 && EarlyAnswer(n.yx[0].frame) && n.y.records == [Record(0, [], true)] && Rooted(n.y.m)
    ensures Placed(n, 0)
  {
    CallBare(m, 0);
    hide Step, EarlyAnswer;
  }

  lemma OpeningLate(ends: Ends)
    ensures Late(ends.After(OPENING), 1)
  {
    hide Step, StepX, EarlyAnswer, Late, Placed, Allowed;
    var n := ends.New();
    var n1 := Next(n, AtX(Does(CALL)));
    var n2 := Next(n1, AtY(Receives));
    FirstCall(ends);
    FarAnswers(Turned(n1));
    FarPlaced(n2, n.x.m);
    RoundBare(n.x.m, 0);
    ResumeLate(n, n2, 0);
    RunThree(n, AtX(Does(CALL)), AtY(Receives), AtX(Does(OriginateResumes(0))));
  }

  lemma AnswerTaken(n: Net, c: nat)
    requires Placed(n, c) && (c + 1) % 256 == 1 && BothRooted(n)
    ensures var t := Next(n, AtX(Receives));
      && t.x.records == n.x.records && t.x.placed == n.x.placed && t.y == n.y && |t.x.m.heap| == c + 1 && t.count == n.count
      && t.x.m.heap[c].state == Connected
  {
    hide SentBy, OnConnectAck;
    StepXReceives(n);
    var f := n.yx[0].frame;
    assert Step(n.x.m, Dispatch(f)).m == Updated(n.x.m, c, OnConnectAck(n.x.m.heap[c], f));
    Accepted(n.x.m.heap[c], f);
  }

  lemma Accepted(c: Core, f: L3Frame)
    requires f.ConnectAck? && !f.refused && c.state == AwaitingConnect
    ensures OnConnectAck(c, f).state == Connected
  {
  }

  const EARLY_REUSE: seq<Move> := OPENING + Rounds(255) + [AtX(Does(CALL)), AtX(Receives)]

  lemma EarlyReuseRuns(ends: Ends)
    ensures var n := Run(ends.After(OPENING), Rounds(255));
      && Late(n, 256) && BothRooted(n)
      && ends.After(EARLY_REUSE) == Next(Next(n, AtX(Does(CALL))), AtX(Receives))
  {
    hide Next, Late, BothRooted, Rounds, Run;
    OpeningLate(ends);
    RoundsLate(ends.After(OPENING), 255);
    RunAppend(ends.New(), OPENING, Rounds(255));
    RunAppend(ends.New(), OPENING + Rounds(255), [AtX(Does(CALL)), AtX(Receives)]);
    RunTwo(Run(ends.After(OPENING), Rounds(255)), AtX(Does(CALL)), AtX(Receives));
  }

  /** After 256 calls that timed out the next has the first one's key. If the answer to the first is
      still on its way, the new call takes it for its own: it is connected although nothing at the
      far end belongs to it. */
  lemma ReusedKeyTakesAnothersAnswer(ends: Ends)
    ensures var n := ends.After(EARLY_REUSE);
      && At(n.x.records, 256) == Some(256) && |n.x.m.heap| == 257 && 256 in n.x.placed
      && n.x.m.heap[256].state == Connected && At(n.y.records, 256) == None
    ensures !FreshKeys(ends.New(), EARLY_REUSE)
  {
    hide Next, Late, BothRooted, FreshKeys, Ends.After, Ends.New, KeyOf, EarlyAnswer;
    EarlyReuseRuns(ends);
    var n := Run(ends.After(OPENING), Rounds(255));
    CallLate(n, 256);
    var t := Next(n, AtX(Does(CALL)));
    AnswerTaken(t, 256);
    Unanswered(t, ends.After(EARLY_REUSE));
    if FreshKeys(ends.New(), EARLY_REUSE) {
      NoCrossedLines(ends, EARLY_REUSE, 256);
    }
  }

  lemma Unanswered(t: Net, u: Net)
    requires Placed(t, 256) && u.x.records == t.x.records && u.y == t.y && u.x.placed == t.x.placed && |u.x.m.heap| == 257
    ensures At(u.x.records, 256) == Some(256) && At(u.y.records, 256) == None && 256 in u.x.placed
  {
  }
}

/** Keys are one byte of index and one of id, so they come round. The connections of a crosslink stay
    independent exactly as long as none is handed out too early. */
module CrosslinkKeys {
  import opened Prelude
  import opened Frames
  import opened Circuit
  import opened ManagerSteps
  import opened ManagerLifecycle
  import opened ManagerPairing
  import opened ManagerTables
  import opened Crosslink
  import opened CrosslinkAgreement
  import opened CrosslinkPairs
  import Pairs = CircuitPair
  import PairTheorems

  // ---------- A key handed out too early ----------

  /** The step opened a circuit of connection k. */
  predicate Opens(n: Net, t: Net, k: nat, out: seq<L3Frame>)
  {
    && |n.x.m.heap| == |n.x.records| && |t.x.m.heap| == |n.x.m.heap| + 1 && t.x.m.heap[..|n.x.m.heap|] == n.x.m.heap
    && t.x.records == n.x.records + [Record(k, [], true)] && t.y == n.y && t.xy == n.xy + SentBy(out, k)
    && (t.yx == n.yx || (n.yx != [] && n.yx[0].conn == k && t.yx == n.yx[1..]))
    && n.x.m.awaiting <= t.x.m.awaiting && Listed(t.x.m, |n.x.m.heap|)
  }

  lemma AnswerOpens(n: Net, ts: seq<Track>) returns (k: nat, out: seq<L3Frame>)
    requires Linked(n, ts) && Rooted(n.x.m) && n.yx != [] && At(n.x.records, n.yx[0].conn) == None
    requires FirstFree(n.x.m.used, 0).Some?
    ensures Opens(n, ReceiveX(n), k, out)
  {
    hide Step, SentBy, Alive, Over, Pairs.Inv, Rooted, Answering, FirstFree, ApartAt, NodeOk, At, LocalKey, RemoteKey,
         Track.Facing, Plain, Of, Tagged, SideOk, Linked, ReceiveX;
    var k', v := HeadOf(n, ts);
    var f, idx := n.yx[0].frame, FirstFree(n.x.m.used, 0).value;
    UnbornHead(n, ts, k', v);
    HeadAddressed(v);
    RequestFrameKey(v.b.core, v.b.core.window);
    RequestIsNew(n, ts);
    SideSizes(n.x, n.count);
    AnsweredNet(n, idx);
    RequestAnswered(n.x.m, f, idx);
    k, out := n.yx[0].conn, Answering(n.x.m, f, idx).out;
  }

  lemma ReceiveOpens(n: Net, ts: seq<Track>) returns (k: nat, out: seq<L3Frame>)
    requires Linked(n, ts) && Rooted(n.x.m) && |ReceiveX(n).x.m.heap| == |n.x.m.heap| + 1
    ensures Opens(n, ReceiveX(n), k, out)
  {
    hide Step, SentBy, Alive, Over, Pairs.Inv, Rooted, FirstFree, ApartAt, NodeOk, At, LocalKey, RemoteKey, Refusal, Opens,
         Track.Facing, Plain, Of, Tagged, SideOk, Linked, Listed;
    assert n.yx != [];
    hide ReceiveX;
    k, out := 0, [];
    if At(n.x.records, n.yx[0].conn) == None {
      if FirstFree(n.x.m.used, 0) == None {
        RefusalOpensNothing(n, ts);
      } else {
        k, out := AnswerOpens(n, ts);
      }
    } else {
      FrameOpensNothing(n, ts, At(n.x.records, n.yx[0].conn).value);
    }
  }

  lemma RefusalOpensNothing(n: Net, ts: seq<Track>)
    requires Linked(n, ts) && Rooted(n.x.m) && n.yx != [] && At(n.x.records, n.yx[0].conn) == None
    requires FirstFree(n.x.m.used, 0).None?
    ensures |ReceiveX(n).x.m.heap| == |n.x.m.heap|
  {
    hide Step, SentBy, Alive, Over, Pairs.Inv, Rooted, FirstFree, ApartAt, NodeOk, At, LocalKey, RemoteKey, Refusal,
         Track.Facing, Plain, Of, Tagged, SideOk, Linked, ReceiveX;
    var k, v := HeadOf(n, ts);
    UnbornHead(n, ts, k, v);
    HeadAddressed(v);
    RequestFrameKey(v.b.core, v.b.core.window);
    RequestIsNew(n, ts);
    SideSizes(n.x, n.count);
    RefusedNet(n);
  }

  lemma FrameOpensNothing(n: Net, ts: seq<Track>, c: nat)
    requires Linked(n, ts) && Rooted(n.x.m) && n.yx != [] && At(n.x.records, n.yx[0].conn) == Some(c)
    ensures |ReceiveX(n).x.m.heap| == |n.x.m.heap|
  {
    hide Agrees, Step, SentBy, ReceiveX, Alive, Over, Listed, Pairs.Inv, Rooted, FrameEffect,
         Track.Facing, Plain, SideOk, LocalKey, Linked, SameTables, DropsFrom;
    var k, v := HeadOf(n, ts);
    assert |n.x.records| == |n.x.m.heap| by { SideSizes(n.x, n.count); }
    var k', v' := NodeOf(n, ts, c);
    HeadAddressed(v);
    KeyFinds(n, ts, c, KeyOf(n.yx[0].frame));
    ReceiveTouches(n, c, n.yx[0].frame);
  }

  lemma CallOpens(n: Net, ts: seq<Track>, e: Event) returns (k: nat, out: seq<L3Frame>)
    requires Linked(n, ts) && Rooted(n.x.m) && |DoX(n, e).x.m.heap| == |n.x.m.heap| + 1
    ensures Opens(n, DoX(n, e), k, out)
  {
    hide Step, SentBy, Alive, Over, Rooted, FirstFree, ApartAt, Agrees, LocalKey, Plain, Tagged, Linked, DoX, CallSetup,
         Pairs.Start, SideOk, SameTables, DropsFrom, Allowed;
    assert SideOk(n.x, n.count) by { LinkedSide(n, ts); }
    SideSizes(n.x, n.count);
    k, out := n.count, [];
    if e.Originate? && FirstFree(n.x.m.used, 0).Some? {
      var idx := FirstFree(n.x.m.used, 0).value;
      CallNet(n, e, idx);
      CallPlaced(n, idx, e.dest, e.user, e.proposed);
      out := Plain(Pairs.Start(CallSetup(n, idx, e.dest, e.user, e.proposed)).ab);
    } else {
      OthersOpenNothing(n, ts, e);
    }
  }

  lemma OthersOpenNothing(n: Net, ts: seq<Track>, e: Event)
    requires Linked(n, ts) && Rooted(n.x.m) && |n.x.records| == |n.x.m.heap|
    requires !(e.Originate? && FirstFree(n.x.m.used, 0).Some?)
    ensures |DoX(n, e).x.m.heap| == |n.x.m.heap|
  {
    hide Step, SentBy, Alive, Over, Rooted, FirstFree, ApartAt, Agrees, LocalKey, Tagged, Linked, DoX, SideOk, SameTables,
         DropsFrom, Listed;
    assert SideOk(n.x, n.count) by { LinkedSide(n, ts); }
    if !Allowed(n.x.m, e) {
      NotAllowed(n, e);
    } else {
      match e
      case Originate(_, _, _) => CallFailsNet(n, e);
      case OriginateResumes(c) => ResumeTouches(n, c);
      case GuardFires(c) => GuardTouches(n, c);
      case Session(c, act) =>
        JustifiedAt(n, ts, c);
        SessionTouches(n, c, act);
    }
  }

  /** What is over after the step, but was not, had a circuit that the new one unlisted. */
  lemma OverByUnlisting(n: Net, t: Net, ts: seq<Track>, k: nat, out: seq<L3Frame>, i: nat)
    requires Linked(n, ts) && Opens(n, t, k, out) && i < |n.x.m.heap|
    requires n.x.records[i].conn != k && Over(t, n.x.records[i].conn) && !Over(n, n.x.records[i].conn)
    requires forall a, b :: 0 <= a < b < |t.x.records| ==> t.x.records[a].conn != t.x.records[b].conn
    ensures Listed(n.x.m, i) && !Listed(t.x.m, i) && i !in n.x.m.awaiting
  {
    hide Listed, SideOk, ApartAt, Agrees, Tagged;
    var q := n.x.records[i].conn;
    assert SideOk(n.x, n.count);
    OwnIndices(n, t, i);
    OfConcat(n.xy, SentBy(out, k), q);
    OfSentBy(out, k, q);
    assert Of(t.xy, q) == Of(n.xy, q) && Of(t.yx, q) == Of(n.yx, q);
  }

  lemma OwnIndices(n: Net, t: Net, i: nat)
    requires SideOk(n.x, n.count) && i < |n.x.records| < |t.x.records| && t.x.records[i] == n.x.records[i]
    requires forall a, b :: 0 <= a < b < |t.x.records| ==> t.x.records[a].conn != t.x.records[b].conn
    ensures At(n.x.records, n.x.records[i].conn) == Some(i) == At(t.x.records, n.x.records[i].conn)
  {
    hide Listed, Alive, At;
    AtOwn(n.x.records, i);
    AtOwn(t.x.records, i);
  }

  /** ... and then that circuit was open, which no two-endpoint system allows of an unlisted one. */
  lemma StaleKeyUnlinks(n: Net, t: Net, ts: seq<Track>, us: seq<Track>, k: nat, out: seq<L3Frame>, i: nat)
    requires Linked(n, ts) && Opens(n, t, k, out) && i < |n.x.m.heap|
    requires LocalKey(n.x.m.heap[i]) == LocalKey(t.x.m.heap[|n.x.m.heap|]) && !Over(n, n.x.records[i].conn)
    ensures !Linked(t, us)
  {
    hide LocalKey, Over, Listed, SideOk, Agrees, Tagged, Track.Facing, Pairs.Inv, Alive;
    if Linked(t, us) {
      var last := |n.x.m.heap|;
      assert SideOk(t.x, t.count);
      SideDistinct(t.x, t.count);
      ListedIsNotOver(t, last);
      assert t.x.m.heap[..last][i] == t.x.m.heap[i];
      assert t.x.records[i].conn == n.x.records[i].conn && t.x.records[last].conn == k;
      assert Over(t, n.x.records[i].conn);
      OverByUnlisting(n, t, ts, k, out, i);
      hide Linked;
      var q, v := NodeOf(t, us, i);
      UnlistedIsQuiet(v);
      JustifiedAt(n, ts, i);
    }
  }

  lemma SideDistinct(d: Side, count: nat)
    requires SideOk(d, count)
    ensures forall a, b :: 0 <= a < b < |d.records| ==> d.records[a].conn != d.records[b].conn
    ensures |d.records| == |d.m.heap|
  {
  }

  /** The connections are independent two-endpoint systems, and the circuits of those that are not
      over have different keys. */
  ghost predicate Independent(n: Net) { exists ts :: Linked(n, ts) }

  lemma StepXIndependentIff(n: Net, act: Act)
    requires Rooted(n.x.m) && Independent(n)
    ensures Independent(StepX(n, act)) <==> FreshX(n, act)
  {
    var ts :| Linked(n, ts);
    hide Linked, Rooted, DoX, ReceiveX, Step, Over, LocalKey, Opens;
    if FreshX(n, act) {
      var us := StepXKeeps(n, ts, act);
    } else {
      var t := StepX(n, act);
      assert |n.x.m.heap| == |n.x.records| by { LinkedSide(n, ts); SideSizes(n.x, n.count); }
      var i :| 0 <= i < |n.x.m.heap| && LocalKey(n.x.m.heap[i]) == LocalKey(t.x.m.heap[|n.x.m.heap|])
               && !Over(n, n.x.records[i].conn);
      var k, out := StepOpens(n, ts, act);
      forall us ensures !Linked(t, us) {
        StaleKeyUnlinks(n, t, ts, us, k, out, i);
      }
    }
  }

  lemma StepOpens(n: Net, ts: seq<Track>, act: Act) returns (k: nat, out: seq<L3Frame>)
    requires Linked(n, ts) && Rooted(n.x.m) && |StepX(n, act).x.m.heap| == |n.x.m.heap| + 1
    ensures Opens(n, StepX(n, act), k, out)
  {
    hide Linked, Rooted, DoX, ReceiveX, Opens;
    if act.Does? {
      k, out := CallOpens(n, ts, act.e);
    } else {
      k, out := ReceiveOpens(n, ts);
    }
  }

  lemma IndependentTurned(n: Net)
    requires Independent(n)
    ensures Independent(Turned(n))
  {
    var ts :| Linked(n, ts);
    LinkedTurned(n, ts);
  }

  /** One step keeps the connections independent if and only if it hands out no key of a connection
      that is not over. */
  lemma NextIndependentIff(n: Net, move: Move)
    requires BothRooted(n) && Independent(n)
    ensures Independent(Next(n, move)) <==> Fresh(n, move)
  {
    hide Independent, StepX, FreshX, Rooted;
    match move
    case AtX(act) => StepXIndependentIff(n, act);
    case AtY(act) =>
      IndependentTurned(n);
      StepXIndependentIff(Turned(n), act);
      var t := StepX(Turned(n), act);
      if Independent(t) {
        IndependentTurned(t);
      }
      if Independent(Turned(t)) {
        IndependentTurned(Turned(t));
        assert Turned(Turned(t)) == t;
      }
  }

  /** ... at every moment of a run. */
  ghost predicate IndependentThroughout(n: Net, moves: seq<Move>)
    requires BothRooted(n)
    decreases |moves|
  {
    Independent(Run(n, moves)) && (moves == [] || IndependentThroughout(n, moves[..|moves| - 1]))
  }

  /** Over every run of a crosslink: its connections stay independent of each other if and only if no
      key is handed out again before the connection that had it is over. */
  lemma {:induction false} IndependentIff(n: Net, moves: seq<Move>)
    requires BothRooted(n) && Independent(n)
    ensures IndependentThroughout(n, moves) <==> FreshKeys(n, moves)
    decreases |moves|
  {
    hide Independent, Next, Fresh, BothRooted;
    if moves != [] {
      var init, last := moves[..|moves| - 1], moves[|moves| - 1];
      IndependentIff(n, init);
      if FreshKeys(n, init) {
        assert Independent(Run(n, init));
        NextIndependentIff(Run(n, init), last);
      }
    }
  }

  lemma NewNetIndependent(ends: Ends)
    ensures Independent(ends.New())
  {
    NewNetLinked(ends.callX, ends.mtuX, ends.timeoutX, ends.callY, ends.mtuY, ends.timeoutY);
    hide Linked;
  }

  // ---------- The first 255 circuits of each end ----------

  /** Circuit i has the id i + 1. */
  predicate Numbered(m: Mgr)
  {
    m.nextId == |m.heap| < 256 && forall i :: 0 <= i < |m.heap| ==> m.heap[i].localId == i + 1
  }

  predicate Counts(m: Mgr, t: Mgr)
  {
    || (|t.heap| == |m.heap| && t.nextId == m.nextId)
    || (|t.heap| == |m.heap| + 1 && t.nextId == (m.nextId + 1) % 256 && t.heap[|m.heap|].localId == t.nextId)
  }

  lemma RequestCounts(m: Mgr, f: L3Frame)
    requires Rooted(m) && f.ConnectRequest?
    ensures Counts(m, OnConnectRequest(m, f).m)
  {
    hide FirstFree, ClampWindow, Refusal, ConnectAckFrame;
  }

  lemma FrameCounts(m: Mgr, c: nat, f: L3Frame)
    requires c < |m.heap| && !f.ConnectRequest?
    ensures Counts(m, OnCircuitFrame(m, c, f).m)
  {
    hide OnInformation, OnInformationAck, OnConnectAck, OnDisconnectRequest, OnDisconnectAck;
  }

  lemma StepCounts(m: Mgr, e: Event)
    requires Rooted(m)
    ensures Counts(m, Step(m, e).m)
  {
    hide OnConnectRequest, OnCircuitFrame, FirstFree, ClampWindow, ConnectReqFrame, OnGuard, SessionEffect, ClosedHeap;
    if e.Dispatch? {
      if e.frame.ConnectRequest? {
        RequestCounts(m, e.frame);
      } else if KeyOf(e.frame) in m.byLocal {
        FrameCounts(m, m.byLocal[KeyOf(e.frame)], e.frame);
      }
    }
  }

  lemma CountsNumbered(m: Mgr, t: Mgr)
    requires Numbered(m) && KeysKept(m, t) && Counts(m, t) && |t.heap| < 256
    ensures Numbered(t)
  {
    hide Settled, RemoteKey;
    forall i | 0 <= i < |t.heap| ensures t.heap[i].localId == i + 1 {
      if i < |m.heap| {
        assert LocalKey(t.heap[i]) == LocalKey(m.heap[i]);
      }
    }
  }

  lemma StepNumbered(m: Mgr, e: Event)
    requires Alive(m) && Rooted(m) && Numbered(m) && |Step(m, e).m.heap| < 256
    ensures Numbered(Step(m, e).m)
  {
    hide Step, Alive, Numbered, KeysKept, Counts, Rooted;
    StepKeepsKeys(m, e);
    StepCounts(m, e);
    CountsNumbered(m, Step(m, e).m);
  }

  /** What an end does is a step of its manager, or nothing. */
  lemma ActIsStep(n: Net, act: Act)
    requires Alive(n.x.m) && Rooted(n.x.m)
    ensures var t := StepX(n, act).x.m; Alive(t) && |n.x.m.heap| <= |t.heap|
    ensures var t := StepX(n, act).x.m; Numbered(n.x.m) && |t.heap| < 256 ==> Numbered(t)
  {
    hide Step, Rooted, Alive, Numbered, SentBy, Allowed;
    if act.Does? && Allowed(n.x.m, act.e) {
      StepXDoes(n, act.e);
      DoesStep(n, act.e);
      StepLawful(n.x.m, act.e);
      StepRooted(n.x.m, act.e);
      if Numbered(n.x.m) && |Step(n.x.m, act.e).m.heap| < 256 {
        StepNumbered(n.x.m, act.e);
      }
    } else if act.Receives? && n.yx != [] {
      var e := Dispatch(n.yx[0].frame);
      StepXReceives(n);
      StepLawful(n.x.m, e);
      StepRooted(n.x.m, e);
      if Numbered(n.x.m) && |Step(n.x.m, e).m.heap| < 256 {
        StepNumbered(n.x.m, e);
      }
    }
  }

  lemma NumberedIsFresh(n: Net, act: Act)
    requires Rooted(n.x.m) && Numbered(n.x.m) && Numbered(StepX(n, act).x.m)
    ensures FreshX(n, act)
  {
    hide StepX, Over;
  }

  predicate FirstOnes(n: Net) { Numbered(n.x.m) && Numbered(n.y.m) }

  lemma {:induction false} RunNumbered(n: Net, moves: seq<Move>)
    requires BothRooted(n) && FirstOnes(n) && Alive(n.x.m) && Alive(n.y.m)
    requires |Run(n, moves).x.m.heap| < 256 && |Run(n, moves).y.m.heap| < 256
    ensures FirstOnes(Run(n, moves)) && Alive(Run(n, moves).x.m) && Alive(Run(n, moves).y.m) && FreshKeys(n, moves)
    decreases |moves|
  {
    hide Rooted, Alive, Numbered, StepX, FreshX;
    if moves != [] {
      var init, last := moves[..|moves| - 1], moves[|moves| - 1];
      RunAlive(n, init);
      var t := Run(n, init);
      ActIsStep(t, last.act);
      ActIsStep(Turned(t), last.act);
      RunNumbered(n, init);
      match last
      case AtX(act) => NumberedIsFresh(t, act);
      case AtY(act) => NumberedIsFresh(Turned(t), act);
    }
  }

  lemma {:induction false} RunAlive(n: Net, moves: seq<Move>)
    requires BothRooted(n) && Alive(n.x.m) && Alive(n.y.m)
    ensures Alive(Run(n, moves).x.m) && Alive(Run(n, moves).y.m)
    decreases |moves|
  {
    hide Rooted, Alive, Numbered, StepX;
    if moves != [] {
      var init, last := moves[..|moves| - 1], moves[|moves| - 1];
      RunAlive(n, init);
      ActIsStep(Run(n, init), last.act);
      ActIsStep(Turned(Run(n, init)), last.act);
    }
  }

  /** As long as each end has made fewer than 256 circuits, no key has come round again. */
  lemma FirstCircuitsAreFresh(ends: Ends, moves: seq<Move>)
    requires |ends.After(moves).x.m.heap| < 256 && |ends.After(moves).y.m.heap| < 256
    ensures FreshKeys(ends.New(), moves)
  {
    hide Run, FreshKeys;
    RunNumbered(ends.New(), moves);
  }
}

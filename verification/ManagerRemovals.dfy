/** Runs in which no circuit is removed twice, and the runs in which a removal harms another
    circuit. */
module ManagerRemovals {
  import opened Prelude
  import opened Frames
  import opened Circuit
  import opened ManagerSteps
  import opened ManagerLifecycle
  import opened ManagerTables
  import opened ManagerPairing

  // ---------- No circuit removed twice ----------

  function AllOf(m: Mgr): set<nat> { Below(|m.heap|) }

  function Below(n: nat): (s: set<nat>)
    ensures forall c :: c in s <==> 0 <= c < n
  {
    if n == 0 then {} else Below(n - 1) + {n - 1}
  }

  /** The circuits that have been taken out of the tables, one by one or by a shutdown. */
  function GoneAfter(m: Mgr, e: Event, gone: set<nat>): set<nat>
    requires Rooted(m)
  {
    match ChangeBy(m, e)
    case Drops(c) => gone + {c}
    case Clears => AllOf(m)
    case _ => gone
  }

  /** No step of the run removes a circuit that is already gone. */
  predicate RemovedOnce(m: Mgr, es: seq<Event>, gone: set<nat>)
    requires Rooted(m)
    decreases |es|
  {
    es == [] ||
    (StepRooted(m, es[0]);
     && (ChangeBy(m, es[0]).Drops? ==> ChangeBy(m, es[0]).c !in gone)
     && RemovedOnce(Step(m, es[0]).m, es[1..], GoneAfter(m, es[0], gone)))
  }

  /** Whatever is not gone is listed. */
  ghost predicate Tracked(m: Mgr, gone: set<nat>)
  {
    forall c :: 0 <= c < |m.heap| && c !in gone ==> Listed(m, c)
  }

  lemma InstalledTracks(m: Mgr, t: Mgr, gone: set<nat>)
    requires Tidy(m) && Tracked(m, gone) && KeysKept(m, t) && Installed(m, t)
    ensures Tracked(t, gone)
  {
    assert LocalKey(t.heap[|m.heap|]) !in m.byLocal by {
      NewKeyIsFree(m, LocalKey(t.heap[|m.heap|]));
    }
    hide Tidy, LocalKey, RemoteKey;
    forall c | 0 <= c < |t.heap| && c !in gone ensures Listed(t, c) {
      if c < |m.heap| {
        assert Listed(m, c);
      }
    }
  }

  lemma KeptTracks(m: Mgr, t: Mgr, ch: Change, gone: set<nat>)
    requires Tracked(m, gone) && KeysKept(m, t) && Has(m, t, ch) && (ch.Unchanged? || (ch.Drops? && ch.c !in gone))
    ensures Tracked(t, if ch.Drops? then gone + {ch.c} else gone)
  {
    hide LocalKey, RemoteKey;
    forall c | 0 <= c < |t.heap| && c !in gone && (ch.Drops? ==> c != ch.c) ensures Listed(t, c) {
      assert Listed(m, c);
      if ch.Drops? {
        assert Listed(m, ch.c);
      }
    }
  }

  lemma TrackedAfter(m: Mgr, t: Mgr, e: Event, gone: set<nat>)
    requires Rooted(m) && Tidy(m) && Tracked(m, gone) && KeysKept(m, t) && Has(m, t, ChangeBy(m, e))
    requires ChangeBy(m, e).Drops? ==> ChangeBy(m, e).c !in gone
    ensures Tracked(t, GoneAfter(m, e, gone))
  {
    hide Tidy, Rooted, ChangeBy, KeysKept, Listed, Installed, SameTables, DropsFrom;
    match ChangeBy(m, e)
    case Unchanged => KeptTracks(m, t, Unchanged, gone);
    case Answers => InstalledTracks(m, t, gone);
    case Calls => InstalledTracks(m, t, gone);
    case Drops(c) => KeptTracks(m, t, Drops(c), gone);
    case Clears =>
  }

  /** A circuit that is still listed can be removed safely. */
  lemma OnceIsClean(m: Mgr, e: Event, gone: set<nat>)
    requires Rooted(m) && Tracked(m, gone) && (ChangeBy(m, e).Drops? ==> ChangeBy(m, e).c !in gone)
    ensures CleanStep(m, e)
  {
    hide LocalKey;
    var b := BlindRemoval(m, e);
    if b.Some? && b.value < |m.heap| {
      assert ChangeBy(m, e) == Drops(b.value);
      assert Listed(m, b.value);
    }
  }

  lemma {:induction false} OnceStaysTidy(m: Mgr, es: seq<Event>, gone: set<nat>)
    requires Alive(m) && Tidy(m) && Tracked(m, gone) && RemovedOnce(m, es, gone)
    ensures Tidy(Exec(m, es)) && CleanRun(m, es)
    decreases |es|
  {
    if es != [] {
      hide Step, Alive, Tidy, Tracked, CleanStep, KeysKept, ChangeBy, GoneAfter;
      assert ChangeBy(m, es[0]).Drops? ==> ChangeBy(m, es[0]).c !in gone;
      OnceIsClean(m, es[0], gone);
      StepTidyIff(m, es[0]);
      StepKeepsKeys(m, es[0]);
      StepChanges(m, es[0]);
      TrackedAfter(m, Step(m, es[0]).m, es[0], gone);
      OnceStaysTidy(Step(m, es[0]).m, es[1..], GoneAfter(m, es[0], gone));
    }
  }

  lemma NewManagerTidy(call: string, mtu: Mtu, timeout: bool)
    ensures var m := NewManager(call, mtu, timeout);
      Tidy(m) && Alive(m) && Tracked(m, {}) && Paired(m, {})
  {
    var m := NewManager(call, mtu, timeout);
    assert forall i: byte :: !Holds(m, i);
  }

  /** From a new manager, on every run in which no circuit is removed twice, answered and
      originated circuits mixed: listed circuits have pairwise distinct indices, and the used
      set is exactly theirs. */
  lemma RemovedOnceStaysTidy(call: string, mtu: Mtu, timeout: bool, es: seq<Event>)
    requires RemovedOnce(NewManager(call, mtu, timeout), es, {})
    ensures Tidy(After(call, mtu, timeout, es))
  {
    hide Tidy, Alive, Tracked, RemovedOnce, Exec;
    NewManagerTidy(call, mtu, timeout);
    OnceStaysTidy(NewManager(call, mtu, timeout), es, {});
  }

  // ---------- ... by a node that only answers ----------

  predicate OnlyAnswers(es: seq<Event>) { forall i :: 0 <= i < |es| ==> !es[i].Originate? }

  /** Dropping a circuit that both tables list takes nothing else along. */
  lemma ListedDropSpares(m: Mgr, e: Event, gone: set<nat>)
    requires Rooted(m) && Tracked(m, gone) && Mirrors(m, AllOf(m))
    requires ChangeBy(m, e).Drops? ==> ChangeBy(m, e).c !in gone
    ensures SparesOthers(m, e) && PopsBoth(m, e)
  {
    hide ChangeBy, LocalKey, RemoteKey;
    match ChangeBy(m, e)
    case Drops(c) =>
      if c < |m.heap| {
        assert Listed(m, c) && c in AllOf(m) && Mirrored(m, c);
      }
    case _ =>
  }

  lemma AnswersAll(m: Mgr, e: Event)
    requires Rooted(m) && !e.Originate?
    ensures Grown(m, e, AllOf(m)) == AllOf(Step(m, e).m)
  {
    StepChanges(m, e);
    hide Step, LocalKey, RemoteKey;
    assert ChangeBy(m, e) != Calls;
  }

  lemma {:induction false} AnsweringStaysPaired(m: Mgr, es: seq<Event>, gone: set<nat>)
    requires Alive(m) && Paired(m, AllOf(m)) && Tracked(m, gone) && RemovedOnce(m, es, gone) && OnlyAnswers(es)
    ensures Paired(Exec(m, es), AllOf(Exec(m, es))) && Alive(Exec(m, es))
    decreases |es|
  {
    if es != [] {
      hide Step, Alive, Tidy, Mirrors, Backed, Tracked, CleanStep, SparesOthers, PopsBoth, KeysKept, ChangeBy, GoneAfter, AllOf;
      assert ChangeBy(m, es[0]).Drops? ==> ChangeBy(m, es[0]).c !in gone;
      AliveIsRooted(m);
      OnceIsClean(m, es[0], gone);
      ListedDropSpares(m, es[0], gone);
      StepPairedIff(m, es[0], AllOf(m));
      AnswersAll(m, es[0]);
      StepKeepsKeys(m, es[0]);
      StepChanges(m, es[0]);
      TrackedAfter(m, Step(m, es[0]).m, es[0], gone);
      AnsweringStaysPaired(Step(m, es[0]).m, es[1..], GoneAfter(m, es[0], gone));
    }
  }

  /** From a new manager that only answers calls, on every run in which no circuit is removed
      twice, the two tables index the same circuits: whatever is listed by one of its keys is
      listed by the other. */
  lemma TablesInBijection(call: string, mtu: Mtu, timeout: bool, es: seq<Event>, c: nat)
    requires RemovedOnce(NewManager(call, mtu, timeout), es, {}) && OnlyAnswers(es)
    ensures Listed(After(call, mtu, timeout, es), c) <==> Mirrored(After(call, mtu, timeout, es), c)
  {
    var m0, m := NewManager(call, mtu, timeout), After(call, mtu, timeout, es);
    NewManagerTidy(call, mtu, timeout);
    assert AllOf(m0) == {};
    hide Tidy, Alive, Tracked, RemovedOnce, Exec, LocalKey, RemoteKey;
    AnsweringStaysPaired(m0, es, {});
    assert c < |m.heap| ==> c in AllOf(m);
  }

  // ---------- A call that times out ----------

  lemma OriginateOpens(m: Mgr, e: Event)
    requires Rooted(m) && e.Originate? && m.used == {0}
    ensures var t := Step(m, e).m; var id := (m.nextId + 1) % 256;
      && t.heap[..|m.heap|] == m.heap && |t.heap| == |m.heap| + 1
      && t.byLocal == m.byLocal[(1, id) := |m.heap|] && t.byRemote == m.byRemote && t.used == {0, 1}
      && t.awaiting == m.awaiting + {|m.heap|}
      && var c := t.heap[|m.heap|];
         c.state == AwaitingConnect && LocalKey(c) == (1, id) && RemoteKey(c) == (0, 0)
  {
    assert FirstFree(m.used, 0) == Some(1);
    hide FirstFree, ConnectReqFrame;
  }

  lemma ResumeRemoves(m: Mgr, c: nat)
    requires Rooted(m) && c < |m.heap| && c in m.awaiting && m.heap[c].state != Connected
    ensures var t := Step(m, OriginateResumes(c)).m;
      && t.heap == m.heap && t.byLocal == m.byLocal - {LocalKey(m.heap[c])}
      && t.byRemote == m.byRemote - {RemoteKey(m.heap[c])}
      && t.used == m.used - {m.heap[c].localIdx} && t.nextId == m.nextId
  {
  }

  lemma NewKeyOpens(m: Mgr, f: L3Frame)
    requires Rooted(m) && f.ConnectRequest? && (f.header.circuitIdx, f.header.circuitId) !in m.byRemote
    requires m.used == {0}
    ensures |OnConnectRequest(m, f).m.heap| == |m.heap| + 1
  {
    assert FirstFree(m.used, 0) == Some(1);
    OpenedParts(m, 1, f);
    hide FirstFree, Opened;
  }

  const CALL_AND_TIMEOUT: seq<Event> :=
    [Dispatch(Request(0, 0)), Originate("", "", 4), OriginateResumes(1)]

  /** A circuit answered, and a call placed: the circuit is listed under both keys. */
  lemma AnsweredAndCalling(call: string, mtu: Mtu, i: byte, d: byte)
    ensures var m := After(call, mtu, false, [Dispatch(Request(i, d)), Originate("", "", 4)]);
      && |m.heap| == 2 && m.byLocal == map[(0, 1) := 0, (1, 2) := 1] && m.byRemote == map[(i, d) := 0]
      && m.used == {0, 1} && 1 in m.awaiting
      && m.heap[0].state == Connected && LocalKey(m.heap[0]) == (0, 1) && RemoteKey(m.heap[0]) == (i, d)
      && m.heap[1].state == AwaitingConnect && LocalKey(m.heap[1]) == (1, 2) && RemoteKey(m.heap[1]) == (0, 0)
  {
    var m0 := NewManager(call, mtu, false);
    hide Request, Step, LocalKey, RemoteKey;
    var e1, e2 := Dispatch(Request(i, d)), Originate("", "", 4);
    RequestFacts(i, d);
    RequestOpens(m0, Request(i, d));
    ExecSnoc(m0, [], e1);
    assert [] + [e1] == [e1];
    var m1 := Step(m0, e1).m;
    OriginateOpens(m1, e2);
    ExecSnoc(m0, [e1], e2);
    assert [e1] + [e2] == [e1, e2];
    assert Step(m1, e2).m.heap[0] == Step(m1, e2).m.heap[..1][0] == m1.heap[0];
  }

  /** The pending call's placeholder key (0, 0) is popped when the call times out, and takes the
      answered circuit's entry with it: a repeat opens a second circuit. */
  lemma TimedOutCallUnlistsAnother(call: string, mtu: Mtu)
    ensures var m := After(call, mtu, false, CALL_AND_TIMEOUT);
      && Listed(m, 0) && RemoteKey(m.heap[0]) == (0, 0) && m.heap[0].state == Connected
      && |OnConnectRequest(m, Request(0, 0)).m.heap| == |m.heap| + 1
  {
    AnsweredAndCalling(call, mtu, 0, 0);
    RequestFacts(0, 0);
    hide Request, Step, LocalKey, RemoteKey;
    var m0 := NewManager(call, mtu, false);
    var es := [Dispatch(Request(0, 0)), Originate("", "", 4)];
    var m2 := Exec(m0, es);
    ExecSnoc(m0, es, OriginateResumes(1));
    assert es + [OriginateResumes(1)] == CALL_AND_TIMEOUT;
    ResumeRemoves(m2, 1);
    NewKeyOpens(Exec(m0, CALL_AND_TIMEOUT), Request(0, 0));
  }

  // ---------- A call that is answered ----------

  /** The far node accepts, and names its own circuit (7, 1). */
  function Acceptance(): L3Frame
  {
    ConnectAck(L3Header("", "", DEFAULT_TTL, 1, 2, 7, 1, OPCODE_CONNECT_ACK), 4, false)
  }

  function HangUp(): L3Frame
  {
    Disconnect(L3Header("", "", DEFAULT_TTL, 1, 2, 0, 0, OPCODE_DISCONNECT_REQ))
  }

  lemma AcceptanceLearns(m: Mgr)
    requires Rooted(m) && (1, 2) in m.byLocal && m.byLocal[(1, 2)] == 1 && |m.heap| == 2
    requires m.heap[1].state == AwaitingConnect && LocalKey(m.heap[1]) == (1, 2)
    ensures var t := Step(m, Dispatch(Acceptance())).m;
      && t == m.(heap := t.heap) && |t.heap| == 2 && t.heap[0] == m.heap[0]
      && t.heap[1].state == Connected && LocalKey(t.heap[1]) == (1, 2) && RemoteKey(t.heap[1]) == (7, 1)
  {
  }

  lemma HangUpDrops(m: Mgr)
    requires Rooted(m) && (1, 2) in m.byLocal && m.byLocal[(1, 2)] == 1 && |m.heap| == 2
    requires LocalKey(m.heap[1]) == (1, 2)
    ensures var t := Step(m, Dispatch(HangUp())).m;
      && t.byLocal == m.byLocal - {(1, 2)} && t.byRemote == m.byRemote - {RemoteKey(m.heap[1])}
      && t.used == m.used - {1} && |t.heap| == 2 && t.heap[0] == m.heap[0]
  {
    hide OnDisconnectRequest, Remove, RemoteKey;
    DiscKeepsKeys(m.heap[1]);
    var d := OnDisconnectRequest(m.heap[1]).core;
    assert Step(m, Dispatch(HangUp())).m == Remove(Updated(m, 1, d), 1);
    RemoveDrops(m, 1, d);
    RemoveFrees(Updated(m, 1, d), 1);
  }

  lemma RemoveFrees(m: Mgr, c: nat)
    requires c < |m.heap|
    ensures Remove(m, c).used == m.used - {LocalKey(m.heap[c]).0} && Remove(m, c).heap == m.heap
  {
  }

  const CALL_AND_HANG_UP: seq<Event> :=
    [Dispatch(Request(7, 1)), Originate("", "", 4), Dispatch(Acceptance()), Dispatch(HangUp())]

  lemma AfterTheAcceptance(call: string, mtu: Mtu)
    ensures var m := After(call, mtu, false, CALL_AND_HANG_UP[..3]);
      && |m.heap| == 2 && m.byLocal == map[(0, 1) := 0, (1, 2) := 1] && m.byRemote == map[(7, 1) := 0]
      && m.used == {0, 1} && m.heap[0].state == Connected
      && LocalKey(m.heap[0]) == (0, 1) && RemoteKey(m.heap[0]) == (7, 1)
      && LocalKey(m.heap[1]) == (1, 2) && RemoteKey(m.heap[1]) == (7, 1)
  {
    AnsweredAndCalling(call, mtu, 7, 1);
    hide Request, Acceptance, HangUp, Step, LocalKey, RemoteKey;
    var m0 := NewManager(call, mtu, false);
    var es := [Dispatch(Request(7, 1)), Originate("", "", 4)];
    AcceptanceLearns(Exec(m0, es));
    ExecSnoc(m0, es, Dispatch(Acceptance()));
    assert es + [Dispatch(Acceptance())] == CALL_AND_HANG_UP[..3];
  }

  lemma AfterTheHangUp(call: string, mtu: Mtu)
    ensures var m := After(call, mtu, false, CALL_AND_HANG_UP);
      && Listed(m, 0) && RemoteKey(m.heap[0]) == (7, 1) && m.heap[0].state == Connected
      && (7, 1) !in m.byRemote && m.used == {0}
  {
    hide Request, Acceptance, HangUp, Step, LocalKey, RemoteKey, Exec;
    AfterTheAcceptance(call, mtu);
    var m0 := NewManager(call, mtu, false);
    HangUpDrops(Exec(m0, CALL_AND_HANG_UP[..3]));
    ExecSnoc(m0, CALL_AND_HANG_UP[..3], Dispatch(HangUp()));
    assert CALL_AND_HANG_UP[..3] + [Dispatch(HangUp())] == CALL_AND_HANG_UP;
  }

  /** The key that an originated circuit learns may be the one a neighbour's circuit was answered
      under, because keys do not say which far node they come from. When the originated circuit
      is hung up, the answered one loses its entry, and a repeat opens a second circuit; no timer
      and no second removal is involved. */
  lemma LearnedKeyUnlistsAnother(call: string, mtu: Mtu)
    ensures var m := After(call, mtu, false, CALL_AND_HANG_UP);
      && Listed(m, 0) && RemoteKey(m.heap[0]) == (7, 1) && m.heap[0].state == Connected
      && (7, 1) !in m.byRemote
      && |OnConnectRequest(m, Request(7, 1)).m.heap| == |m.heap| + 1
  {
    AfterTheHangUp(call, mtu);
    RequestFacts(7, 1);
    hide Request, After, Listed;
    NewKeyOpens(After(call, mtu, false, CALL_AND_HANG_UP), Request(7, 1));
  }
}

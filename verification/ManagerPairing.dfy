/** The two lookup tables against each other, on runs that mix answered and originated circuits.
    Only a circuit answered to a CONNECT REQ is ever listed by its remote key; while every
    listed one is, a repeated CONNECT REQ is harmless. */
module ManagerPairing {
  import opened Prelude
  import opened Frames
  import opened Circuit
  import opened ManagerSteps
  import opened ManagerLifecycle
  import opened ManagerTables

  /** Circuit c is listed under its remote key. */
  predicate Mirrored(m: Mgr, c: nat)
  {
    c < |m.heap| && RemoteKey(m.heap[c]) in m.byRemote && m.byRemote[RemoteKey(m.heap[c])] == c
  }

  // ---------- What a step does to the tables ----------

  datatype Change =
    | Unchanged
    | Answers          // a circuit opened by a CONNECT REQ, listed under both keys
    | Calls            // a circuit originated here, listed under its local key only
    | Drops(c: nat)    // both keys of circuit c are popped
    | Clears

  function ChangeBy(m: Mgr, e: Event): Change
    requires Rooted(m)
  {
    if !Enabled(m, e) then Unchanged
    else match e
      case Dispatch(f) =>
        var key := (f.header.circuitIdx, f.header.circuitId);
        if f.ConnectRequest? then
          if key in m.byRemote || TableFull(m) || FirstFree(m.used, 0).None? then Unchanged else Answers
        else if key in m.byLocal && f.Disconnect? then Drops(m.byLocal[key])
        else Unchanged
      case Originate(_, _, _) => if FirstFree(m.used, 0).None? then Unchanged else Calls
      case OriginateResumes(c) => if m.heap[c].state == Connected then Unchanged else Drops(c)
      case GuardFires(c) => if m.heap[c].state == Disconnecting then Drops(c) else Unchanged
      case Session(_, _) => Unchanged
      case Link(act) => if act.Shutdown? then Clears else Unchanged
  }

  predicate SameTables(m: Mgr, t: Mgr)
  {
    t.byLocal == m.byLocal && t.byRemote == m.byRemote && |t.heap| == |m.heap|
  }

  predicate DropsFrom(m: Mgr, t: Mgr, c: nat)
  {
    && c < |m.heap| == |t.heap|
    && t.byLocal == m.byLocal - {LocalKey(m.heap[c])} && t.byRemote == m.byRemote - {RemoteKey(m.heap[c])}
  }

  /** One more circuit, on an index that was free. */
  predicate Installed(m: Mgr, t: Mgr)
  {
    && |t.heap| == |m.heap| + 1
    && t.heap[|m.heap|].localIdx !in m.used
    && t.byLocal == m.byLocal[LocalKey(t.heap[|m.heap|]) := |m.heap|]
  }

  predicate Has(m: Mgr, t: Mgr, ch: Change)
  {
    match ch
    case Unchanged => SameTables(m, t)
    case Answers =>
      && Installed(m, t) && t.heap[|m.heap|].state == Connected
      && var r := RemoteKey(t.heap[|m.heap|]); r !in m.byRemote && t.byRemote == m.byRemote[r := |m.heap|]
    case Calls => Installed(m, t) && t.byRemote == m.byRemote && t.heap[|m.heap|].state == AwaitingConnect
    case Drops(c) => DropsFrom(m, t, c)
    case Clears => t.byLocal == map[] && t.byRemote == map[] && |t.heap| == |m.heap|
  }

  lemma RemoveDrops(m: Mgr, c: nat, d: Core)
    requires c < |m.heap| && LocalKey(d) == LocalKey(m.heap[c]) && RemoteKey(d) == RemoteKey(m.heap[c])
    ensures DropsFrom(m, Remove(Updated(m, c, d), c), c)
  {
  }

  lemma DiscKeepsKeys(c: Core)
    ensures LocalKey(OnDisconnectRequest(c).core) == LocalKey(OnDisconnectAck(c)) == LocalKey(OnGuard(c)) == LocalKey(c)
    ensures RemoteKey(OnDisconnectRequest(c).core) == RemoteKey(OnDisconnectAck(c)) == RemoteKey(OnGuard(c)) == RemoteKey(c)
  {
  }

  lemma FrameChanges(m: Mgr, c: nat, f: L3Frame)
    requires Rooted(m) && c < |m.heap| && !f.ConnectRequest?
    ensures Has(m, OnCircuitFrame(m, c, f).m, if f.Disconnect? then Drops(c) else Unchanged)
  {
    hide OnInformation, OnInformationAck, OnConnectAck, OnDisconnectRequest, OnDisconnectAck, Remove, LocalKey, RemoteKey;
    if f.Disconnect? {
      DiscKeepsKeys(m.heap[c]);
      RemoveDrops(m, c, OnDisconnectRequest(m.heap[c]).core);
      RemoveDrops(m, c, OnDisconnectAck(m.heap[c]));
    }
  }

  lemma DispatchChanges(m: Mgr, f: L3Frame)
    requires Rooted(m)
    ensures Has(m, OnDispatch(m, f).m, ChangeBy(m, Dispatch(f)))
  {
    hide OnCircuitFrame, Opened, FirstFree, OnSendConnectAck, LocalKey, RemoteKey, Refusal;
    var key := (f.header.circuitIdx, f.header.circuitId);
    if f.ConnectRequest? {
      if key !in m.byRemote && !TableFull(m) && FirstFree(m.used, 0).Some? {
        OpenedParts(m, FirstFree(m.used, 0).value, f);
      }
    } else if key in m.byLocal {
      FrameChanges(m, m.byLocal[key], f);
    }
  }

  lemma OriginateChanges(m: Mgr, e: Event)
    requires Rooted(m) && e.Originate?
    ensures Has(m, OnOriginate(m, e.dest, e.user, e.proposed).m, ChangeBy(m, e))
  {
    hide FirstFree, ConnectReqFrame, ClampWindow;
  }

  /** Every step does to the tables what `ChangeBy` says. */
  lemma StepChanges(m: Mgr, e: Event)
    requires Rooted(m)
    ensures Has(m, Step(m, e).m, ChangeBy(m, e))
  {
    hide OnDispatch, OnOriginate, SessionEffect, Remove, OnGuard, LocalKey, RemoteKey, ClosedHeap, FirstFree;
    if Enabled(m, e) {
      match e
      case Dispatch(f) => DispatchChanges(m, f);
      case Originate(_, _, _) => OriginateChanges(m, e);
      case OriginateResumes(c) =>
        RemoveDrops(m.(awaiting := m.awaiting - {c}), c, m.heap[c]);
        assert Updated(m.(awaiting := m.awaiting - {c}), c, m.heap[c]) == m.(awaiting := m.awaiting - {c});
      case GuardFires(c) =>
        DiscKeepsKeys(m.heap[c]);
        RemoveDrops(m, c, OnGuard(m.heap[c]));
      case Session(_, _) =>
      case Link(_) =>
    }
  }

  /** Old circuits keep their local keys; those past the handshake keep both. */
  ghost predicate KeysKept(m: Mgr, t: Mgr)
  {
    && |m.heap| <= |t.heap|
    && (forall c :: 0 <= c < |m.heap| ==> LocalKey(t.heap[c]) == LocalKey(m.heap[c]))
    && (forall c :: 0 <= c < |m.heap| && Settled(m.heap[c]) ==>
          Settled(t.heap[c]) && RemoteKey(t.heap[c]) == RemoteKey(m.heap[c]))
  }

  predicate Settled(c: Core) { c.state in {Connected, Disconnecting, Closed} }

  lemma LawfulKeepsKeys(c: Core, d: Core)
    requires Sound(c) && (Related(c, d) || Reopens(c, d))
    ensures LocalKey(d) == LocalKey(c)
    ensures Settled(c) ==> Settled(d) && RemoteKey(d) == RemoteKey(c)
  {
  }

  lemma StepKeepsKeys(m: Mgr, e: Event)
    requires Alive(m)
    ensures KeysKept(m, Step(m, e).m) && Alive(Step(m, e).m)
  {
    StepLawful(m, e);
    var t := Step(m, e).m;
    hide Step, Related, Reopens, LocalKey, RemoteKey, Sound, Settled;
    forall c | 0 <= c < |m.heap|
      ensures LocalKey(t.heap[c]) == LocalKey(m.heap[c])
      ensures Settled(m.heap[c]) ==> Settled(t.heap[c]) && RemoteKey(t.heap[c]) == RemoteKey(m.heap[c])
    {
      LawfulKeepsKeys(m.heap[c], t.heap[c]);
    }
  }

  // ---------- Every listed answered circuit is mirrored ----------

  /** `answered` are the circuits opened by a CONNECT REQ. Whichever of them is still listed by
      its local key is listed by its remote key. */
  ghost predicate Mirrors(m: Mgr, answered: set<nat>)
  {
    && (forall c :: c in answered ==> c < |m.heap| && Settled(m.heap[c]))
    && (forall k :: k in m.byRemote ==> m.byRemote[k] in answered)
    && (forall c :: c in answered && Listed(m, c) ==> Mirrored(m, c))
  }

  function Grown(m: Mgr, e: Event, answered: set<nat>): set<nat>
    requires Rooted(m)
  {
    if ChangeBy(m, e) == Answers then answered + {|m.heap|} else answered
  }

  /** The entry under the remote key that the step pops is the dropped circuit's own, or that of
      a circuit that is not, or no longer, listed. */
  predicate SparesOthers(m: Mgr, e: Event)
    requires Rooted(m)
  {
    match ChangeBy(m, e)
    case Drops(c) => c < |m.heap| ==> SparedBy(m, c)
    case _ => true
  }

  predicate SparedBy(m: Mgr, c: nat)
    requires c < |m.heap|
  {
    var r := RemoteKey(m.heap[c]);
    r in m.byRemote && m.byRemote[r] < |m.heap| ==>
      var x := m.byRemote[r];
      x == c || !Listed(m, x) || LocalKey(m.heap[x]) == LocalKey(m.heap[c])
  }

  lemma SameMirrors(m: Mgr, t: Mgr, answered: set<nat>)
    requires Mirrors(m, answered) && KeysKept(m, t) && SameTables(m, t)
    ensures Mirrors(t, answered)
  {
    hide LocalKey, RemoteKey, Settled;
    forall c | c in answered && Listed(t, c) ensures Mirrored(t, c) {
      assert Settled(m.heap[c]) && Listed(m, c) && Mirrored(m, c);
    }
  }

  lemma AnswersMirrors(m: Mgr, t: Mgr, answered: set<nat>)
    requires Mirrors(m, answered) && KeysKept(m, t) && Has(m, t, Answers)
    ensures Mirrors(t, answered + {|m.heap|})
  {
    hide LocalKey, RemoteKey;
    forall c | c in answered && Listed(t, c) ensures Mirrored(t, c) {
      assert Listed(m, c) && Mirrored(m, c);
    }
  }

  lemma CallsMirrors(m: Mgr, t: Mgr, answered: set<nat>)
    requires Mirrors(m, answered) && KeysKept(m, t) && Has(m, t, Calls)
    ensures Mirrors(t, answered)
  {
    hide LocalKey, RemoteKey;
    forall c | c in answered && Listed(t, c) ensures Mirrored(t, c) {
      assert Listed(m, c) && Mirrored(m, c);
    }
  }

  lemma DropsMirrorsIff(m: Mgr, t: Mgr, c: nat, answered: set<nat>)
    requires Alive(m) && Mirrors(m, answered) && KeysKept(m, t) && DropsFrom(m, t, c)
    ensures Mirrors(t, answered) <==> SparedBy(m, c)
  {
    assert forall k :: k in m.byRemote ==> k == RemoteKey(m.heap[m.byRemote[k]]);
    hide LocalKey, RemoteKey, Settled, Alive;
    var l, r := LocalKey(m.heap[c]), RemoteKey(m.heap[c]);
    if SparedBy(m, c) {
      forall d | d in answered && Listed(t, d) ensures Mirrored(t, d) {
        assert Listed(m, d) && Mirrored(m, d) && LocalKey(m.heap[d]) != l;
      }
    } else {
      var x := m.byRemote[r];
      assert x in answered && Listed(m, x) && Mirrored(m, x);
      assert Listed(t, x) && !Mirrored(t, x);
    }
  }

  /** One step, answered and originated circuits mixed: every listed answered circuit stays
      mirrored if and only if the step pops no listed one's entry for another. */
  lemma StepMirrorsIff(m: Mgr, e: Event, answered: set<nat>)
    requires Alive(m) && Mirrors(m, answered)
    ensures Mirrors(Step(m, e).m, Grown(m, e, answered)) <==> SparesOthers(m, e)
  {
    hide Step, Mirrors, KeysKept, ChangeBy, SparedBy, Alive, Rooted;
    assert Rooted(m) by { AliveIsRooted(m); }
    StepKeepsKeys(m, e);
    StepChanges(m, e);
    var t := Step(m, e).m;
    match ChangeBy(m, e)
    case Unchanged => SameMirrors(m, t, answered);
    case Answers => AnswersMirrors(m, t, answered);
    case Calls => CallsMirrors(m, t, answered);
    case Drops(c) => DropsMirrorsIff(m, t, c, answered);
    case Clears => ClearsMirrors(m, t, answered);
  }

  lemma ClearsMirrors(m: Mgr, t: Mgr, answered: set<nat>)
    requires Mirrors(m, answered) && KeysKept(m, t) && Has(m, t, Clears)
    ensures Mirrors(t, answered)
  {
    hide LocalKey, RemoteKey;
  }

  lemma AliveIsRooted(m: Mgr)
    requires Alive(m)
    ensures Rooted(m)
  {
  }

  // ---------- Runs ----------

  function AnsweredAfter(m: Mgr, es: seq<Event>, answered: set<nat>): set<nat>
    requires Rooted(m)
    decreases |es|
  {
    if es == [] then answered
    else
      StepRooted(m, es[0]);
      AnsweredAfter(Step(m, es[0]).m, es[1..], Grown(m, es[0], answered))
  }

  /** No step of the run pops a listed answered circuit's entry for another. */
  predicate SparingRun(m: Mgr, es: seq<Event>)
    requires Rooted(m)
    decreases |es|
  {
    es == [] || (StepRooted(m, es[0]); SparesOthers(m, es[0]) && SparingRun(Step(m, es[0]).m, es[1..]))
  }

  /** ... and at every moment of the run every listed answered circuit is mirrored. */
  ghost predicate MirrorsThroughout(m: Mgr, es: seq<Event>, answered: set<nat>)
    requires Rooted(m)
    decreases |es|
  {
    && Mirrors(m, answered)
    && (es == [] ||
        (StepRooted(m, es[0]); MirrorsThroughout(Step(m, es[0]).m, es[1..], Grown(m, es[0], answered))))
  }

  /** On every run, whatever calls are mixed in: the two come to the same. */
  lemma {:induction false} MirroredThroughoutIff(m: Mgr, es: seq<Event>, answered: set<nat>)
    requires Alive(m) && Mirrors(m, answered)
    ensures MirrorsThroughout(m, es, answered) <==> SparingRun(m, es)
    ensures SparingRun(m, es) ==> Mirrors(Exec(m, es), AnsweredAfter(m, es, answered)) && Alive(Exec(m, es))
    decreases |es|
  {
    hide Step, Mirrors, Alive, SparesOthers, Grown, Rooted;
    AliveIsRooted(m);
    if es != [] {
      StepRooted(m, es[0]);
      StepMirrorsIff(m, es[0], answered);
      StepLawful(m, es[0]);
      var t, grown := Step(m, es[0]).m, Grown(m, es[0], answered);
      if Mirrors(t, grown) {
        MirroredThroughoutIff(t, es[1..], grown);
      } else {
        NotThroughout(t, es[1..], grown);
      }
    }
  }

  lemma NotThroughout(m: Mgr, es: seq<Event>, answered: set<nat>)
    requires Rooted(m) && !Mirrors(m, answered)
    ensures !MirrorsThroughout(m, es, answered)
  {
  }

  /** What a CONNECT REQ that repeats the key of circuit c gets: acknowledged again with that
      circuit's own window and index, and nothing opened. */
  predicate AnsweredAgain(m: Mgr, c: nat, f: L3Frame)
    requires Rooted(m) && f.ConnectRequest? && c < |m.heap|
  {
    && |OnConnectRequest(m, f).m.heap| == |m.heap|
    && OnConnectRequest(m, f).out == [ConnectAckFrame(m.heap[c], m.heap[c].window)]
    && OnConnectRequest(m, f).m.byLocal == m.byLocal
  }

  /** On every run that spares others' entries, originated calls included, a CONNECT REQ that
      repeats the key of a listed answered circuit opens nothing. */
  lemma RepeatedRequestOpensNothing(call: string, mtu: Mtu, timeout: bool, es: seq<Event>, c: nat, f: L3Frame)
    requires SparingRun(NewManager(call, mtu, timeout), es) && f.ConnectRequest?
    requires c in AnsweredAfter(NewManager(call, mtu, timeout), es, {}) && Listed(After(call, mtu, timeout, es), c)
    requires (f.header.circuitIdx, f.header.circuitId) == RemoteKey(After(call, mtu, timeout, es).heap[c])
    ensures AnsweredAgain(After(call, mtu, timeout, es), c, f)
  {
    var m0 := NewManager(call, mtu, timeout);
    assert Alive(m0) && Mirrors(m0, {});
    hide Exec, SparingRun, AnsweredAfter;
    MirroredThroughoutIff(m0, es, {});
    assert Mirrored(After(call, mtu, timeout, es), c);
  }

  /** In any state, a repeat while the table has room opens a second circuit if and only if no
      circuit is listed under the key. */
  lemma RepeatOpensIff(m: Mgr, f: L3Frame)
    requires Rooted(m) && f.ConnectRequest? && !TableFull(m)
    ensures |OnConnectRequest(m, f).m.heap| == |m.heap| + 1 <==> (f.header.circuitIdx, f.header.circuitId) !in m.byRemote
  {
    hide Opened, FirstFree, OnSendConnectAck;
    FullIffNoneFree(m);
    if FirstFree(m.used, 0).Some? {
      OpenedParts(m, FirstFree(m.used, 0).value, f);
    }
  }

  // ---------- The tables in step ----------

  /** ... and conversely the remote-key table lists no circuit that the local-key table does not. */
  ghost predicate Paired(m: Mgr, answered: set<nat>)
  {
    Tidy(m) && Mirrors(m, answered) && Backed(m)
  }

  ghost predicate Backed(m: Mgr)
  {
    forall k :: k in m.byRemote ==> Listed(m, m.byRemote[k])
  }

  /** The circuit under the popped local key, if mirrored, is mirrored under the popped remote key. */
  predicate PopsBoth(m: Mgr, e: Event)
    requires Rooted(m)
  {
    match ChangeBy(m, e)
    case Drops(c) => c < |m.heap| ==> BothPopped(m, c)
    case _ => true
  }

  predicate BothPopped(m: Mgr, c: nat)
    requires c < |m.heap|
  {
    var l := LocalKey(m.heap[c]);
    l in m.byLocal && Mirrored(m, m.byLocal[l]) ==> RemoteKey(m.heap[m.byLocal[l]]) == RemoteKey(m.heap[c])
  }

  lemma DropsBackedIff(m: Mgr, t: Mgr, c: nat, answered: set<nat>)
    requires Alive(m) && Mirrors(m, answered) && Backed(m) && KeysKept(m, t) && DropsFrom(m, t, c)
    ensures Backed(t) <==> BothPopped(m, c)
  {
    var l := LocalKey(m.heap[c]);
    assert forall k :: k in m.byRemote ==> k == RemoteKey(m.heap[m.byRemote[k]]);
    assert l in m.byLocal ==> LocalKey(m.heap[m.byLocal[l]]) == l;
    hide LocalKey, RemoteKey, Alive;
    if BothPopped(m, c) {
      forall k | k in t.byRemote ensures Listed(t, t.byRemote[k]) {
        assert Listed(m, m.byRemote[k]) && Mirrored(m, m.byRemote[k]);
        assert LocalKey(m.heap[m.byRemote[k]]) != l;
      }
    } else {
      var y := m.byLocal[l];
      assert RemoteKey(m.heap[y]) in t.byRemote && t.byRemote[RemoteKey(m.heap[y])] == y;
      assert !Listed(t, y);
    }
  }

  /** An index that is not in use is in no listed key. */
  lemma NewKeyIsFree(m: Mgr, k: Key)
    requires Tidy(m) && k.0 !in m.used
    ensures k !in m.byLocal
  {
    if k in m.byLocal {
      assert Holds(m, k.0);
    }
  }

  lemma GrowsBacked(m: Mgr, t: Mgr)
    requires Tidy(m) && Backed(m) && KeysKept(m, t) && (Has(m, t, Answers) || Has(m, t, Calls))
    ensures Backed(t)
  {
    assert LocalKey(t.heap[|m.heap|]) !in m.byLocal by {
      NewKeyIsFree(m, LocalKey(t.heap[|m.heap|]));
    }
    hide Tidy, LocalKey, RemoteKey;
    forall k | k in t.byRemote ensures Listed(t, t.byRemote[k]) {
      if k in m.byRemote && t.byRemote[k] == m.byRemote[k] {
        assert Listed(m, m.byRemote[k]);
      }
    }
  }

  lemma SameBacked(m: Mgr, t: Mgr)
    requires Backed(m) && KeysKept(m, t) && SameTables(m, t)
    ensures Backed(t)
  {
    hide LocalKey;
    forall k | k in t.byRemote ensures Listed(t, t.byRemote[k]) {
      assert Listed(m, m.byRemote[k]);
    }
  }

  lemma StepBackedIff(m: Mgr, e: Event, answered: set<nat>)
    requires Alive(m) && Paired(m, answered)
    ensures Backed(Step(m, e).m) <==> PopsBoth(m, e)
  {
    hide Step, Mirrors, KeysKept, ChangeBy, BothPopped, Alive, Rooted, Tidy, Backed;
    AliveIsRooted(m);
    StepKeepsKeys(m, e);
    StepChanges(m, e);
    var t := Step(m, e).m;
    match ChangeBy(m, e)
    case Unchanged => SameBacked(m, t);
    case Answers => GrowsBacked(m, t);
    case Calls => GrowsBacked(m, t);
    case Drops(c) => DropsBackedIff(m, t, c, answered);
    case Clears => NothingBacked(t);
  }

  lemma NothingBacked(t: Mgr)
    requires t.byRemote == map[]
    ensures Backed(t)
  {
  }

  /** One step keeps the two tables and the indices in step if and only if a circuit that it drops
      is dropped from both, taking no other circuit's entry, key or index with it. */
  lemma StepPairedIff(m: Mgr, e: Event, answered: set<nat>)
    requires Alive(m) && Paired(m, answered)
    ensures Paired(Step(m, e).m, Grown(m, e, answered)) <==> CleanStep(m, e) && SparesOthers(m, e) && PopsBoth(m, e)
  {
    hide Step, Mirrors, Alive, Tidy, Backed, CleanStep, SparesOthers, PopsBoth;
    StepTidyIff(m, e);
    StepMirrorsIff(m, e, answered);
    StepBackedIff(m, e, answered);
  }

  /** A removal leaves every other circuit listed if and only if the local key it pops is not
      another's. */
  lemma RemovalSparesOthersIff(m: Mgr, c: nat)
    requires Alive(m) && c < |m.heap|
    ensures (forall d :: d != c && Listed(m, d) ==> Listed(Remove(m, c), d)) <==>
            (LocalKey(m.heap[c]) in m.byLocal ==> Listed(m, c))
  {
    RemoveDrops(m, c, m.heap[c]);
    assert Updated(m, c, m.heap[c]) == m;
    var l, t := LocalKey(m.heap[c]), Remove(m, c);
    assert t.heap == m.heap;
    if l in m.byLocal && !Listed(m, c) {
      var d := m.byLocal[l];
      assert Listed(m, d) && !Listed(t, d);
    }
  }
}

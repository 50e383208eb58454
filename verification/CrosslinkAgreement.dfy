/** One connection of a crosslink as a two-endpoint system, and what it takes for one step to keep
    every connection one. */
module CrosslinkAgreement {
  import opened Prelude
  import opened Frames
  import opened Circuit
  import opened ManagerSteps
  import opened ManagerLifecycle
  import opened ManagerPairing
  import opened ManagerTables
  import opened Crosslink
  import Pairs = CircuitPair
  import PairTheorems

  // ---------- A connection as a two-endpoint system ----------

  /** How a connection was set up, and what has happened to it since. */
  datatype Track = Track(u: Pairs.Setup, es: seq<Pairs.Event>)
  {
    function System(): Pairs.System { PairTheorems.Reached(u, es) }

    /** Seen from the end that placed the call, or from the other. */
    function Facing(caller: bool): Pairs.System { if caller then System() else Pairs.Swap(System()) }

    function Then(caller: bool, act: Pairs.Act): Track
    {
      Track(u, es + [if caller then Pairs.ByA(act) else Pairs.ByB(act)])
    }
  }

  lemma ThenSteps(t: Track, caller: bool, act: Pairs.Act)
    ensures t.Then(caller, act).Facing(caller) == Pairs.StepA(t.Facing(caller), act)
  {
    hide Pairs.StepA;
    var e := if caller then Pairs.ByA(act) else Pairs.ByB(act);
    PairTheorems.ExecAppend(Pairs.Start(t.u), t.es, [e]);
    assert [e][1..] == [];
    assert Pairs.Exec(t.System(), [e]) == Pairs.Step(t.System(), e);
  }

  lemma FacingInv(t: Track, caller: bool)
    ensures Pairs.Inv(t.Facing(caller)) && t.Facing(caller).a.originator == caller
    ensures t.Facing(caller).b.originator == !caller
  {
    hide Pairs.Flows, Pairs.Senders, Pairs.Teardowns;
    PairTheorems.ReachedInv(t.u, t.es);
    Pairs.InvSwap(t.System());
    PairTheorems.OriginatorFixed(t.u, t.es);
  }

  lemma FacingTurned(t: Track, caller: bool)
    ensures t.Facing(!caller) == Pairs.Swap(t.Facing(caller))
  {
  }

  function Plain(ws: seq<Pairs.Wire>): seq<L3Frame>
  {
    seq(|ws|, i requires 0 <= i < |ws| => ws[i].frame)
  }

  lemma {:induction false} PlainTagged(ws: seq<Pairs.Wire>, out: seq<L3Frame>, n: nat)
    ensures Plain(ws + Pairs.Tag(out, n)) == Plain(ws) + out
  {
  }

  // ---------- Agreement ----------

  /** One end of connection k is what the two-endpoint system says it is. */
  predicate NodeOk(d: Side, k: nat, v: Pairs.Node)
  {
    && v.core.localCall == d.m.localCall && v.core.mtu == d.m.mtu
    && match At(d.records, k)
       case None => !v.born
       case Some(i) =>
         && i < |d.m.heap| && v.born && v.core == d.m.heap[i] && v.live == Listed(d.m, i)
         && v.wrote == d.records[i].wrote && v.modest == d.records[i].modest
  }

  predicate Agrees(n: Net, k: nat, v: Pairs.System)
  {
    && NodeOk(n.x, k, v.a) && NodeOk(n.y, k, v.b)
    && Plain(v.ab) == Of(n.xy, k) && Plain(v.ba) == Of(n.yx, k)
  }

  /** Only a pending call is listed while it has no open circuit. */
  predicate Justified(m: Mgr, c: nat)
    requires c < |m.heap|
  {
    Listed(m, c) && m.heap[c].state in {AwaitingConnect, Closed} ==> c in m.awaiting
  }

  ghost predicate SideOk(d: Side, count: nat)
  {
    && Alive(d.m) && |d.records| == |d.m.heap|
    && (forall i :: 0 <= i < |d.records| ==> d.records[i].conn < count)
    && (forall i, j :: 0 <= i < j < |d.records| ==> d.records[i].conn != d.records[j].conn)
    && (forall k :: k in d.placed ==> k < count)
    && (forall c :: c in d.m.awaiting ==>
          c < |d.m.heap| && d.records[c].conn in d.placed && d.m.heap[c].state in {AwaitingConnect, Connected, Closed})
    && (forall c :: 0 <= c < |d.m.heap| ==> Justified(d.m, c))
    && (forall k :: k in d.m.byRemote ==>
          d.records[d.m.byRemote[k]].conn !in d.placed && Listed(d.m, d.m.byRemote[k]))
  }

  /** Circuits whose connections are not over have different keys. */
  ghost predicate ApartAt(n: Net, d: Side)
  {
    forall i, j :: 0 <= i < j < |d.m.heap| && j < |d.records| && LocalKey(d.m.heap[i]) == LocalKey(d.m.heap[j]) ==>
      Over(n, d.records[i].conn) || Over(n, d.records[j].conn)
  }

  predicate Tagged(link: seq<Sent>, count: nat)
  {
    forall i :: 0 <= i < |link| ==> link[i].conn < count
  }

  ghost predicate Linked(n: Net, ts: seq<Track>)
  {
    && SideOk(n.x, n.count) && SideOk(n.y, n.count) && |ts| == n.count
    && (forall k :: 0 <= k < n.count ==> (k in n.x.placed) != (k in n.y.placed))
    && Tagged(n.xy, n.count) && Tagged(n.yx, n.count)
    && ApartAt(n, n.x) && ApartAt(n, n.y)
    && forall k :: 0 <= k < n.count ==> Agrees(n, k, ts[k].Facing(k in n.x.placed))
  }

  lemma OverTurned(n: Net, k: nat)
    ensures Over(Turned(n), k) == Over(n, k)
  {
  }

  lemma LinkedTurned(n: Net, ts: seq<Track>)
    requires Linked(n, ts)
    ensures Linked(Turned(n), ts)
  {
    hide SideOk, Of, At, Listed, NodeOk, Pairs.Swap, LocalKey, Track.Facing;
    var t := Turned(n);
    forall k | 0 <= k < n.count ensures Agrees(t, k, ts[k].Facing(k in t.x.placed)) {
      assert Agrees(n, k, ts[k].Facing(k in n.x.placed));
      FacingTurned(ts[k], k in n.x.placed);
      SwapParts(ts[k].Facing(k in n.x.placed));
    }
    forall k ensures Over(t, k) == Over(n, k) {
      OverTurned(n, k);
    }
    assert ApartAt(n, n.x) && ApartAt(n, n.y);
  }

  lemma SwapParts(s: Pairs.System)
    ensures Pairs.Swap(s) == Pairs.System(s.b, s.a, s.ba, s.ab)
  {
  }

  // ---------- Frames of one connection ----------

  lemma {:induction false} OfConcat(s: seq<Sent>, t: seq<Sent>, k: nat)
    ensures Of(s + t, k) == Of(s, k) + Of(t, k)
    decreases |s|
  {
    if s == [] {
      assert s + t == t;
    } else {
      assert (s + t)[1..] == s[1..] + t;
      OfConcat(s[1..], t, k);
    }
  }

  lemma {:induction false} OfSentBy(out: seq<L3Frame>, conn: nat, k: nat)
    ensures Of(SentBy(out, conn), k) == if k == conn then out else []
    decreases |out|
  {
    if out != [] {
      assert SentBy(out, conn)[1..] == SentBy(out[1..], conn);
      OfSentBy(out[1..], conn, k);
    }
  }

  /** Only connection k differs between n and t, and at x's end of it alone. */
  ghost predicate Moved(n: Net, t: Net, k: nat)
  {
    && t.y == n.y && (t.x.placed == n.x.placed || t.x.placed == n.x.placed + {k})
    && (t.x.m.localCall, t.x.m.mtu) == (n.x.m.localCall, n.x.m.mtu)
    && |n.x.records| == |n.x.m.heap| && |t.x.records| == |t.x.m.heap|
    && |n.x.m.heap| <= |t.x.m.heap|
    && (forall i :: 0 <= i < |n.x.records| ==> t.x.records[i].conn == n.x.records[i].conn)
    && (forall i :: |n.x.records| <= i < |t.x.records| ==> t.x.records[i].conn == k)
    && (forall i :: 0 <= i < |n.x.records| && n.x.records[i].conn != k ==>
          && t.x.records[i] == n.x.records[i] && t.x.m.heap[i] == n.x.m.heap[i]
          && Listed(t.x.m, i) == Listed(n.x.m, i) && (i in t.x.m.awaiting <==> i in n.x.m.awaiting))
    && forall q :: q != k ==> Of(t.xy, q) == Of(n.xy, q) && Of(t.yx, q) == Of(n.yx, q)
  }

  lemma {:induction false} AtGrows(rs: seq<Record>, us: seq<Record>, k: nat, q: nat)
    requires |rs| <= |us| && q != k
    requires forall i :: 0 <= i < |rs| ==> us[i].conn == rs[i].conn
    requires forall i :: |rs| <= i < |us| ==> us[i].conn == k
    ensures At(us, q) == At(rs, q)
    decreases |us|
  {
    if us != [] {
      var n := |us| - 1;
      if |us| == |rs| {
        AtGrows(rs[..n], us[..n], k, q);
      } else {
        AtGrows(rs, us[..n], k, q);
      }
    }
  }

  lemma OthersStay(n: Net, t: Net, k: nat, q: nat, v: Pairs.System)
    requires Moved(n, t, k) && q != k
    ensures Agrees(n, q, v) ==> Agrees(t, q, v)
    ensures Over(t, q) == Over(n, q)
  {
    hide Listed, Of, At, Plain;
    AtGrows(n.x.records, t.x.records, k, q);
  }

  lemma {:induction false} AtOwn(rs: seq<Record>, i: nat)
    requires i < |rs| && forall a, b :: 0 <= a < b < |rs| ==> rs[a].conn != rs[b].conn
    ensures At(rs, rs[i].conn) == Some(i)
    decreases |rs|
  {
    var n := |rs| - 1;
    if i < n {
      AtOwn(rs[..n], i);
    }
  }

  lemma ListedIsNotOver(n: Net, c: nat)
    requires SideOk(n.x, n.count) && c < |n.x.m.heap| && (Listed(n.x.m, c) || c in n.x.m.awaiting)
    ensures !Over(n, n.x.records[c].conn)
  {
    AtOwn(n.x.records, c);
    hide Listed;
  }

  /** Linked stays so when one connection moves as it should. */
  lemma Relinked(n: Net, t: Net, ts: seq<Track>, us: seq<Track>, k: nat)
    requires Linked(n, ts) && Moved(n, t, k) && SideOk(t.x, t.count) && |us| == t.count
    requires t.count == n.count || (t.count == n.count + 1 && k == n.count)
    requires k < t.count && (k in t.x.placed) != (k in t.y.placed)
    requires forall q :: 0 <= q < n.count && q != k ==> us[q] == ts[q]
    requires Tagged(t.xy, t.count) && Tagged(t.yx, t.count)
    requires Agrees(t, k, us[k].Facing(k in t.x.placed))
    requires Over(n, k) && k < n.count ==> Over(t, k)
    requires forall i :: 0 <= i < |n.x.m.heap| ==> LocalKey(t.x.m.heap[i]) == LocalKey(n.x.m.heap[i])
    requires |t.x.m.heap| <= |n.x.m.heap| + 1
    requires |t.x.m.heap| == |n.x.m.heap| + 1 ==>
      forall i :: 0 <= i < |n.x.m.heap| && LocalKey(n.x.m.heap[i]) == LocalKey(t.x.m.heap[|n.x.m.heap|]) ==>
        Over(n, n.x.records[i].conn)
    ensures Linked(t, us)
  {
    hide Agrees, Over, Tagged, LocalKey, Track.Facing;
    assert SideOk(n.y, t.count) by { hide Alive, Listed; }
    hide Listed;
    forall q | 0 <= q < t.count && q != k
      ensures Agrees(t, q, us[q].Facing(q in t.x.placed)) && (q in t.x.placed) != (q in t.y.placed)
    {
      OthersStay(n, t, k, q, ts[q].Facing(q in n.x.placed));
    }
    forall q | 0 <= q < n.count ensures Over(n, q) ==> Over(t, q) {
      if q != k {
        OthersStay(n, t, k, q, ts[q].Facing(q in n.x.placed));
      }
    }
    ApartStays(n, t);
  }

  lemma ApartStays(n: Net, t: Net)
    requires SideOk(n.x, n.count) && SideOk(n.y, n.count) && ApartAt(n, n.x) && ApartAt(n, n.y)
    requires t.y == n.y && |n.x.m.heap| <= |t.x.m.heap| <= |n.x.m.heap| + 1 && |t.x.records| == |t.x.m.heap|
    requires forall i :: 0 <= i < |n.x.records| ==> t.x.records[i].conn == n.x.records[i].conn
    requires forall i :: 0 <= i < |n.x.m.heap| ==> LocalKey(t.x.m.heap[i]) == LocalKey(n.x.m.heap[i])
    requires forall q :: 0 <= q < n.count && Over(n, q) ==> Over(t, q)
    requires |t.x.m.heap| == |n.x.m.heap| + 1 ==>
      forall i :: 0 <= i < |n.x.m.heap| && LocalKey(n.x.m.heap[i]) == LocalKey(t.x.m.heap[|n.x.m.heap|]) ==>
        Over(n, n.x.records[i].conn)
    ensures ApartAt(t, t.x) && ApartAt(t, t.y)
  {
    hide Over, LocalKey, Alive, Listed;
  }

  // ---------- A step on one circuit ----------

  /** Circuit c alone is touched: the tables stay, or drop its keys. */
  predicate Touches(d: Side, e: Side, c: nat)
  {
    && c < |d.m.heap| == |e.m.heap| == |d.records| == |e.records|
    && (forall i :: 0 <= i < |d.m.heap| && i != c ==> e.m.heap[i] == d.m.heap[i] && e.records[i] == d.records[i])
    && LocalKey(e.m.heap[c]) == LocalKey(d.m.heap[c]) && e.records[c].conn == d.records[c].conn
    && (e.m.localCall, e.m.mtu, e.placed) == (d.m.localCall, d.m.mtu, d.placed)
    && e.m.awaiting <= d.m.awaiting <= e.m.awaiting + {c}
    && (c in e.m.awaiting ==> e.m.heap[c].state in {AwaitingConnect, Connected, Closed}) && Justified(e.m, c)
    && (SameTables(d.m, e.m) || DropsFrom(d.m, e.m, c))
  }

  lemma TouchedListing(n: Net, e: Side, c: nat, d: nat)
    requires SideOk(n.x, n.count) && ApartAt(n, n.x) && Touches(n.x, e, c) && d != c && d < |n.x.m.heap|
    requires SameTables(n.x.m, e.m) || !Over(n, n.x.records[c].conn)
    ensures Listed(e.m, d) == Listed(n.x.m, d)
  {
    if Listed(n.x.m, d) {
      ListedIsNotOver(n, d);
    }
    hide Over, LocalKey, Alive;
  }

  lemma TouchMoves(n: Net, t: Net, c: nat)
    requires SideOk(n.x, n.count) && ApartAt(n, n.x) && Touches(n.x, t.x, c) && t.y == n.y
    requires SameTables(n.x.m, t.x.m) || !Over(n, n.x.records[c].conn)
    requires forall q :: q != n.x.records[c].conn ==> Of(t.xy, q) == Of(n.xy, q) && Of(t.yx, q) == Of(n.yx, q)
    ensures Moved(n, t, n.x.records[c].conn)
  {
    hide Over, LocalKey, Alive, Listed, SameTables, DropsFrom, ApartAt;
    forall i | 0 <= i < |n.x.records| && n.x.records[i].conn != n.x.records[c].conn
      ensures Listed(t.x.m, i) == Listed(n.x.m, i)
    {
      TouchedListing(n, t.x, c, i);
    }
  }

  lemma TouchKeepsSide(n: Net, e: Side, c: nat)
    requires SideOk(n.x, n.count) && ApartAt(n, n.x) && Touches(n.x, e, c) && Alive(e.m)
    requires SameTables(n.x.m, e.m) || !Over(n, n.x.records[c].conn)
    ensures SideOk(e, n.count)
  {
    hide Over, LocalKey, RemoteKey, Listed, ApartAt;
    var d := n.x;
    forall i | 0 <= i < |d.m.heap| ensures Justified(e.m, i) {
      if i != c {
        TouchedListing(n, e, c, i);
        assert Justified(d.m, i);
      }
    }
    forall k | k in e.m.byRemote
      ensures e.records[e.m.byRemote[k]].conn !in e.placed && Listed(e.m, e.m.byRemote[k])
    {
      assert k in d.m.byRemote && e.m.byRemote[k] == d.m.byRemote[k];
      if d.m.byRemote[k] != c {
        TouchedListing(n, e, c, d.m.byRemote[k]);
      } else {
        SameTablesList(d.m, e.m, c);
      }
    }
  }

  lemma SameTablesList(m: Mgr, t: Mgr, c: nat)
    requires SameTables(m, t) && c < |m.heap| && LocalKey(t.heap[c]) == LocalKey(m.heap[c])
    ensures Listed(t, c) == Listed(m, c)
  {
  }

  /** A connection that is over does nothing more. */
  lemma OverIsStill(v: Pairs.System, act: Pairs.Act)
    requires Pairs.Inv(v) && !v.a.live && !v.b.live && v.ab == [] && v.ba == []
    ensures var t := Pairs.StepA(v, act); !t.a.live && !t.b.live && t.ab == [] && t.ba == []
  {
    assert v.ab + Pairs.Tag([], v.a.got) == v.ab;
    hide Pairs.Flow, Pairs.Sender, Pairs.Handshake, Fragments;
  }

  lemma OverMeans(n: Net, k: nat, v: Pairs.System)
    requires Agrees(n, k, v) && Pairs.Inv(v)
    ensures Over(n, k) <==>
      && !v.a.live && !v.b.live && v.ab == [] && v.ba == []
      && (var i := At(n.x.records, k); i.Some? ==> i.value !in n.x.m.awaiting)
      && (var i := At(n.y.records, k); i.Some? ==> i.value !in n.y.m.awaiting)
  {
    hide Pairs.Flow, Pairs.Sender, Pairs.Handshake, Listed, Of, At;
    assert v.ab == [] <==> Plain(v.ab) == [];
    assert v.ba == [] <==> Plain(v.ba) == [];
  }

  lemma OverStays(n: Net, t: Net, k: nat, v: Pairs.System, act: Pairs.Act)
    requires Agrees(n, k, v) && Pairs.Inv(v) && Over(n, k)
    requires Agrees(t, k, Pairs.StepA(v, act)) && Pairs.Inv(Pairs.StepA(v, act))
    requires t.y == n.y && At(t.x.records, k) == At(n.x.records, k) && t.x.m.awaiting <= n.x.m.awaiting
    ensures Over(t, k)
  {
    hide Pairs.Inv, Over, Agrees, Pairs.StepA;
    OverMeans(n, k, v);
    OverIsStill(v, act);
    OverMeans(t, k, Pairs.StepA(v, act));
  }

  // ---------- The same step on both sides ----------

  /** What `t` adds to a connection: its next state at x, the frames it sends, and whether it took
      the head of the incoming link. */
  predicate Fits(n: Net, t: Net, c: nat, k: nat, out: seq<L3Frame>, popped: bool, v: Pairs.System, w: Pairs.System)
    requires c < |t.x.m.heap| == |t.x.records|
  {
    && t.y == n.y && t.count == n.count && t.xy == n.xy + SentBy(out, k)
    && (if popped then n.yx != [] && n.yx[0].conn == k && t.yx == n.yx[1..] else t.yx == n.yx)
    && w.a.born && w.a.core == t.x.m.heap[c] && w.a.live == Listed(t.x.m, c)
    && w.a.wrote == t.x.records[c].wrote && w.a.modest == t.x.records[c].modest
    && (w.a.core.localCall, w.a.core.mtu) == (v.a.core.localCall, v.a.core.mtu)
    && w.b == v.b && Plain(w.ab) == Plain(v.ab) + out
    && (if popped then v.ba != [] && w.ba == v.ba[1..] else w.ba == v.ba)
  }

  lemma {:induction false} FramesMove(n: Net, t: Net, c: nat, k: nat, out: seq<L3Frame>, popped: bool, v: Pairs.System, w: Pairs.System)
    requires c < |t.x.m.heap| == |t.x.records| && Fits(n, t, c, k, out, popped, v, w) && Agrees(n, k, v)
    requires Tagged(n.xy, n.count) && Tagged(n.yx, n.count) && k < n.count
    ensures forall q :: q != k ==> Of(t.xy, q) == Of(n.xy, q) && Of(t.yx, q) == Of(n.yx, q)
    ensures Plain(w.ab) == Of(t.xy, k) && Plain(w.ba) == Of(t.yx, k)
    ensures Tagged(t.xy, t.count) && Tagged(t.yx, t.count)
  {
    hide Listed, NodeOk, Of, Plain, Tagged;
    OutMoves(n.xy, out, k, n.count);
    if popped {
      HeadMoves(n.yx, v.ba, n.count);
    }
  }

  lemma {:induction false} OutMoves(link: seq<Sent>, out: seq<L3Frame>, k: nat, count: nat)
    requires Tagged(link, count) && k < count
    ensures Tagged(link + SentBy(out, k), count)
    ensures forall q :: Of(link + SentBy(out, k), q) == if q == k then Of(link, q) + out else Of(link, q)
  {
    forall q ensures Of(link + SentBy(out, k), q) == if q == k then Of(link, q) + out else Of(link, q) {
      OfConcat(link, SentBy(out, k), q);
      OfSentBy(out, k, q);
    }
  }

  lemma {:induction false} HeadMoves(link: seq<Sent>, ws: seq<Pairs.Wire>, count: nat)
    requires Tagged(link, count) && link != [] && ws != [] && Plain(ws) == Of(link, link[0].conn)
    ensures Tagged(link[1..], count) && Plain(ws[1..]) == Of(link[1..], link[0].conn)
    ensures forall q :: q != link[0].conn ==> Of(link[1..], q) == Of(link, q)
  {
    assert Plain(ws[1..]) == Plain(ws)[1..];
  }

  function Continued(ts: seq<Track>, k: nat, caller: bool, act: Option<Pairs.Act>): seq<Track>
    requires k < |ts|
  {
    match act
    case None => ts
    case Some(a) => ts[k := ts[k].Then(caller, a)]
  }

  /** A step on circuit c that the two-endpoint system makes too keeps everything linked. */
  lemma CircuitKeeps(n: Net, t: Net, ts: seq<Track>, c: nat, out: seq<L3Frame>, popped: bool, act: Option<Pairs.Act>)
    requires Linked(n, ts) && Touches(n.x, t.x, c) && Alive(t.x.m)
    requires SameTables(n.x.m, t.x.m) || !Over(n, n.x.records[c].conn)
    requires var k := n.x.records[c].conn;
      var v := ts[k].Facing(k in n.x.placed);
      && (act == None ==> !Over(n, k))
      && Fits(n, t, c, k, out, popped, v, if act == None then v else Pairs.StepA(v, act.value))
    ensures Linked(t, Continued(ts, n.x.records[c].conn, n.x.records[c].conn in n.x.placed, act))
  {
    hide Alive, Over, Listed, LocalKey, SameTables, DropsFrom, Pairs.StepA, Track.Facing, Track.Then, Pairs.Inv, SideOk,
         ApartAt, Tagged, Fits, Touches, Moved, Agrees;
    TouchedSizes(n.x, t.x, c);
    OwnConn(n.x, n.count, c);
    var k := n.x.records[c].conn;
    var caller := k in n.x.placed;
    var us := Continued(ts, k, caller, act);
    var v, w := ts[k].Facing(caller), us[k].Facing(caller);
    if act.Some? {
      ThenSteps(ts[k], caller, act.value);
    }
    assert Agrees(n, k, v);
    CircuitMoves(n, t, c, out, popped, v, w);
    if act.Some? && Over(n, k) {
      FacingInv(ts[k], caller);
      FacingInv(us[k], caller);
      OverStays(n, t, k, v, act.value);
    }
    TouchedKeys(n.x, t.x, c);
    Relinked(n, t, ts, us, k);
  }

  lemma CircuitMoves(n: Net, t: Net, c: nat, out: seq<L3Frame>, popped: bool, v: Pairs.System, w: Pairs.System)
    requires SideOk(n.x, n.count) && ApartAt(n, n.x) && Tagged(n.xy, n.count) && Tagged(n.yx, n.count)
    requires Touches(n.x, t.x, c) && Alive(t.x.m)
    requires SameTables(n.x.m, t.x.m) || !Over(n, n.x.records[c].conn)
    requires var k := n.x.records[c].conn; Agrees(n, k, v) && Fits(n, t, c, k, out, popped, v, w)
    ensures var k := n.x.records[c].conn;
      && Moved(n, t, k) && SideOk(t.x, t.count) && Tagged(t.xy, t.count) && Tagged(t.yx, t.count) && Agrees(t, k, w)
      && At(t.x.records, k) == At(n.x.records, k) && t.x.m.awaiting <= n.x.m.awaiting && t.y == n.y && t.count == n.count
  {
    hide Alive, Over, Listed, LocalKey, SameTables, DropsFrom, ApartAt, Tagged, Of, Plain;
    var k := n.x.records[c].conn;
    FramesMove(n, t, c, k, out, popped, v, w);
    TouchMoves(n, t, c);
    TouchKeepsSide(n, t.x, c);
    AtOwn(n.x.records, c);
    AtOwn(t.x.records, c);
    CircuitAgrees(n, t, c, k, v, w);
  }

  lemma TouchedSizes(d: Side, e: Side, c: nat)
    requires Touches(d, e, c)
    ensures c < |e.m.heap| == |d.m.heap| == |e.records| == |d.records| && e.placed == d.placed
    ensures e.records[c].conn == d.records[c].conn
  {
  }

  lemma OwnConn(d: Side, count: nat, c: nat)
    requires SideOk(d, count) && c < |d.records|
    ensures d.records[c].conn < count
  {
  }

  lemma TouchedKeys(d: Side, e: Side, c: nat)
    requires Touches(d, e, c)
    ensures forall i :: 0 <= i < |d.m.heap| ==> LocalKey(e.m.heap[i]) == LocalKey(d.m.heap[i])
  {
    hide LocalKey;
  }

  lemma CircuitAgrees(n: Net, t: Net, c: nat, k: nat, v: Pairs.System, w: Pairs.System)
    requires Agrees(n, k, v) && At(n.x.records, k) == Some(c) == At(t.x.records, k) && c < |t.x.m.heap| == |t.x.records|
    requires t.y == n.y && w.b == v.b && Plain(w.ab) == Of(t.xy, k) && Plain(w.ba) == Of(t.yx, k)
    requires Touches(n.x, t.x, c)
    requires w.a.born && w.a.core == t.x.m.heap[c] && w.a.live == Listed(t.x.m, c)
    requires w.a.wrote == t.x.records[c].wrote && w.a.modest == t.x.records[c].modest
    requires w.a.core.localCall == v.a.core.localCall && w.a.core.mtu == v.a.core.mtu
    ensures Agrees(t, k, w)
  {
    hide Listed, LocalKey, Of, At, Plain;
  }
}

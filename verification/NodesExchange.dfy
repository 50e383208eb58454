/** A whole advertisement, from one node's tables to another's: cut into frames, encoded,
    decoded and learned. */
module NodesExchange {
  import opened Prelude
  import opened RouteQuality
  import opened Buckets
  import opened RouterTables
  import opened RouterInvariants
  import RouterTheorems
  import opened WireCalls
  import opened NodesCodec
  import opened Advertising
  import opened NodesFragments

  const MAX_ENTRIES_PER_FRAME := 11

  function Chunks(es: seq<NodeEntry>): seq<seq<NodeEntry>>
  {
    if es == [] then []
    else if |es| <= MAX_ENTRIES_PER_FRAME then [es]
    else [es[..MAX_ENTRIES_PER_FRAME]] + Chunks(es[MAX_ENTRIES_PER_FRAME..])
  }

  function EncodeAll(alias: string, chunks: seq<seq<NodeEntry>>): (ps: Option<seq<seq<byte>>>)
    ensures ps.Some? ==> |ps.value| == |chunks|
  {
    if chunks == [] then Some([])
    else match (EncodeNodes(alias, chunks[0]), EncodeAll(alias, chunks[1..]))
      case (Some(p), Some(ps)) => Some([p] + ps)
      case _ => None
  }

  /** The payloads of one broadcast; None stands for the exception on a malformed callsign. */
  function NodesPayloads(cfg: Config, t: Tables): Option<seq<seq<byte>>>
  {
    if cfg.advertiseSelfOnly then EncodeAll(cfg.alias, [[]])
    else EncodeAll(cfg.alias, Chunks(NodesEntries(cfg, t)))
  }

  // ---------- Cutting ----------

  lemma {:induction false} FlattenCons(c: seq<NodeEntry>, cs: seq<seq<NodeEntry>>)
    ensures Flatten([c] + cs) == c + Flatten(cs)
  {
    var all := [c] + cs;
    if cs == [] {
      assert all[..0] == [];
    } else {
      var n := |cs| - 1;
      FlattenCons(c, cs[..n]);
      assert all[..|all| - 1] == [c] + cs[..n] && all[|all| - 1] == cs[n];
    }
  }

  lemma {:induction false} ChunksPartition(es: seq<NodeEntry>)
    ensures Flatten(Chunks(es)) == es
    ensures forall i :: 0 <= i < |Chunks(es)| ==> 1 <= |Chunks(es)[i]| <= MAX_ENTRIES_PER_FRAME
    ensures Chunks(es) == [] <==> es == []
  {
    if es == [] {
    } else if |es| <= MAX_ENTRIES_PER_FRAME {
      FlattenCons(es, []);
      assert [es] + [] == [es];
    } else {
      ChunksPartition(es[MAX_ENTRIES_PER_FRAME..]);
      FlattenCons(es[..MAX_ENTRIES_PER_FRAME], Chunks(es[MAX_ENTRIES_PER_FRAME..]));
    }
  }

  /** Frames are filled: eleven entries in each but the last. */
  lemma {:induction false} ChunksAreFull(es: seq<NodeEntry>, i: nat)
    requires i < |Chunks(es)|
    ensures if i < |Chunks(es)| - 1 then |Chunks(es)[i]| == 11 else 1 <= |Chunks(es)[i]| <= 11
    decreases |es|
  {
    ChunksPartition(es);
    if |es| > MAX_ENTRIES_PER_FRAME && i > 0 {
      ChunksAreFull(es[MAX_ENTRIES_PER_FRAME..], i - 1);
    }
  }

  lemma {:induction false} ChunkMembers(es: seq<NodeEntry>, i: nat, e: NodeEntry)
    requires i < |Chunks(es)| && e in Chunks(es)[i]
    ensures e in es
    decreases |es|
  {
    if |es| > MAX_ENTRIES_PER_FRAME && i > 0 {
      ChunkMembers(es[MAX_ENTRIES_PER_FRAME..], i - 1, e);
    }
  }

  // ---------- Carrying ----------

  /** Payload i is a frame of at most 238 bytes that decodes to exactly chunk i. */
  predicate Carries(src: string, alias: string, p: seq<byte>, es: seq<NodeEntry>)
  {
    |p| <= 238 && DecodeNodes(src, p) == Some(NodesFrame(src, alias, es))
  }

  lemma {:induction false} EncodeAllCarries(src: string, alias: string, chunks: seq<seq<NodeEntry>>)
    requires AliasOk(alias)
    requires forall i :: 0 <= i < |chunks| ==> AllCanonical(chunks[i]) && |chunks[i]| <= MAX_ENTRIES_PER_FRAME
    ensures var ps := EncodeAll(alias, chunks);
      ps.Some? && forall i :: 0 <= i < |chunks| ==> Carries(src, alias, ps.value[i], chunks[i])
  {
    hide AllCanonical, AliasOk, DecodeNodes, EncodeNodes;
    if chunks != [] {
      EncodeAllCarries(src, alias, chunks[1..]);
      NodesRoundTrip(src, alias, chunks[0]);
      assert Carries(src, alias, EncodeNodes(alias, chunks[0]).value, chunks[0]);
      hide Carries;
    }
  }

  /** Decoding the payloads in order gives back exactly the advertised table, in frames of at
      most 238 bytes. */
  lemma PayloadsCarryTheTable(cfg: Config, t: Tables, src: string)
    requires !cfg.advertiseSelfOnly && AliasOk(cfg.alias) && AllCanonical(NodesEntries(cfg, t))
    ensures var ps := NodesPayloads(cfg, t);
      && ps.Some? && |ps.value| == |Chunks(NodesEntries(cfg, t))|
      && (forall i :: 0 <= i < |ps.value| ==> Carries(src, cfg.alias, ps.value[i], Chunks(NodesEntries(cfg, t))[i]))
      && Flatten(Chunks(NodesEntries(cfg, t))) == NodesEntries(cfg, t)
  {
    var es := NodesEntries(cfg, t);
    ChunksPartition(es);
    forall i | 0 <= i < |Chunks(es)| ensures AllCanonical(Chunks(es)[i]) {
      forall j | 0 <= j < |Chunks(es)[i]| ensures CanonicalEntry(Chunks(es)[i][j]) {
        ChunkMembers(es, i, Chunks(es)[i][j]);
      }
    }
    hide CanonicalEntry, AliasOk, NodesEntries, Chunks, Carries;
    EncodeAllCarries(src, cfg.alias, Chunks(es));
  }

  /** A polite client says that it is there and advertises nothing: one frame, the header alone. */
  lemma PoliteSendsTheHeader(cfg: Config, t: Tables, src: string)
    requires cfg.advertiseSelfOnly && AliasOk(cfg.alias)
    ensures var ps := NodesPayloads(cfg, t);
      ps.Some? && |ps.value| == 1 && |ps.value[0]| == 7
      && DecodeNodes(src, ps.value[0]) == Some(NodesFrame(src, cfg.alias, []))
  {
    NodesRoundTrip(src, cfg.alias, []);
    hide DecodeNodes, EncodeNodes;
    assert EncodeAll(cfg.alias, []) == Some([]);
    var one: seq<seq<NodeEntry>> := [[]];
    assert one[1..] == [];
  }

  // ---------- Learning from pieces ----------

  /** The frames a node receives, decoded from their payloads. */
  function HearPayloads(cfg: Config, t: Tables, src: string, now: real, ps: seq<seq<byte>>): Tables
  {
    if ps == [] then t
    else
      var n := |ps| - 1;
      var u := HearPayloads(cfg, t, src, now, ps[..n]);
      match DecodeNodes(src, ps[n])
      case Some(f) => ProcessNodes(cfg, u, f, now)
      case None => u
  }

  lemma {:induction false} HearPayloadsIsHearAll(cfg: Config, t: Tables, src: string, alias: string, now: real,
                                                 ps: seq<seq<byte>>, chunks: seq<seq<NodeEntry>>)
    requires |ps| == |chunks| && forall i :: 0 <= i < |ps| ==> Carries(src, alias, ps[i], chunks[i])
    ensures HearPayloads(cfg, t, src, now, ps) == HearAll(cfg, t, src, alias, now, chunks)
  {
    hide ProcessNodes, DecodeNodes;
    if ps != [] {
      var n := |ps| - 1;
      HearPayloadsIsHearAll(cfg, t, src, alias, now, ps[..n], chunks[..n]);
      assert Carries(src, alias, ps[n], chunks[n]);
    }
  }

  /** The speaker as the node that hears it now has it. */
  function Hears(cfg: Config, t: Tables, call: string, alias: string, now: real): (k: Speaker)
    ensures Speaks(cfg, t, k)
  {
    Speaker(call, alias, Heard(cfg, t, Upper(call), now).pathQuality, now)
  }

  /** From one node's tables to another's, through the wire: what y learns from x's payloads is
      what it would learn from x's table in one frame if and only if the cuts leave no trace; for
      a table that x can have, if and only if y ignores x or has three routes to it as good, or
      the frames before the last say nothing usable about x but its direct route. */
  lemma ExchangeIsTransparentIff(x: Config, tx: Tables, y: Config, ty: Tables, now: real)
    requires !x.advertiseSelfOnly && AliasOk(x.alias) && AllCanonical(NodesEntries(x, tx)) && NodesEntries(x, tx) != []
    requires Shaped(ty)
    ensures NodesPayloads(x, tx).Some? && Chunks(NodesEntries(x, tx)) != []
    ensures var k, chunks := Hears(y, ty, x.call, x.alias, now), Chunks(NodesEntries(x, tx));
      var same := HearPayloads(y, ty, x.call, now, NodesPayloads(x, tx).value)
                  == ProcessNodes(y, ty, NodesFrame(x.call, x.alias, NodesEntries(x, tx)), now);
      && (same <==> CutsInvisible(y, ty, k, chunks))
      && (Shaped(tx) ==>
          (same <==> y.worstQuality == 0 || k.q == 0 || !HasSeat(y, ty, k)
                     || OnlyDirect(y, k, Flatten(chunks[..|chunks| - 1]))))
  {
    hide ProcessNodes, Shaped, Carries, NodesEntries, AllCanonical, AliasOk, NodesPayloads, Chunks, HearAll, HasSeat,
         OnlyDirect, CutsInvisible, Flatten, Heard, DistinctDests;
    var chunks := Chunks(NodesEntries(x, tx));
    var k := Hears(y, ty, x.call, x.alias, now);
    PayloadsCarryTheTable(x, tx, x.call);
    ChunksPartition(NodesEntries(x, tx));
    HearPayloadsIsHearAll(y, ty, x.call, x.alias, now, NodesPayloads(x, tx).value, chunks);
    FragmentsAreTransparentIff(y, ty, k, chunks);
    if Shaped(tx) {
      AdvertisedExactly(x, tx);
      DistinctCutsIff(y, ty, k, chunks);
    }
  }

  /** The cut does show, from empty tables already: an entry about the broadcaster itself that is
      no direct route, and nothing about it after the cut. */
  lemma SourceEntryShowsTheCut(cfg: Config, k: Speaker, e: NodeEntry, more: seq<NodeEntry>)
    requires Speaks(cfg, EMPTY, k) && cfg.worstQuality > 0 && k.q > 0
    requires k.Itself(cfg, e) && k.Route(cfg, e) != k.Direct(cfg)
    requires forall m :: m in more ==> !k.Itself(cfg, m)
    ensures !CutUnseen(cfg, EMPTY, k, [e], more)
  {
    hide HopQuality, SeatOf, OthersOf, Seat, SeatAfter, CutUnseen;
    var d := k.Direct(cfg);
    CutUnseenIff(cfg, EMPTY, k, [e], more);
    assert HasSeat(cfg, EMPTY, k) by {
      AloneInItsBucket([], d);
    }
    assert LastRoute(cfg, k, d, [e]) == k.Route(cfg, e);
    LastRouteOf(cfg, k, k.Route(cfg, e), d, more);
  }

  lemma AloneInItsBucket(s: seq<RouteEntry>, r: RouteEntry)
    requires |s| <= 1 && (s != [] ==> Via(s[0]) == Via(r))
    ensures UpsertBucket(s, r) == [r]
  {
    assert Replaced(s, r) == [r];
    SortFixed([r]);
  }

  /** Split horizon survives the cutting: if x's best route to `key` goes through y, no frame of
      x's broadcast gives y a route to it. */
  lemma NoFrameLoops(x: Config, tx: Tables, y: Config, key: string, i: nat)
    requires Shaped(tx) && key in tx.routes && Via(tx.routes[key][0]) == y.call && key != Upper(x.call)
    requires i < |Chunks(NodesEntries(x, tx))|
    ensures RouterTheorems.LoopsBack(y, NodesFrame(x.call, x.alias, Chunks(NodesEntries(x, tx))[i]), key)
  {
    hide NodesEntries, Chunks, Shaped;
    var es := NodesEntries(x, tx);
    SplitHorizon(x, tx, y, key);
    forall e | e in Chunks(es)[i] ensures e in es {
      ChunkMembers(es, i, e);
    }
  }

  // ---------- Hearing the same broadcast twice ----------

  lemma UpsertedTwice(t: Tables, u: Tables, e: RouteEntry)
    requires Shaped(t) && Bucket(u, Upper(e.destCall)) == Bucket(Upserted(t, e), Upper(e.destCall))
    requires Upper(e.destCall) in u.routes
    ensures Upserted(u, e) == u
  {
    var key := Upper(e.destCall);
    assert Bucket(t, key) == [] || BucketOk(key, Bucket(t, key));
    UpsertIdempotent(key, Bucket(t, key), e);
    hide UpsertBucket, Shaped;
    assert u.routes[key := u.routes[key]] == u.routes;
  }

  predicate Settled(cfg: Config, t: Tables, f: NodesFrame, q: byte, now: real, e: NodeEntry)
  {
    Learn(cfg, t, f, q, now, e) == t
  }

  lemma SettledAfter(cfg: Config, t: Tables, f: NodesFrame, q: byte, now: real, e: NodeEntry)
    requires Shaped(t)
    ensures Settled(cfg, Learn(cfg, t, f, q, now, e), f, q, now, e)
  {
    var u := Learn(cfg, t, f, q, now, e);
    var r := IndirectRoute(cfg, f, q, now, e);
    if HopQuality(cfg, e, q) >= cfg.worstQuality && (Dest(e) in t.routes || |t.routes| < cfg.maxDestinations) {
      UpsertedTwice(t, u, r);
    }
    hide Shaped, HopQuality, UpsertBucket;
  }

  lemma SettledStays(cfg: Config, t: Tables, f: NodesFrame, q: byte, now: real, e: NodeEntry, other: NodeEntry)
    requires Settled(cfg, t, f, q, now, e) && Dest(other) != Dest(e)
    ensures Settled(cfg, Learn(cfg, t, f, q, now, other), f, q, now, e)
  {
    hide HopQuality, UpsertBucket;
    var u := Learn(cfg, t, f, q, now, other);
    var r := IndirectRoute(cfg, f, q, now, e);
    var key := Dest(e);
    assert |u.routes| >= |t.routes|;
    if HopQuality(cfg, e, q) >= cfg.worstQuality && (key in t.routes || |t.routes| < cfg.maxDestinations) {
      assert Upserted(t, r) == t;
      assert key in t.routes && UpsertBucket(Bucket(t, key), r) == t.routes[key];
      assert Bucket(u, key) == Bucket(t, key);
      assert u.routes[key := u.routes[key]] == u.routes;
    }
  }

  lemma {:induction false} LearnedIsSettled(cfg: Config, t: Tables, f: NodesFrame, q: byte, now: real,
                                            es: seq<NodeEntry>, i: nat)
    requires Shaped(t) && DistinctDests(es) && i < |es|
    ensures Settled(cfg, LearnAll(cfg, t, f, q, now, es), f, q, now, es[i])
    decreases |es|
  {
    hide Settled, Learn, Shaped;
    var n := |es| - 1;
    if i == n {
      LearnAllShaped(cfg, t, f, q, now, es[..n]);
      SettledAfter(cfg, LearnAll(cfg, t, f, q, now, es[..n]), f, q, now, es[n]);
    } else {
      LearnedIsSettled(cfg, t, f, q, now, es[..n], i);
      SettledStays(cfg, LearnAll(cfg, t, f, q, now, es[..n]), f, q, now, es[i], es[n]);
    }
  }

  lemma {:induction false} SettledLearnsNothing(cfg: Config, t: Tables, f: NodesFrame, q: byte, now: real, es: seq<NodeEntry>)
    requires forall i :: 0 <= i < |es| ==> Settled(cfg, t, f, q, now, es[i])
    ensures LearnAll(cfg, t, f, q, now, es) == t
    decreases |es|
  {
    if es != [] {
      var n := |es| - 1;
      SettledLearnsNothing(cfg, t, f, q, now, es[..n]);
      assert Settled(cfg, t, f, q, now, es[n]);
      hide Learn;
    }
  }

  /** A broadcast that names each destination once moves a route's seat at most once. */
  lemma {:induction false} OneSeat(cfg: Config, k: Speaker, others: seq<RouteEntry>, p: nat, p': nat, es: seq<NodeEntry>)
    returns (x: Option<byte>)
    requires DistinctDests(es) && p <= |others| && p' <= |others|
    ensures x == None ==> forall e :: e in es ==> !k.Itself(cfg, e)
    ensures x == None ==> SeatAfter(cfg, k, others, p, es) == p && SeatAfter(cfg, k, others, p', es) == p'
    ensures x.Some? ==> x.value <= k.q && SeatAfter(cfg, k, others, p, es) == Seat(others, x.value, p)
                        && SeatAfter(cfg, k, others, p', es) == Seat(others, x.value, p')
  {
    hide Seat, HopQuality;
    x := None;
    if es != [] {
      var n := |es| - 1;
      assert es == es[..n] + [es[n]];
      DistinctPrefix(es[..n], [es[n]]);
      x := OneSeat(cfg, k, others, p, p', es[..n]);
      if k.Itself(cfg, es[n]) {
        OneIsLast(cfg, k, others, p, es[..n], es[n]);
        OneIsLast(cfg, k, others, p', es[..n], es[n]);
        RouteNoBetter(cfg, k, es[n]);
        x := Some(HopQuality(cfg, es[n], k.q));
      }
    }
  }

  lemma {:induction false} OneIsLast(cfg: Config, k: Speaker, others: seq<RouteEntry>, p: nat, es: seq<NodeEntry>, last: NodeEntry)
    requires p <= |others| && k.Itself(cfg, last) && forall e :: e in es ==> Dest(e) != Dest(last)
    ensures SeatAfter(cfg, k, others, p, es) == p
  {
    hide Seat, HopQuality;
    if es != [] {
      var n := |es| - 1;
      assert es == es[..n] + [es[n]];
      assert es[n] in es && Dest(es[n]) != Dest(last);
      OneIsLast(cfg, k, others, p, es[..n], last);
    }
  }

  lemma SeatAgain(cfg: Config, k: Speaker, others: seq<RouteEntry>, p: nat, es: seq<NodeEntry>)
    requires DistinctDests(es) && p <= |others| && Seat(others, k.q, p) == p
    ensures var s := SeatAfter(cfg, k, others, p, es); SeatAfter(cfg, k, others, Seat(others, k.q, s), es) == s
  {
    hide Seat, SeatAfter, DistinctDests, Speaker.Itself;
    var s := SeatAfter(cfg, k, others, p, es);
    var x := OneSeat(cfg, k, others, p, Seat(others, k.q, s), es);
    if x.Some? {
      SeatThrough(others, x.value, k.q, p);
    }
  }

  lemma BucketTwice(cfg: Config, t: Tables, k: Speaker, es: seq<NodeEntry>)
    requires Shaped(t) && DistinctDests(es)
    ensures var b := Bucket(t, k.Key());
      BucketHeard(cfg, k, b, [es, es]) == BucketAfter(cfg, k, UpsertBucket(b, k.Direct(cfg)), es)
  {
    hide Shaped, UpsertBucket, BucketHeard, BucketAfter, OthersOf, SeatOf, SeatHeard, SeatAfter, LastRoute, Place, Seat,
         BucketOk, DistinctDests;
    var b, d := Bucket(t, k.Key()), k.Direct(cfg);
    ShapedBucket(t, k.Key());
    if HasSeat(cfg, t, k) {
      var others, p := OthersOf(cfg, t, k), SeatOf(cfg, t, k);
      SeatedIn(cfg, t, k);
      BucketHeardPlaced(cfg, k, b, others, p, [es, es]);
      BucketAfterPlaced(cfg, k, others, d, p, es);
      TwoFrames(cfg, k, others, p, es, es);
      SeatAgain(cfg, k, others, p, es);
    } else {
      NoRoomHeard(cfg, k, b, [es, es]);
      NoRoomAfter(cfg, k, b, es);
    }
  }

  lemma LearnedTwice(cfg: Config, t: Tables, k: Speaker, es: seq<NodeEntry>)
    requires Shaped(t) && DistinctDests(es)
    ensures Learned(cfg, t, k, es + es) == Learned(cfg, t, k, es)
  {
    hide LearnAll, Shaped, Settled, DistinctDests;
    var u := Learned(cfg, t, k, es);
    forall i | 0 <= i < |es| ensures Settled(cfg, u, k.Frame(), k.q, k.now, es[i]) {
      LearnedIsSettled(cfg, t, k.Frame(), k.q, k.now, es, i);
    }
    SettledLearnsNothing(cfg, u, k.Frame(), k.q, k.now, es);
    LearnedConcat(cfg, t, k, es, es);
  }

  lemma DirectSetShaped(cfg: Config, t: Tables, k: Speaker)
    requires Shaped(t)
    ensures Shaped(DirectSet(cfg, t, k))
  {
    hide UpsertBucket, Heard;
    var touched := NeighbourTouched(cfg, t, k.Frame(), k.now);
    assert Shaped(touched);
    UpsertedShaped(touched, k.Direct(cfg));
  }

  /** Processing a frame again, with distinct destinations, changes nothing. */
  lemma ReprocessingChangesNothing(cfg: Config, t: Tables, f: NodesFrame, now: real)
    requires Shaped(t) && DistinctDests(f.entries)
    ensures ProcessNodes(cfg, ProcessNodes(cfg, t, f, now), f, now) == ProcessNodes(cfg, t, f, now)
  {
    hide Shaped, DistinctDests, ProcessNodes, HearAll;
    var k := Hears(cfg, t, f.sourceCall, f.sourceAlias, now);
    assert f == NodesFrame(k.call, k.alias, f.entries);
    HearTwo(cfg, t, k, f.entries);
    if cfg.worstQuality == 0 || k.q == 0 {
      NothingLearned(cfg, t, k, [f.entries, f.entries]);
      NothingHeard(cfg, t, k, f.entries);
    } else {
      LearnedAgain(cfg, t, k, f.entries);
    }
  }

  lemma HearTwo(cfg: Config, t: Tables, k: Speaker, es: seq<NodeEntry>)
    ensures var f := NodesFrame(k.call, k.alias, es);
      HearAll(cfg, t, k.call, k.alias, k.now, [es, es]) == ProcessNodes(cfg, ProcessNodes(cfg, t, f, k.now), f, k.now)
  {
    hide ProcessNodes;
    assert [es, es][..1] == [es] && [es][..0] == [];
    assert HearAll(cfg, t, k.call, k.alias, k.now, []) == t;
    assert HearAll(cfg, t, k.call, k.alias, k.now, [es]) == ProcessNodes(cfg, t, NodesFrame(k.call, k.alias, es), k.now);
  }

  lemma NothingHeard(cfg: Config, t: Tables, k: Speaker, es: seq<NodeEntry>)
    requires Speaks(cfg, t, k) && (cfg.worstQuality == 0 || k.q == 0)
    ensures ProcessNodes(cfg, t, NodesFrame(k.call, k.alias, Flatten([es, es])), k.now)
            == ProcessNodes(cfg, t, NodesFrame(k.call, k.alias, es), k.now)
  {
  }

  lemma LearnedAgain(cfg: Config, t: Tables, k: Speaker, es: seq<NodeEntry>)
    requires Shaped(t) && DistinctDests(es) && Speaks(cfg, t, k) && cfg.worstQuality > 0 && k.q > 0
    ensures HearAll(cfg, t, k.call, k.alias, k.now, [es, es]) == ProcessNodes(cfg, t, NodesFrame(k.call, k.alias, es), k.now)
  {
    hide ProcessNodes, Shaped, Learned, DirectSet, JustHeard, HearAll, SameBut, BucketHeard, BucketAfter, UpsertBucket,
         Flatten, DistinctDests;
    var direct, whole := DirectSet(cfg, t, k), Learned(cfg, DirectSet(cfg, t, k), k, es);
    var heard := HearAll(cfg, t, k.call, k.alias, k.now, [es, es]);
    WholeFrame(cfg, t, k, es);
    DirectSetShaped(cfg, t, k);
    LearnedTwice(cfg, direct, k, es);
    FlattenTwo(es, es);
    HeardInStep(cfg, t, k, [es, es]);
    DirectSetBucket(cfg, t, k);
    LearnedBucket(cfg, direct, k, es);
    BucketTwice(cfg, t, k, es);
    SameButHas(k.Key(), whole, heard);
    SameButOne(k.Key(), whole, heard);
  }
}

/** What a broadcast teaches: which frames are taken at all, and that every entry that should be
    learned is, at the place it earns, while nothing better is lost for it. */
module RouterIntake {
  import opened Prelude
  import opened RouteQuality
  import opened Buckets
  import opened RouterTables
  import opened RouterInvariants
  import opened RouterTheorems
  import opened Advertising
  import opened NodesFragments
  import opened NodesCodec
  import Router

  // ---------- One upsert ----------

  /** Three routes by other ways, each at least as good as q. */
  predicate NoRoomFor(b: seq<RouteEntry>, v: string, q: byte)
  {
    |b| == 3 && forall i :: 0 <= i < |b| ==> Upper(b[i].viaCall) != v && b[i].quality >= q
  }

  /** A route is taken in unless three by other ways are at least as good. */
  lemma TakenInIff(key: string, b: seq<RouteEntry>, e: RouteEntry)
    requires b == [] || BucketOk(key, b)
    ensures e in UpsertBucket(b, e) <==> !NoRoomFor(b, Via(e), e.quality)
  {
    hide SortDesc;
    if e !in UpsertBucket(b, e) {
      NoRoomAt(key, b, e);
    }
    if NoRoomFor(b, Via(e), e.quality) {
      NoSeat(b, e);
    }
  }

  /** Another route gives way only to three that are at least as good. */
  lemma GivesWayToBetter(key: string, b: seq<RouteEntry>, e: RouteEntry, x: RouteEntry)
    requires (b == [] || BucketOk(key, b)) && Upper(e.destCall) == key && x in b && Via(x) != Via(e)
    ensures var after := UpsertBucket(b, e);
      x in after || (|after| == 3 && forall r :: r in after ==> r.quality >= x.quality)
  {
    var all := Replaced(b, e);
    StaysReplaced(b, e, x);
    SortKeeps(all);
    hide SortDesc, Replaced, BucketOk;
    BestStay(SortDesc(all), x);
  }

  lemma StaysReplaced(b: seq<RouteEntry>, e: RouteEntry, x: RouteEntry)
    requires x in b && Via(x) != Via(e) && DistinctVias(b)
    ensures x in Replaced(b, e) && DistinctVias(Replaced(b, e))
  {
    ReplacedKeeps(b, e);
    var i :| 0 <= i < |b| && b[i] == x;
    var all := Replaced(b, e);
    assert all[i] == x;
  }

  lemma BestStay(s: seq<RouteEntry>, x: RouteEntry)
    requires Sorted(s) && x in s
    ensures x in BestThree(s) || (|BestThree(s)| == 3 && forall r :: r in BestThree(s) ==> r.quality >= x.quality)
  {
    var i :| 0 <= i < |s| && s[i] == x;
    if i < |BestThree(s)| {
      assert BestThree(s)[i] == x;
    }
  }

  // ---------- One entry among others ----------

  lemma {:induction false} LearnedElsewhere(cfg: Config, t: Tables, f: NodesFrame, q: byte, now: real,
                                            es: seq<NodeEntry>, key: string)
    requires forall e :: e in es ==> Dest(e) != key
    ensures Bucket(LearnAll(cfg, t, f, q, now, es), key) == Bucket(t, key)
    ensures key in LearnAll(cfg, t, f, q, now, es).routes <==> key in t.routes
    decreases |es|
  {
    hide HopQuality, UpsertBucket;
    if es != [] {
      var n := |es| - 1;
      LearnedElsewhere(cfg, t, f, q, now, es[..n], key);
      assert es[n] in es && Dest(es[n]) != key;
    }
  }

  lemma {:induction false} LearnedFrom(cfg: Config, t: Tables, f: NodesFrame, q: byte, now: real, es: seq<NodeEntry>, i: nat)
    requires i <= |es|
    ensures LearnAll(cfg, t, f, q, now, es) == LearnAll(cfg, LearnAll(cfg, t, f, q, now, es[..i]), f, q, now, es[i..])
    decreases |es| - i
  {
    var k := Speaker(f.sourceCall, f.sourceAlias, q, now);
    LearnedConcat(cfg, t, k, es[..i], es[i..]);
    assert es[..i] + es[i..] == es;
    LearnAllByAnyFrame(cfg, t, f, k.Frame(), q, now, es);
    LearnAllByAnyFrame(cfg, t, f, k.Frame(), q, now, es[..i]);
    LearnAllByAnyFrame(cfg, LearnAll(cfg, t, f, q, now, es[..i]), f, k.Frame(), q, now, es[i..]);
  }

  /** In a broadcast that names each destination once, entry i alone decides about its destination,
      and finds there what was before. */
  lemma OneEntryDecides(cfg: Config, t: Tables, f: NodesFrame, q: byte, now: real, es: seq<NodeEntry>, i: nat)
    requires DistinctDests(es) && i < |es|
    ensures var key := Dest(es[i]); var u := LearnAll(cfg, t, f, q, now, es[..i]);
      && Bucket(u, key) == Bucket(t, key)
      && Bucket(LearnAll(cfg, t, f, q, now, es), key) == Bucket(Learn(cfg, u, f, q, now, es[i]), key)
  {
    hide Learn, HopQuality;
    var key := Dest(es[i]);
    LearnedFrom(cfg, t, f, q, now, es, i + 1);
    assert es[..i + 1][..i] == es[..i];
    forall e | e in es[..i] || e in es[i + 1..] ensures Dest(e) != key {
      var j :| 0 <= j < |es| && j != i && es[j] == e;
    }
    LearnedElsewhere(cfg, t, f, q, now, es[..i], key);
    LearnedElsewhere(cfg, LearnAll(cfg, t, f, q, now, es[..i + 1]), f, q, now, es[i + 1..], key);
  }

  // ---------- A broadcast ----------

  /** Our link to whoever broadcasts: the quality in the neighbour list if the operator locked it, else
      the one configured for the call, else the channel's. */
  function LinkTo(cfg: Config, t: Tables, call: string): byte
  {
    var c := Upper(call);
    if c in t.neighbours && t.neighbours[c].locked then t.neighbours[c].pathQuality
    else if c in cfg.neighbourQuality then cfg.neighbourQuality[c]
    else cfg.channelQuality
  }

  /** The entry states a way that does not lead back through us and is good enough for our tables. */
  predicate Usable(cfg: Config, e: NodeEntry, q: byte)
  {
    Upper(e.neighborCall) != cfg.call && (e.quality * q + 128) / 256 >= cfg.worstQuality
  }

  /** The route that an entry of the frame f describes, as of now. */
  predicate RouteBy(cfg: Config, f: NodesFrame, e: NodeEntry, q: byte, now: real, r: RouteEntry)
  {
    && r.destCall == e.destCall && r.alias == e.alias && r.neighborCall == e.neighborCall
    && r.quality == (e.quality * q + 128) / 256 && r.viaCall == f.sourceCall && r.viaAlias == f.sourceAlias
    && r.lastSeen == now && r.obsCount == cfg.obsInitializer
  }

  /** What entry e makes of the bucket b it finds: nothing if it is not usable, or new while the table is
      full; else its route is in, unless three others are as good, and the routes by other ways give way
      only to three better ones. */
  ghost predicate EntryLearned(cfg: Config, f: NodesFrame, e: NodeEntry, q: byte, now: real, open: bool,
                               b: seq<RouteEntry>, after: seq<RouteEntry>)
  {
    if !Usable(cfg, e, q) || !open then after == b
    else
      && (NoRoomFor(b, Upper(f.sourceCall), (e.quality * q + 128) / 256) || exists r :: r in after && RouteBy(cfg, f, e, q, now, r))
      && forall x :: x in b && Upper(x.viaCall) != Upper(f.sourceCall) ==>
           x in after || (|after| == 3 && forall r :: r in after ==> r.quality >= x.quality)
  }

  lemma LearnIs(cfg: Config, u: Tables, f: NodesFrame, q: byte, now: real, e: NodeEntry)
    requires Shaped(u) && cfg.worstQuality > 0
    ensures EntryLearned(cfg, f, e, q, now, Dest(e) in u.routes || |u.routes| < cfg.maxDestinations,
                         Bucket(u, Dest(e)), Bucket(Learn(cfg, u, f, q, now, e), Dest(e)))
  {
    var key, b, r := Dest(e), Bucket(u, Dest(e)), IndirectRoute(cfg, f, q, now, e);
    ShapedBucket(u, key);
    hide Shaped, UpsertBucket, BucketOk;
    assert Compose(e.quality, q) == (e.quality * q + 128) / 256;
    if Usable(cfg, e, q) && (key in u.routes || |u.routes| < cfg.maxDestinations) {
      TakenInIff(key, b, r);
      assert Bucket(Learn(cfg, u, f, q, now, e), key) == UpsertBucket(b, r);
      forall x | x in b && Upper(x.viaCall) != Upper(f.sourceCall)
        ensures x in UpsertBucket(b, r) || (|UpsertBucket(b, r)| == 3 && forall y :: y in UpsertBucket(b, r) ==> y.quality >= x.quality)
      {
        GivesWayToBetter(key, b, r, x);
      }
    }
  }

  /** Every entry of a broadcast that names each destination once, and not the source: what it makes of
      what was known of its destination. The table is full or not as the entries before it left it. */
  lemma BroadcastTeaches(cfg: Config, t: Tables, f: NodesFrame, now: real, i: nat)
    requires Shaped(t) && DistinctDests(f.entries) && i < |f.entries|
    requires cfg.worstQuality > 0 && LinkTo(cfg, t, f.sourceCall) > 0 && Dest(f.entries[i]) != Upper(f.sourceCall)
    ensures var u := ProcessNodes(cfg, t, f.(entries := f.entries[..i]), now); var e := f.entries[i];
      EntryLearned(cfg, f, e, LinkTo(cfg, t, f.sourceCall), now, Dest(e) in u.routes || |u.routes| < cfg.maxDestinations,
                   Bucket(t, Dest(e)), Bucket(ProcessNodes(cfg, t, f, now), Dest(e)))
  {
    var q, key := LinkTo(cfg, t, f.sourceCall), Dest(f.entries[i]);
    var part := f.(entries := f.entries[..i]);
    assert q == Heard(cfg, t, Upper(f.sourceCall), now).pathQuality;
    var touched := NeighbourTouched(cfg, t, f, now);
    var source := SourceRoute(cfg, f, q, now);
    var direct := Upserted(touched, source);
    SameShape(t, touched);
    UpsertedShaped(touched, source);
    hide Shaped, Learn, EntryLearned, UpsertBucket, DistinctDests;
    assert Bucket(direct, key) == Bucket(t, key);
    OneEntryDecides(cfg, direct, f, q, now, f.entries, i);
    var u := LearnAll(cfg, direct, f, q, now, f.entries[..i]);
    LearnAllShaped(cfg, direct, f, q, now, f.entries[..i]);
    LearnAllByAnyFrame(cfg, direct, f, part, q, now, f.entries[..i]);
    assert ProcessNodes(cfg, t, part, now) == u;
    LearnIs(cfg, u, f, q, now, f.entries[i]);
  }

  /** The broadcaster itself: a direct route to it at our link's quality is in, unless three others are
      as good or an entry of its own speaks of it. */
  lemma BroadcasterIsReached(cfg: Config, t: Tables, f: NodesFrame, now: real)
    requires Shaped(t) && cfg.worstQuality > 0 && LinkTo(cfg, t, f.sourceCall) > 0
    requires forall e :: e in f.entries ==> Dest(e) != Upper(f.sourceCall)
    ensures var c := Upper(f.sourceCall); var q := LinkTo(cfg, t, f.sourceCall);
      var after := Bucket(ProcessNodes(cfg, t, f, now), c);
      && (NoRoomFor(Bucket(t, c), c, q)
          || RouteEntry(f.sourceCall, f.sourceAlias, f.sourceCall, q, f.sourceCall, f.sourceAlias, now, cfg.obsInitializer) in after)
      && forall x :: x in Bucket(t, c) && Upper(x.viaCall) != c ==>
           x in after || (|after| == 3 && forall r :: r in after ==> r.quality >= x.quality)
  {
    var c, q := Upper(f.sourceCall), LinkTo(cfg, t, f.sourceCall);
    assert q == Heard(cfg, t, c, now).pathQuality;
    var source := SourceRoute(cfg, f, q, now);
    var direct := Upserted(NeighbourTouched(cfg, t, f, now), source);
    LearnedElsewhere(cfg, direct, f, q, now, f.entries, c);
    ShapedBucket(t, c);
    hide Shaped, LearnAll, UpsertBucket, BucketOk;
    TakenInIff(c, Bucket(t, c), source);
    forall x | x in Bucket(t, c) && Upper(x.viaCall) != c
      ensures x in UpsertBucket(Bucket(t, c), source)
              || (|UpsertBucket(Bucket(t, c), source)| == 3 && forall y :: y in UpsertBucket(Bucket(t, c), source) ==> y.quality >= x.quality)
    {
      GivesWayToBetter(c, Bucket(t, c), source, x);
    }
  }

  // ---------- Received frames ----------

  lemma {:induction false} SanitizedIff(routable: string -> bool, es: seq<NodeEntry>, e: NodeEntry)
    ensures multiset(Sanitized(routable, es))[e] == if routable(e.destCall) then multiset(es)[e] else 0
  {
    if es != [] {
      SanitizedIff(routable, es[1..], e);
      assert es == [es[0]] + es[1..];
    }
  }

  lemma Associates(x: seq<NodeEntry>, y: seq<NodeEntry>, z: seq<NodeEntry>)
    ensures x + (y + z) == (x + y) + z
  {
  }

  /** Dropping pseudo-entries entry by entry: so the others keep their order. */
  lemma {:induction false} SanitizedInOrder(routable: string -> bool, a: seq<NodeEntry>, b: seq<NodeEntry>)
    ensures Sanitized(routable, a + b) == Sanitized(routable, a) + Sanitized(routable, b)
  {
    if a == [] {
      assert a + b == b;
    } else {
      assert (a + b)[1..] == a[1..] + b;
      SanitizedInOrder(routable, a[1..], b);
      Associates(if routable(a[0].destCall) then [a[0]] else [], Sanitized(routable, a[1..]), Sanitized(routable, b));
      hide Sanitized;
    }
  }

  /** What is not addressed to NODES, or is no NODES payload, changes nothing. */
  lemma OtherFramesIgnored(cfg: Config, t: Tables, routable: string -> bool, src: string, dest: string,
                           payload: seq<byte>, now: real)
    requires Upper(dest) != "NODES" || |payload| < 7 || payload[0] != 0xFF
    ensures Router.OnFrame(cfg, t, routable, src, dest, payload, now) == t
  {
  }

  /** A NODES payload addressed to NODES, in whatever case, is learned from, its entries sanitized. */
  lemma NodesFramesTaken(cfg: Config, t: Tables, routable: string -> bool, src: string, dest: string,
                         payload: seq<byte>, now: real)
    requires Upper(dest) == "NODES" && |payload| >= 7 && payload[0] == 0xFF
    ensures DecodeNodes(src, payload).Some?
    ensures var f := DecodeNodes(src, payload).value;
      Router.OnFrame(cfg, t, routable, src, dest, payload, now)
      == ProcessNodes(cfg, t, NodesFrame(src, f.sourceAlias, Sanitized(routable, f.entries)), now)
  {
    hide ProcessNodes;
  }

  lemma {:induction false} LearnedKeys(cfg: Config, t: Tables, f: NodesFrame, q: byte, now: real, es: seq<NodeEntry>, key: string)
    requires key in LearnAll(cfg, t, f, q, now, es).routes && key !in t.routes
    ensures exists e :: e in es && Dest(e) == key
    decreases |es|
  {
    hide HopQuality, UpsertBucket;
    var n := |es| - 1;
    if es != [] {
      if key in LearnAll(cfg, t, f, q, now, es[..n]).routes {
        LearnedKeys(cfg, t, f, q, now, es[..n], key);
        var e :| e in es[..n] && Dest(e) == key;
        assert e in es;
      } else {
        assert es[n] in es && Dest(es[n]) == key;
      }
    }
  }

  /** A frame adds no destination but its source and what its entries name by a callsign. */
  lemma OnlyCallsignsLearned(cfg: Config, t: Tables, routable: string -> bool, src: string, dest: string,
                             payload: seq<byte>, now: real, key: string)
    requires key in Router.OnFrame(cfg, t, routable, src, dest, payload, now).routes && key !in t.routes
    ensures DecodeNodes(src, payload).Some?
    ensures key == Upper(src)
            || exists e :: e in DecodeNodes(src, payload).value.entries && Dest(e) == key && routable(e.destCall)
  {
    var f := DecodeNodes(src, payload).value;
    var es := Sanitized(routable, f.entries);
    assert f.sourceCall == src;
    hide DecodeNodes, UpsertBucket;
    var c := Upper(src);
    var q := Heard(cfg, t, c, now).pathQuality;
    var g := f.(entries := es);
    if key != c {
      LearnedKeys(cfg, Upserted(NeighbourTouched(cfg, t, g, now), SourceRoute(cfg, g, q, now)), g, q, now, es, key);
      var e :| e in es && Dest(e) == key;
      SanitizedIff(routable, f.entries, e);
      assert e in multiset(es);
      assert e in multiset(f.entries);
      assert e in f.entries;
    }
  }

  // ---------- Counting what a sweep deletes ----------

  function Total(t: Tables, keys: seq<string>): nat
  {
    if keys == [] then 0 else Total(t, keys[..|keys| - 1]) + |Bucket(t, keys[|keys| - 1])|
  }

  /** The number that a sweep reports is that of the routes it took out. */
  lemma {:induction false} DroppedIsTheDifference(w: Sweep, t: Tables, keys: seq<string>)
    ensures Router.Dropped(w, t, keys) + Total(SweptTables(w, t), keys) == Total(t, keys)
  {
    if keys != [] {
      var n := |keys| - 1;
      DroppedIsTheDifference(w, t, keys[..n]);
      SweptFrom(w, Bucket(t, keys[n]));
    }
    hide Swept;
  }
}

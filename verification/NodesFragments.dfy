/** A broadcast cut into frames, heard one by one at the same moment, against the same broadcast
    in one frame. Each frame sets the direct route to the broadcaster again, so the cut can show
    in that one bucket and nowhere else; exactly when it does is decided here. */
module NodesFragments {
  import opened Prelude
  import opened RouteQuality
  import opened Buckets
  import opened RouterTables
  import opened RouterInvariants
  import opened RouterTheorems
  import opened Advertising

  function Flatten(chunks: seq<seq<NodeEntry>>): seq<NodeEntry>
  {
    if chunks == [] then [] else Flatten(chunks[..|chunks| - 1]) + chunks[|chunks| - 1]
  }

  /** The frames of one broadcast, heard one by one at the same moment. */
  function HearAll(cfg: Config, t: Tables, src: string, alias: string, now: real, chunks: seq<seq<NodeEntry>>): Tables
  {
    if chunks == [] then t
    else
      var n := |chunks| - 1;
      ProcessNodes(cfg, HearAll(cfg, t, src, alias, now, chunks[..n]), NodesFrame(src, alias, chunks[n]), now)
  }

  // ---------- One broadcaster at one moment ----------

  /** Who speaks, when, and over how good a link. */
  datatype Speaker = Speaker(call: string, alias: string, q: byte, now: real)
  {
    function Key(): string { Upper(call) }

    function Frame(): NodesFrame { NodesFrame(call, alias, []) }

    /** The direct route that each of its frames sets. */
    function Direct(cfg: Config): RouteEntry { SourceRoute(cfg, Frame(), q, now) }

    function Route(cfg: Config, e: NodeEntry): RouteEntry { IndirectRoute(cfg, Frame(), q, now, e) }

    /** A usable entry about the speaker itself. */
    predicate Itself(cfg: Config, e: NodeEntry) { Names(cfg, e, q, Key()) }
  }

  function Learned(cfg: Config, t: Tables, k: Speaker, es: seq<NodeEntry>): Tables
  {
    LearnAll(cfg, t, k.Frame(), k.q, k.now, es)
  }

  lemma {:induction false} LearnAllByAnyFrame(cfg: Config, t: Tables, f: NodesFrame, g: NodesFrame, q: byte, now: real,
                                              es: seq<NodeEntry>)
    requires f.sourceCall == g.sourceCall && f.sourceAlias == g.sourceAlias
    ensures LearnAll(cfg, t, f, q, now, es) == LearnAll(cfg, t, g, q, now, es)
    decreases |es|
  {
    hide HopQuality, Upserted;
    if es != [] {
      LearnAllByAnyFrame(cfg, t, f, g, q, now, es[..|es| - 1]);
    }
  }

  lemma {:induction false} LearnedConcat(cfg: Config, t: Tables, k: Speaker, es: seq<NodeEntry>, more: seq<NodeEntry>)
    ensures Learned(cfg, t, k, es + more) == Learned(cfg, Learned(cfg, t, k, es), k, more)
    decreases |more|
  {
    hide Learn;
    if more == [] {
      assert es + more == es;
    } else {
      var n := |more| - 1;
      LearnedConcat(cfg, t, k, es, more[..n]);
      assert (es + more)[..|es + more| - 1] == es + more[..n];
    }
  }

  /** Learning entries changes the routes alone, and drops no destination. */
  lemma {:induction false} LearnedKeeps(cfg: Config, t: Tables, k: Speaker, es: seq<NodeEntry>)
    ensures var u := Learned(cfg, t, k, es);
      u == t.(routes := u.routes, order := u.order) && t.routes.Keys <= u.routes.Keys
    decreases |es|
  {
    hide HopQuality, UpsertBucket;
    if es != [] {
      LearnedKeeps(cfg, t, k, es[..|es| - 1]);
    }
  }

  /** The broadcaster is a listed neighbour whose link has quality q, as of now. */
  predicate JustHeard(cfg: Config, t: Tables, k: Speaker)
  {
    && k.Key() in t.neighbours
    && t.neighbours[k.Key()] == Heard(cfg, t, k.Key(), k.now) && t.neighbours[k.Key()].pathQuality == k.q
  }

  /** Whatever is heard from k now comes over a link of quality k.q. */
  predicate Speaks(cfg: Config, t: Tables, k: Speaker)
  {
    Heard(cfg, t, k.Key(), k.now).pathQuality == k.q
  }

  lemma HeardAgain(cfg: Config, t: Tables, k: Speaker)
    requires Speaks(cfg, t, k)
    ensures JustHeard(cfg, NeighbourTouched(cfg, t, k.Frame(), k.now), k)
  {
  }

  /** What one frame does, in a table that has just heard its source. */
  lemma FrameAgain(cfg: Config, t: Tables, k: Speaker, es: seq<NodeEntry>)
    requires JustHeard(cfg, t, k)
    ensures ProcessNodes(cfg, t, NodesFrame(k.call, k.alias, es), k.now) ==
            if cfg.worstQuality == 0 || k.q == 0 then t else Learned(cfg, Upserted(t, k.Direct(cfg)), k, es)
  {
    hide Upserted;
    var f := NodesFrame(k.call, k.alias, es);
    assert t.neighbours[k.Key() := t.neighbours[k.Key()]] == t.neighbours;
    assert NeighbourTouched(cfg, t, f, k.now) == t;
    LearnAllByAnyFrame(cfg, Upserted(t, k.Direct(cfg)), f, k.Frame(), k.q, k.now, es);
  }

  /** ... and in any table: it is first heard, if routing is on at all. */
  lemma FrameFirst(cfg: Config, t: Tables, k: Speaker, es: seq<NodeEntry>)
    requires Speaks(cfg, t, k)
    ensures var touched := NeighbourTouched(cfg, t, k.Frame(), k.now);
      ProcessNodes(cfg, t, NodesFrame(k.call, k.alias, es), k.now) ==
        if cfg.worstQuality == 0 then t
        else if k.q == 0 then touched
        else Learned(cfg, Upserted(touched, k.Direct(cfg)), k, es)
  {
    hide Upserted;
    var f := NodesFrame(k.call, k.alias, es);
    var touched := NeighbourTouched(cfg, t, f, k.now);
    LearnAllByAnyFrame(cfg, Upserted(touched, k.Direct(cfg)), f, k.Frame(), k.q, k.now, es);
  }

  // ---------- The cut shows in the speaker's own bucket only ----------

  /** Equal but for the bucket of one destination that both have. */
  ghost predicate SameBut(key: string, u: Tables, v: Tables)
  {
    && v == u.(routes := v.routes) && v.routes.Keys == u.routes.Keys && key in u.routes
    && forall c :: c in u.routes && c != key ==> v.routes[c] == u.routes[c]
  }

  lemma SameButOne(key: string, u: Tables, v: Tables)
    requires SameBut(key, u, v)
    ensures u == v <==> u.routes[key] == v.routes[key]
  {
    if u.routes[key] == v.routes[key] {
      assert v.routes == u.routes;
    }
  }

  lemma LearnSameBut(cfg: Config, u: Tables, v: Tables, k: Speaker, e: NodeEntry, key: string)
    requires SameBut(key, u, v)
    ensures SameBut(key, Learn(cfg, u, k.Frame(), k.q, k.now, e), Learn(cfg, v, k.Frame(), k.q, k.now, e))
  {
    hide HopQuality, UpsertBucket;
    assert |u.routes| == |u.routes.Keys| == |v.routes.Keys| == |v.routes|;
  }

  lemma {:induction false} LearnedSameBut(cfg: Config, u: Tables, v: Tables, k: Speaker, es: seq<NodeEntry>, key: string)
    requires SameBut(key, u, v)
    ensures SameBut(key, Learned(cfg, u, k, es), Learned(cfg, v, k, es))
    decreases |es|
  {
    hide Learn, SameBut;
    if es != [] {
      var n := |es| - 1;
      LearnedSameBut(cfg, u, v, k, es[..n], key);
      LearnSameBut(cfg, Learned(cfg, u, k, es[..n]), Learned(cfg, v, k, es[..n]), k, es[n], key);
    }
  }

  lemma UpsertedSameBut(u: Tables, e: RouteEntry)
    requires Upper(e.destCall) in u.routes
    ensures SameBut(Upper(e.destCall), u, Upserted(u, e))
  {
    hide UpsertBucket;
  }

  /** The speaker's bucket, as the entries about the speaker itself leave it. */
  function BucketAfter(cfg: Config, k: Speaker, b: seq<RouteEntry>, es: seq<NodeEntry>): seq<RouteEntry>
  {
    if es == [] then b
    else
      var n := |es| - 1;
      var before := BucketAfter(cfg, k, b, es[..n]);
      if k.Itself(cfg, es[n]) then UpsertBucket(before, k.Route(cfg, es[n])) else before
  }

  lemma {:induction false} LearnedBucket(cfg: Config, t: Tables, k: Speaker, es: seq<NodeEntry>)
    requires k.Key() in t.routes
    ensures k.Key() in Learned(cfg, t, k, es).routes
    ensures Learned(cfg, t, k, es).routes[k.Key()] == BucketAfter(cfg, k, t.routes[k.Key()], es)
    decreases |es|
  {
    hide HopQuality, UpsertBucket;
    if es != [] {
      LearnedBucket(cfg, t, k, es[..|es| - 1]);
    }
  }

  /** The same, heard frame by frame: each frame puts the direct route in first. */
  function BucketHeard(cfg: Config, k: Speaker, b: seq<RouteEntry>, chunks: seq<seq<NodeEntry>>): seq<RouteEntry>
  {
    if chunks == [] then b
    else
      var n := |chunks| - 1;
      BucketAfter(cfg, k, UpsertBucket(BucketHeard(cfg, k, b, chunks[..n]), k.Direct(cfg)), chunks[n])
  }

  /** What the first frame has made of the table before its entries are looked at. */
  function DirectSet(cfg: Config, t: Tables, k: Speaker): Tables
  {
    Upserted(NeighbourTouched(cfg, t, k.Frame(), k.now), k.Direct(cfg))
  }

  lemma DirectSetBucket(cfg: Config, t: Tables, k: Speaker)
    requires Speaks(cfg, t, k)
    ensures k.Key() in DirectSet(cfg, t, k).routes && JustHeard(cfg, DirectSet(cfg, t, k), k)
    ensures DirectSet(cfg, t, k).routes[k.Key()] == UpsertBucket(Bucket(t, k.Key()), k.Direct(cfg))
  {
    hide UpsertBucket;
  }

  lemma WholeFrame(cfg: Config, t: Tables, k: Speaker, es: seq<NodeEntry>)
    requires cfg.worstQuality > 0 && k.q > 0 && Speaks(cfg, t, k)
    ensures ProcessNodes(cfg, t, NodesFrame(k.call, k.alias, es), k.now) == Learned(cfg, DirectSet(cfg, t, k), k, es)
  {
    FrameFirst(cfg, t, k, es);
    hide ProcessNodes, Upserted, Heard, LearnAll;
  }

  /** Heard frame by frame, the table is that of one frame but for the speaker's own bucket. */
  ghost predicate InStep(cfg: Config, t: Tables, k: Speaker, chunks: seq<seq<NodeEntry>>, heard: Tables)
  {
    && SameBut(k.Key(), Learned(cfg, DirectSet(cfg, t, k), k, Flatten(chunks)), heard) && JustHeard(cfg, heard, k)
    && heard.routes[k.Key()] == BucketHeard(cfg, k, Bucket(t, k.Key()), chunks)
  }

  lemma LearnedKeepsHeard(cfg: Config, direct: Tables, k: Speaker, es: seq<NodeEntry>)
    requires JustHeard(cfg, direct, k) && k.Key() in direct.routes
    ensures JustHeard(cfg, Learned(cfg, direct, k, es), k)
    ensures SameBut(k.Key(), Learned(cfg, direct, k, es), Learned(cfg, direct, k, es))
  {
    LearnedKeeps(cfg, direct, k, es);
    hide Learned;
  }

  lemma FirstInStep(cfg: Config, t: Tables, k: Speaker, es: seq<NodeEntry>)
    requires Speaks(cfg, t, k)
    ensures InStep(cfg, t, k, [es], Learned(cfg, DirectSet(cfg, t, k), k, es))
  {
    hide UpsertBucket, DirectSet, BucketAfter, Learned, SameBut, JustHeard;
    var direct := DirectSet(cfg, t, k);
    DirectSetBucket(cfg, t, k);
    LearnedKeepsHeard(cfg, direct, k, es);
    LearnedBucket(cfg, direct, k, es);
    assert [es][..0] == [];
    assert Flatten([]) + es == es;
    assert BucketHeard(cfg, k, Bucket(t, k.Key()), []) == Bucket(t, k.Key());
  }

  lemma OneMoreFrame(cfg: Config, direct: Tables, heard: Tables, k: Speaker, es: seq<NodeEntry>, last: seq<NodeEntry>)
    requires k.Key() in heard.routes && JustHeard(cfg, heard, k)
    requires SameBut(k.Key(), Learned(cfg, direct, k, es), heard)
    ensures var next := Learned(cfg, Upserted(heard, k.Direct(cfg)), k, last);
      && SameBut(k.Key(), Learned(cfg, direct, k, es + last), next) && JustHeard(cfg, next, k)
      && next.routes[k.Key()] == BucketAfter(cfg, k, UpsertBucket(heard.routes[k.Key()], k.Direct(cfg)), last)
  {
    hide Learned, BucketAfter, UpsertBucket;
    var again := Upserted(heard, k.Direct(cfg));
    UpsertedSameBut(heard, k.Direct(cfg));
    LearnedConcat(cfg, direct, k, es, last);
    LearnedSameBut(cfg, Learned(cfg, direct, k, es), again, k, last, k.Key());
    LearnedBucket(cfg, again, k, last);
    LearnedKeepsHeard(cfg, again, k, last);
  }

  lemma NextInStep(cfg: Config, t: Tables, k: Speaker, chunks: seq<seq<NodeEntry>>, heard: Tables)
    requires chunks != [] && InStep(cfg, t, k, chunks[..|chunks| - 1], heard)
    ensures InStep(cfg, t, k, chunks, Learned(cfg, Upserted(heard, k.Direct(cfg)), k, chunks[|chunks| - 1]))
  {
    hide UpsertBucket, DirectSet, BucketAfter, Learned, SameBut, JustHeard, Upserted;
    var n := |chunks| - 1;
    SameButHas(k.Key(), Learned(cfg, DirectSet(cfg, t, k), k, Flatten(chunks[..n])), heard);
    OneMoreFrame(cfg, DirectSet(cfg, t, k), heard, k, Flatten(chunks[..n]), chunks[n]);
  }

  lemma SameButHas(key: string, u: Tables, v: Tables)
    requires SameBut(key, u, v)
    ensures key in v.routes
  {
  }

  lemma {:induction false} HeardInStep(cfg: Config, t: Tables, k: Speaker, chunks: seq<seq<NodeEntry>>)
    requires cfg.worstQuality > 0 && k.q > 0 && Speaks(cfg, t, k) && chunks != []
    ensures InStep(cfg, t, k, chunks, HearAll(cfg, t, k.call, k.alias, k.now, chunks))
  {
    hide ProcessNodes, InStep, Learned, DirectSet, Upserted, JustHeard;
    var n := |chunks| - 1;
    if n == 0 {
      WholeFrame(cfg, t, k, chunks[0]);
      FirstInStep(cfg, t, k, chunks[0]);
      assert chunks[..0] == [] && chunks == [chunks[0]];
      assert HearAll(cfg, t, k.call, k.alias, k.now, []) == t;
    } else {
      HeardInStep(cfg, t, k, chunks[..n]);
      var heard := HearAll(cfg, t, k.call, k.alias, k.now, chunks[..n]);
      InStepHeard(cfg, t, k, chunks[..n], heard);
      FrameAgain(cfg, heard, k, chunks[n]);
      NextInStep(cfg, t, k, chunks, heard);
    }
  }

  lemma InStepHeard(cfg: Config, t: Tables, k: Speaker, chunks: seq<seq<NodeEntry>>, heard: Tables)
    requires InStep(cfg, t, k, chunks, heard)
    ensures JustHeard(cfg, heard, k)
  {
  }

  /** Frame by frame or in one: the tables are equal if and only if the speaker's buckets are. */
  lemma HeardAlikeIff(cfg: Config, t: Tables, k: Speaker, chunks: seq<seq<NodeEntry>>)
    requires cfg.worstQuality > 0 && k.q > 0 && Speaks(cfg, t, k) && chunks != []
    ensures HearAll(cfg, t, k.call, k.alias, k.now, chunks)
            == ProcessNodes(cfg, t, NodesFrame(k.call, k.alias, Flatten(chunks)), k.now)
            <==> BucketHeard(cfg, k, Bucket(t, k.Key()), chunks)
                 == BucketAfter(cfg, k, UpsertBucket(Bucket(t, k.Key()), k.Direct(cfg)), Flatten(chunks))
  {
    hide ProcessNodes, Learned, DirectSet, JustHeard, HearAll, SameBut, BucketHeard, BucketAfter, UpsertBucket, Flatten;
    var whole := Learned(cfg, DirectSet(cfg, t, k), k, Flatten(chunks));
    var heard := HearAll(cfg, t, k.call, k.alias, k.now, chunks);
    WholeFrame(cfg, t, k, Flatten(chunks));
    DirectSetBucket(cfg, t, k);
    LearnedBucket(cfg, DirectSet(cfg, t, k), k, Flatten(chunks));
    HeardInStep(cfg, t, k, chunks);
    SameButHas(k.Key(), whole, heard);
    SameButOne(k.Key(), whole, heard);
  }

  /** With routing off, or the neighbour ignored, frames leave no more than the first. */
  lemma {:induction false} NothingLearned(cfg: Config, t: Tables, k: Speaker, chunks: seq<seq<NodeEntry>>)
    requires cfg.worstQuality == 0 || k.q == 0
    requires Speaks(cfg, t, k) && chunks != []
    ensures HearAll(cfg, t, k.call, k.alias, k.now, chunks)
            == ProcessNodes(cfg, t, NodesFrame(k.call, k.alias, Flatten(chunks)), k.now)
  {
    var n := |chunks| - 1;
    var touched := NeighbourTouched(cfg, t, k.Frame(), k.now);
    HeardAgain(cfg, t, k);
    FrameFirst(cfg, t, k, Flatten(chunks));
    FrameFirst(cfg, t, k, chunks[n]);
    FrameAgain(cfg, touched, k, chunks[n]);
    hide ProcessNodes, Heard, JustHeard;
    if n == 0 {
      assert chunks[..n] == [];
      assert HearAll(cfg, t, k.call, k.alias, k.now, chunks[..n]) == t;
    } else {
      NothingLearned(cfg, t, k, chunks[..n]);
      FrameFirst(cfg, t, k, Flatten(chunks[..n]));
    }
  }

  // ---------- The speaker's seat ----------

  /** The route the speaker ends up with: that of the last usable entry about itself. */
  function LastRoute(cfg: Config, k: Speaker, r: RouteEntry, es: seq<NodeEntry>): RouteEntry
  {
    if es == [] then r
    else if k.Itself(cfg, es[|es| - 1]) then k.Route(cfg, es[|es| - 1])
    else LastRoute(cfg, k, r, es[..|es| - 1])
  }

  /** Its seat among the other routes to the speaker: each usable entry about itself moves it. */
  function SeatAfter(cfg: Config, k: Speaker, others: seq<RouteEntry>, p: nat, es: seq<NodeEntry>): (seat: nat)
    requires p <= |others|
    ensures seat <= |others|
  {
    if es == [] then p
    else
      var n := |es| - 1;
      var before := SeatAfter(cfg, k, others, p, es[..n]);
      if k.Itself(cfg, es[n]) then Seat(others, HopQuality(cfg, es[n], k.q), before) else before
  }

  /** ... and each frame moves it back towards the direct route's. */
  function SeatHeard(cfg: Config, k: Speaker, others: seq<RouteEntry>, p: nat, chunks: seq<seq<NodeEntry>>): (seat: nat)
    requires p <= |others|
    ensures seat <= |others|
  {
    if chunks == [] then p
    else
      var n := |chunks| - 1;
      SeatAfter(cfg, k, others, Seat(others, k.q, SeatHeard(cfg, k, others, p, chunks[..n])), chunks[n])
  }

  /** The other routes to the speaker, as the first frame leaves them. */
  predicate Others(others: seq<RouteEntry>, k: Speaker)
  {
    Sorted(others) && |others| < MAX_ROUTES_PER_DEST && NoneVia(others, k.Key())
  }

  lemma {:induction false} BucketAfterPlaced(cfg: Config, k: Speaker, others: seq<RouteEntry>, r: RouteEntry, p: nat,
                                             es: seq<NodeEntry>)
    requires Others(others, k) && Via(r) == k.Key() && p <= |others|
    ensures Via(LastRoute(cfg, k, r, es)) == k.Key()
    ensures BucketAfter(cfg, k, Place(others, r, p), es)
            == Place(others, LastRoute(cfg, k, r, es), SeatAfter(cfg, k, others, p, es))
  {
    hide UpsertBucket, Place, Seat, HopQuality;
    if es != [] {
      var n := |es| - 1;
      BucketAfterPlaced(cfg, k, others, r, p, es[..n]);
      if k.Itself(cfg, es[n]) {
        UpsertPlaced(others, LastRoute(cfg, k, r, es[..n]), SeatAfter(cfg, k, others, p, es[..n]), k.Route(cfg, es[n]));
      }
    }
  }

  lemma {:induction false} BucketHeardPlaced(cfg: Config, k: Speaker, b: seq<RouteEntry>, others: seq<RouteEntry>, p: nat,
                                             chunks: seq<seq<NodeEntry>>)
    requires Others(others, k) && p <= |others| && chunks != []
    requires UpsertBucket(b, k.Direct(cfg)) == Place(others, k.Direct(cfg), p) && Seat(others, k.q, p) == p
    ensures var n := |chunks| - 1;
      BucketHeard(cfg, k, b, chunks)
      == Place(others, LastRoute(cfg, k, k.Direct(cfg), chunks[n]), SeatHeard(cfg, k, others, p, chunks))
  {
    hide UpsertBucket, Place, Seat, BucketAfter, SeatAfter, LastRoute;
    var n := |chunks| - 1;
    var d := k.Direct(cfg);
    if n == 0 {
      assert chunks[..n] == [];
      assert BucketHeard(cfg, k, b, []) == b && SeatHeard(cfg, k, others, p, []) == p;
      BucketAfterPlaced(cfg, k, others, d, p, chunks[n]);
    } else {
      var init := chunks[..n];
      BucketHeardPlaced(cfg, k, b, others, p, init);
      var r, seat := LastRoute(cfg, k, d, init[n - 1]), SeatHeard(cfg, k, others, p, init);
      BucketAfterPlaced(cfg, k, others, d, 0, init[n - 1]);
      UpsertPlaced(others, r, seat, d);
      BucketAfterPlaced(cfg, k, others, d, Seat(others, k.q, seat), chunks[n]);
    }
  }

  // ---------- When the direct route does not make the best three ----------

  /** Three routes at least as good leave no room for the speaker's, direct or not. */
  lemma NoRoom(key: string, b: seq<RouteEntry>, d: RouteEntry, r: RouteEntry)
    requires (b == [] || BucketOk(key, b)) && d !in UpsertBucket(b, d)
    requires Via(r) == Via(d) && r.quality <= d.quality
    ensures UpsertBucket(b, r) == b == UpsertBucket(b, d)
  {
    NotKept(key, b, d);
    NoRoomAt(key, b, d);
    hide BucketOk;
    assert FindVia(b, Via(r)) == |b|;
    SortAppend(b, r);
    AtTheEnd(b, r);
  }

  lemma NoRoomAt(key: string, b: seq<RouteEntry>, d: RouteEntry)
    requires (b == [] || BucketOk(key, b)) && d !in UpsertBucket(b, d)
    ensures |b| == MAX_ROUTES_PER_DEST && NoneVia(b, Via(d)) && forall i :: 0 <= i < |b| ==> b[i].quality >= d.quality
    ensures Sorted(b)
  {
    hide SortDesc, Append;
    ReplacedKeeps(b, d);
    SortKeeps(Replaced(b, d));
    SortAppend(b, d);
    if |b| == MAX_ROUTES_PER_DEST && FindVia(b, Via(d)) == |b| {
      AppendedLast(b, d);
      EndIsWorst(b, d);
    }
  }

  lemma {:induction false} EndIsWorst(s: seq<RouteEntry>, e: RouteEntry)
    requires Append(s, e) == s + [e] && e !in s
    ensures forall i :: 0 <= i < |s| ==> s[i].quality >= e.quality
  {
    if s != [] {
      assert Append(s, e)[0] == s[0] != e;
      assert Append(s, e)[1..] == s[1..] + [e];
      EndIsWorst(s[1..], e);
    }
  }

  lemma {:induction false} AtTheEnd(s: seq<RouteEntry>, e: RouteEntry)
    requires forall i :: 0 <= i < |s| ==> s[i].quality >= e.quality
    ensures Append(s, e) == s + [e]
  {
    if s != [] {
      AtTheEnd(s[1..], e);
    }
  }

  lemma RouteNoBetter(cfg: Config, k: Speaker, e: NodeEntry)
    ensures Via(k.Route(cfg, e)) == k.Key() == Via(k.Direct(cfg)) && k.Route(cfg, e).quality <= k.Direct(cfg).quality
  {
  }

  lemma {:induction false} NoRoomAfter(cfg: Config, k: Speaker, b: seq<RouteEntry>, es: seq<NodeEntry>)
    requires (b == [] || BucketOk(k.Key(), b)) && k.Direct(cfg) !in UpsertBucket(b, k.Direct(cfg))
    ensures BucketAfter(cfg, k, b, es) == b == UpsertBucket(b, k.Direct(cfg))
  {
    hide UpsertBucket, BucketOk;
    NotKept(k.Key(), b, k.Direct(cfg));
    if es != [] {
      var e := es[|es| - 1];
      NoRoomAfter(cfg, k, b, es[..|es| - 1]);
      RouteNoBetter(cfg, k, e);
      NoRoom(k.Key(), b, k.Direct(cfg), k.Route(cfg, e));
    }
  }

  lemma {:induction false} NoRoomHeard(cfg: Config, k: Speaker, b: seq<RouteEntry>, chunks: seq<seq<NodeEntry>>)
    requires (b == [] || BucketOk(k.Key(), b)) && k.Direct(cfg) !in UpsertBucket(b, k.Direct(cfg))
    ensures BucketHeard(cfg, k, b, chunks) == b
  {
    hide UpsertBucket, BucketOk, BucketAfter;
    if chunks != [] {
      var n := |chunks| - 1;
      NoRoomHeard(cfg, k, b, chunks[..n]);
      NoRoomAfter(cfg, k, b, chunks[n]);
    }
  }

  // ---------- Exactly when the cuts are invisible ----------

  /** The direct route is among the best three once the first frame has set it. */
  predicate HasSeat(cfg: Config, t: Tables, k: Speaker)
  {
    k.Direct(cfg) in UpsertBucket(Bucket(t, k.Key()), k.Direct(cfg))
  }

  /** It is, unless three routes by other ways are at least as good. */
  lemma HasSeatIff(cfg: Config, t: Tables, k: Speaker)
    requires Shaped(t)
    ensures var b := Bucket(t, k.Key());
      HasSeat(cfg, t, k) <==>
      !(|b| == MAX_ROUTES_PER_DEST && NoneVia(b, k.Key()) && forall i :: 0 <= i < |b| ==> b[i].quality >= k.q)
  {
    hide Shaped, SortDesc;
    var b, d := Bucket(t, k.Key()), k.Direct(cfg);
    ShapedBucket(t, k.Key());
    if !HasSeat(cfg, t, k) {
      NoRoomAt(k.Key(), b, d);
    }
    if |b| == MAX_ROUTES_PER_DEST && NoneVia(b, k.Key()) && forall i :: 0 <= i < |b| ==> b[i].quality >= k.q {
      NoSeat(b, d);
    }
  }

  lemma NoSeat(b: seq<RouteEntry>, d: RouteEntry)
    requires Sorted(b) && |b| == MAX_ROUTES_PER_DEST && NoneVia(b, Via(d))
    requires forall i :: 0 <= i < |b| ==> b[i].quality >= d.quality
    ensures d !in UpsertBucket(b, d)
  {
    hide SortDesc;
    assert FindVia(b, Via(d)) == |b|;
    SortAppend(b, d);
    AtTheEnd(b, d);
    assert UpsertBucket(b, d) == b;
  }

  lemma ShapedBucket(t: Tables, key: string)
    requires Shaped(t)
    ensures Bucket(t, key) == [] || BucketOk(key, Bucket(t, key))
  {
  }

  /** The other routes to the speaker, and the seat of the direct one. */
  function SeatOf(cfg: Config, t: Tables, k: Speaker): (seat: nat)
    ensures seat <= |OthersOf(cfg, t, k)|
  {
    var b := UpsertBucket(Bucket(t, k.Key()), k.Direct(cfg));
    var p := FindVia(b, k.Key());
    if p < |b| then p else 0
  }

  function OthersOf(cfg: Config, t: Tables, k: Speaker): seq<RouteEntry>
  {
    var b := UpsertBucket(Bucket(t, k.Key()), k.Direct(cfg));
    var p := FindVia(b, k.Key());
    if p < |b| then b[..p] + b[p + 1..] else []
  }

  /** No trace of the cuts: routing is off or the speaker ignored, or its direct route is not among
      the best three, or both ways it ends up with the same route in the same seat. */
  predicate CutsInvisible(cfg: Config, t: Tables, k: Speaker, chunks: seq<seq<NodeEntry>>)
    requires chunks != []
  {
    cfg.worstQuality == 0 || k.q == 0 || !HasSeat(cfg, t, k) ||
    (var d, others, p := k.Direct(cfg), OthersOf(cfg, t, k), SeatOf(cfg, t, k);
     && LastRoute(cfg, k, d, chunks[|chunks| - 1]) == LastRoute(cfg, k, d, Flatten(chunks))
     && SeatHeard(cfg, k, others, p, chunks) == SeatAfter(cfg, k, others, p, Flatten(chunks)))
  }

  lemma SeatedIn(cfg: Config, t: Tables, k: Speaker)
    requires Shaped(t) && HasSeat(cfg, t, k)
    ensures var d, others, p := k.Direct(cfg), OthersOf(cfg, t, k), SeatOf(cfg, t, k);
      && Others(others, k) && UpsertBucket(Bucket(t, k.Key()), d) == Place(others, d, p) && Seat(others, k.q, p) == p
  {
    var b, d := Bucket(t, k.Key()), k.Direct(cfg);
    assert b == [] || BucketOk(k.Key(), b);
    UpsertOk(k.Key(), b, d);
    hide UpsertBucket, BucketOk, Shaped, Place, Seat;
    var others, p := PlacedIn(k.Key(), UpsertBucket(b, d), d);
  }

  /** A broadcast heard in any frames, from any tables: the result is that of one unfragmented
      frame if and only if `CutsInvisible`. */
  lemma FragmentsAreTransparentIff(cfg: Config, t: Tables, k: Speaker, chunks: seq<seq<NodeEntry>>)
    requires Shaped(t) && Speaks(cfg, t, k) && chunks != []
    ensures HearAll(cfg, t, k.call, k.alias, k.now, chunks)
            == ProcessNodes(cfg, t, NodesFrame(k.call, k.alias, Flatten(chunks)), k.now)
            <==> CutsInvisible(cfg, t, k, chunks)
  {
    hide ProcessNodes, HearAll, Shaped, UpsertBucket, BucketHeard, BucketAfter, Heard, OthersOf, SeatOf, Others,
         SeatHeard, SeatAfter, LastRoute, Place, Seat;
    if cfg.worstQuality == 0 || k.q == 0 {
      NothingLearned(cfg, t, k, chunks);
    } else {
      HeardAlikeIff(cfg, t, k, chunks);
      BucketsAgreeIff(cfg, t, k, chunks);
    }
  }

  lemma BucketsAgreeIff(cfg: Config, t: Tables, k: Speaker, chunks: seq<seq<NodeEntry>>)
    requires Shaped(t) && chunks != [] && cfg.worstQuality > 0 && k.q > 0
    ensures var b := Bucket(t, k.Key());
      BucketHeard(cfg, k, b, chunks) == BucketAfter(cfg, k, UpsertBucket(b, k.Direct(cfg)), Flatten(chunks))
      <==> CutsInvisible(cfg, t, k, chunks)
  {
    hide Shaped, UpsertBucket, BucketHeard, BucketAfter, OthersOf, SeatOf, SeatHeard, SeatAfter, LastRoute, Place, Seat,
         BucketOk, Flatten;
    var b, d := Bucket(t, k.Key()), k.Direct(cfg);
    ShapedBucket(t, k.Key());
    if HasSeat(cfg, t, k) {
      var others, p := OthersOf(cfg, t, k), SeatOf(cfg, t, k);
      SeatedIn(cfg, t, k);
      BucketHeardPlaced(cfg, k, b, others, p, chunks);
      BucketAfterPlaced(cfg, k, others, d, p, Flatten(chunks));
      BucketAfterPlaced(cfg, k, others, d, p, chunks[|chunks| - 1]);
      PlacesDiffer(others, LastRoute(cfg, k, d, chunks[|chunks| - 1]), SeatHeard(cfg, k, others, p, chunks),
                   LastRoute(cfg, k, d, Flatten(chunks)), SeatAfter(cfg, k, others, p, Flatten(chunks)));
    } else {
      NoRoomHeard(cfg, k, b, chunks);
      NoRoomAfter(cfg, k, b, Flatten(chunks));
    }
  }

  // ---------- One cut, whatever follows it ----------

  lemma {:induction false} AfterConcat(cfg: Config, k: Speaker, r: RouteEntry, others: seq<RouteEntry>, p: nat,
                                       es: seq<NodeEntry>, more: seq<NodeEntry>)
    requires p <= |others|
    ensures LastRoute(cfg, k, r, es + more) == LastRoute(cfg, k, LastRoute(cfg, k, r, es), more)
    ensures SeatAfter(cfg, k, others, p, es + more) == SeatAfter(cfg, k, others, SeatAfter(cfg, k, others, p, es), more)
    decreases |more|
  {
    hide Seat, HopQuality;
    if more == [] {
      assert es + more == es;
    } else {
      var n := |more| - 1;
      AfterConcat(cfg, k, r, others, p, es, more[..n]);
      assert (es + more)[..|es + more| - 1] == es + more[..n];
    }
  }

  lemma SeatTwice(others: seq<RouteEntry>, q: byte, p: nat)
    requires p <= |others|
    ensures Seat(others, q, Seat(others, q, p)) == Seat(others, q, p)
  {
    CountsOrdered(others, q, q);
  }

  /** Passing by a better seat first makes no difference to a route that came from there. */
  lemma SeatThrough(others: seq<RouteEntry>, x: byte, q: byte, p: nat)
    requires p <= |others| && x <= q && Seat(others, q, p) == p
    ensures Seat(others, x, Seat(others, q, Seat(others, x, p))) == Seat(others, x, p)
  {
    CountsOrdered(others, x, q);
    CountsOrdered(others, x, x);
    CountsOrdered(others, q, q);
  }

  /** If the last usable entry about the speaker describes its direct route, the seat is a direct
      route's. */
  lemma {:induction false} DirectSeat(cfg: Config, k: Speaker, others: seq<RouteEntry>, p: nat, es: seq<NodeEntry>)
    requires p <= |others| && Seat(others, k.q, p) == p
    requires LastRoute(cfg, k, k.Direct(cfg), es) == k.Direct(cfg)
    ensures Seat(others, k.q, SeatAfter(cfg, k, others, p, es)) == SeatAfter(cfg, k, others, p, es)
  {
    hide Seat, HopQuality;
    if es != [] {
      var n := |es| - 1;
      if k.Itself(cfg, es[n]) {
        SeatTwice(others, k.q, SeatAfter(cfg, k, others, p, es[..n]));
      } else {
        DirectSeat(cfg, k, others, p, es[..n]);
      }
    }
  }

  /** No trace of a cut after `es`: routing is off or the speaker ignored, or its direct route is
      not among the best three, or no usable entry of `es` is about the speaker itself, or the
      last such entry describes the direct route. */
  predicate Silent(cfg: Config, t: Tables, k: Speaker, es: seq<NodeEntry>)
  {
    cfg.worstQuality == 0 || k.q == 0 || !HasSeat(cfg, t, k) || LastRoute(cfg, k, k.Direct(cfg), es) == k.Direct(cfg)
  }

  /** What is heard after the cut is the whole, if `more` follows. */
  predicate CutUnseen(cfg: Config, t: Tables, k: Speaker, es: seq<NodeEntry>, more: seq<NodeEntry>)
  {
    HearAll(cfg, t, k.call, k.alias, k.now, [es, more])
    == ProcessNodes(cfg, t, NodesFrame(k.call, k.alias, es + more), k.now)
  }

  lemma TwoFrames(cfg: Config, k: Speaker, others: seq<RouteEntry>, p: nat, es: seq<NodeEntry>, more: seq<NodeEntry>)
    requires p <= |others| && Seat(others, k.q, p) == p
    ensures Flatten([es, more]) == es + more
    ensures SeatHeard(cfg, k, others, p, [es, more])
            == SeatAfter(cfg, k, others, Seat(others, k.q, SeatAfter(cfg, k, others, p, es)), more)
  {
    hide Seat, SeatAfter;
    assert [es, more][..1] == [es] && [es][..0] == [];
    assert Flatten([es]) == Flatten([]) + es == es;
    assert SeatHeard(cfg, k, others, p, []) == p;
    assert SeatHeard(cfg, k, others, p, [es]) == SeatAfter(cfg, k, others, p, es);
  }

  /** Two frames give what one gives if and only if they leave the same route in the same seat. */
  lemma CutUnseenIff(cfg: Config, t: Tables, k: Speaker, es: seq<NodeEntry>, more: seq<NodeEntry>)
    requires Shaped(t) && Speaks(cfg, t, k)
    ensures CutUnseen(cfg, t, k, es, more) <==>
      cfg.worstQuality == 0 || k.q == 0 || !HasSeat(cfg, t, k) ||
      (var d, others := k.Direct(cfg), OthersOf(cfg, t, k);
       var after := SeatAfter(cfg, k, others, SeatOf(cfg, t, k), es);
       && LastRoute(cfg, k, d, more) == LastRoute(cfg, k, LastRoute(cfg, k, d, es), more)
       && SeatAfter(cfg, k, others, Seat(others, k.q, after), more) == SeatAfter(cfg, k, others, after, more))
  {
    hide Shaped, Speaks, Seat, SeatAfter, LastRoute, HasSeat, SeatOf, OthersOf, HearAll, ProcessNodes, SeatHeard, Flatten;
    var others, p := OthersOf(cfg, t, k), SeatOf(cfg, t, k);
    FragmentsAreTransparentIff(cfg, t, k, [es, more]);
    if HasSeat(cfg, t, k) {
      SeatedIn(cfg, t, k);
      TwoFrames(cfg, k, others, p, es, more);
      AfterConcat(cfg, k, k.Direct(cfg), others, p, es, more);
    } else {
      FlattenTwo(es, more);
    }
  }

  lemma FlattenTwo(es: seq<NodeEntry>, more: seq<NodeEntry>)
    ensures Flatten([es, more]) == es + more
  {
    assert [es, more][..1] == [es] && [es][..0] == [];
    assert Flatten([es]) == Flatten([]) + es == es;
  }

  /** A cut goes unseen whatever follows it if and only if it is `Silent`. */
  lemma CutIsInvisibleIff(cfg: Config, t: Tables, k: Speaker, es: seq<NodeEntry>)
    requires Shaped(t) && Speaks(cfg, t, k)
    ensures (forall more :: CutUnseen(cfg, t, k, es, more)) <==> Silent(cfg, t, k, es)
  {
    hide Shaped, Speaks, Seat, SeatAfter, LastRoute, HasSeat, SeatOf, OthersOf, CutUnseen;
    if Silent(cfg, t, k, es) {
      forall more ensures CutUnseen(cfg, t, k, es, more) {
        CutUnseenIff(cfg, t, k, es, more);
        if cfg.worstQuality > 0 && k.q > 0 && HasSeat(cfg, t, k) {
          SeatedIn(cfg, t, k);
          DirectSeat(cfg, k, OthersOf(cfg, t, k), SeatOf(cfg, t, k), es);
        }
      }
    } else {
      CutUnseenIff(cfg, t, k, es, []);
      NothingMore(cfg, k, k.Direct(cfg));
      NothingMore(cfg, k, LastRoute(cfg, k, k.Direct(cfg), es));
      assert !CutUnseen(cfg, t, k, es, []);
    }
  }

  lemma NothingMore(cfg: Config, k: Speaker, r: RouteEntry)
    ensures LastRoute(cfg, k, r, []) == r
  {
  }

  // ---------- Broadcasts that name each destination once ----------

  lemma DistinctPrefix(es: seq<NodeEntry>, more: seq<NodeEntry>)
    requires DistinctDests(es + more)
    ensures DistinctDests(es)
    ensures forall d, e :: d in es && e in more ==> Dest(d) != Dest(e)
  {
    forall i, j | 0 <= i < |es| && 0 <= j < |more| ensures Dest(es[i]) != Dest(more[j]) {
      assert Dest((es + more)[i]) != Dest((es + more)[|es| + j]);
    }
    forall i, j | 0 <= i < j < |es| ensures Dest(es[i]) != Dest(es[j]) {
      assert Dest((es + more)[i]) != Dest((es + more)[j]);
    }
  }

  /** Every usable entry about the speaker describes its direct route. */
  predicate OnlyDirect(cfg: Config, k: Speaker, es: seq<NodeEntry>)
  {
    forall e :: e in es && k.Itself(cfg, e) ==> k.Route(cfg, e) == k.Direct(cfg)
  }

  lemma {:induction false} LastOfOne(cfg: Config, k: Speaker, es: seq<NodeEntry>)
    requires DistinctDests(es)
    ensures LastRoute(cfg, k, k.Direct(cfg), es) == k.Direct(cfg) <==> OnlyDirect(cfg, k, es)
  {
    hide HopQuality;
    if es != [] {
      var n := |es| - 1;
      assert es == es[..n] + [es[n]];
      DistinctPrefix(es[..n], [es[n]]);
      LastOfOne(cfg, k, es[..n]);
    }
  }

  lemma {:induction false} SeatStays(cfg: Config, k: Speaker, others: seq<RouteEntry>, p: nat, es: seq<NodeEntry>)
    requires p <= |others| && Seat(others, k.q, p) == p && OnlyDirect(cfg, k, es)
    ensures SeatAfter(cfg, k, others, p, es) == p
  {
    hide Seat, HopQuality;
    if es != [] {
      SeatStays(cfg, k, others, p, es[..|es| - 1]);
    }
  }

  lemma {:induction false} SeatStaysHeard(cfg: Config, k: Speaker, others: seq<RouteEntry>, p: nat, chunks: seq<seq<NodeEntry>>)
    requires p <= |others| && Seat(others, k.q, p) == p && OnlyDirect(cfg, k, Flatten(chunks))
    ensures SeatHeard(cfg, k, others, p, chunks) == p
  {
    hide Seat, SeatAfter, Speaker.Itself, Speaker.Route;
    if chunks != [] {
      var n := |chunks| - 1;
      SeatStaysHeard(cfg, k, others, p, chunks[..n]);
      SeatStays(cfg, k, others, p, chunks[n]);
    }
  }

  /** The last route is an entry's own, or the one there was. */
  lemma {:induction false} LastRouteOf(cfg: Config, k: Speaker, r: RouteEntry, d: RouteEntry, es: seq<NodeEntry>)
    ensures LastRoute(cfg, k, r, es) == LastRoute(cfg, k, d, es) || (forall e :: e in es ==> !k.Itself(cfg, e))
    ensures (forall e :: e in es ==> !k.Itself(cfg, e)) ==> LastRoute(cfg, k, r, es) == r && LastRoute(cfg, k, d, es) == d
  {
    hide HopQuality;
    if es != [] {
      var n := |es| - 1;
      assert es == es[..n] + [es[n]];
      LastRouteOf(cfg, k, r, d, es[..n]);
    }
  }

  /** Frames that name each destination once: the cuts leave no trace if and only if the frames
      before the last say nothing usable about the speaker but its direct route. */
  lemma DistinctCutsIff(cfg: Config, t: Tables, k: Speaker, chunks: seq<seq<NodeEntry>>)
    requires Shaped(t) && Speaks(cfg, t, k) && chunks != [] && DistinctDests(Flatten(chunks))
    ensures HearAll(cfg, t, k.call, k.alias, k.now, chunks)
            == ProcessNodes(cfg, t, NodesFrame(k.call, k.alias, Flatten(chunks)), k.now)
            <==> cfg.worstQuality == 0 || k.q == 0 || !HasSeat(cfg, t, k)
                 || OnlyDirect(cfg, k, Flatten(chunks[..|chunks| - 1]))
  {
    hide Shaped, Speaks, Seat, SeatAfter, LastRoute, HasSeat, SeatOf, OthersOf, HearAll, ProcessNodes, SeatHeard, Flatten,
         OnlyDirect, DistinctDests, Speaker.Itself;
    FragmentsAreTransparentIff(cfg, t, k, chunks);
    if HasSeat(cfg, t, k) {
      SeatedIn(cfg, t, k);
      DistinctSeatsIff(cfg, k, OthersOf(cfg, t, k), SeatOf(cfg, t, k), chunks);
    }
  }

  lemma DistinctSeatsIff(cfg: Config, k: Speaker, others: seq<RouteEntry>, p: nat, chunks: seq<seq<NodeEntry>>)
    requires p <= |others| && Seat(others, k.q, p) == p && chunks != [] && DistinctDests(Flatten(chunks))
    ensures (&& LastRoute(cfg, k, k.Direct(cfg), chunks[|chunks| - 1]) == LastRoute(cfg, k, k.Direct(cfg), Flatten(chunks))
             && SeatHeard(cfg, k, others, p, chunks) == SeatAfter(cfg, k, others, p, Flatten(chunks)))
            <==> OnlyDirect(cfg, k, Flatten(chunks[..|chunks| - 1]))
  {
    hide Seat, SeatAfter, LastRoute, DistinctDests, OnlyDirect, HopQuality;
    var d, n := k.Direct(cfg), |chunks| - 1;
    var before, last := Flatten(chunks[..n]), chunks[n];
    DistinctPrefix(before, last);
    AfterConcat(cfg, k, d, others, p, before, last);
    LastOfOne(cfg, k, before);
    LastRouteOf(cfg, k, LastRoute(cfg, k, d, before), d, last);
    if OnlyDirect(cfg, k, before) {
      SeatStays(cfg, k, others, p, before);
      SeatStaysHeard(cfg, k, others, p, chunks[..n]);
    } else {
      OneIsElsewhere(cfg, k, before, last);
    }
  }

  /** If one entry about the speaker comes before, none comes last. */
  lemma OneIsElsewhere(cfg: Config, k: Speaker, before: seq<NodeEntry>, last: seq<NodeEntry>)
    requires forall d, e :: d in before && e in last ==> Dest(d) != Dest(e)
    requires !OnlyDirect(cfg, k, before)
    ensures forall e :: e in last ==> !k.Itself(cfg, e)
  {
    hide HopQuality;
  }
}

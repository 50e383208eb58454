/** What every run of broadcasts, scans, prunes and crosslink changes keeps true of the tables. */
module RouterInvariants {
  import opened Prelude
  import opened RouteQuality
  import opened Buckets
  import opened RouterTables

  datatype Event =
    | Nodes(frame: NodesFrame, now: real)
    | Decay
    | PruneAt(cutoff: real)
    | NoteCrosslink(call: string, up: bool)
    | NoteHeardDirect(call: string, when: real)

  function Step(cfg: Config, t: Tables, e: Event): Tables
  {
    match e
    case Nodes(f, now) => ProcessNodes(cfg, t, f, now)
    case Decay => Decayed(cfg, t)
    case PruneAt(cutoff) => SweptTables(Prune(cutoff), t)
    case NoteCrosslink(call, up) => CrosslinkNoted(t, call, up)
    case NoteHeardDirect(call, when) => t.(heardDirect := t.heardDirect[Upper(call) := when])
  }

  function Exec(cfg: Config, t: Tables, es: seq<Event>): Tables
  {
    if es == [] then t else Step(cfg, Exec(cfg, t, es[..|es| - 1]), es[|es| - 1])
  }

  // ---------- Every bucket is a bucket, under its own key ----------

  ghost predicate Shaped(t: Tables)
  {
    && (forall k :: k in t.routes ==> BucketOk(k, t.routes[k]))
    && NoDoubles(t.order)
    && (forall k :: k in t.order <==> k in t.routes)
  }

  lemma UpsertedShaped(t: Tables, e: RouteEntry)
    requires Shaped(t)
    ensures Shaped(Upserted(t, e))
  {
    hide UpsertBucket, BucketOk;
    var key := Upper(e.destCall);
    assert key in t.routes ==> BucketOk(key, t.routes[key]);
    UpsertOk(key, Bucket(t, key), e);
    assert NoDoubles(t.order);
    var u := Upserted(t, e);
    assert forall k :: k in u.order <==> k in t.order || k == key;
  }

  lemma {:induction false} LearnAllShaped(cfg: Config, t: Tables, f: NodesFrame, q: byte, now: real, es: seq<NodeEntry>)
    requires Shaped(t)
    ensures Shaped(LearnAll(cfg, t, f, q, now, es))
    decreases |es|
  {
    if es != [] {
      var n := |es| - 1;
      LearnAllShaped(cfg, t, f, q, now, es[..n]);
      UpsertedShaped(LearnAll(cfg, t, f, q, now, es[..n]), IndirectRoute(cfg, f, q, now, es[n]));
      hide Shaped, Upserted;
    }
  }

  /** What a sweep leaves of a route: the same route, its count aside. */
  predicate SameRoute(r: RouteEntry, s: RouteEntry)
  {
    r == s.(obsCount := r.obsCount)
  }

  ghost predicate ComesFrom(r: RouteEntry, s: seq<RouteEntry>)
  {
    exists x :: x in s && SameRoute(r, x)
  }

  lemma {:induction false} SweptFrom(w: Sweep, s: seq<RouteEntry>)
    ensures |Swept(w, s)| <= |s|
    ensures forall r :: r in Swept(w, s) ==> ComesFrom(r, s)
  {
    if s != [] {
      var n := |s| - 1;
      SweptFrom(w, s[..n]);
      assert s[n] in s;
      forall r | r in Swept(w, s) ensures ComesFrom(r, s) {
        if r in Swept(w, s[..n]) {
          var x :| x in s[..n] && SameRoute(r, x);
          assert x in s;
        }
      }
    }
  }

  lemma {:induction false} SweptKeepsOrder(w: Sweep, s: seq<RouteEntry>)
    requires Sorted(s) && DistinctVias(s)
    ensures Sorted(Swept(w, s)) && DistinctVias(Swept(w, s))
  {
    if s != [] {
      hide Survivor;
      var n := |s| - 1;
      SweptKeepsOrder(w, s[..n]);
      SweptBefore(w, s);
      SurvivorIsSame(w, s[n]);
    }
  }

  lemma SurvivorIsSame(w: Sweep, r: RouteEntry)
    ensures Survivor(w, r).Some? ==> SameRoute(Survivor(w, r).value, r)
  {
  }

  lemma SweptBefore(w: Sweep, s: seq<RouteEntry>)
    requires Sorted(s) && DistinctVias(s) && s != []
    ensures var n := |s| - 1; var t := Swept(w, s[..n]);
      forall i :: 0 <= i < |t| ==> t[i].quality >= s[n].quality && Via(t[i]) != Via(s[n])
  {
    var n := |s| - 1;
    SweptFrom(w, s[..n]);
    hide Swept;
    var t := Swept(w, s[..n]);
    forall i | 0 <= i < |t| ensures t[i].quality >= s[n].quality && Via(t[i]) != Via(s[n]) {
      assert t[i] in t;
      var x :| x in s[..n] && SameRoute(t[i], x);
      var j :| 0 <= j < n && s[j] == x;
    }
  }

  lemma SweptOk(w: Sweep, key: string, s: seq<RouteEntry>)
    requires BucketOk(key, s) && Swept(w, s) != []
    ensures BucketOk(key, Swept(w, s))
  {
    SweptFrom(w, s);
    SweptKeepsOrder(w, s);
    hide Swept;
    forall i | 0 <= i < |Swept(w, s)| ensures Upper(Swept(w, s)[i].destCall) == key {
      assert Swept(w, s)[i] in Swept(w, s);
      var x :| x in s && SameRoute(Swept(w, s)[i], x);
    }
  }

  lemma {:induction false} OnlyKeeps(order: seq<string>, keys: set<string>)
    requires NoDoubles(order)
    ensures forall k :: k in Only(order, keys) <==> k in order && k in keys
    ensures NoDoubles(Only(order, keys))
  {
    if order != [] {
      OnlyKeeps(order[1..], keys);
      var o := Only(order[1..], keys);
      assert order == [order[0]] + order[1..];
      forall i | 0 <= i < |o| ensures o[i] != order[0] {
        assert o[i] in order[1..];
      }
    }
  }

  lemma SweptShaped(w: Sweep, t: Tables)
    requires Shaped(t)
    ensures Shaped(SweptTables(w, t))
  {
    var routes := SweptRoutes(w, t.routes);
    OnlyKeeps(t.order, routes.Keys);
    forall k | k in routes ensures BucketOk(k, routes[k]) {
      SweptOk(w, k, t.routes[k]);
    }
    hide BucketOk, Only, NoDoubles, Swept;
    forall k ensures k in Only(t.order, routes.Keys) <==> k in routes {
    }
  }

  lemma StepShaped(cfg: Config, t: Tables, e: Event)
    requires Shaped(t)
    ensures Shaped(Step(cfg, t, e))
  {
    match e
    case Nodes(f, now) =>
      var q := Heard(cfg, t, Upper(f.sourceCall), now).pathQuality;
      var touched := NeighbourTouched(cfg, t, f, now);
      assert Shaped(touched);
      UpsertedShaped(touched, SourceRoute(cfg, f, q, now));
      LearnAllShaped(cfg, Upserted(touched, SourceRoute(cfg, f, q, now)), f, q, now, f.entries);
    case Decay => SweptShaped(Scan, t);
    case PruneAt(cutoff) => SweptShaped(Prune(cutoff), t);
    case _ =>
  }

  /** In every reachable state each bucket is non-empty, at most three long, best first, one
      entry per neighbour, and filed under the callsign it reaches. */
  lemma {:induction false} BucketsStayShaped(cfg: Config, t: Tables, es: seq<Event>)
    requires Shaped(t)
    ensures Shaped(Exec(cfg, t, es))
  {
    hide Shaped, Step;
    if es != [] {
      BucketsStayShaped(cfg, t, es[..|es| - 1]);
      StepShaped(cfg, Exec(cfg, t, es[..|es| - 1]), es[|es| - 1]);
    }
  }

  // ---------- Every route's first hop is a neighbour we can use ----------

  predicate HopOk(neighbours: map<string, Neighbour>, r: RouteEntry)
  {
    Via(r) in neighbours && 0 < r.quality <= neighbours[Via(r)].pathQuality
  }

  ghost predicate FirstHops(t: Tables)
  {
    forall k, r :: k in t.routes && r in t.routes[k] ==> HopOk(t.neighbours, r)
  }

  /** A neighbour's quality is the configured one, unless the operator locked it. */
  ghost predicate Linked(cfg: Config, t: Tables)
  {
    forall c :: c in t.neighbours && !t.neighbours[c].locked ==>
      t.neighbours[c].pathQuality == DefaultPathQuality(cfg, c)
  }

  ghost predicate Inv(cfg: Config, t: Tables)
  {
    Shaped(t) && FirstHops(t) && Linked(cfg, t)
  }

  /** Hearing a neighbour again never changes what its quality is. */
  lemma TouchKeeps(cfg: Config, t: Tables, f: NodesFrame, now: real)
    requires FirstHops(t) && Linked(cfg, t)
    ensures FirstHops(NeighbourTouched(cfg, t, f, now)) && Linked(cfg, NeighbourTouched(cfg, t, f, now))
  {
    var u := NeighbourTouched(cfg, t, f, now);
    forall k, r | k in u.routes && r in u.routes[k] ensures HopOk(u.neighbours, r) {
      assert HopOk(t.neighbours, r);
    }
  }

  lemma UpsertedHops(t: Tables, e: RouteEntry)
    requires Shaped(t) && FirstHops(t) && HopOk(t.neighbours, e)
    ensures FirstHops(Upserted(t, e))
  {
    var key := Upper(e.destCall);
    UpsertOk(key, Bucket(t, key), e);
    hide UpsertBucket, BucketOk, HopOk;
  }

  lemma {:induction false} LearnAllHops(cfg: Config, t: Tables, f: NodesFrame, q: byte, now: real, es: seq<NodeEntry>)
    requires Shaped(t) && FirstHops(t) && cfg.worstQuality > 0
    requires Upper(f.sourceCall) in t.neighbours && t.neighbours[Upper(f.sourceCall)].pathQuality == q
    ensures FirstHops(LearnAll(cfg, t, f, q, now, es))
    ensures LearnAll(cfg, t, f, q, now, es).neighbours == t.neighbours
    decreases |es|
  {
    if es != [] {
      var n := |es| - 1;
      var u := LearnAll(cfg, t, f, q, now, es[..n]);
      LearnAllHops(cfg, t, f, q, now, es[..n]);
      LearnAllShaped(cfg, t, f, q, now, es[..n]);
      if HopQuality(cfg, es[n], q) >= cfg.worstQuality {
        UpsertedHops(u, IndirectRoute(cfg, f, q, now, es[n]));
      }
      hide Shaped, FirstHops, UpsertBucket;
    }
  }

  lemma SweptHops(w: Sweep, t: Tables)
    requires FirstHops(t)
    ensures FirstHops(SweptTables(w, t))
  {
    forall k, r | k in SweptRoutes(w, t.routes) && r in SweptRoutes(w, t.routes)[k] ensures HopOk(t.neighbours, r) {
      SweptFrom(w, t.routes[k]);
      var x :| x in t.routes[k] && SameRoute(r, x);
      assert HopOk(t.neighbours, x);
    }
  }

  lemma {:induction false} CountedIfMember(s: seq<RouteEntry>, r: RouteEntry)
    requires r in s
    ensures CountVia(s, Via(r)) > 0
  {
    var n := |s| - 1;
    if s[n] != r {
      CountedIfMember(s[..n], r);
    }
  }

  lemma {:induction false} UseCounted(t: Tables, keys: seq<string>, k: string, r: RouteEntry)
    requires k in keys && k in t.routes && r in t.routes[k]
    ensures UseCount(t, keys, Via(r)) > 0
  {
    var n := |keys| - 1;
    if keys[n] == k {
      CountedIfMember(t.routes[k], r);
    } else {
      UseCounted(t, keys[..n], k, r);
    }
  }

  /** No neighbour that some route needs is ever dropped. */
  lemma ReconciledKeeps(cfg: Config, t: Tables)
    requires Shaped(t) && FirstHops(t) && Linked(cfg, t)
    ensures FirstHops(Reconciled(t)) && Linked(cfg, Reconciled(t))
  {
    forall k, r | k in t.routes && r in t.routes[k] ensures HopOk(Reconciled(t).neighbours, r) {
      assert HopOk(t.neighbours, r);
      UseCounted(t, t.order, k, r);
    }
  }

  lemma NodesKeeps(cfg: Config, t: Tables, f: NodesFrame, now: real)
    requires Inv(cfg, t)
    ensures FirstHops(ProcessNodes(cfg, t, f, now)) && Linked(cfg, ProcessNodes(cfg, t, f, now))
  {
    var c := Upper(f.sourceCall);
    var q := Heard(cfg, t, c, now).pathQuality;
    var touched := NeighbourTouched(cfg, t, f, now);
    TouchKeeps(cfg, t, f, now);
    assert Shaped(touched);
    if cfg.worstQuality > 0 && q > 0 {
      var direct := SourceRoute(cfg, f, q, now);
      UpsertedHops(touched, direct);
      UpsertedShaped(touched, direct);
      LearnAllHops(cfg, Upserted(touched, direct), f, q, now, f.entries);
    }
    hide Shaped, FirstHops, UpsertBucket, LearnAll;
  }

  lemma StepKeeps(cfg: Config, t: Tables, e: Event)
    requires Inv(cfg, t)
    ensures Inv(cfg, Step(cfg, t, e))
  {
    StepShaped(cfg, t, e);
    match e
    case Nodes(f, now) => NodesKeeps(cfg, t, f, now);
    case Decay =>
      SweptHops(Scan, t);
      SweptShaped(Scan, t);
      ReconciledKeeps(cfg, SweptTables(Scan, t));
    case PruneAt(cutoff) => SweptHops(Prune(cutoff), t);
    case NoteCrosslink(call, up) =>
      var u := t.(crosslinks := t.crosslinks - {Upper(call)});
      assert Shaped(u);
      ReconciledKeeps(cfg, u);
    case NoteHeardDirect(call, when) =>
  }

  lemma {:induction false} ExecKeeps(cfg: Config, t: Tables, es: seq<Event>)
    requires Inv(cfg, t)
    ensures Inv(cfg, Exec(cfg, t, es))
  {
    hide Inv, Step;
    if es != [] {
      ExecKeeps(cfg, t, es[..|es| - 1]);
      StepKeeps(cfg, Exec(cfg, t, es[..|es| - 1]), es[|es| - 1]);
    }
  }

  /** From empty tables, every stored route goes through a listed neighbour with a usable link,
      and is no better than that link. */
  lemma RoutesGoThroughNeighbours(cfg: Config, es: seq<Event>)
    ensures Inv(cfg, Exec(cfg, EMPTY, es))
  {
    ExecKeeps(cfg, EMPTY, es);
  }
}
